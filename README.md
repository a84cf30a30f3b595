# Tenant provisioning and registry of the CRM accounting service

The service keeps one directory database and one SQL Server database per client
organisation (tenant). The directory holds administrators, user profiles, client
organisations and their users. Each tenant database holds the eleven tables of the tenant
template: users, counterparties, signatures, company settings, reports and the calendar.

This project models:

- how a tenant database is provisioned (name choice, `CREATE DATABASE` only when absent,
  check-first schema creation, one seeded `CompanySettings` row);
- how the directory records the chosen name (registration, the admin re-provisioning
  endpoint, the automatic creator);
- how a directory user is mirrored into its tenant database;
- the pure decision rules around both: the login chains, payload validation, the dashboard
  counters and their date windows, `to_dict` owner selection, the bcrypt 72-byte input,
  token expiry and the connection URLs;
- the two views that do more than list rows: the calendar projection and the top-ten
  dashboard.

How the pieces are modelled:

- The SQL server is a class `ClientDbManager.SqlServer` that holds a map from database
  name to `TenantSchema.TenantDb`. A `TenantDb` is the set of tables that exist plus the
  rows of each table.
- The directory is a class `MainDb.Directory` with one sequence per table.
- Commit points write into these fields. A rolled-back change is never written.
- Operations that change state step by step are methods over these classes. Each method is
  specified by a function on the old state: `Provision`, `SettingsLookup`, `MirrorInsert`,
  `LoadDashboard`, `CalendarEvents`. The lemmas about those functions carry the
  properties.
- Failures of the database server (the master connection, `create_all`, the seeding
  commit, a tenant insert) are explicit parameters: `Fault`, `mirrorFault`, `commitFails`.
- bcrypt, SHA-256, `quote_plus` and JWT signing are function-valued fields of
  `Config.Primitives`.
- The clock is a parameter: `now`, `today`, or `clock` for `get_today_date`.
- HTTP errors are `Http.HttpError(status, detail)` values.

## Model

| member | source | states |
|---|---|---|
| Text.StripIsTrim | crm_accounting/app/routes/admin.py:30-36 | `str.strip()` removes exactly the leading and trailing whitespace: the result is a slice of the input that neither starts nor ends with whitespace, and everything cut off is whitespace |
| Text.StripEmptyIff | crm_accounting/app/routes/admin.py:36-40 | a stripped value is empty exactly when the raw value is all whitespace (so a whitespace-only password is rejected) |
| Text.StripIdempotent | crm_accounting/app/routes/admin.py:30-36 | stripping twice equals stripping once |
| Text.Lower | crm_accounting/app/core/database.py:25 | `lower()` keeps the length and lowers each character on its own (ASCII capitals to small letters, everything else unchanged) |
| Text.NatToString | crm_accounting/app/managers/client_db_manager.py:69 | the decimal text of an id is non-empty and made of digits only |
| Text.NatToStringInjective | crm_accounting/app/managers/client_db_manager.py:69 | different ids have different decimal texts |
| Text.SplitFirstAt | crm_accounting/app/managers/client_db_manager.py:37 | splitting `a + [sep] + b` at the first `sep` gives back `a` and `b` when `a` has no `sep` |
| Text.BeforeAt | crm_accounting/app/managers/client_db_manager.py:37-38 | the part before the first `?` of `a + "?" + b` is `a` when `a` has no `?` |
| Config.TrustFlagSpelling | crm_accounting/app/core/database.py:25 | the trust flag is "yes" exactly when the setting is "1", or "true"/"yes" in any letter case, and "no" in every other case |
| Utf8.EncodeCharShape | crm_accounting/app/core/security.py:16 | each code point encodes to 1 to 4 bytes: a lead byte of the right class followed by continuation bytes, as section 3 of RFC 3629 prescribes |
| Utf8.DecodeEncode | crm_accounting/app/core/security.py:16-21 | decoding the UTF-8 encoding of a string (ignoring errors) gives the string back |
| Utf8.EncodeAppend | crm_accounting/app/core/security.py:16 | the encoding of a concatenation is the concatenation of the encodings |
| Utf8.DecodeEncodedPrefix | crm_accounting/app/core/security.py:19-20 | decoding the first k bytes of an encoding, dropping a cut character, gives the longest character prefix whose encoding fits in k bytes |
| Utf8.FitBound | crm_accounting/app/core/security.py:19-20 | that prefix fits in k bytes, and the next character would not fit |
| Utf8.CutCharDecodesEmpty | crm_accounting/app/core/security.py:20 | a character cut in the middle decodes to nothing under `errors="ignore"` |
| Security.BcryptInputSpec | crm_accounting/app/core/security.py:14-22 | the text handed to bcrypt is a character prefix of the password that encodes to at most 72 bytes; it is the password itself when that fits; it is the longest prefix that fits; truncating it again changes nothing |
| Security.BcryptInputKeepsMostBytes | crm_accounting/app/core/security.py:16-21 | when truncation happens, at least 69 of the 72 bytes are kept |
| Security.CreateAccessToken | crm_accounting/app/core/security.py:24-32 | the claims are the input claims with `exp` added or overwritten; `exp` is now + delta for a non-zero delta and now + 15 minutes otherwise; the key and algorithm come from the settings |
| Rows.FirstIndex | crm_accounting/app/services/user_service.py:123 | `.first()` of a filtered query: no index exactly when no row matches; otherwise the smallest matching index |
| Rows.First | crm_accounting/app/services/client_auth_service.py:33-35 | the first matching row, or None exactly when no row matches |
| Rows.Count | crm_accounting/app/services/client_auth_service.py:57-60 | `query.count()` never exceeds the number of rows |
| Rows.CountDisjoint | crm_accounting/app/services/client_auth_service.py:63-73 | the counts of two disjoint filters add up to at most the number of rows |
| Rows.Filter | crm_accounting/app/services/client_auth_service.py:63-97 | a filtered query's rows are exactly the rows satisfying the filter |
| Rows.FilterMultiset | crm_accounting/app/services/client_auth_service.py:63-97 | a filtered query returns each matching row as many times as the table holds it, and no other row |
| Rows.FilterAppend | crm_accounting/app/services/client_auth_service.py:63-97 | the filtered rows keep table order: filtering a concatenation concatenates the filtered parts |
| Rows.FilterCount | crm_accounting/app/services/client_auth_service.py:63-97 | a filter's length equals its count |
| Rows.InsertDescSorted | crm_accounting/app/routes/client_dashboard.py:33-34 | inserting a row into a descending list keeps it descending |
| Rows.SortDesc | crm_accounting/app/routes/client_dashboard.py:33-34 | `order_by(id.desc())` is a permutation of the rows |
| Rows.SortDescSorted | crm_accounting/app/routes/client_dashboard.py:33-34 | it is ordered by descending key |
| Rows.TopDescSpec | crm_accounting/app/routes/client_dashboard.py:33-34 | `order_by(desc).limit(n)` gives min(n, rows) rows, in descending order, drawn from the table without duplication, and no row left out has a higher key than a row kept |
| Dates.DaysBeforeMonthStep | crm_accounting/app/services/client_auth_service.py:77-97 | the day number of the first of a month is the day number of the first of the previous month plus that month's length |
| Dates.DaysBeforeMonthMono | crm_accounting/app/services/client_auth_service.py:89-97 | months are laid out in order within a year |
| Dates.DaysBeforeYearMono | crm_accounting/app/services/client_auth_service.py:89-97 | years are laid out in order |
| Dates.DayNumberInYear | crm_accounting/app/services/client_auth_service.py:77-97 | the day number of a date lies within its own year's range |
| Dates.DayNumberOrderOneWay | crm_accounting/app/services/client_auth_service.py:79-96 | a calendar-earlier date has a smaller day number |
| Dates.DayNumberOrder | crm_accounting/app/services/client_auth_service.py:79-96 | comparing dates by calendar order agrees with comparing their day numbers, in both directions, and equal dates have equal day numbers |
| Dates.AddDays | crm_accounting/app/services/client_auth_service.py:77-85 | `date ± timedelta(days=k)` is the day number moved by k, or an overflow exactly when it leaves years 1 to 9999 |
| Dates.MonthStart | crm_accounting/app/services/client_auth_service.py:89 | `replace(day=1)` stays in the same year and month |
| Dates.MonthEnd | crm_accounting/app/services/client_auth_service.py:90-92 | the end of the month window is the first of the next month; in December it is 1 January of the next year; only December 9999 has no end (the date constructor raises) |
| Dates.MonthWindowExact | crm_accounting/app/services/client_auth_service.py:89-97 | a date lies in [month start, month end) exactly when it has today's year and month |
| Dates.Pad | crm_accounting/app/utils/client_utils.py:50 | zero padding gives exactly w digits |
| Dates.PadRoundTrip | crm_accounting/app/utils/client_utils.py:50 | reading the padded digits back gives the number |
| Dates.FormatYmdRoundTrip | crm_accounting/app/utils/client_utils.py:50 | `%Y-%m-%d` has ten characters with dashes at positions 4 and 7, and parsing it gives the date back |
| Dates.IsoFormat | crm_accounting/app/models/main_db.py:62 | `isoformat()` starts with the date, then `T`; it is 19 characters long, or 26 with microseconds |
| TenantSchema.TableNameRoundTrip | crm_accounting/app/models/client_template.py:14-221 | each table's name reads back to that table |
| TenantSchema.TableNameInjective | crm_accounting/app/models/client_template.py:14-221 | no two tables share a name |
| TenantSchema.SchemaIsElevenTables | crm_accounting/app/models/client_template.py:14-221 | the tenant metadata is exactly the eleven named tables |
| TenantSchema.CreateAll | crm_accounting/app/managers/client_db_manager.py:87 | `create_all(checkfirst=True)` adds the missing tables and keeps every existing table and row |
| TenantSchema.NewCompanySettings | crm_accounting/app/models/client_template.py:103-117 | a new settings row has the given company name, currency "RUB", timezone "Europe/Moscow", fiscal year start "01.01" and nothing else set |
| TenantSchema.AddSettings | crm_accounting/app/managers/client_db_manager.py:96-98 | inserting a settings row appends exactly that row, with the next value of the settings table's own identity, and changes nothing else |
| TenantSchema.NewTenantUser | crm_accounting/app/models/client_template.py:14-25 | a new tenant user has the given required columns, `is_active` defaulting to True and no profile name |
| TenantSchema.DeleteClient | crm_accounting/app/models/client_template.py:64-85 | deleting a client removes its access rows and signatures (ON DELETE CASCADE); a report or calendar event that still refers to it blocks the delete; nothing else changes |
| TenantSchema.DeleteTenantUser | crm_accounting/app/models/client_template.py:28-64 | deleting a tenant user removes its access rows; a report it created or a history row it changed blocks the delete |
| TenantSchema.DeleteReport | crm_accounting/app/models/client_template.py:186 | deleting a report removes its history rows and nothing else |
| TenantSchema.DeleteClientLeavesNoDangling | crm_accounting/app/models/client_template.py:64-85 | after a client delete no access row or signature refers to it |
| MainDb.OrElse | crm_accounting/app/routes/calendar.py:58 | `x or default` is x when x is truthy (present and non-empty), else the default |
| MainDb.OrgIndex | crm_accounting/app/utils/client_utils.py:19 | the position of the first organisation with the id, or none exactly when no organisation has it |
| MainDb.OrgById | crm_accounting/app/routes/calendar.py:24 | `filter(id == client_id).first()` finds that organisation |
| MainDb.ProvisionedOrg | crm_accounting/app/routes/calendar.py:24-26 | the organisation exists and has a non-empty `database_name`, exactly when the 404 guard lets it through |
| MainDb.Directory.constructor | crm_accounting/app/models/main_db.py:7-84 | an empty directory satisfies the directory constraints |
| MainDb.Directory.FindOrg | crm_accounting/app/routes/admin.py:93 | the index of the organisation with the id, or none exactly when absent |
| MainDb.Directory.AddOrg | crm_accounting/app/models/main_db.py:27-44 | inserting an organisation appends it with the next id, `is_active` True, both timestamps now and no database name; the other tables are unchanged |
| MainDb.Directory.SetDatabaseName | crm_accounting/app/services/user_service.py:31-32 | assigning `database_name` stores the name in that one organisation; `updated_at` is stamped only when the name actually changes; nothing else changes |
| MainDb.Renamed | crm_accounting/app/models/main_db.py:32-37 | after the commit the organisation has the new name; an unchanged name leaves the row as it was; a changed name also sets `updated_at` to now and leaves every other column alone |
| MainDb.Directory.AddProfile | crm_accounting/app/models/main_db.py:18-25 | a profile insert fails exactly when the name is taken (unique), otherwise it appends the profile with the next id |
| MainDb.Directory.AddUser | crm_accounting/app/models/main_db.py:71-84 | a user insert fails its foreign keys exactly when the organisation or the profile does not exist; otherwise it appends the user with the next id |
| MainDb.Directory.AddAdmin | crm_accounting/app/models/main_db.py:7-16 | an administrator insert fails exactly when the email is taken (unique); otherwise it appends the row, active |
| MainDb.SharedDatabaseNameIsValid | crm_accounting/app/models/main_db.py:32 | two organisations can store the same `database_name`: the column has no uniqueness constraint |
| MainDb.OwnerIndex | crm_accounting/app/models/main_db.py:52-54 | the owner is the first user whose profile is "Владелец", else the first user, and there is none for an empty list |
| MainDb.OrgToDict | crm_accounting/app/models/main_db.py:49-69 | the dictionary copies the organisation's own columns, counts its users and gives `created_at` in ISO form or None; the contact fields come from the owner user when there are users and from the legacy columns otherwise |
| MainDb.UserToDict | crm_accounting/app/models/main_db.py:90-104 | company and database name are None without an organisation, the profile name is None without a profile, `created_at` is None when unset and the ISO text of the timestamp otherwise, the other fields are the user's |
| ClientDbManager.UrlDatabase | crm_accounting/app/managers/client_db_manager.py:36-38 | reads the database name back from a connection URL; the name never contains `?` |
| ClientDbManager.UrlNamesDatabase | crm_accounting/app/managers/client_db_manager.py:29-39 | the URL built for a database names that database (for a server without `/` and a name without `?`) |
| ClientDbManager.UrlInjective | crm_accounting/app/managers/client_db_manager.py:29-39 | two different database names give two different URLs |
| ClientDbManager.UrlTrustFlag | crm_accounting/app/managers/client_db_manager.py:35-38 | the URL ends in "yes" when the trust setting is "1", "true" or "yes" in any case, and in "no" otherwise |
| ClientDbManager.GetEngine | crm_accounting/app/managers/client_db_manager.py:104-105 | each call builds a new engine on the URL for that database; no state is kept between calls |
| ClientDbManager.UrlNamesDatabaseWhenPlain | crm_accounting/app/managers/client_db_manager.py:104-105 | the engine's URL names the requested database |
| ClientDbManager.GetClientSession | crm_accounting/app/managers/client_db_manager.py:107-109 | a session is bound to a fresh engine for the requested database |
| ClientDbManager.ChooseName | crm_accounting/app/managers/client_db_manager.py:69 | the name is the explicit argument when non-empty, else the organisation's stored name when non-empty, else `client_{id}`; a plain string in place of the organisation raises AttributeError there |
| ClientDbManager.DefaultDbName | crm_accounting/app/managers/client_db_manager.py:69 | `client_{id}` starts with "client_" followed by digits, so it has no `/`, `?` or `]` and can be spliced unescaped into the `CREATE DATABASE` text and the URL |
| ClientDbManager.DefaultDbNameInjective | crm_accounting/app/managers/client_db_manager.py:69 | different ids give different default names |
| ClientDbManager.SeedCompanyName | crm_accounting/app/managers/client_db_manager.py:96 | the seeded company name is the organisation's when non-empty, else `Клиент {id}`; a plain string raises AttributeError |
| ClientDbManager.SqlServer.constructor | crm_accounting/app/managers/client_db_manager.py:59-62 | the server starts with the given databases |
| ClientDbManager.SqlServer.CreateClientDatabase | crm_accounting/app/managers/client_db_manager.py:64-100 | the returned result and the new databases are exactly what `Provision` computes from the old databases: choose the name; create the database only when absent; create the missing tables; seed one settings row only when none exists; return the name; any failure propagates after the earlier steps have taken effect |
| ClientDbManager.ProvisionSuccess | crm_accounting/app/managers/client_db_manager.py:69-100 | on success the chosen name is returned and that database exists with all eleven tables and a settings row |
| ClientDbManager.ProvisionTouchesOnlyChosen | crm_accounting/app/managers/client_db_manager.py:73-98 | no database other than the chosen one is created or changed, and a failed name choice changes nothing |
| ClientDbManager.ProvisionUpdatesOne | crm_accounting/app/managers/client_db_manager.py:73-98 | the server is either unchanged or changed at the chosen name only |
| ClientDbManager.ProvisionKeepsExisting | crm_accounting/app/managers/client_db_manager.py:75-98 | an existing database is never recreated: its tables only grow, its rows are kept, and its settings change only from none to the one seeded row |
| ClientDbManager.ProvisionSeedsDefault | crm_accounting/app/managers/client_db_manager.py:95-96 | a successful call on a database without settings leaves exactly one settings row, named after the organisation |
| ClientDbManager.ProvisionSucceedsWithoutFault | crm_accounting/app/managers/client_db_manager.py:64-100 | with an organisation object, a chosen name without `]` or `?`, and no server failure, provisioning succeeds with the chosen name |
| ClientDbManager.ProvisionIdempotent | crm_accounting/app/managers/client_db_manager.py:69-100 | calling again after a success returns the same name and changes nothing: the database is created at most once and the settings count stays at one |
| ClientDbManager.PartialFailureThenRetry | crm_accounting/app/managers/client_db_manager.py:81-87 | a schema failure after `CREATE DATABASE` leaves an empty database behind, and the next call gives it all tables and the settings row |
| ClientDbManager.ProvisionChosenShape | crm_accounting/app/managers/client_db_manager.py:73-98 | afterwards the chosen database is unchanged, freshly created and empty, or complete with all tables |
| ClientDbManager.ProvisionKeepsRowsInTables | crm_accounting/app/managers/client_db_manager.py:73-98 | provisioning never leaves rows in a table that does not exist |
| Database.BuildMainUrl | crm_accounting/app/core/database.py:17-30 | the directory URL names the configured main database |
| Database.MainUrlIsClientUrlShape | crm_accounting/app/core/database.py:17-30 | the directory URL has the same form as a tenant URL for `DATABASE_NAME` |
| Database.MainUrlNamesDatabase | crm_accounting/app/core/database.py:27-30 | for a plain server and name, the directory URL reads back to `DATABASE_NAME` |
| Database.MainSchema.constructor | crm_accounting/app/core/database.py:63-70 | the directory starts with the given tables |
| Database.MainSchema.CheckAndCreateTables | crm_accounting/app/core/database.py:63-70 | the metadata defaults to the directory's own tables, only missing tables are added, and no table is dropped |
| UserService.CreateClientOrganization | crm_accounting/app/services/user_service.py:21-40 | the active organisation is committed first; `client_{id}` is then provisioned; on success its name is stored and the organisation returned; on failure the organisation stays committed without a name and the error is re-raised. The server changes as `Provision` says |
| UserService.EnsureOwnerProfile | crm_accounting/app/services/user_service.py:60-69 | an existing "Владелец" or "Owner" profile is reused (the first one), otherwise "Владелец" is created; the returned profile exists |
| UserService.AddDirectoryUser | crm_accounting/app/services/user_service.py:60-84 | the directory user is committed with the owner profile and the bcrypt hash, never the plain password, exactly when the organisation exists; a missing organisation fails the foreign key and no user is stored |
| UserService.TenantDatabaseOf | crm_accounting/app/services/user_service.py:86-88 | the tenant database of an organisation is never an empty name |
| UserService.TenantDatabaseOfSpec | crm_accounting/app/services/user_service.py:86-88 | there is a database exactly when the first organisation with the id has a non-empty name, and the result is that name |
| UserService.MirrorInsert | crm_accounting/app/services/user_service.py:92-101 | the mirror row is appended with `main_user_id` equal to the directory id, the same email, login, full name and hash, and `is_active` True; its id is the next value of the tenant `client_users` identity, independent of the other tables; nothing else in the tenant database changes |
| UserService.MirrorUser | crm_accounting/app/services/user_service.py:90-103 | the mirror insert succeeds exactly when the tenant database has the users table and the server does not fail; the server changes only by that row |
| UserService.MirrorForOrg | crm_accounting/app/services/user_service.py:86-103 | without a tenant database the call fails before anything is mirrored; otherwise the mirror goes into that database |
| UserService.CreateClientUser | crm_accounting/app/services/user_service.py:46-111 | the owner profile, then the directory user, are committed before the database check, so a half-created user (stored in the directory, missing in the tenant) remains after a missing database or a failed mirror; success means both rows exist and the directory user is returned |
| UserService.AuthenticateClientUser | crm_accounting/app/services/user_service.py:117-141 | the first user with the login is checked: unknown login, wrong password or inactive user gives None, in that order; a hash passlib cannot read raises; otherwise that same first user is returned |
| Admin.GetStripped | crm_accounting/app/routes/admin.py:30-36 | a missing key gives "", a string value is stripped, a non-string value raises |
| Admin.ParseRegistration | crm_accounting/app/routes/admin.py:28-36 | the payload parses exactly when every field present is a string; otherwise the handler answers 500 |
| Admin.ValidateRegistration | crm_accounting/app/routes/admin.py:38-43 | the registration passes exactly when company name, login, password and email are all non-empty; otherwise 400 |
| Admin.ValidationOnRawPayload | crm_accounting/app/routes/admin.py:30-43 | in terms of the raw payload: a blank company name is reported first, then a blank login or password, then a blank email, and validation passes exactly when none is blank |
| Admin.StrippedIsEmptyIffBlank | crm_accounting/app/routes/admin.py:30-43 | a stripped field is empty exactly when its raw value is missing or whitespace only |
| Admin.OwnerFullName | crm_accounting/app/routes/admin.py:59 | the owner's full name is the contact person when given, else the login |
| Admin.NewOrgIsFirstWithId | crm_accounting/app/routes/admin.py:46-61 | the freshly inserted organisation is the one the user service finds for its id |
| Admin.RegisterClient | crm_accounting/app/routes/admin.py:19-80 | a malformed payload gives 500 and a failed validation gives 400, both before anything is created, with profiles and admins untouched too; otherwise the registration outcome and effects below hold |
| Admin.RegisterValidated | crm_accounting/app/routes/admin.py:45-80 | the organisation is created and provisioned, then the owner user in both databases; success answers 201 with the id and `client_{id}`; any failure answers 500, keeping whatever was already committed. The new organisation row is the inserted one (active, the company name and notes, stamped now), named `client_{id}` exactly when provisioning succeeded and unnamed otherwise. A failed provisioning leaves users and profiles alone and the server as `Provision` left it; after a successful one the owner profile is found or created, the owner's directory user is appended with the hashed password, and the mirror row goes into `client_{id}` unless the mirror fails, in which case the directory user stays |
| Admin.RegisterOwner | crm_accounting/app/routes/admin.py:52-73 | for a provisioned organisation: the owner profile is reused or created, the owner's directory user with the hashed password, full name and phone is appended, and the answer is 201 exactly when the mirror into `client_{id}` succeeds, which then changes only that tenant database |
| Admin.DesiredName | crm_accounting/app/routes/admin.py:98 | the requested name is the stored name when non-empty, else `client_{id}` |
| Admin.DesiredNameStable | crm_accounting/app/routes/admin.py:98-101 | once the requested name is stored, the next call requests the same name |
| Admin.CreateDatabaseForClient | crm_accounting/app/routes/admin.py:86-116 | an unknown id gives 404 with nothing changed; otherwise the server changes as `Provision` says; on success the returned name is stored and committed; on failure the directory is unchanged and the answer is 500 |
| AutoDbCreator.CreateDatabaseForClient | crm_accounting/app/utils/auto_db_creator.py:9-34 | an unknown id gives False; a stored name gives True without provisioning; otherwise the text id and the login are passed on; on success the name is stored and True returned; any error gives False with the directory unchanged |
| AutoDbCreator.IdTextNeverProvisionsNew | crm_accounting/app/utils/auto_db_creator.py:22 | with the text id, provisioning can only succeed for a login naming a database that already has settings; an empty login fails at once, changing nothing |
| AutoDbCreator.FreshLoginLeavesUnseededDatabase | crm_accounting/app/utils/auto_db_creator.py:22 | for login "acme" on an empty server, the call fails after creating "acme" with all tables and no settings row |
| AutoDbCreator.CreateDatabaseForClientFixed | crm_accounting/app/utils/auto_db_creator.py:9-34 | passing the organisation itself, a client without a database gets a complete, seeded one whenever the server does not fail and the chosen name (the login, else `client_{id}`) has no `]` or `?`, and its name is stored |
| AuthService.AuthenticateUser | crm_accounting/app/services/auth_service.py:9-15 | the first administrator with the email is checked; unknown email or wrong password gives False, a matching password gives that administrator |
| AuthService.AuthenticateIgnoresActiveFlag | crm_accounting/app/services/auth_service.py:9-15 | changing any administrator's `is_active` does not change the verdict: there is no active check |
| AuthService.FirstIndexSameMatches | crm_accounting/app/services/auth_service.py:10 | the email lookup only depends on which rows match |
| AuthService.CreateUser | crm_accounting/app/services/auth_service.py:18-29 | a new administrator stores the bcrypt hash, `is_superuser` defaults to False and `is_active` is True; a taken email fails with nothing stored |
| AuthService.CreateAccessTokenForUser | crm_accounting/app/services/auth_service.py:32-37 | the token carries exactly `sub` = email, `user_id` = id and `exp` = now + the configured minutes (15 minutes when that is zero) |
| ClientAuth.DashboardUrlInjective | crm_accounting/app/routes/client_auth.py:44-50 | different organisations get different dashboard URLs |
| ClientAuth.ClientLogin | crm_accounting/app/routes/client_auth.py:19-57 | no authenticated user gives 401; a verifier error or a missing organisation row gives 500; an inactive organisation gives the deactivated 400; an active organisation without a database gives the no-database 400; success redirects to that organisation's dashboard with its id and the user's name |
| ClientAuth.DeactivatedBeforeNoDatabase | crm_accounting/app/routes/client_auth.py:35-41 | a deactivated organisation is reported as deactivated even when it also has no database |
| ClientAuthService.AuthenticateClientUser | crm_accounting/app/services/client_auth_service.py:26-48 | the first tenant user whose email or login equals the login is checked; a missing hash compares as ""; the SHA-256 check must hold and the user must be active; any failure gives None |
| ClientAuthService.MirroredUserFailsShaCheck | crm_accounting/app/services/client_auth_service.py:16-23 | a user mirrored by the user service stores a bcrypt hash, which no SHA-256 hex digest equals, so the tenant check never accepts it |
| ClientAuthService.GetClientDashboardData | crm_accounting/app/services/client_auth_service.py:51-111 | the counters are missing exactly when a table is missing or a date computation overflows; otherwise overdue + active ≤ reports, new clients ≤ clients, and the totals are the table sizes |
| ClientAuthService.DashboardCounts | crm_accounting/app/services/client_auth_service.py:57-97 | each counter is the size of its filter: overdue status, active statuses, clients since a week ago, signatures ending in [today, today + 30], events in the current month |
| ClientAuthService.SignatureWindowEdges | crm_accounting/app/services/client_auth_service.py:83-86 | a signature ending today counts; one ending on day 30 counts only at midnight (the column is a datetime); later or earlier ones do not |
| ClientAuthService.EventWindowIsCurrentMonth | crm_accounting/app/services/client_auth_service.py:89-97 | an event counts exactly when its date is in today's year and month, December included |
| ClientAuthService.NewClientWindow | crm_accounting/app/services/client_auth_service.py:77-80 | a client is new exactly when it was created at most seven days before today |
| ClientUtils.GetClientCompanySettings | crm_accounting/app/utils/client_utils.py:14-41 | the header and the new server state are exactly what `SettingsLookup` gives |
| ClientUtils.HeaderAlwaysNamed | crm_accounting/app/utils/client_utils.py:20-39 | the header always has a non-empty company name and no logo; without a tenant database it is ("Моя компания", None) and nothing is touched |
| ClientUtils.SettingsLookupFrame | crm_accounting/app/utils/client_utils.py:25-30 | the only change it can make is one settings row, inserted into an empty settings table of that tenant and named as the header says |
| ClientUtils.SettingsLookupIdempotent | crm_accounting/app/utils/client_utils.py:25-35 | a second lookup returns the same header and changes nothing more |
| ClientUtils.GetTodayDate | crm_accounting/app/utils/client_utils.py:44-53 | today's date is ten characters, `YYYY-MM-DD`, reading back to the day; without a clock it is "1970-01-01" |
| Calendar.HandbookAttr | crm_accounting/app/routes/calendar.py:42-52 | `hasattr` on a handbook row holds exactly for its seven columns |
| Calendar.Lookup | crm_accounting/app/routes/calendar.py:47-49 | `dict.get` finds a value only for an integer key present in the map (a boolean counts as 0 or 1) |
| Calendar.MapOfKeys | crm_accounting/app/routes/calendar.py:31-36 | the dictionary built from the rows has exactly the ids of the rows as keys |
| Calendar.MapOfLast | crm_accounting/app/routes/calendar.py:31-36 | for a row whose id does not recur later, the dictionary maps its id to that row |
| Calendar.IndexById | crm_accounting/app/routes/calendar.py:31-36 | the loop builds exactly that dictionary |
| Calendar.FirstPresentSpec | crm_accounting/app/routes/calendar.py:40-44 | the due date is the value of the first of the probed attributes the row has |
| Calendar.FirstPresentNone | crm_accounting/app/routes/calendar.py:40-44 | it is None when the row has none of them |
| Calendar.DueDate | crm_accounting/app/routes/calendar.py:40-44 | the loop with `break` computes that first-present value |
| Calendar.EventsAreBare | crm_accounting/app/routes/calendar.py:45-53 | since a handbook row has none of the probed attributes, every event carries only its id and None everywhere else |
| Calendar.ProjectEvents | crm_accounting/app/routes/calendar.py:38-53 | there is one event per handbook row, in query order, each the projection of its row |
| Calendar.LoadEvents | crm_accounting/app/routes/calendar.py:28-55 | loading fails exactly when the handbook, reports or clients table is missing (a missing periods table falls back to an empty map); otherwise it gives the projected events |
| Calendar.CalendarEventsAreBare | crm_accounting/app/routes/calendar.py:38-53 | the calendar has as many events as handbook rows, each with its row's id only |
| Calendar.ClientCalendarPage | crm_accounting/app/routes/calendar.py:18-70 | without a tenant database it answers 404; a failed load escapes as 500; otherwise the page has the events, the header settings, the name (company name or "Клиент") and today's date |
| ClientDashboard.DashboardViewSpec | crm_accounting/app/routes/client_dashboard.py:31-40 | on a failed load the view is ([], [], 0); otherwise it has the ten reports and the ten handbook rows with the highest ids, highest first, and the number of counterparties |
| ClientDashboard.ClientDashboardPage | crm_accounting/app/routes/client_dashboard.py:18-67 | without a tenant database it answers 404; otherwise the page has the loaded view, the header settings, the name (company name or "Клиент") and today's date, and the server changes only as the settings lookup says |

## Left out

- SQL execution, pyodbc, engines, pools and sessions are not modelled.
  - A database is the set of its tables and their rows.
  - The catalog lookup `DB_ID` is membership in the server map.
  - Opening and closing sessions is not modelled, including the `finally: session.close()` blocks and `get_main_db`'s cleanup, because there is no resource state to track.
- Server failures are modelled as one failing step per call (`Fault`, `mirrorFault`, `commitFails`), not as every way a driver can raise.
- The chosen database name is spliced unescaped into `CREATE DATABASE [...]` and into the URL path (crm_accounting/app/managers/client_db_manager.py:81 and 37-38). A name with `]` ends the bracketed identifier early, and a name with `?` moves the rest into the query string. What the server then does depends on how it parses that text: a syntax error, or a different database created or addressed. `Provision` does not model this. It treats such a name like any other, so such a failure can only appear as a `Fault`.
- ProvisionSucceedsWithoutFault: is stated only for a chosen name without `]` or `?`. For other names the code promises no success, for the reason above.
- CreateDatabaseForClientFixed: promises success, and a complete seeded database, only when the chosen name (the login, else `client_{id}`) has no `]` or `?`, for the same reason. The login is a free-text legacy column.
- Concurrency is not modelled. The window between `DB_ID` and `CREATE DATABASE` is a race between requests.
- SQL Server collation is not modelled: name comparisons are exact, not case-insensitive.
- bcrypt, SHA-256, JWT signing and `quote_plus` are opaque parameters. The model proves what the code sends into them, not what they compute.
- The clock is a parameter. `datetime.now()` inside `get_today_date` raising is the `clock = None` case.
- HTTP 500 details: the model keeps the fixed prefix of each message, not the exception text the handlers append.
- Logging is left out.
- The HTML templates are left out: a page is the dictionary of values handed to the template.
- The routes outside the core are left out: the HTML forms, the debug dumps and the plain listing pages.
- `UserProfile.permissions` (a JSON column) is not modelled. No core operation reads it.
- The defaults of `ReportPeriod.is_closed`, of `ClientUserClientAccess.can_view_calendar` (False) and of `is_active` on report templates, handbook rows, clients and signatures are not modelled: no modelled operation inserts those rows.
- Time is kept in whole seconds with a microsecond field only for `isoformat()`. Sub-second `timedelta` arithmetic is not modelled.
- Python strings can hold lone surrogates, on which `encode()` raises. A Dafny `char` is a Unicode scalar value, so the model cannot represent such a password or that error path; the bcrypt truncation is stated for scalar strings only.
- Dates before year 1000, where `strftime("%Y")` padding varies by platform, are outside the modelled range for `get_today_date`.
- `.first()` without `ORDER BY` is modelled as the first row in table order.
- Tenant identity counters are kept only for `client_users` and `company_settings`, the two tables the modelled code inserts into. Identity values a failed insert consumes on the server are not modelled: a counter moves only when a row is committed.
- SQLAlchemy instance attributes other than the mapped columns are not modelled. `hasattr` on a handbook row sees only its seven columns.
- Text.Lower: lowers ASCII capitals only, not the whole Unicode case mapping of Python's `lower()`. Only the ASCII spellings of "true" and "yes" are modelled.
- AuthService.AuthenticateIgnoresActiveFlag: stated as "same verdict" (found or not found), not as "same row", because the returned row carries the changed flag.
- Http results of the login route are modelled as values. FastAPI's rendering of `HTTPException` is not.

## Findings

| source | as written | input that shows it | evidently intended | confidence | as-written member | corrected member |
|---|---|---|---|---|---|---|
| crm_accounting/app/utils/auto_db_creator.py:22 | the provisioner gets `str(client.id)` where it expects the organisation object | an organisation with no database and login "acme" on a server without "acme": the database and its tables are created, then seeding reads `company_name` off a string and raises, so the function returns False and leaves an unseeded database behind; with an empty login the name choice raises at once | pass the organisation itself, so a client without a database gets a complete, seeded one (for a chosen name without `]` or `?`) | not executed | AutoDbCreator.FreshLoginLeavesUnseededDatabase | AutoDbCreator.CreateDatabaseForClientFixed |

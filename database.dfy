/** `app/core/database.py`: the directory database's URL and the creation of its tables. */
module Database {
  import opened Wrappers
  import opened Config
  import ClientDbManager

  /** `_build_main_mssql_url`: server and `DATABASE_NAME` from the settings. */
  function BuildMainUrl(cfg: Settings, quotePlus: string -> string): (r: string)
    ensures ClientDbManager.UrlDatabase(r) == ClientDbManager.UrlDatabase(ClientDbManager.BuildClientUrl(cfg, quotePlus, cfg.databaseName))
  {
    "mssql+pyodbc://@" + cfg.dbServer + "/" + cfg.databaseName
    + "?driver=" + quotePlus(cfg.dbDriver)
    + "&trusted_connection=yes&TrustServerCertificate=" + (if TrustSetting(cfg.trustServerCertificate) then "yes" else "no")
  }

  /** The directory URL is the tenant URL shape applied to `DATABASE_NAME`: same driver,
      authentication and certificate flag. */
  lemma MainUrlIsClientUrlShape(cfg: Settings, quotePlus: string -> string)
    ensures BuildMainUrl(cfg, quotePlus) == ClientDbManager.BuildClientUrl(cfg, quotePlus, cfg.databaseName)
  {
  }

  /** The directory URL names `DATABASE_NAME` when the server has no '/' and the name no '?'. */
  lemma MainUrlNamesDatabase(cfg: Settings, quotePlus: string -> string)
    requires '/' !in cfg.dbServer && '?' !in cfg.databaseName
    ensures ClientDbManager.UrlDatabase(BuildMainUrl(cfg, quotePlus)) == Some(cfg.databaseName)
  {
    ClientDbManager.UrlNamesDatabase(cfg, quotePlus, cfg.databaseName);
  }

  /** The tables of `Base.metadata`. */
  const MainTableNames: set<string> := {"users", "user_profiles", "client_organizations", "client_users"}

  /** The tables that exist in the directory database. */
  class MainSchema {
    var tables: set<string>

    constructor (existing: set<string>)
      ensures tables == existing
    {
      tables := existing;
    }

    /** `check_and_create_tables`: the given metadata, `Base.metadata` when None; only the
        tables that are missing are created. */
    method CheckAndCreateTables(metadata: Option<set<string>>)
      modifies this
      ensures tables == old(tables) + metadata.GetOr(MainTableNames)
      ensures metadata.None? ==> MainTableNames <= tables
      ensures old(tables) <= tables
    {
      var wanted := if metadata.Some? then metadata.value else MainTableNames;
      tables := tables + wanted;
    }
  }
}

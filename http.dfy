/** The part of an HTTP exception the routes produce: a status code and a detail text. */
module Http {
  datatype HttpError = HttpError(status: nat, detail: string)

  const BadRequest := 400
  const Unauthorized := 401
  const NotFound := 404
  const InternalError := 500

  /** The 404 detail of the tenant pages when the organisation has no database. */
  const TenantDatabaseNotFound := "База клиента не найдена"
  /** The client name the tenant pages show when the organisation has no company name. */
  const FallbackClientName := "Клиент"
  /** The body the framework sends for an exception no handler catches. */
  const UncaughtErrorDetail := "Internal Server Error"
}

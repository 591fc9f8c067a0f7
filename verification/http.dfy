/** The JSON responses the route handlers build with `NextResponse.json`. */
module Http {
  import opened Wrappers
  import opened Types
  import opened Upstream

  /** Response bodies, one variant per shape the handlers produce. */
  datatype Body =
    | ErrorBody(error: Option<string>)                                          // { error }
    | VerifiedBody(success: bool, repoInfo: RepoInfo, migrationsTree: MigrationTree) // { success, repo_info, migrationsTree }
    | MigrationsBody(migrations: multiset<Migration>)                           // the migrationData array
    | MessageBody(message: string)                                              // { message }
    | InternalError                                                             // an uncaught exception

  datatype Response = Response(status: int, body: Body)

  /** A handler's response and the GitHub requests it issued, in issue order. */
  datatype Handled = Handled(response: Response, requests: seq<Request>)

  /** What the framework answers when a handler throws. */
  const ServerError: Response := Response(500, InternalError)

  /** A query parameter that is missing or empty, i.e. falsy in JavaScript. */
  predicate Absent(param: Option<string>) {
    param.None? || param.value == ""
  }
}

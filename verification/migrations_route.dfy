/** app/api/github/route.ts: `GET /api/github?tree_url=...`. */
module MigrationsRoute {
  import opened Wrappers
  import opened Upstream
  import opened Http
  import opened GitHubApi

  const MissingTreeUrlError: string := "repo_url is missing"

  /** Fetch the migrations under `tree_url` and answer with them, or with the error. */
  function Get(api: Api, treeUrl: Option<string>): (h: Handled)
    // a missing parameter is rejected and nothing is fetched
    ensures Absent(treeUrl) ==>
      h == Handled(Response(400, ErrorBody(Some(MissingTreeUrlError))), [])
    ensures !Absent(treeUrl) ==> |h.requests| >= 1 && h.requests[0] == GetTree(treeUrl.value)
    ensures h.response.status in {200, 400, 500}
    // an upstream message comes back verbatim as a 400
    ensures !Absent(treeUrl) && h.response.status == 400 ==>
      api.treeAt(treeUrl.value).TreeObject? && api.treeAt(treeUrl.value).message.Some? &&
      h.response.body == ErrorBody(api.treeAt(treeUrl.value).message)
    // success: the body is the collected records of the listing's blob entries, unchanged
    ensures h.response.status == 200 ==>
      && !Absent(treeUrl)
      && var reply := api.treeAt(treeUrl.value);
      && reply.TreeObject? && reply.message.None? && reply.listing.Some?
      && h.response.body == MigrationsBody(Collect(api, reply.listing.value.tree))
    ensures h.response.status == 500 <==> !Absent(treeUrl) && GetRepositoryMigrations(api, treeUrl.value).outcome.Threw?
  {
    if Absent(treeUrl) then
      Handled(Response(400, ErrorBody(Some(MissingTreeUrlError))), [])
    else
      var run := GetRepositoryMigrations(api, treeUrl.value);
      match run.outcome
      case Threw => Handled(ServerError, run.requests)
      case Returned(v) =>
        if v.error.Some? then Handled(Response(400, ErrorBody(v.error)), run.requests)
        else Handled(Response(200, MigrationsBody(v.migrationData)), run.requests)
  }
}

/** app/api/github/verify/route.ts: `GET /api/github/verify?repository_url=...`. */
module VerifyRoute {
  import opened Wrappers
  import opened Types
  import opened Upstream
  import opened Http
  import opened RepoName
  import opened GitHubApi

  const MissingUrlError: string := "repository_url is missing"

  /** Verify `name` and answer with it, the upstream default branch and the
      folder listing, or with the verification error. */
  function Answer(api: Api, name: string): (h: Handled)
    ensures |h.requests| >= 1 && h.requests[0] == GetRepo(name)
    ensures h.response.status in {200, 400, 500}
    // success: the name is the one asked for, the branch and listing are upstream's
    ensures h.response.status == 200 ==>
      && api.repos(name).RepoFound?
      && h.response.body.VerifiedBody?
      && h.response.body.success
      && h.response.body.repoInfo == RepoInfo(name, api.repos(name).info.defaultBranch)
      && |h.response.body.migrationsTree.tree| > 0
      && VerifyRepository(api, name).outcome == Returned(VerifyResult(Some(api.repos(name).info), Some(h.response.body.migrationsTree), None))
    // failure: the error reported is never null, and is the verification's
    ensures h.response.status == 400 ==>
      h.response.body.ErrorBody? && h.response.body.error.Some? &&
      VerifyRepository(api, name).outcome == Returned(Failed(h.response.body.error.value))
    ensures h.response.status == 500 <==> VerifyRepository(api, name).outcome.Threw?
  {
    var run := VerifyRepository(api, name);
    match run.outcome
    case Threw => Handled(ServerError, run.requests)
    case Returned(v) =>
      if v.error.Some? || v.repoInfo.None? || v.migrationsTree.None? then
        Handled(Response(400, ErrorBody(v.error)), run.requests)
      else
        Handled(Response(200, VerifiedBody(true, RepoInfo(name, v.repoInfo.value.defaultBranch), v.migrationsTree.value)),
                run.requests)
  }

  /** The handler: reject a missing `repository_url`, otherwise answer for the
      full name made of the URL's last two segments. */
  function Get(api: Api, repositoryUrl: Option<string>): (h: Handled)
    // a missing parameter is rejected before anything is requested
    ensures Absent(repositoryUrl) ==>
      h == Handled(Response(400, ErrorBody(Some(MissingUrlError))), [])
    // otherwise the route answers for the full name the URL's last two segments make
    ensures !Absent(repositoryUrl) ==> h == Answer(api, FullName(repositoryUrl.value))
    // so the repository looked up is the one that name names
    ensures !Absent(repositoryUrl) ==> |h.requests| >= 1 && h.requests[0] == GetRepo(FullName(repositoryUrl.value))
    // and a success reports that derived name, which holds at most one '/'
    ensures h.response.status == 200 ==>
      && !Absent(repositoryUrl)
      && h.response.body.VerifiedBody?
      && h.response.body.repoInfo.fullName == FullName(repositoryUrl.value)
      && Slashes(h.response.body.repoInfo.fullName) <= 1
  {
    if Absent(repositoryUrl) then
      Handled(Response(400, ErrorBody(Some(MissingUrlError))), [])
    else
      Answer(api, FullName(repositoryUrl.value))
  }
}

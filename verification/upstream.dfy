/** The GitHub REST API as the application sees it: every reply is an input value,
    and the requests the application issues are recorded in order. */
module Upstream {
  import opened Wrappers
  import opened Types

  /** Reply to `GET /repos/{name}`: either an object with a `message` (unknown
      repository, rate limit, ...) or the repository object. */
  datatype RepoReply = RepoMessage(message: string) | RepoFound(info: RepoInfo)

  /** Reply to a git-tree request, as parsed JSON: `null`, or an object whose
      `message` and `tree` fields may each be absent. */
  datatype TreeReply =
    | NullTree
    | TreeObject(message: Option<string>, listing: Option<MigrationTree>)

  /** Reply to a blob request: its `content` and `encoding` fields, each possibly absent. */
  datatype BlobReply = BlobReply(content: Option<string>, encoding: Option<string>)

  /** What GitHub answers to each request the application can make. */
  datatype Api = Api(
    repos: string -> RepoReply,                    // GET /repos/{name}
    recursiveTree: (string, string) -> TreeReply,  // GET /repos/{name}/git/trees/{branch}?recursive=1
    treeAt: string -> TreeReply,                   // GET on a tree entry's url
    blobAt: string -> BlobReply)                   // GET on a blob entry's url

  /** A request issued to GitHub. */
  datatype Request =
    | GetRepo(name: string)
    | GetRecursiveTree(name: string, branch: string)
    | GetTree(url: string)
    | GetBlob(url: string)

  /** A computation's outcome together with the requests it issued, in issue order. */
  datatype Traced<T> = Traced(outcome: Eval<T>, requests: seq<Request>)
}

/** lib/api/github.ts: `verifyRepository` and `getRepositoryMigrations`, with every
    GitHub reply taken from an `Api` value. */
module GitHubApi {
  import opened Wrappers
  import opened Seqs
  import opened Multisets
  import opened Types
  import opened Upstream

  const MissingFolderError: string := "supabase/migrations folder is missing"
  const EmptyFolderError: string := "supabase/migrations folder is empty"

  /** The `{ repoInfo, migrationsTree, error }` object `verifyRepository` resolves to. */
  datatype VerifyResult = VerifyResult(repoInfo: Option<RepoInfo>, migrationsTree: Option<MigrationTree>, error: Option<string>)
  {
    /** Either an error with both payloads null, or no error with both payloads
        present and a non-empty listing. */
    predicate Consistent() {
      || (error.Some? && repoInfo.None? && migrationsTree.None?)
      || (error.None? && repoInfo.Some? && migrationsTree.Some? && |migrationsTree.value.tree| > 0)
    }
  }

  /** The `{ migrationData, error }` object `getRepositoryMigrations` resolves to.
      The records are pushed as their fetches complete, so only their multiset is fixed. */
  datatype MigrationsResult = MigrationsResult(migrationData: multiset<Migration>, error: Option<string>)

  function Failed(message: string): VerifyResult {
    VerifyResult(None, None, Some(message))
  }

  /** The last step of `verifyRepository`: the matched folder's own listing must be
      an object with a non-empty `tree`; its `message`, if any, is not looked at. */
  function CheckListing(info: RepoInfo, reply: TreeReply): (r: VerifyResult)
    ensures r.Consistent()
    ensures r.error.None? <==> reply.TreeObject? && reply.listing.Some? && |reply.listing.value.tree| > 0
    ensures r.error.Some? ==> r.error.value == EmptyFolderError
    ensures r.error.None? ==> r.repoInfo == Some(info) && r.migrationsTree == reply.listing
  {
    match reply
    case NullTree => Failed(EmptyFolderError)
    case TreeObject(_, None) => Failed(EmptyFolderError)
    case TreeObject(_, Some(listing)) =>
      if |listing.tree| == 0 then Failed(EmptyFolderError)
      else VerifyResult(Some(info), Some(listing), None)
  }

  /** No entry of the recursive tree has the migrations folder's exact path. */
  predicate NoFolder(tree: seq<TreeItem>) {
    forall i :: 0 <= i < |tree| ==> tree[i].path != MigrationsPath
  }

  /** Entry `i` is the first with the migrations folder's exact path. */
  predicate FirstFolder(tree: seq<TreeItem>, i: int) {
    && 0 <= i < |tree|
    && tree[i].path == MigrationsPath
    && forall j :: 0 <= j < i ==> tree[j].path != MigrationsPath
  }

  /** The folder lookup of `verifyRepository` in a recursive tree, then the
      folder's own listing. The requests are those made after the tree arrived. */
  function Locate(api: Api, info: RepoInfo, listing: MigrationTree): (r: Traced<VerifyResult>)
    ensures r.outcome.Returned? && r.outcome.value.Consistent()
    ensures r.outcome.value.error.None? ==> r.outcome.value.repoInfo == Some(info)
    ensures NoFolder(listing.tree) ==> r == Traced(Returned(Failed(MissingFolderError)), [])
    ensures forall i :: FirstFolder(listing.tree, i) ==>
      r == Traced(Returned(CheckListing(info, api.treeAt(listing.tree[i].url))), [GetTree(listing.tree[i].url)])
  {
    match FindFirst(listing.tree, IsMigrationsFolder)
    case None => Traced(Returned(Failed(MissingFolderError)), [])
    case Some(i) =>
      var url := listing.tree[i].url;
      assert forall k :: FirstFolder(listing.tree, k) ==> k == i;
      Traced(Returned(CheckListing(info, api.treeAt(url))), [GetTree(url)])
  }

  /** `verifyRepository(name)`: repository lookup, recursive tree of the default
      branch, lookup of the migrations folder by path, then that folder's listing. */
  function VerifyRepository(api: Api, name: string): (r: Traced<VerifyResult>)
    ensures r.outcome.Returned? ==> r.outcome.value.Consistent()
    // on success the repository info is upstream's own object
    ensures r.outcome.Returned? && r.outcome.value.error.None? ==>
      api.repos(name).RepoFound? && r.outcome.value.repoInfo == Some(api.repos(name).info)
    // 1. an upstream message about the repository wins, and no tree is requested
    ensures api.repos(name).RepoMessage? ==>
      r == Traced(Returned(Failed(api.repos(name).message)), [GetRepo(name)])
    // the recursive tree is requested for the repository's default branch
    ensures api.repos(name).RepoFound? ==>
      |r.requests| >= 2 &&
      r.requests[..2] == [GetRepo(name), GetRecursiveTree(name, api.repos(name).info.defaultBranch)]
    // 2. an upstream message about the tree is passed on verbatim
    ensures api.repos(name).RepoFound? ==>
      var reply := api.recursiveTree(name, api.repos(name).info.defaultBranch);
      reply.TreeObject? && reply.message.Some? ==>
        r.outcome == Returned(Failed(reply.message.value)) && |r.requests| == 2
    // a tree reply that is null, or has neither message nor tree, makes the source throw
    ensures r.outcome.Threw? <==>
      api.repos(name).RepoFound? &&
      var reply := api.recursiveTree(name, api.repos(name).info.defaultBranch);
      reply.NullTree? || (reply.message.None? && reply.listing.None?)
    // 3. no entry with the folder's exact path: the folder is missing
    ensures api.repos(name).RepoFound? ==>
      var reply := api.recursiveTree(name, api.repos(name).info.defaultBranch);
      reply.TreeObject? && reply.message.None? && reply.listing.Some? && NoFolder(reply.listing.value.tree) ==>
        r.outcome == Returned(Failed(MissingFolderError)) && |r.requests| == 2
    // 4. otherwise the first matching entry's url is listed, and that listing decides
    ensures api.repos(name).RepoFound? ==>
      var reply := api.recursiveTree(name, api.repos(name).info.defaultBranch);
      reply.TreeObject? && reply.message.None? && reply.listing.Some? ==>
        forall i :: FirstFolder(reply.listing.value.tree, i) ==>
          var url := reply.listing.value.tree[i].url;
          && r.requests == [GetRepo(name), GetRecursiveTree(name, api.repos(name).info.defaultBranch), GetTree(url)]
          && r.outcome == Returned(CheckListing(api.repos(name).info, api.treeAt(url)))
  {
    match api.repos(name)
    case RepoMessage(message) => Traced(Returned(Failed(message)), [GetRepo(name)])
    case RepoFound(info) =>
      var asked := [GetRepo(name), GetRecursiveTree(name, info.defaultBranch)];
      match api.recursiveTree(name, info.defaultBranch)
      case NullTree => Traced(Threw, asked)
      case TreeObject(Some(message), _) => Traced(Returned(Failed(message)), asked)
      case TreeObject(None, None) => Traced(Threw, asked)
      case TreeObject(None, Some(listing)) =>
        var found := Locate(api, info, listing);
        Traced(found.outcome, asked + found.requests)
  }

  /** The record built for one blob entry from its blob reply. */
  function FetchBlob(api: Api, item: TreeItem): (m: Migration)
    ensures m.path == item.path
    ensures m.content == api.blobAt(item.url).content && m.encoding == api.blobAt(item.url).encoding
  {
    Migration(item.path, api.blobAt(item.url).content, api.blobAt(item.url).encoding)
  }

  function BlobRequest(item: TreeItem): Request {
    GetBlob(item.url)
  }

  /** Fetching one entry's blob, as a function value. */
  function Fetcher(api: Api): TreeItem -> Migration {
    (e: TreeItem) => FetchBlob(api, e)
  }

  /** The records of the blob entries, in one admissible completion order
      (listing order); only their multiset is observable. */
  function BlobRecords(api: Api, items: seq<TreeItem>): (records: seq<Migration>)
    // one record per blob entry, in listing order, each fetched from that entry's url
    ensures records == Map(Fetcher(api), Filter(items, IsBlob))
    ensures Map(MigrationPath, records) == Map(ItemPath, Filter(items, IsBlob))
    ensures forall m :: m in records ==> exists i :: 0 <= i < |items| && IsBlob(items[i]) && m == FetchBlob(api, items[i])
    ensures forall i :: 0 <= i < |items| && IsBlob(items[i]) ==> FetchBlob(api, items[i]) in records
  {
    var blobs := Filter(items, IsBlob);
    var records := Map(Fetcher(api), blobs);
    assert Map(MigrationPath, records) == Map(ItemPath, blobs);
    BlobRecordsMembers(api, items);
    records
  }

  /** The records fetched from the blob entries are exactly the blob entries' records. */
  lemma BlobRecordsMembers(api: Api, items: seq<TreeItem>)
    ensures forall m :: m in Map(Fetcher(api), Filter(items, IsBlob)) ==>
      exists i :: 0 <= i < |items| && IsBlob(items[i]) && m == FetchBlob(api, items[i])
    ensures forall i :: 0 <= i < |items| && IsBlob(items[i]) ==> FetchBlob(api, items[i]) in Map(Fetcher(api), Filter(items, IsBlob))
  {
    var blobs := Filter(items, IsBlob);
    var records := Map(Fetcher(api), blobs);
    FilterMembers(items, IsBlob);
    forall m | m in records
      ensures exists i :: 0 <= i < |items| && IsBlob(items[i]) && m == FetchBlob(api, items[i])
    {
      var j :| 0 <= j < |records| && records[j] == m;
      assert blobs[j] in items;
      var i :| 0 <= i < |items| && items[i] == blobs[j];
      assert m == FetchBlob(api, items[i]);
    }
    forall i | 0 <= i < |items| && IsBlob(items[i])
      ensures FetchBlob(api, items[i]) in records
    {
      assert items[i] in blobs;
      var j :| 0 <= j < |blobs| && blobs[j] == items[i];
      assert records[j] == FetchBlob(api, items[i]);
    }
  }

  /** The `migrationData` collected from a listing's entries: exactly one record
      per blob entry, in no particular order. */
  function Collect(api: Api, items: seq<TreeItem>): (data: multiset<Migration>)
    // exactly one record per blob entry, each fetched from that entry's url
    ensures data == Image(multiset(Filter(items, IsBlob)), Fetcher(api))
    ensures Image(data, MigrationPath) == Image(multiset(Filter(items, IsBlob)), ItemPath)
    ensures forall m :: m in data ==> exists i :: 0 <= i < |items| && IsBlob(items[i]) && m == FetchBlob(api, items[i])
    ensures forall i :: 0 <= i < |items| && IsBlob(items[i]) ==> FetchBlob(api, items[i]) in data
  {
    var records := BlobRecords(api, items);
    ImageOfSeq(records, MigrationPath);
    ImageOfSeq(Filter(items, IsBlob), ItemPath);
    ImageOfSeq(Filter(items, IsBlob), Fetcher(api));
    assert forall m :: m in multiset(records) <==> m in records;
    multiset(records)
  }

  /** `getRepositoryMigrations(treeUrl)`: list the tree, then fetch every blob entry. */
  function GetRepositoryMigrations(api: Api, treeUrl: string): (r: Traced<MigrationsResult>)
    ensures |r.requests| >= 1 && r.requests[0] == GetTree(treeUrl)
    ensures r.outcome.Threw? <==>
      (api.treeAt(treeUrl).NullTree? || (api.treeAt(treeUrl).message.None? && api.treeAt(treeUrl).listing.None?))
    // an upstream message is returned verbatim with no records and no blob request
    ensures api.treeAt(treeUrl).TreeObject? && api.treeAt(treeUrl).message.Some? ==>
      r == Traced(Returned(MigrationsResult(multiset{}, api.treeAt(treeUrl).message)), [GetTree(treeUrl)])
    ensures api.treeAt(treeUrl).TreeObject? && api.treeAt(treeUrl).message.None? && api.treeAt(treeUrl).listing.Some? ==>
      var items := api.treeAt(treeUrl).listing.value.tree;
      && r.outcome.Returned? && r.outcome.value.error.None?
      // the records are collected from the listing's blob entries (see Collect)
      && r.outcome.value.migrationData == Collect(api, items)
      // the blob requests go out in listing order, one per blob entry
      && r.requests == [GetTree(treeUrl)] + Map(BlobRequest, Filter(items, IsBlob))
  {
    match api.treeAt(treeUrl)
    case NullTree => Traced(Threw, [GetTree(treeUrl)])
    case TreeObject(Some(message), _) => Traced(Returned(MigrationsResult(multiset{}, Some(message))), [GetTree(treeUrl)])
    case TreeObject(None, None) => Traced(Threw, [GetTree(treeUrl)])
    case TreeObject(None, Some(listing)) =>
      Traced(Returned(MigrationsResult(Collect(api, listing.tree), None)),
             [GetTree(treeUrl)] + Map(BlobRequest, Filter(listing.tree, IsBlob)))
  }
}

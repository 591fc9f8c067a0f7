/** The shapes of lib/types.ts, plus the migration record that travels from the
    GitHub route through the browser to the Supabase route. */
module Types {
  import opened Wrappers

  /** The two fields of GitHub's repository object that the application reads. */
  datatype RepoInfo = RepoInfo(fullName: string, defaultBranch: string)

  /** One entry of a git tree listing. `kind` is the entry's `type` field
      ("blob" for a file, "tree" for a directory). */
  datatype TreeItem = TreeItem(path: string, mode: string, kind: string, sha: string, size: nat, url: string)

  /** A git tree listing: its own sha and url, and its entries. */
  datatype MigrationTree = MigrationTree(sha: string, url: string, tree: seq<TreeItem>)

  /** One fetched migration file: the entry's path and the blob's `content` and
      `encoding` fields, either of which is `undefined` when the blob reply lacks it. */
  datatype Migration = Migration(path: string, content: Option<string>, encoding: Option<string>)

  /** The directory whose presence and contents the application checks. */
  const MigrationsPath: string := "supabase/migrations"

  /** The `type` of a tree entry that is a file. */
  const BlobKind: string := "blob"

  function ItemPath(item: TreeItem): string { item.path }

  function MigrationPath(m: Migration): string { m.path }

  predicate IsBlob(item: TreeItem) { item.kind == BlobKind }

  predicate IsMigrationsFolder(item: TreeItem) { item.path == MigrationsPath }

  /** The paths of a listing's entries, in listing order. */
  function ListingPaths(t: MigrationTree): (paths: seq<string>)
    ensures |paths| == |t.tree|
    ensures forall i :: 0 <= i < |t.tree| ==> paths[i] == t.tree[i].path
  {
    seq(|t.tree|, i requires 0 <= i < |t.tree| => t.tree[i].path)
  }
}

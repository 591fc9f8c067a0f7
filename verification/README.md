# supafork: the migration-fork pipeline, modelled in Dafny

supafork copies the `supabase/migrations` history of a public GitHub repository
into a Supabase database the user owns. This project models the decision logic
of that pipeline. Every reply from GitHub, from the database and from the
application's own routes is an input value. The logic then becomes pure functions
over immutable datatypes:

- **Repository verification** (`GitHubApi.VerifyRepository`). It looks up the
  repository, takes the recursive tree of its default branch, finds the entry
  whose path is exactly `supabase/migrations`, and lists that folder. It returns
  exactly one of: the upstream message, "folder is missing", "folder is empty",
  or the repository info with a non-empty listing.
- **Migration collection** (`GitHubApi.GetRepositoryMigrations`). It lists a tree
  and fetches every `blob` entry, giving one `{path, content, encoding}` record per
  blob. The records are pushed as their fetches complete, so the result is a
  multiset.
- **Route handlers**:
  - `VerifyRoute.Get` derives the repository full name from a URL: split on `/`,
    keep the last two pieces, remove the first `.git`. Its contract says which
    name is verified and what the response carries.
  - `MigrationsRoute.Get` checks `tree_url` and passes the collection result on.
  - `MigrateRoute.Post` probes the database, then hands one decoded statement per
    migration to the database client, in array order, without waiting for any.
- **The browser wizard** (`Wizard`):
  - steps 0 → 1 → 2 → 3, with controls enabled only at their step;
  - credential checks, reported in a fixed order;
  - the connection string;
  - the selection of migration paths;
  - the payload that pairs each selected path with the first fetched record for it.

GitHub is an `Api` value: one total function per kind of request. Each pipeline
function also returns the requests it issued, in order. That makes "no tree is
requested after a repository error" and "the tree of the default branch is
requested" into statements about values. An exception nothing catches (for
example a tree reply of `null`) is the `Threw` outcome, and the routes turn it
into a 500.

Some things the model states are easy to miss in the code:
- Only the first `.git` is removed, wherever it is. `.../user/my.github-tools`
  names `user/myhub-tools` (`RepoName.FullNameDropsFirstGit`).
- The connection string does not percent-encode the password, so a password
  containing `@db.` cannot be told apart from a project reference that contains
  it (`Wizard.ConnectionStringAmbiguous`).
- A failed fork returns before the spinner is cleared, which leaves the fork
  button disabled (`Wizard.FailedForkDisablesFork`).
- A `null` payload element, a record without `content`, or an encoding the
  decoder rejects makes that element's callback throw. Nothing is dispatched for
  that element and the response is still 200.

Some further facts about the code that the model keeps:
- The migrations folder is matched by path only; its `type` is not checked.
- A blob reply without `content` still yields a record, with that field absent.
  The other records are kept.
- The migrate route hands every statement to the client at once, without
  waiting for any of them. A failing statement neither stops the others nor
  changes the response.
- The `truncated` flag of a tree reply is never read.

## Model

| member | source | states |
|---|---|---|
| `GitHubApi.CheckListing` | lib/api/github.ts:61-88 | the folder listing yields success exactly when the reply is an object with a non-empty `tree`. Success carries the repository info and that listing. A null reply, a reply without `tree` (even one with a `message`) and an empty tree all give "supabase/migrations folder is empty" with null payloads |
| `GitHubApi.Locate` | lib/api/github.ts:46-88 | with no entry whose path is exactly `supabase/migrations`, the error is "folder is missing" and nothing more is requested. Otherwise only the first such entry's url is listed, and `CheckListing` on that listing is the result. It never throws |
| `GitHubApi.VerifyRepository` | lib/api/github.ts:4-89 | a repository message wins, is returned verbatim and is the only request made. Otherwise the tree of the repository's own default branch is requested, and a message in its reply is returned verbatim. With no entry whose path is exactly the folder's, the error is "folder is missing". Otherwise the first such entry's url is listed and that listing decides. A null tree reply, or one with neither message nor tree, throws. Every return has an error with both payloads null, or no error with both payloads and a non-empty listing. On success the repository info is upstream's |
| `GitHubApi.BlobRecords` | lib/api/github.ts:119-139 | listed in one admissible order, the records are exactly the blob entries' fetched records: one per blob entry, in listing order, even when paths repeat. So their paths are the blob entries' paths in listing order. Each record comes from a blob entry, and each blob entry has its record |
| `GitHubApi.Collect` | lib/api/github.ts:111-142 | the collected multiset is exactly the image of the blob entries under fetching: one record per blob entry, counted with multiplicity, even when paths repeat. So the records' paths, as a multiset, equal the blob entries' paths, and non-blobs are skipped. Each record carries its own entry's blob reply |
| `GitHubApi.GetRepositoryMigrations` | lib/api/github.ts:92-143 | the tree url is requested first. A message is returned verbatim with no records and no blob request. A null reply, or one with neither message nor tree, throws. Otherwise the error is null, the records are the blob entries' records, and one blob request goes out per blob entry, in listing order |
| `RepoName.Split` | app/api/github/verify/route.ts:25 | splitting on `/` always yields at least one piece |
| `RepoName.SplitPieces` | app/api/github/verify/route.ts:25 | there is one more piece than there are `/` characters, and no piece contains one |
| `RepoName.SplitJoin` | app/api/github/verify/route.ts:25-27 | joining the pieces with `/` gives the input back |
| `RepoName.LastTwo` | app/api/github/verify/route.ts:26 | `slice(-2)` keeps the last two pieces, or all of them when there are fewer |
| `RepoName.JoinCut` | app/api/github/verify/route.ts:27 | joining a list is joining its two halves with one more `/` |
| `RepoName.TailName` | app/api/github/verify/route.ts:24-27 | the last two segments joined by `/` form a suffix of the URL with at most one `/`. That suffix is the whole URL, or it starts right after a `/` and holds exactly one |
| `RepoName.TailNameUnique` | app/api/github/verify/route.ts:24-27 | at most one suffix of a URL has that shape, so it describes the joined segments independently of split and join |
| `RepoName.IndexOf` | app/api/github/verify/route.ts:28 | the index found is an occurrence of the pattern, and no earlier one exists. No index means no occurrence |
| `RepoName.RemoveFirst` | app/api/github/verify/route.ts:28 | `replace` with a string pattern cuts out exactly the first occurrence and leaves a string without one unchanged. It only deletes characters |
| `RepoName.FullName` | app/api/github/verify/route.ts:24-28 | the full name holds at most one `/`, and it is the URL's tail name with its first `.git` removed |
| `RepoName.FullNameOfTail` | app/api/github/verify/route.ts:24-28 | any URL `host/t`, where `t` holds exactly one `/`, is named by `t` with its first `.git` removed |
| `RepoName.FullNameOfPlainUrl` | app/api/github/verify/route.ts:24-28 | a URL ending in `owner/name`, with no `.git` in either, gives `owner/name` |
| `RepoName.FullNameDropsFirstGit` | app/api/github/verify/route.ts:24-28 | `host/owner/a.git b` gives `owner/a b`. This covers a clone URL (`b` empty) and a `.git` inside the name. A later `.git` stays |
| `RepoName.FirstGitAfter` | app/api/github/verify/route.ts:28 | removing the first `.git` from `front.git b` gives `front b` when `front` holds no `.git`: no occurrence can straddle the boundary |
| `VerifyRoute.Answer` | app/api/github/verify/route.ts:30-49 | a verification error gives 400 with that error, never null. Success gives 200 with `success: true`, the name that was verified, upstream's default branch and the non-empty listing unchanged. A thrown verification gives 500 |
| `VerifyRoute.Get` | app/api/github/verify/route.ts:11-50 | a missing or empty `repository_url` gives 400 "repository_url is missing" with no request made. Otherwise the route answers exactly as `Answer` does for the full name made of the URL's last two segments, so that repository is the one looked up. A success reports that name, which holds at most one `/` |
| `MigrationsRoute.Get` | app/api/github/route.ts:7-26 | a missing or empty `tree_url` gives 400 "repo_url is missing" and nothing is fetched. Otherwise the tree url is fetched first. A 400 carries the upstream message verbatim. A 200 carries the blob records unchanged. A 500 happens exactly when collection throws |
| `MigrateRoute.Post` | app/api/supabase/route.ts:18-50 | a failed probe gives 400 with its error, and nothing is decoded or dispatched. A live probe always gives 200 "Migration successful", with exactly one dispatch per element in array order. Element i runs its own content decoded under its own encoding, and runs exactly when it is a record with content that the decoder accepts |
| `MigrateRoute.ResponseIgnoresMigrations` | app/api/supabase/route.ts:37-49 | for the same connection string, the response does not depend on the migrations or on how they decode |
| `Wizard.ConnectionString` | components/instruction-cards.tsx:78 | the connection string is `postgresql://postgres:` + password + `@db.` + reference + `.supabase.co:5432/postgres`. Given the password's length, both parts can be read back |
| `Wizard.ConnectionStringInjective` | components/instruction-cards.tsx:78 | with passwords of equal length, equal strings mean equal credentials |
| `Wizard.ConnectionStringAmbiguous` | components/instruction-cards.tsx:78 | for every password `p`, text `x` and reference `r`, the credentials (`p@db.x`, `r`) and (`p`, `x@db.r`) differ yet give the same string, because nothing is percent-encoded |
| `Wizard.InitialSelection` | components/instruction-cards.tsx:56-58 | the selection starts as the listing's paths in listing order, or empty without a listing |
| `Wizard.ListingChanged` | components/instruction-cards.tsx:144-148 | a new listing resets the selection to its paths. An absent one leaves the selection alone. Nothing else changes |
| `Wizard.Toggle` | components/instruction-cards.tsx:343-350 | checking appends the path at the end and keeps the rest. Unchecking removes every occurrence and keeps every other path, with its multiplicity and relative order |
| `Wizard.RecordFor` | components/instruction-cards.tsx:124 | the record chosen for a path is the first fetched record with that path, or none when no record has it |
| `Wizard.Correlate` | components/instruction-cards.tsx:123-125 | the payload has one element per selected path, in selection order, each the first fetched record with that path |
| `Wizard.ConnectProject` | components/instruction-cards.tsx:60-89 | a missing reference reports "Project Reference ID is missing.", and with a reference a missing password reports "Database Password is missing.". In both cases nothing is sent and nothing changes. Otherwise one check is sent for the connection string. A non-200 reply leaves the step alone and accepts nothing. A 200 sets the step to 2 and marks that string as accepted |
| `Wizard.ForkProject` | components/instruction-cards.tsx:91-142 | an empty selection reports "No migrations selected." and sends nothing. Otherwise the records are fetched first. A failed fetch stops before any migrate request, and a failed migrate stops before any step change. Both leave the spinner on. The migrate request carries the correlated payload and the connection string of the current credentials. Only two 200s set the step to 3 |
| `Wizard.Handle` | components/instruction-cards.tsx:159-385 | a disabled control does nothing at all: no state change, no request, no toast. Enabled means create at step 0, inputs and connect at step 1 (connect not while connecting), fork at step 2 with a non-empty selection and no fork in flight, and a click inside the listing. An enabled control does its job. Create moves step 0 to 1. An edit stores its value. A click toggles the listing's i-th path, checking it when it is not selected. Connect runs `ConnectProject`, and fork runs `ForkProject`. A new listing always runs `ListingChanged`. The step only moves one forward, each move has one cause, and credentials change only at step 1 |
| `Wizard.HandleKeepsSound` | components/instruction-cards.tsx:60-142 | with handlers that run to completion, one action keeps a session sound: the step is at most 3. From step 2 on, both credentials are filled in and the string they make passed the connection check with a 200. Every migrate request goes to a string that passed it. In the component, this needs no credential edit while the check is in flight |
| `Wizard.RunIsSound` | components/instruction-cards.tsx:60-142 | every modelled session from the first render is sound. So, when no credential is edited while the check is in flight, no migrate request goes to a connection string whose check did not answer 200 earlier in the session |
| `Wizard.RunNeverGoesBack` | components/instruction-cards.tsx:159-385 | the step never decreases during a session |
| `Wizard.FailedForkDisablesFork` | components/instruction-cards.tsx:109-135 | after a failed fetch or migrate the wizard stays at step 2 with the fork button disabled |
| `Wizard.RecheckMovesToEnd` | components/instruction-cards.tsx:343-350 | unchecking then rechecking a path moves it to the end of the selection, and so to the end of the migration order |

## Left out

- HTTP `fetch`, JSON parsing, the `Authorization` header and `GITHUB_TOKEN`: every reply is an input. A fetch that rejects, or a body that is not JSON, makes the source throw; the model has no such inputs.
- Reply shapes that the typed replies cannot express are not modelled. A repository reply that is `null` makes the source throw, and so does a blob reply that is `null`. The null and field-less tree replies are modelled.
- A repository reply without `default_branch` needs no shape of its own. The template turns the missing branch into the text `undefined`, and the tree request is still sent. That is the reply `RepoFound(RepoInfo(name, "undefined"))`.
- GitHubApi.VerifyRepository: an upstream `message` is taken to be a string, as GitHub's error replies carry one. The source tests it only against `undefined`. So a reply `{message: null}` would return a null error with null payloads, a result `Consistent` excludes. The same holds for `GitHubApi.GetRepositoryMigrations`, whose result would then have a null error and no records.
- SQL execution, the postgres and drizzle clients and `prepare: false` are foreign library calls. Only the probe's result (an input) and the statements handed to the client (the dispatch log) are modelled.
- `Buffer.from(content, encoding).toString()` is the `Decoder` parameter. Its behaviour for each encoding is not modelled, and no byte-exact round trip is claimed.
- GitHubApi.GetRepositoryMigrations: the order of `migrationData` is not modelled. Fetches complete in any order, so only the multiset of records is stated.
- MigrateRoute.Post: states the order in which statements are handed to the database client. It does not state the order in which they complete, or whether they succeed. The callbacks are not awaited, so neither affects the response.
- Wizard.Handle: each handler runs to completion as one step. So the model leaves out actions taken while a request is in flight: checkbox clicks, and edits to the fields of the in-flight handler's closure.
- Wizard.RunIsSound: the proved soundness holds only when no credential is edited while the connection check is in flight. The inputs stay enabled during that wait, and a 200 still moves to step 2. `forkProject` then builds its string from the edited credentials, a string that was never checked. The model's atomic handlers cannot express that edit.
- Wizard.Handle: a checkbox reports the negation of its current `checked` state. This is the UI library's behaviour, taken as given.
- The `truncated` flag of a tree is never read by the code, so it is not a field of `MigrationTree`.
- Toasts are recorded as values. The redirect timer after a fork, the link that opens the Supabase dashboard, and the password visibility toggle are not modelled; they are presentation only.
- app/api/supabase/verify/route.ts is not part of this model. It probes and answers 200 or 400, and `Wizard.ConnectProject` takes that status as an input.
- app/page.tsx, components/info-panel.tsx, app/layout.tsx, app/new/page.tsx and next.config.js are not part of this model. They hold rendering, snippet text, clipboard, data fetching hooks, redirects and static configuration.

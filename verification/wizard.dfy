/** components/instruction-cards.tsx: the three-card wizard in the browser. Its
    handlers are modelled as running to completion, with every HTTP status they
    wait for taken as an input, and every request they send recorded. */
module Wizard {
  import opened Wrappers
  import opened Seqs
  import opened Types

  /** Which button shows a spinner (`isLoading`). */
  datatype Loading = Idle | Connecting | Forking

  /** The step (owned by the parent page, starting at 0), the component's own
      state, and the listing it was given. */
  datatype State = State(
    step: nat,
    loading: Loading,
    ref: Option<string>,
    password: Option<string>,
    listing: Option<MigrationTree>,
    selection: seq<string>)

  datatype Toast = ErrorToast(text: string) | SuccessToast(text: string)

  /** Requests the browser sends to the application's own routes. */
  datatype ClientRequest =
    | VerifyDatabase(url: string)                                   // POST /api/supabase/verify
    | FetchMigrations(treeUrl: string)                              // GET /api/github?tree_url=...
    | MigrateDatabase(url: string, migrations: seq<Option<Migration>>) // POST /api/supabase

  /** A handler's new state, the requests it sent, the toast it showed, and the
      connection string whose check answered 200 while it ran, if any. */
  datatype Effect = Effect(state: State, requests: seq<ClientRequest>, toast: Option<Toast>, accepted: Option<string>)

  /** The answer to `GET /api/github`: a status and, on 200, the records in the
      order they arrived. */
  datatype FetchReply = FetchReply(status: int, records: seq<Migration>)

  const MissingRefError: string := "Project Reference ID is missing."
  const MissingPasswordError: string := "Database Password is missing."
  const InvalidCredentialsError: string := "Invalid database credentials."
  const NoSelectionError: string := "No migrations selected."
  const FetchFailedError: string := "Failed to fetch migrations data."
  const MigrateFailedError: string := "Failed to migrate migrations."
  const ForkedMessage: string := "Successfully forked project! Redirecting to dashboard..."

  /** A `string | null` field that is truthy: present and non-empty. */
  predicate Present(v: Option<string>) {
    v.Some? && v.value != ""
  }

  /** A `string | null` (or `undefined`) value interpolated into a template literal. */
  function Interpolate(v: Option<string>, missing: string): string {
    if v.Some? then v.value else missing
  }

  const UrlScheme: string := "postgresql://postgres:"
  const HostPrefix: string := "@db."
  const HostSuffix: string := ".supabase.co:5432/postgres"

  /** The Postgres connection string of a Supabase project, built the same way for
      the connection check and for the migration. Neither part is percent-encoded. */
  function ConnectionString(password: string, ref: string): (url: string)
    ensures |url| == |UrlScheme| + |password| + |HostPrefix| + |ref| + |HostSuffix|
    ensures url[..|UrlScheme|] == UrlScheme
    ensures url[|url| - |HostSuffix|..] == HostSuffix
    // password and reference can be read back, once the password's length is known
    ensures url[|UrlScheme|..|UrlScheme| + |password|] == password
    ensures url[|UrlScheme| + |password|..|UrlScheme| + |password| + |HostPrefix|] == HostPrefix
    ensures url[|UrlScheme| + |password| + |HostPrefix|..|url| - |HostSuffix|] == ref
  {
    UrlScheme + password + HostPrefix + ref + HostSuffix
  }

  /** Credentials whose passwords have the same length give the same string only
      if they are the same credentials. */
  lemma ConnectionStringInjective(p1: string, r1: string, p2: string, r2: string)
    requires |p1| == |p2|
    requires ConnectionString(p1, r1) == ConnectionString(p2, r2)
    ensures p1 == p2 && r1 == r2
  {
    var u := ConnectionString(p1, r1);
    assert p1 == u[|UrlScheme|..|UrlScheme| + |p1|] == p2;
    assert r1 == u[|UrlScheme| + |p1| + |HostPrefix|..|u| - |HostSuffix|] == r2;
  }

  /** Without that, the string is ambiguous: a password containing "@db." is
      indistinguishable from a reference that does. */
  lemma ConnectionStringAmbiguous(p: string, x: string, r: string)
    ensures (p + HostPrefix + x, r) != (p, x + HostPrefix + r)
    ensures ConnectionString(p + HostPrefix + x, r) == ConnectionString(p, x + HostPrefix + r)
  {
    var p' := p + HostPrefix + x;
    var r' := x + HostPrefix + r;
    assert |p'| > |p|;
    assert UrlScheme + p' + HostPrefix + r + HostSuffix == UrlScheme + p + HostPrefix + r' + HostSuffix;
  }

  /** The selection a listing starts with: every path, in listing order. */
  function InitialSelection(listing: Option<MigrationTree>): (sel: seq<string>)
    ensures listing.None? ==> sel == []
    ensures listing.Some? ==> |sel| == |listing.value.tree|
    ensures listing.Some? ==> forall i :: 0 <= i < |sel| ==> sel[i] == listing.value.tree[i].path
  {
    if listing.Some? then ListingPaths(listing.value) else []
  }

  /** The component's first render: step 0, nothing typed, everything selected. */
  function Init(listing: Option<MigrationTree>): State {
    State(0, Idle, None, None, listing, InitialSelection(listing))
  }

  /** The effect that runs when the listing prop changes: a new listing resets
      the selection to all of its paths; an absent one leaves it alone. */
  function ListingChanged(w: State, listing: Option<MigrationTree>): (w': State)
    ensures w'.listing == listing
    ensures listing.Some? ==> w'.selection == InitialSelection(listing)
    ensures listing.None? ==> w'.selection == w.selection
    ensures w'.step == w.step && w'.ref == w.ref && w'.password == w.password && w'.loading == w.loading
  {
    if listing.Some? then w.(listing := listing, selection := InitialSelection(listing))
    else w.(listing := listing)
  }

  function Unequal(path: string): string -> bool {
    (m: string) => m != path
  }

  /** A checkbox's `onCheckedChange`: checking appends the path at the end,
      unchecking removes every occurrence and keeps the rest in order. */
  function Toggle(selection: seq<string>, path: string, checked: bool): (r: seq<string>)
    ensures checked ==> |r| == |selection| + 1 && r[..|selection|] == selection && r[|selection|] == path
    ensures !checked ==> path !in r
    ensures !checked ==> multiset(r) == multiset(selection)[path := 0]
    ensures !checked ==> IsSubsequence(r, selection)
  {
    if checked then selection + [path]
    else
      var r := Filter(selection, Unequal(path));
      assert forall x :: multiset(r)[x] == multiset(selection)[path := 0][x];
      assert multiset(r)[path] == 0;
      r
  }

  /** The first fetched record with the given path, as `Array.prototype.find`. */
  function RecordFor(records: seq<Migration>, path: string): (r: Option<Migration>)
    ensures r.None? <==> forall k :: 0 <= k < |records| ==> records[k].path != path
    ensures r.Some? ==> r.value.path == path
    ensures r.Some? ==>
      exists k :: 0 <= k < |records| && records[k] == r.value && (forall j :: 0 <= j < k ==> records[j].path != path)
  {
    match FindFirst(records, (m: Migration) => m.path == path)
    case None => None
    case Some(k) => Some(records[k])
  }

  /** The `migrations` payload: one element per selected path, in selection order. */
  function Correlate(selection: seq<string>, records: seq<Migration>): (payload: seq<Option<Migration>>)
    ensures |payload| == |selection|
    ensures forall i :: 0 <= i < |selection| ==> payload[i] == RecordFor(records, selection[i])
  {
    seq(|selection|, i requires 0 <= i < |selection| => RecordFor(records, selection[i]))
  }

  /** `connectProject`: check the credentials are filled in, then ask the server to
      probe the database; only a 200 moves the wizard to step 2. */
  function ConnectProject(w: State, verifyStatus: int): (e: Effect)
    ensures !Present(w.ref) ==> e == Effect(w, [], Some(ErrorToast(MissingRefError)), None)
    ensures Present(w.ref) && !Present(w.password) ==> e == Effect(w, [], Some(ErrorToast(MissingPasswordError)), None)
    ensures Present(w.ref) && Present(w.password) ==>
      e.requests == [VerifyDatabase(ConnectionString(w.password.value, w.ref.value))]
    ensures Present(w.ref) && Present(w.password) && verifyStatus != 200 ==>
      e.state == w.(loading := Idle) && e.toast == Some(ErrorToast(InvalidCredentialsError)) && e.accepted.None?
    ensures Present(w.ref) && Present(w.password) && verifyStatus == 200 ==>
      && e.state == w.(loading := Idle, step := 2) && e.toast.None?
      && e.accepted == Some(ConnectionString(w.password.value, w.ref.value))
  {
    if !Present(w.ref) || !Present(w.password) then
      var field := if !Present(w.ref) then "Project Reference ID" else "Database Password";
      assert "Project Reference ID" + " is missing." == MissingRefError;
      assert "Database Password" + " is missing." == MissingPasswordError;
      Effect(w, [], Some(ErrorToast(field + " is missing.")), None)
    else
      var request := VerifyDatabase(ConnectionString(w.password.value, w.ref.value));
      var done := w.(loading := Idle);
      if verifyStatus != 200 then Effect(done, [request], Some(ErrorToast(InvalidCredentialsError)), None)
      else Effect(done.(step := 2), [request], None, Some(request.url))
  }

  /** The `tree_url` query value: the listing's url, or "undefined" without one. */
  function TreeUrlParam(listing: Option<MigrationTree>): string {
    if listing.Some? then listing.value.url else "undefined"
  }

  /** `forkProject`: fetch the records, send the selected ones to the migrate route,
      and move to step 3 only if both answer 200. A failure returns before the
      spinner is cleared, so `loading` stays `Forking`. */
  function ForkProject(w: State, fetched: FetchReply, migrateStatus: int): (e: Effect)
    ensures e.accepted.None?
    ensures |w.selection| == 0 ==> e == Effect(w, [], Some(ErrorToast(NoSelectionError)), None)
    ensures |w.selection| > 0 ==> |e.requests| >= 1 && e.requests[0] == FetchMigrations(TreeUrlParam(w.listing))
    ensures |w.selection| > 0 && fetched.status != 200 ==>
      e == Effect(w.(loading := Forking), [FetchMigrations(TreeUrlParam(w.listing))], Some(ErrorToast(FetchFailedError)), None)
    ensures |w.selection| > 0 && fetched.status == 200 ==>
      && |e.requests| == 2
      && e.requests[1].MigrateDatabase?
      && e.requests[1].url == ConnectionString(Interpolate(w.password, "null"), Interpolate(w.ref, "null"))
      && |e.requests[1].migrations| == |w.selection|
      && (forall i :: 0 <= i < |w.selection| ==> e.requests[1].migrations[i] == RecordFor(fetched.records, w.selection[i]))
    ensures |w.selection| > 0 && fetched.status == 200 && migrateStatus != 200 ==>
      e.state == w.(loading := Forking) && e.toast == Some(ErrorToast(MigrateFailedError))
    ensures |w.selection| > 0 && fetched.status == 200 && migrateStatus == 200 ==>
      e.state == w.(loading := Idle, step := 3) && e.toast == Some(SuccessToast(ForkedMessage))
  {
    if |w.selection| == 0 then Effect(w, [], Some(ErrorToast(NoSelectionError)), None)
    else
      var busy := w.(loading := Forking);
      var fetch := FetchMigrations(TreeUrlParam(w.listing));
      if fetched.status != 200 then Effect(busy, [fetch], Some(ErrorToast(FetchFailedError)), None)
      else
        var url := ConnectionString(Interpolate(w.password, "null"), Interpolate(w.ref, "null"));
        var migrate := MigrateDatabase(url, Correlate(w.selection, fetched.records));
        if migrateStatus != 200 then Effect(busy, [fetch, migrate], Some(ErrorToast(MigrateFailedError)), None)
        else Effect(busy.(loading := Idle, step := 3), [fetch, migrate], Some(SuccessToast(ForkedMessage)), None)
  }

  /** Which controls are enabled, from the `disabled` props. */
  predicate CreateEnabled(w: State) { w.step == 0 }
  predicate InputsEnabled(w: State) { w.step == 1 }
  predicate ConnectEnabled(w: State) { w.step == 1 && w.loading != Connecting }
  predicate ForkEnabled(w: State) { w.step == 2 && |w.selection| > 0 && w.loading != Forking }

  /** What the user can do. `Click(i)` is the checkbox of the listing's i-th entry;
      the checkbox reports the negation of its current `checked` state. */
  datatype Event =
    | ChooseProject                 // "Create new Project" or "I want to use an existing project"
    | EditRef(value: string)
    | EditPassword(value: string)
    | Connect(verifyStatus: int)
    | Click(index: nat)
    | NewListing(listing: Option<MigrationTree>)
    | Fork(fetched: FetchReply, migrateStatus: int)

  /** Whether the control an event acts on is enabled. Checkboxes are never
      disabled, but a click outside the listing reaches no checkbox. */
  predicate Enabled(w: State, e: Event) {
    match e
    case ChooseProject => CreateEnabled(w)
    case EditRef(_) => InputsEnabled(w)
    case EditPassword(_) => InputsEnabled(w)
    case Connect(_) => ConnectEnabled(w)
    case Click(i) => w.listing.Some? && i < |w.listing.value.tree|
    case NewListing(_) => true
    case Fork(_, _) => ForkEnabled(w)
  }

  function Quiet(w: State): Effect {
    Effect(w, [], None, None)
  }

  /** One user action, with disabled controls doing nothing. */
  function Handle(w: State, e: Event): (r: Effect)
    // a disabled control does nothing at all
    ensures !Enabled(w, e) ==> r == Quiet(w)
    // an enabled control does what its handler does
    ensures Enabled(w, e) && e.ChooseProject? ==> r == Quiet(w.(step := 1))
    ensures Enabled(w, e) && e.EditRef? ==> r == Quiet(w.(ref := Some(e.value)))
    ensures Enabled(w, e) && e.EditPassword? ==> r == Quiet(w.(password := Some(e.value)))
    ensures Enabled(w, e) && e.Click? ==>
      var path := w.listing.value.tree[e.index].path;
      r == Quiet(w.(selection := Toggle(w.selection, path, path !in w.selection)))
    ensures e.NewListing? ==> r == Quiet(ListingChanged(w, e.listing))
    ensures Enabled(w, e) && e.Connect? ==> r == ConnectProject(w, e.verifyStatus)
    ensures Enabled(w, e) && e.Fork? ==> r == ForkProject(w, e.fetched, e.migrateStatus)
    // the step only ever moves one forward, and each move has one cause
    ensures r.state.step == w.step || r.state.step == w.step + 1
    ensures r.state.step == w.step + 1 ==>
      || (w.step == 0 && e.ChooseProject?)
      || (w.step == 1 && e.Connect? && w.loading != Connecting && e.verifyStatus == 200 &&
          Present(w.ref) && Present(w.password))
      || (w.step == 2 && e.Fork? && |w.selection| > 0 && w.loading != Forking &&
          e.fetched.status == 200 && e.migrateStatus == 200)
    // credentials are typed only at step 1
    ensures (r.state.ref != w.ref || r.state.password != w.password) ==> w.step == 1
    // requests are sent only by an enabled connect or fork button
    ensures r.requests != [] ==> (e.Connect? && ConnectEnabled(w)) || (e.Fork? && ForkEnabled(w))
    // only an enabled connect button can learn that a connection string works
    ensures r.accepted.Some? ==> e.Connect? && ConnectEnabled(w) && e.verifyStatus == 200
  {
    match e
    case ChooseProject => if CreateEnabled(w) then Quiet(w.(step := 1)) else Quiet(w)
    case EditRef(v) => if InputsEnabled(w) then Quiet(w.(ref := Some(v))) else Quiet(w)
    case EditPassword(v) => if InputsEnabled(w) then Quiet(w.(password := Some(v))) else Quiet(w)
    case Connect(status) => if ConnectEnabled(w) then ConnectProject(w, status) else Quiet(w)
    case Click(i) =>
      if w.listing.Some? && i < |w.listing.value.tree| then
        var path := w.listing.value.tree[i].path;
        Quiet(w.(selection := Toggle(w.selection, path, path !in w.selection)))
      else Quiet(w)
    case NewListing(listing) => Quiet(ListingChanged(w, listing))
    case Fork(fetched, status) => if ForkEnabled(w) then ForkProject(w, fetched, status) else Quiet(w)
  }

  /** The state after a sequence of actions, every request sent on the way, and
      every connection string whose check answered 200. */
  datatype Trace = Trace(state: State, requests: seq<ClientRequest>, accepted: seq<string>)

  /** The trace extended by one handler's effect. */
  function Extend(t: Trace, r: Effect): Trace {
    Trace(r.state, t.requests + r.requests, t.accepted + (if r.accepted.Some? then [r.accepted.value] else []))
  }

  function Run(start: State, events: seq<Event>): Trace
    decreases |events|
  {
    if |events| == 0 then Trace(start, [], [])
    else
      var before := Run(start, events[..|events| - 1]);
      Extend(before, Handle(before.state, events[|events| - 1]))
  }

  /** What holds at every point of a modelled session, whose handlers run to
      completion: the step stays within 0..3; from step 2 on, the credentials are
      filled in and the string they make passed the connection check; and every
      migration went to a connection string that passed it. In the component,
      this holds only when no credential is edited while the check is in flight. */
  ghost predicate Sound(t: Trace) {
    && t.state.step <= 3
    && (t.state.step >= 2 ==>
          Present(t.state.ref) && Present(t.state.password) &&
          ConnectionString(t.state.password.value, t.state.ref.value) in t.accepted)
    && (forall k :: 0 <= k < |t.requests| && t.requests[k].MigrateDatabase? ==>
          t.requests[k].url in t.accepted)
  }

  /** One action keeps a session sound. */
  lemma HandleKeepsSound(t: Trace, e: Event)
    requires Sound(t)
    ensures Sound(Extend(t, Handle(t.state, e)))
  {
    var w := t.state;
    var r := Handle(w, e);
    var t' := Extend(t, r);
    assert forall u :: u in t.accepted ==> u in t'.accepted;
    forall k | 0 <= k < |t'.requests| && t'.requests[k].MigrateDatabase?
      ensures t'.requests[k].url in t'.accepted
    {
      if k >= |t.requests| {
        assert e.Fork? && ForkEnabled(w);
        assert t'.requests[k].url == ConnectionString(w.password.value, w.ref.value);
      } else {
        assert t'.requests[k] == t.requests[k];
      }
    }
  }

  /** Every modelled session that starts from the first render stays sound: in
      particular, when no credential is edited while the check is in flight, no
      migration is ever sent to a connection string whose check did not answer
      200 earlier in the session, and step 3 is never passed. */
  lemma {:induction false} RunIsSound(listing: Option<MigrationTree>, events: seq<Event>)
    ensures Sound(Run(Init(listing), events))
    decreases |events|
  {
    if |events| > 0 {
      RunIsSound(listing, events[..|events| - 1]);
      HandleKeepsSound(Run(Init(listing), events[..|events| - 1]), events[|events| - 1]);
    }
  }

  /** The step never goes back during a session. */
  lemma {:induction false} RunNeverGoesBack(start: State, events: seq<Event>)
    ensures Run(start, events).state.step >= start.step
    decreases |events|
  {
    if |events| > 0 {
      RunNeverGoesBack(start, events[..|events| - 1]);
    }
  }

  /** A failed fork leaves the fork button disabled for the rest of the session's
      step 2, since the spinner is never cleared. */
  lemma FailedForkDisablesFork(w: State, fetched: FetchReply, migrateStatus: int)
    requires ForkEnabled(w)
    requires fetched.status != 200 || migrateStatus != 200
    ensures Handle(w, Fork(fetched, migrateStatus)).state.step == 2
    ensures !ForkEnabled(Handle(w, Fork(fetched, migrateStatus)).state)
  {
  }

  /** Unchecking and rechecking a path moves it to the end of the selection, and
      so to the end of the migration order. */
  lemma RecheckMovesToEnd(selection: seq<string>, path: string)
    ensures Toggle(Toggle(selection, path, false), path, true) == Filter(selection, Unequal(path)) + [path]
  {
  }
}

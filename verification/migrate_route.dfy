/** app/api/supabase/route.ts: `POST /api/supabase`, which probes the database
    and then hands every migration to the database client without awaiting it. */
module MigrateRoute {
  import opened Wrappers
  import opened Seqs
  import opened Types
  import opened Http

  const MigratedMessage: string := "Migration successful"

  /** The outcome of the `SELECT NOW()` liveness probe on the given connection. */
  datatype Probe = Live | ProbeFailed(error: string)

  /** The request body: a connection string and the migrations array, whose
      elements may be `null` when the browser found no record for a path. */
  datatype Payload = Payload(url: string, migrations: seq<Option<Migration>>)

  /** What one element's callback does before its first `await`: hand a decoded
      statement to the database client, or throw and hand nothing. */
  datatype Dispatch = Executed(statement: string) | Aborted

  /** The response and one dispatch entry per migration, in array order. */
  datatype Migrated = Migrated(response: Response, dispatched: seq<Dispatch>)

  /** `Buffer.from(content, encoding).toString()`: `None` when it throws (an
      unknown encoding); an absent encoding is the decoder's to interpret. */
  type Decoder = (string, Option<string>) -> Option<string>

  /** The statement text a migration element yields, if its callback gets that far:
      `migration.content` throws on a `null` element, `Buffer.from` on absent content. */
  function Statement(decode: Decoder, m: Option<Migration>): Option<string> {
    if m.None? || m.value.content.None? then None
    else decode(m.value.content.value, m.value.encoding)
  }

  function DispatchOf(decode: Decoder, m: Option<Migration>): Dispatch {
    match Statement(decode, m)
    case None => Aborted
    case Some(text) => Executed(text)
  }

  /** Probe first; only when the database answers are the migrations dispatched. */
  function Post(probe: string -> Probe, decode: Decoder, req: Payload): (r: Migrated)
    // a failed probe answers 400 with its error, and nothing is decoded or dispatched
    ensures probe(req.url).ProbeFailed? ==>
      r == Migrated(Response(400, ErrorBody(Some(probe(req.url).error))), [])
    // a live database: success whatever the individual migrations do
    ensures probe(req.url).Live? ==> r.response == Response(200, MessageBody(MigratedMessage))
    // exactly one dispatch per element, in array order
    ensures probe(req.url).Live? ==> |r.dispatched| == |req.migrations|
    // element i runs its own content decoded under its own encoding
    ensures probe(req.url).Live? ==> forall i :: 0 <= i < |req.migrations| ==>
      (r.dispatched[i].Executed? <==>
        req.migrations[i].Some? && req.migrations[i].value.content.Some? &&
        decode(req.migrations[i].value.content.value, req.migrations[i].value.encoding).Some?)
    ensures probe(req.url).Live? ==> forall i :: 0 <= i < |req.migrations| && r.dispatched[i].Executed? ==>
      r.dispatched[i].statement == decode(req.migrations[i].value.content.value, req.migrations[i].value.encoding).value
  {
    match probe(req.url)
    case ProbeFailed(error) => Migrated(Response(400, ErrorBody(Some(error))), [])
    case Live =>
      Migrated(Response(200, MessageBody(MigratedMessage)), Map((m: Option<Migration>) => DispatchOf(decode, m), req.migrations))
  }

  /** The answer of a live database does not depend on what the migrations contain
      or how they decode: their outcomes are never awaited. */
  lemma ResponseIgnoresMigrations(probe: string -> Probe, d1: Decoder, d2: Decoder, r1: Payload, r2: Payload)
    requires r1.url == r2.url
    ensures Post(probe, d1, r1).response == Post(probe, d2, r2).response
  {
  }
}

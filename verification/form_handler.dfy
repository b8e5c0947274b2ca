/** The submission-intake handler: resolve the gate, decode, validate, enrich,
    write the record, email it, respond. Each external call is an input
    outcome, and the calls the handler makes are recorded as effects. */
module FormHandler {
  import opened Wrappers
  import opened Values
  import opened Render
  import opened Http
  import Gate

  /** The environment variables the handler reads. */
  datatype Env = Env(
    formTableName: Option<string>,
    submissionsTableName: Option<string>,
    emailFrom: Option<string>,
    emailTo: Option<string>)

  /** The parts of the API Gateway event the handler reads. */
  datatype Event = Event(body: Option<string>, headers: map<string, string>, sourceIp: string)

  /** What the outside world does during one invocation: the answers of the
      configuration store, whether the put and the email succeed, the uuid
      generated and the clock reading. */
  datatype World = World(
    describe: Gate.DescribeOutcome,
    scan: Gate.ScanOutcome,
    putSucceeds: bool,
    sendSucceeds: bool,
    uuid: string,
    now: string)

  datatype Invocation = Invocation(event: Event, world: World)

  /** A call the handler makes to a collaborator. */
  datatype Effect =
    | Query(call: Gate.ConfigCall)
    | Put(table: string, item: Record)
    | Send(email: Email)

  /** The cache after the call, the response, and the calls made in order. */
  datatype Outcome = Outcome(cache: Option<bool>, response: Response, effects: seq<Effect>)

  const JsonHeaders: map<string, string> := map["Content-Type" := "application/json"]
  const CorsHeaders: map<string, string> :=
    JsonHeaders["Access-Control-Allow-Origin" := "*"]["Access-Control-Allow-Credentials" := "true"]

  function Failure(status: int, message: string): Response {
    Response(status, JsonHeaders, Message(message))
  }

  const InvalidJson := Failure(400, "Invalid JSON in request body")
  const FormIdMissing := Failure(400, "Form ID is missing")
  const WriteFailed := Failure(500, "Error writing to DynamoDB")
  const EmailFailed := Failure(500, "Error sending email")

  /** The four fields enrichment writes. */
  const Metadata := ["id", "forwardedFor", "sourceIP", "timestamp"]

  predicate OnlyQueries(effects: seq<Effect>) {
    forall i :: 0 <= i < |effects| ==> effects[i].Query?
  }

  /** Every email is immediately preceded by a write. */
  predicate SendFollowsPut(effects: seq<Effect>) {
    forall i :: 0 <= i < |effects| && effects[i].Send? ==> 0 < i && effects[i - 1].Put?
  }

  predicate NoSends(effects: seq<Effect>) {
    forall i :: 0 <= i < |effects| ==> !effects[i].Send?
  }

  predicate NoQueries(effects: seq<Effect>) {
    forall i :: 0 <= i < |effects| ==> !effects[i].Query?
  }

  /** Configuration queries in front of a well-ordered trace keep it
      well-ordered. */
  lemma QueriesFirst(queries: seq<Effect>, effects: seq<Effect>)
    requires OnlyQueries(queries)
    requires SendFollowsPut(effects)
    ensures SendFollowsPut(queries + effects)
  {
  }

  function Queries(calls: seq<Gate.ConfigCall>): (es: seq<Effect>)
    ensures |es| == |calls| && OnlyQueries(es)
    ensures forall i :: 0 <= i < |calls| ==> es[i] == Query(calls[i])
  {
    seq(|calls|, i requires 0 <= i < |calls| => Query(calls[i]))
  }

  /** Validation: with the gate active a falsy `formId` is refused; with the
      gate inactive nothing is required. */
  predicate Validates(data: Record, active: bool) {
    !active || Truthy(Lookup(data, "formId"))
  }

  /** `headers['X-Forwarded-For'] || headers['x-forwarded-for']`. */
  function ForwardedFor(headers: map<string, string>): (v: Value)
    ensures v.Str? || v == Undefined
    ensures v.Str? && v.s != "" ==> v.s in headers.Values
    ensures v == Undefined <==>
      ("X-Forwarded-For" !in headers || headers["X-Forwarded-For"] == "") && "x-forwarded-for" !in headers
    ensures "X-Forwarded-For" in headers && headers["X-Forwarded-For"] != "" ==> v == Str(headers["X-Forwarded-For"])
    ensures ("X-Forwarded-For" !in headers || headers["X-Forwarded-For"] == "") && "x-forwarded-for" in headers ==>
      v == Str(headers["x-forwarded-for"])
  {
    if "X-Forwarded-For" in headers && headers["X-Forwarded-For"] != "" then Str(headers["X-Forwarded-For"])
    else if "x-forwarded-for" in headers then Str(headers["x-forwarded-for"])
    else Undefined
  }

  /** `headers[name]`: the header's text, or `undefined` when absent. */
  function Header(headers: map<string, string>, name: string): Value {
    if name in headers then Str(headers[name]) else Undefined
  }

  /** `ForwardedFor` is the `||` of the two header reads. */
  lemma ForwardedForIsOr(headers: map<string, string>)
    ensures ForwardedFor(headers) == Or(Header(headers, "X-Forwarded-For"), Header(headers, "x-forwarded-for"))
  {
  }

  /** Adds id, forwardedFor, sourceIP and timestamp, in that order. */
  function Enrich(data: Record, uuid: string, forwardedFor: Value, sourceIp: string, now: string): Record {
    var r1 := Assign(data, "id", Str(uuid));
    var r2 := Assign(r1, "forwardedFor", forwardedFor);
    var r3 := Assign(r2, "sourceIP", Str(sourceIp));
    Assign(r3, "timestamp", Str(now))
  }

  /** Client keys keep their order and come first; the only keys added are
      the metadata keys. */
  lemma EnrichKeepsKeyOrder(data: Record, uuid: string, forwardedFor: Value, sourceIp: string, now: string)
    ensures var r := Enrich(data, uuid, forwardedFor, sourceIp, now);
      && |data| <= |r| <= |data| + 4
      && Keys(data) <= Keys(r)
      && forall k :: k in Keys(r) <==> k in Keys(data) || k in Metadata
  {
    var r1 := Assign(data, "id", Str(uuid));
    var r2 := Assign(r1, "forwardedFor", forwardedFor);
    var r3 := Assign(r2, "sourceIP", Str(sourceIp));
    AssignExtendsKeys(data, "id", Str(uuid));
    AssignExtendsKeys(r1, "forwardedFor", forwardedFor);
    AssignExtendsKeys(r2, "sourceIP", Str(sourceIp));
    AssignExtendsKeys(r3, "timestamp", Str(now));
    forall k
      ensures k in Keys(Enrich(data, uuid, forwardedFor, sourceIp, now)) <==> k in Keys(data) || k in Metadata
    {
      EnrichKeySet(data, uuid, forwardedFor, sourceIp, now, k);
    }
  }

  lemma EnrichKeySet(data: Record, uuid: string, forwardedFor: Value, sourceIp: string, now: string, k: string)
    ensures k in Keys(Enrich(data, uuid, forwardedFor, sourceIp, now)) <==> k in Keys(data) || k in Metadata
  {
    var r1 := Assign(data, "id", Str(uuid));
    var r2 := Assign(r1, "forwardedFor", forwardedFor);
    var r3 := Assign(r2, "sourceIP", Str(sourceIp));
    AssignKeySet(data, "id", Str(uuid), k);
    AssignKeySet(r1, "forwardedFor", forwardedFor, k);
    AssignKeySet(r2, "sourceIP", Str(sourceIp), k);
    AssignKeySet(r3, "timestamp", Str(now), k);
  }

  /** The metadata fields read back as written. */
  lemma EnrichSetsMetadata(data: Record, uuid: string, forwardedFor: Value, sourceIp: string, now: string)
    ensures var r := Enrich(data, uuid, forwardedFor, sourceIp, now);
      && Lookup(r, "id") == Str(uuid)
      && Lookup(r, "forwardedFor") == forwardedFor
      && Lookup(r, "sourceIP") == Str(sourceIp)
      && Lookup(r, "timestamp") == Str(now)
  {
    var r1 := Assign(data, "id", Str(uuid));
    var r2 := Assign(r1, "forwardedFor", forwardedFor);
    var r3 := Assign(r2, "sourceIP", Str(sourceIp));
    AssignFrame(r1, "forwardedFor", forwardedFor, "id");
    AssignFrame(r2, "sourceIP", Str(sourceIp), "id");
    AssignFrame(r3, "timestamp", Str(now), "id");
    AssignFrame(r2, "sourceIP", Str(sourceIp), "forwardedFor");
    AssignFrame(r3, "timestamp", Str(now), "forwardedFor");
    AssignFrame(r3, "timestamp", Str(now), "sourceIP");
  }

  /** Every other client field reaches the stored record unchanged. */
  lemma EnrichPassesClientFields(data: Record, uuid: string, forwardedFor: Value, sourceIp: string, now: string, k: string)
    requires k !in Metadata
    ensures Lookup(Enrich(data, uuid, forwardedFor, sourceIp, now), k) == Lookup(data, k)
  {
    var r1 := Assign(data, "id", Str(uuid));
    var r2 := Assign(r1, "forwardedFor", forwardedFor);
    var r3 := Assign(r2, "sourceIP", Str(sourceIp));
    AssignFrame(data, "id", Str(uuid), k);
    AssignFrame(r1, "forwardedFor", forwardedFor, k);
    AssignFrame(r2, "sourceIP", Str(sourceIp), k);
    AssignFrame(r3, "timestamp", Str(now), k);
  }

  lemma EnrichWellFormed(data: Record, uuid: string, forwardedFor: Value, sourceIp: string, now: string)
    requires WellFormed(data)
    ensures WellFormed(Enrich(data, uuid, forwardedFor, sourceIp, now))
  {
    var r1 := Assign(data, "id", Str(uuid));
    var r2 := Assign(r1, "forwardedFor", forwardedFor);
    var r3 := Assign(r2, "sourceIP", Str(sourceIp));
    AssignWellFormed(data, "id", Str(uuid));
    AssignWellFormed(r1, "forwardedFor", forwardedFor);
    AssignWellFormed(r2, "sourceIP", Str(sourceIp));
    AssignWellFormed(r3, "timestamp", Str(now));
  }

  /** Whether a stage went through, and the calls it made. */
  datatype Stage = Stage(ok: bool, effects: seq<Effect>)

  /** `writeFormSubmissionToDynamoDB`: without a table name it throws before
      calling `put`; otherwise one put of the whole item. */
  function WriteSubmission(tableName: Option<string>, item: Record, putSucceeds: bool): (s: Stage)
    ensures s.ok ==> putSucceeds && IsSet(tableName)
    ensures IsSet(tableName) ==> s.ok == putSucceeds && s.effects == [Put(tableName.value, item)]
    ensures !IsSet(tableName) ==> s.effects == []
  {
    if !IsSet(tableName) then Stage(false, []) else Stage(putSucceeds, [Put(tableName.value, item)])
  }

  /** `sendEmail`: without a sender or recipient it throws before calling
      SES; otherwise one email. */
  function SendNotification(emailFrom: Option<string>, emailTo: Option<string>, item: Record, sendSucceeds: bool): (s: Stage)
    ensures s.ok ==> sendSucceeds
    ensures !IsSet(emailFrom) || !IsSet(emailTo) ==> !s.ok
    ensures |s.effects| <= 1
    ensures forall i :: 0 <= i < |s.effects| ==>
      && s.effects[i].Send?
      && IsSet(emailFrom) && IsSet(emailTo)
      && s.effects[i].email.source == emailFrom.value
      && s.effects[i].email.toAddresses == [emailTo.value]
      && s.effects[i].email.htmlBody == HtmlBody(item)
      && s.effects[i].email.subject == "New Form Submission"
    ensures s.effects == [] <==> !IsSet(emailFrom) || !IsSet(emailTo)
    ensures s.effects != [] ==> s.ok == sendSucceeds
  {
    match ComposeEmail(emailFrom, emailTo, item)
    case None => Stage(false, [])
    case Some(email) => Stage(sendSucceeds, [Send(email)])
  }

  /** The record the handler would store for a decoded body. */
  function Enriched(data: Record, inv: Invocation): Record {
    Enrich(data, inv.world.uuid, ForwardedFor(inv.event.headers), inv.event.sourceIp, inv.world.now)
  }

  /** The response for an accepted record and the calls made after the gate. */
  datatype Delivery = Delivery(response: Response, effects: seq<Effect>)

  /** The write and email stages for an accepted record: 500 when the write
      fails (no email is tried), 500 when the email fails after the write,
      otherwise 200 with the record. */
  function Deliver(env: Env, item: Record, world: World): (d: Delivery)
    ensures d.response.status in {200, 500}
    ensures d.response.status == 200 <==>
      IsSet(env.submissionsTableName) && world.putSucceeds && IsSet(env.emailFrom) && IsSet(env.emailTo) && world.sendSucceeds
    ensures d.response.status == 200 ==> d.response == Response(200, CorsHeaders, Json(item))
    ensures d.response.status == 500 ==> d.response.headers == JsonHeaders && d.response.body.Message?
    ensures IsSet(env.submissionsTableName) ==> |d.effects| >= 1 && d.effects[0] == Put(env.submissionsTableName.value, item)
    ensures forall i :: 0 <= i < |d.effects| && d.effects[i].Put? ==> d.effects[i].item == item
    ensures NoQueries(d.effects) && SendFollowsPut(d.effects)
    ensures !IsSet(env.submissionsTableName) ==> d.effects == []
    ensures |d.effects| <= 2
    ensures |d.effects| == 2 <==>
      IsSet(env.submissionsTableName) && world.putSucceeds && IsSet(env.emailFrom) && IsSet(env.emailTo)
    ensures |d.effects| == 2 ==>
      && IsSet(env.emailFrom) && IsSet(env.emailTo)
      && d.effects[1] == Send(Email(env.emailFrom.value, [env.emailTo.value], "New Form Submission", HtmlBody(item)))
  {
    var put := WriteSubmission(env.submissionsTableName, item, world.putSucceeds);
    if !put.ok then
      assert NoSends(put.effects);
      Delivery(WriteFailed, put.effects)
    else
      var sent := SendNotification(env.emailFrom, env.emailTo, item, world.sendSucceeds);
      assert SendFollowsPut(put.effects + sent.effects);
      if !sent.ok then Delivery(EmailFailed, put.effects + sent.effects)
      else Delivery(Response(200, CorsHeaders, Json(item)), put.effects + sent.effects)
  }

  /** One invocation of the handler. */
  function Handle(cache: Option<bool>, env: Env, parse: JsonParser, inv: Invocation): (o: Outcome)
    ensures o.cache.Some?
    ensures cache.Some? ==> o.cache == cache && NoQueries(o.effects)
    ensures o.response.status in {200, 400, 500}
    ensures o.response.status != 200 ==> o.response.headers == JsonHeaders && o.response.body.Message?
    ensures o.response.status == 200 ==> o.response.headers == CorsHeaders && o.response.body.Json?
    ensures SendFollowsPut(o.effects)
  {
    var gate := Gate.Resolve(cache, env.formTableName, inv.world.describe, inv.world.scan);
    var queries := Queries(gate.calls);
    var cache' := Some(gate.active);
    match ParseBody(inv.event.body, parse)
    case None => Outcome(cache', InvalidJson, queries)
    case Some(data) =>
      if !Validates(data, gate.active) then Outcome(cache', FormIdMissing, queries)
      else
        var d := Deliver(env, Enriched(data, inv), inv.world);
        QueriesFirst(queries, d.effects);
        Outcome(cache', d.response, queries + d.effects)
  }

  /** The gate answer this invocation works with: the cached one, or the
      store check's. */
  function GateAnswer(cache: Option<bool>, env: Env, inv: Invocation): bool {
    Gate.Resolve(cache, env.formTableName, inv.world.describe, inv.world.scan).active
  }

  /** Decoding fails: 400, and neither a write nor an email is attempted. */
  lemma InvalidJsonRejected(cache: Option<bool>, env: Env, parse: JsonParser, inv: Invocation)
    requires ParseBody(inv.event.body, parse).None?
    ensures var o := Handle(cache, env, parse, inv);
      o.response == Failure(400, "Invalid JSON in request body") && OnlyQueries(o.effects)
  {
  }

  /** Gate active and `formId` falsy: 400 before any write or email. */
  lemma MissingFormIdRejected(cache: Option<bool>, env: Env, parse: JsonParser, inv: Invocation, data: Record)
    requires ParseBody(inv.event.body, parse) == Some(data)
    requires GateAnswer(cache, env, inv)
    requires !Truthy(Lookup(data, "formId"))
    ensures var o := Handle(cache, env, parse, inv);
      o.response == Failure(400, "Form ID is missing") && OnlyQueries(o.effects)
  {
  }

  /** Gate inactive: no field is required, and a decoded body always reaches
      the write stage. */
  lemma InactiveGateRequiresNothing(cache: Option<bool>, env: Env, parse: JsonParser, inv: Invocation, data: Record)
    requires ParseBody(inv.event.body, parse) == Some(data)
    requires !GateAnswer(cache, env, inv)
    ensures var o := Handle(cache, env, parse, inv);
      && o.response != FormIdMissing
      && (IsSet(env.submissionsTableName) ==> Put(env.submissionsTableName.value, Enriched(data, inv)) in o.effects)
  {
  }

  /** A failed write, including a missing table name: 500 and no email. */
  lemma WriteFailureResponse(cache: Option<bool>, env: Env, parse: JsonParser, inv: Invocation, data: Record)
    requires ParseBody(inv.event.body, parse) == Some(data)
    requires Validates(data, GateAnswer(cache, env, inv))
    requires !IsSet(env.submissionsTableName) || !inv.world.putSucceeds
    ensures var o := Handle(cache, env, parse, inv);
      o.response == Failure(500, "Error writing to DynamoDB") && NoSends(o.effects)
  {
  }

  /** A failed email after a successful write: 500, and the enriched record
      has already been written. */
  lemma EmailFailureResponse(cache: Option<bool>, env: Env, parse: JsonParser, inv: Invocation, data: Record)
    requires ParseBody(inv.event.body, parse) == Some(data)
    requires Validates(data, GateAnswer(cache, env, inv))
    requires IsSet(env.submissionsTableName) && inv.world.putSucceeds
    requires !IsSet(env.emailFrom) || !IsSet(env.emailTo) || !inv.world.sendSucceeds
    ensures var o := Handle(cache, env, parse, inv);
      && o.response == Failure(500, "Error sending email")
      && Put(env.submissionsTableName.value, Enriched(data, inv)) in o.effects
  {
  }

  /** 200 exactly when every stage goes through; the body is then the
      enriched record, which was written and then emailed. */
  lemma SuccessResponse(cache: Option<bool>, env: Env, parse: JsonParser, inv: Invocation)
    ensures var o := Handle(cache, env, parse, inv);
      o.response.status == 200 <==>
        && ParseBody(inv.event.body, parse).Some?
        && Validates(ParseBody(inv.event.body, parse).value, o.cache.value)
        && IsSet(env.submissionsTableName) && inv.world.putSucceeds
        && IsSet(env.emailFrom) && IsSet(env.emailTo) && inv.world.sendSucceeds
    ensures var o := Handle(cache, env, parse, inv);
      o.response.status == 200 ==>
        var item := Enriched(ParseBody(inv.event.body, parse).value, inv);
        && o.response == Response(200, CorsHeaders, Json(item))
        && Put(env.submissionsTableName.value, item) in o.effects
        && Send(Email(env.emailFrom.value, [env.emailTo.value], "New Form Submission", HtmlBody(item))) in o.effects
    ensures var o := Handle(cache, env, parse, inv);
      o.response.status == 200 ==>
        var item := Enriched(ParseBody(inv.event.body, parse).value, inv);
        o.effects == Queries(Gate.Resolve(cache, env.formTableName, inv.world.describe, inv.world.scan).calls)
          + [Put(env.submissionsTableName.value, item),
             Send(Email(env.emailFrom.value, [env.emailTo.value], "New Form Submission", HtmlBody(item)))]
  {
  }

  /** The returned record carries every client field except the four
      metadata fields unchanged, in the client's key order. */
  lemma SuccessEchoesClientFields(cache: Option<bool>, env: Env, parse: JsonParser, inv: Invocation, data: Record, k: string)
    requires ParseBody(inv.event.body, parse) == Some(data)
    requires Validates(data, GateAnswer(cache, env, inv))
    requires IsSet(env.submissionsTableName) && inv.world.putSucceeds
    requires IsSet(env.emailFrom) && IsSet(env.emailTo) && inv.world.sendSucceeds
    requires k !in Metadata
    ensures var response := Handle(cache, env, parse, inv).response;
      && response.status == 200
      && Lookup(response.body.record, k) == Lookup(data, k)
      && Keys(data) <= Keys(response.body.record)
  {
    SuccessResponse(cache, env, parse, inv);
    EnrichPassesClientFields(data, inv.world.uuid, ForwardedFor(inv.event.headers), inv.event.sourceIp, inv.world.now, k);
    EnrichKeepsKeyOrder(data, inv.world.uuid, ForwardedFor(inv.event.headers), inv.event.sourceIp, inv.world.now);
  }

  /** The first invocation consults the store: its calls begin with exactly
      the store check's queries, starting with `describeTable` when the
      configuration table is named. */
  lemma FirstRunQueriesStore(env: Env, parse: JsonParser, inv: Invocation)
    ensures var o := Handle(None, env, parse, inv);
      var calls := Gate.CheckIfFormConfigActive(env.formTableName, inv.world.describe, inv.world.scan).calls;
      && |calls| <= |o.effects| && o.effects[..|calls|] == Queries(calls)
      && (IsSet(env.formTableName) ==> o.effects[0] == Query(Gate.DescribeTable(env.formTableName.value)))
  {
  }

  /** The only record ever written is the enriched, validated body. */
  lemma PutsWriteTheEnrichedBody(cache: Option<bool>, env: Env, parse: JsonParser, inv: Invocation)
    ensures var o := Handle(cache, env, parse, inv);
      forall i :: 0 <= i < |o.effects| && o.effects[i].Put? ==>
        && ParseBody(inv.event.body, parse).Some?
        && Validates(ParseBody(inv.event.body, parse).value, o.cache.value)
        && o.effects[i].item == Enriched(ParseBody(inv.event.body, parse).value, inv)
  {
  }

  /** `formId` is a client field: enrichment passes it through. */
  lemma EnrichKeepsFormId(data: Record, inv: Invocation)
    ensures Lookup(Enriched(data, inv), "formId") == Lookup(data, "formId")
  {
    assert "formId" !in Metadata;
    EnrichPassesClientFields(data, inv.world.uuid, ForwardedFor(inv.event.headers), inv.event.sourceIp, inv.world.now, "formId");
  }

  /** A record is never written without id, sourceIP and timestamp, nor,
      with the gate active, without a truthy formId. */
  lemma StoredRecordsAreComplete(cache: Option<bool>, env: Env, parse: JsonParser, inv: Invocation)
    ensures var o := Handle(cache, env, parse, inv);
      forall i :: 0 <= i < |o.effects| && o.effects[i].Put? ==>
        var item := o.effects[i].item;
        && Lookup(item, "id") == Str(inv.world.uuid)
        && Lookup(item, "sourceIP") == Str(inv.event.sourceIp)
        && Lookup(item, "timestamp") == Str(inv.world.now)
        && (o.cache == Some(true) ==> Truthy(Lookup(item, "formId")))
  {
    var o := Handle(cache, env, parse, inv);
    PutsWriteTheEnrichedBody(cache, env, parse, inv);
    var decoded := ParseBody(inv.event.body, parse);
    if decoded.Some? {
      var data := decoded.value;
      var item := Enriched(data, inv);
      EnrichSetsMetadata(data, inv.world.uuid, ForwardedFor(inv.event.headers), inv.event.sourceIp, inv.world.now);
      EnrichKeepsFormId(data, inv);
      forall i | 0 <= i < |o.effects| && o.effects[i].Put?
        ensures o.effects[i].item == item && Validates(data, o.cache.value)
      {
      }
    }
  }

  /** Neither a stored record nor a returned one repeats a key. */
  lemma StoredRecordsAreWellFormed(cache: Option<bool>, env: Env, parse: JsonParser, inv: Invocation)
    ensures var o := Handle(cache, env, parse, inv);
      && (forall i :: 0 <= i < |o.effects| && o.effects[i].Put? ==> WellFormed(o.effects[i].item))
      && (o.response.status == 200 ==> WellFormed(o.response.body.record))
  {
    PutsWriteTheEnrichedBody(cache, env, parse, inv);
    SuccessResponse(cache, env, parse, inv);
    var decoded := ParseBody(inv.event.body, parse);
    if decoded.Some? {
      EnrichWellFormed(decoded.value, inv.world.uuid, ForwardedFor(inv.event.headers), inv.event.sourceIp, inv.world.now);
    }
  }

  /** A run of consecutive invocations in one process. */
  datatype Run = Run(cache: Option<bool>, responses: seq<Response>, effects: seq<Effect>, resolutions: nat)

  /** Invocations handled one after another, sharing the gate cache;
      `resolutions` counts the invocations that consulted the store. */
  function RunAll(cache: Option<bool>, env: Env, parse: JsonParser, invs: seq<Invocation>): (r: Run)
    ensures |r.responses| == |invs|
    decreases |invs|
  {
    if |invs| == 0 then Run(cache, [], [], 0)
    else
      var o := Handle(cache, env, parse, invs[0]);
      var rest := RunAll(o.cache, env, parse, invs[1..]);
      Run(rest.cache, [o.response] + rest.responses, o.effects + rest.effects,
          (if cache.None? then 1 else 0) + rest.resolutions)
  }

  /** Once resolved, the gate is reused: no invocation consults the store
      again and the cached answer never changes. */
  lemma {:induction false} ResolvedGateIsReused(cache: Option<bool>, env: Env, parse: JsonParser, invs: seq<Invocation>)
    requires cache.Some?
    ensures var r := RunAll(cache, env, parse, invs);
      r.cache == cache && r.resolutions == 0 && NoQueries(r.effects)
    decreases |invs|
  {
    if |invs| > 0 {
      var o := Handle(cache, env, parse, invs[0]);
      ResolvedGateIsReused(o.cache, env, parse, invs[1..]);
      var rest := RunAll(o.cache, env, parse, invs[1..]);
      NoQueriesConcat(o.effects, rest.effects);
    }
  }

  lemma NoQueriesConcat(a: seq<Effect>, b: seq<Effect>)
    requires NoQueries(a) && NoQueries(b)
    ensures NoQueries(a + b)
  {
    forall i | 0 <= i < |a + b|
      ensures !(a + b)[i].Query?
    {
      if i >= |a| {
        assert (a + b)[i] == b[i - |a|];
      }
    }
  }

  /** The gate is resolved at most once per process, by the first
      invocation, and every later invocation sees that first answer. */
  lemma GateResolvedAtMostOnce(cache: Option<bool>, env: Env, parse: JsonParser, invs: seq<Invocation>)
    ensures RunAll(cache, env, parse, invs).resolutions <= 1
    ensures cache.None? && |invs| > 0 ==>
      RunAll(cache, env, parse, invs).cache
        == Some(Gate.CheckIfFormConfigActive(env.formTableName, invs[0].world.describe, invs[0].world.scan).active)
    ensures cache.Some? ==> RunAll(cache, env, parse, invs).cache == cache
  {
    if |invs| > 0 {
      var o := Handle(cache, env, parse, invs[0]);
      ResolvedGateIsReused(o.cache, env, parse, invs[1..]);
    } else if cache.Some? {
      ResolvedGateIsReused(cache, env, parse, invs);
    }
  }
}

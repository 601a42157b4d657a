/** The backend's final error middleware: it counts every error it sees in a metrics
    record (a total, a tally per status and per error name, and the last 100 errors)
    and answers with a status and body picked by a first-match chain of rules; plus
    the 404 handler for unmatched routes. */
module ErrorHandler {
  import opened Json
  import opened Text
  import opened Http

  /** The properties of a thrown error the handler reads; None is `undefined`. Status
      fields are numbers, and 0 is falsy like `undefined`. */
  datatype ErrorRecord = ErrorRecord(
    name: Option<string>,
    code: Option<Json>,
    statusCode: Option<int>,
    status: Option<int>,
    message: Option<string>,
    details: Option<Json>,
    retryAfter: Option<Json>,
    stack: Option<string>)

  /** `err.statusCode || err.status || 500`. */
  function RecordedStatus(err: ErrorRecord): (s: int)
    ensures s != 0
    ensures err.statusCode.Some? && err.statusCode.value != 0 ==> s == err.statusCode.value
    ensures (err.statusCode.None? || err.statusCode.value == 0) && err.status.Some? && err.status.value != 0 ==> s == err.status.value
    ensures (err.statusCode.None? || err.statusCode.value == 0) && (err.status.None? || err.status.value == 0) ==> s == 500
  {
    if err.statusCode.Some? && err.statusCode.value != 0 then err.statusCode.value
    else if err.status.Some? && err.status.value != 0 then err.status.value
    else 500
  }

  /** `err.message || 'Internal Server Error'`. */
  function RecordedMessage(err: ErrorRecord): (m: string)
    ensures m != ""
    ensures err.message.Some? && err.message.value != "" ==> m == err.message.value
  {
    if err.message.Some? && err.message.value != "" then err.message.value else "Internal Server Error"
  }

  /** `err.name || 'UnknownError'`, the key of the per-type tally. */
  function TypeName(err: ErrorRecord): (k: string)
    ensures k != ""
    ensures err.name.Some? && err.name.value != "" ==> k == err.name.value
  {
    if err.name.Some? && err.name.value != "" then err.name.value else "UnknownError"
  }

  /** What the handler knows of the request and the moment: the generated error id, the
      ISO timestamp, the URL, the HTTP method, the configured `NODE_ENV` and the
      logging context it builds from the request (shown to clients outside production). */
  datatype Occasion = Occasion(errorId: string, timestamp: string, url: string, verb: string, nodeEnv: string, context: Json)

  /** The fields every error body starts from. */
  function Stamp(o: Occasion): map<string, Json> {
    map["success" := Bool(false), "errorId" := Str(o.errorId), "timestamp" := Str(o.timestamp)]
  }

  /** A fixed answer of the chain: status, `error` title, `message`. */
  function Fixed(status: int, title: string, message: string, o: Occasion): (r: Response)
    ensures r.status == status && r.body.Obj? && r.body.fields.Keys == {"success", "errorId", "timestamp", "error", "message"}
    ensures r.body.fields["success"] == Bool(false) && r.body.fields["error"] == Str(title)
  {
    Reply(status, Stamp(o)["error" := Str(title)]["message" := Str(message)])
  }

  /** The answer to a validation error: its own message (left out when undefined) and
      its details, `{}` when it has none. */
  function Invalid(err: ErrorRecord, o: Occasion): (r: Response)
    ensures r.status == 400 && r.body.Obj? && "retryAfter" !in r.body.fields
    ensures "success" in r.body.fields && "error" in r.body.fields && "details" in r.body.fields
    ensures r.body.fields["success"] == Bool(false) && r.body.fields["error"] == Str("Validation Error")
    ensures "errorId" in r.body.fields && "timestamp" in r.body.fields
    ensures r.body.fields["details"] == OrElse(err.details, Obj(map[]))
  {
    Reply(400, Stamp(o)["error" := Str("Validation Error")]["details" := OrElse(err.details, Obj(map[]))]
               + OptField("message", if err.message.Some? then Some(Str(err.message.value)) else None))
  }

  /** The answer to a rate-limit error: the error's own retry hint, else 60 seconds. */
  function RateLimited(err: ErrorRecord, o: Occasion): (r: Response)
    ensures r.status == 429 && r.body.Obj? && "errorId" in r.body.fields && "timestamp" in r.body.fields
    ensures "success" in r.body.fields && "error" in r.body.fields && "retryAfter" in r.body.fields
    ensures r.body.fields["success"] == Bool(false) && r.body.fields["error"] == Str("Rate Limited")
    ensures r.body.fields["retryAfter"] == OrElse(err.retryAfter, Num(60.0))
  {
    Reply(429, Stamp(o)["error" := Str("Rate Limited")]["message" := Str("Too many requests. Please try again later.")]
               ["retryAfter" := OrElse(err.retryAfter, Num(60.0))])
  }

  predicate MentionsCors(err: ErrorRecord) {
    err.message.Some? && err.message.value != "" && Contains(err.message.value, "CORS")
  }

  /** The response `errorHandler` sends for `err`. */
  function Classify(err: ErrorRecord, o: Occasion): (r: Response)
    ensures r.body.Obj? && "success" in r.body.fields && r.body.fields["success"] == Bool(false)
    ensures "error" in r.body.fields && "errorId" in r.body.fields && "timestamp" in r.body.fields
  {
    if err.name == Some("ValidationError") then
      Invalid(err, o)
    else if err.name == Some("UnauthorizedError") || err.name == Some("JsonWebTokenError") then
      Fixed(401, "Unauthorized", "Invalid or missing authentication token", o)
    else if err.name == Some("TokenExpiredError") then
      Fixed(401, "Token Expired", "Authentication token has expired", o)
    else if err.code == Some(Str("LIMIT_FILE_SIZE")) then
      Fixed(413, "File Too Large", "Uploaded file exceeds size limit", o)
    else if err.code == Some(Str("ENOENT")) then
      Fixed(404, "File Not Found", "Requested file does not exist", o)
    else if err.name == Some("CastError") then
      Fixed(400, "Invalid ID", "Invalid resource identifier provided", o)
    else if err.code == Some(Num(11000.0)) then
      Fixed(409, "Duplicate Resource", "Resource with this identifier already exists", o)
    else if MentionsCors(err) then
      Fixed(403, "CORS Error", "Cross-origin request blocked. Check your domain configuration.", o)
    else if err.statusCode == Some(429) then
      RateLimited(err, o)
    else
      Fallback(err, o)
  }

  /** The optional part of the default answer meant for support, present for a 500 in
      production. */
  function SupportPart(status: int, production: bool, errorId: string): (m: map<string, Json>)
    ensures m.Keys <= {"supportMessage"}
    ensures "supportMessage" in m <==> status == 500 && production
  {
    if status == 500 && production
    then map["supportMessage" := Str("If this error persists, please contact support with error ID: " + errorId)]
    else map[]
  }

  /** The optional part of the default answer meant for developers: the stack (when the
      error has one) and the request context, outside production only. */
  function DebugPart(production: bool, stack: Option<string>, context: Json): (m: map<string, Json>)
    ensures m.Keys <= {"stack", "details"}
    ensures "details" in m <==> !production
    ensures "details" in m ==> m["details"] == context
    ensures "stack" in m <==> !production && stack.Some?
  {
    if production then map[]
    else OptField("stack", if stack.Some? then Some(Str(stack.value)) else None)["details" := context]
  }

  /** The fields of the default answer that are always there. */
  function FallbackCore(status: int, production: bool, message: string, o: Occasion): (m: map<string, Json>)
    ensures m.Keys == {"success", "errorId", "timestamp", "error", "message"}
    ensures m["success"] == Bool(false)
    ensures m["error"] == Str(if status == 500 then "Internal Server Error" else "Error")
    ensures m["message"] == Str(if production && status == 500
                                then "Something went wrong. Please try again or contact support."
                                else message)
  {
    Stamp(o)
      ["error" := Str(if status == 500 then "Internal Server Error" else "Error")]
      ["message" := Str(if production && status == 500
                        then "Something went wrong. Please try again or contact support."
                        else message)]
  }

  /** The default answer when no rule applies: the recorded status; in production a 500
      hides its message behind a generic text and points to support with the error id;
      outside production the stack and the request context are included. */
  function Fallback(err: ErrorRecord, o: Occasion): (r: Response)
    ensures r.status == RecordedStatus(err) && r.body.Obj?
    ensures var f := r.body.fields; var production := o.nodeEnv == "production";
      && "success" in f && f["success"] == Bool(false)
      && "errorId" in f && "timestamp" in f && "retryAfter" !in f
      && "error" in f && f["error"] == Str(if RecordedStatus(err) == 500 then "Internal Server Error" else "Error")
      && "message" in f && f["message"] == Str(if production && RecordedStatus(err) == 500
                                              then "Something went wrong. Please try again or contact support."
                                              else RecordedMessage(err))
      && ("supportMessage" in f <==> production && RecordedStatus(err) == 500)
      && ("details" in f <==> !production) && ("details" in f ==> f["details"] == o.context)
      && ("stack" in f <==> !production && err.stack.Some?)
  {
    var status := RecordedStatus(err);
    var production := o.nodeEnv == "production";
    Reply(status, FallbackCore(status, production, RecordedMessage(err), o)
                  + SupportPart(status, production, o.errorId) + DebugPart(production, err.stack, o.context))
  }

  /** The rules of the chain, in order, as a table: whether rule `i` applies... */
  predicate RuleApplies(i: nat, err: ErrorRecord) {
    if i == 0 then err.name == Some("ValidationError")
    else if i == 1 then err.name == Some("UnauthorizedError") || err.name == Some("JsonWebTokenError")
    else if i == 2 then err.name == Some("TokenExpiredError")
    else if i == 3 then err.code == Some(Str("LIMIT_FILE_SIZE"))
    else if i == 4 then err.code == Some(Str("ENOENT"))
    else if i == 5 then err.name == Some("CastError")
    else if i == 6 then err.code == Some(Num(11000.0))
    else if i == 7 then MentionsCors(err)
    else if i == 8 then err.statusCode == Some(429)
    else false
  }

  /** ... the status it answers with ... */
  function RuleStatus(i: nat): int {
    if i == 0 then 400 else if i == 1 || i == 2 then 401 else if i == 3 then 413 else if i == 4 then 404
    else if i == 5 then 400 else if i == 6 then 409 else if i == 7 then 403 else 429
  }

  /** ... and its `error` title. */
  function RuleTitle(i: nat): string {
    if i == 0 then "Validation Error" else if i == 1 then "Unauthorized" else if i == 2 then "Token Expired"
    else if i == 3 then "File Too Large" else if i == 4 then "File Not Found" else if i == 5 then "Invalid ID"
    else if i == 6 then "Duplicate Resource" else if i == 7 then "CORS Error" else "Rate Limited"
  }

  /** ... and, for the fixed answers (all but the first and the last rule), the
      message. */
  function RuleMessage(i: nat): string {
    if i == 1 then "Invalid or missing authentication token"
    else if i == 2 then "Authentication token has expired"
    else if i == 3 then "Uploaded file exceeds size limit"
    else if i == 4 then "Requested file does not exist"
    else if i == 5 then "Invalid resource identifier provided"
    else if i == 6 then "Resource with this identifier already exists"
    else "Cross-origin request blocked. Check your domain configuration."
  }

  /** The answer rule `i` gives. */
  function RuleResponse(i: nat, err: ErrorRecord, o: Occasion): (r: Response)
    ensures r.status == RuleStatus(i) && r.body.Obj?
    ensures "error" in r.body.fields && r.body.fields["error"] == Str(RuleTitle(i))
    ensures "retryAfter" in r.body.fields <==> i >= 8
  {
    if i == 0 then Invalid(err, o)
    else if i >= 8 then RateLimited(err, o)
    else Fixed(RuleStatus(i), RuleTitle(i), RuleMessage(i), o)
  }

  const RuleCount: nat := 9

  /** The first rule at or after `k` that applies to `err`. */
  function FirstRuleFrom(err: ErrorRecord, k: nat): (r: Option<nat>)
    requires k <= RuleCount
    ensures r.Some? ==>
      && k <= r.value < RuleCount && RuleApplies(r.value, err)
      && forall j :: k <= j < r.value ==> !RuleApplies(j, err)
    ensures r.None? ==> forall j :: k <= j < RuleCount ==> !RuleApplies(j, err)
    decreases RuleCount - k
  {
    if k == RuleCount then None
    else if RuleApplies(k, err) then Some(k)
    else FirstRuleFrom(err, k + 1)
  }

  /** The first rule that applies to `err`, if any. */
  function FirstRule(err: ErrorRecord): (r: Option<nat>)
    ensures r.Some? ==>
      && r.value < RuleCount && RuleApplies(r.value, err)
      && forall j :: 0 <= j < r.value ==> !RuleApplies(j, err)
    ensures r.None? ==> forall j :: 0 <= j < RuleCount ==> !RuleApplies(j, err)
  {
    FirstRuleFrom(err, 0)
  }

  /** The `error` title of a response body. */
  function Title(r: Response): Option<Json> {
    BodyField(r, "error")
  }

  /** When rule `i` is the first that applies, the handler answers as that rule says. */
  lemma {:induction false} ClassifyByRule(err: ErrorRecord, o: Occasion, i: nat)
    requires FirstRule(err) == Some(i)
    ensures Classify(err, o) == RuleResponse(i, err, o)
  {
    if i > 0 { assert !RuleApplies(0, err); assert err.name != Some("ValidationError"); }
    if i > 1 {
      assert !RuleApplies(1, err);
      assert err.name != Some("UnauthorizedError") && err.name != Some("JsonWebTokenError");
    }
    if i > 2 { assert !RuleApplies(2, err); assert err.name != Some("TokenExpiredError"); }
    if i > 3 { assert !RuleApplies(3, err); assert err.code != Some(Str("LIMIT_FILE_SIZE")); }
    if i > 4 { assert !RuleApplies(4, err); assert err.code != Some(Str("ENOENT")); }
    if i > 5 { assert !RuleApplies(5, err); assert err.name != Some("CastError"); }
    if i > 6 { assert !RuleApplies(6, err); assert err.code != Some(Num(11000.0)); }
    if i > 7 { assert !RuleApplies(7, err); assert !MentionsCors(err); }
  }

  /** When no rule applies, the handler gives the default answer. */
  lemma ClassifyWithoutRule(err: ErrorRecord, o: Occasion)
    requires FirstRule(err).None?
    ensures Classify(err, o) == Fallback(err, o)
  {
    assert !RuleApplies(0, err) && !RuleApplies(1, err) && !RuleApplies(2, err) && !RuleApplies(3, err);
    assert !RuleApplies(4, err) && !RuleApplies(5, err) && !RuleApplies(6, err) && !RuleApplies(7, err);
    assert !RuleApplies(8, err);
    assert err.name != Some("ValidationError") && err.name != Some("UnauthorizedError");
    assert err.name != Some("JsonWebTokenError") && err.name != Some("TokenExpiredError");
    assert err.code != Some(Str("LIMIT_FILE_SIZE")) && err.code != Some(Str("ENOENT"));
    assert err.name != Some("CastError") && err.code != Some(Num(11000.0));
    assert !MentionsCors(err) && err.statusCode != Some(429);
  }

  /** The if-chain of the handler is the first-match reading of the rule table: the
      answer of the first rule that applies, else the default answer. Hence its status
      and `error` title are those of that rule. */
  lemma ClassifyFollowsRules(err: ErrorRecord, o: Occasion)
    ensures match FirstRule(err)
      case Some(i) => Classify(err, o) == RuleResponse(i, err, o)
        && Classify(err, o).status == RuleStatus(i) && Title(Classify(err, o)) == Some(Str(RuleTitle(i)))
      case None => Classify(err, o) == Fallback(err, o)
  {
    match FirstRule(err)
    case Some(i) => ClassifyByRule(err, o, i);
    case None => ClassifyWithoutRule(err, o);
  }

  /** The retry hint appears exactly when the rate-limit rule decides, and then it is the
      error's own hint or 60 seconds. */
  lemma RetryAfterOnlyForStatusCode429(err: ErrorRecord, o: Occasion)
    ensures var r := Classify(err, o);
      "retryAfter" in r.body.fields <==> FirstRule(err) == Some(8)
    ensures var r := Classify(err, o);
      FirstRule(err) == Some(8) ==> r.body.fields["retryAfter"] == OrElse(err.retryAfter, Num(60.0))
  {
    ClassifyFollowsRules(err, o);
  }

  /** An error with `status` 429 but no `statusCode` is answered 429 by the default
      branch, titled "Error" and without a retry hint. */
  lemma StatusOnly429FallsThrough(o: Occasion)
    ensures var err := ErrorRecord(None, None, None, Some(429), None, None, None, None);
      var r := Classify(err, o);
      r.status == 429 && Title(r) == Some(Str("Error")) && "retryAfter" !in r.body.fields
  {
    var err := ErrorRecord(None, None, None, Some(429), None, None, None, None);
    assert !MentionsCors(err);
  }

  /** The status the metrics record can differ from the status answered: a validation
      error without a status is counted under 500 but answered with 400. */
  lemma MetricsStatusDiffersFromResponse(o: Occasion)
    ensures var err := ErrorRecord(Some("ValidationError"), None, None, None, Some("bad"), None, None, None);
      RecordedStatus(err) == 500 && Classify(err, o).status == 400
  {
  }

  /** When no rule applies in production and the status is 500, the client sees the
      generic text and a support message quoting the error id, and no stack or
      request details; outside production the real message, the stack and context. */
  lemma FallbackHidesInternalsInProduction(err: ErrorRecord, o: Occasion)
    requires FirstRule(err).None?
    ensures var r := Classify(err, o);
      && r.status == RecordedStatus(err)
      && "message" in r.body.fields
      && (o.nodeEnv == "production" && RecordedStatus(err) == 500 ==>
            && r.body.fields["message"] == Str("Something went wrong. Please try again or contact support.")
            && "supportMessage" in r.body.fields
            && "stack" !in r.body.fields && "details" !in r.body.fields)
      && (o.nodeEnv != "production" ==>
            && r.body.fields["message"] == Str(RecordedMessage(err))
            && "supportMessage" !in r.body.fields
            && "details" in r.body.fields && r.body.fields["details"] == o.context
            && ("stack" in r.body.fields <==> err.stack.Some?))
  {
    ClassifyWithoutRule(err, o);
  }

  /** One entry of `errorMetrics.recent`. */
  datatype RecentError = RecentError(timestamp: string, status: int, message: string, url: string, verb: string)

  /** The entry recorded for `err` on occasion `o`. */
  function RecentOf(err: ErrorRecord, o: Occasion): RecentError {
    RecentError(o.timestamp, RecordedStatus(err), RecordedMessage(err), o.url, o.verb)
  }

  /** The last `n` elements of `s` (all of them when there are fewer). */
  function LastN<T>(s: seq<T>, n: nat): (r: seq<T>)
    ensures |r| == if |s| < n then |s| else n
    ensures r == s[|s| - |r|..]
  {
    if |s| <= n then s else s[|s| - n..]
  }

  /** Pushing onto a kept window and trimming it back to `n` keeps exactly the last
      `n` elements of the whole history. */
  lemma LastNAppend<T>(s: seq<T>, x: T, n: nat)
    requires n > 0
    ensures var pushed := LastN(s, n) + [x];
      (if |pushed| > n then pushed[|pushed| - n..] else pushed) == LastN(s + [x], n)
  {
    var pushed := LastN(s, n) + [x];
    var want := LastN(s + [x], n);
    var got := if |pushed| > n then pushed[|pushed| - n..] else pushed;
    assert |got| == |want|;
    forall i | 0 <= i < |got|
      ensures got[i] == want[i]
    {
      if i == |got| - 1 {
        assert got[i] == x;
      } else {
        assert got[i] == s[|s| - |got| + 1 + i];
      }
    }
  }

  /** Logging one more error bumps both tallies at its status and type name. */
  lemma LogStep(h: seq<RecentError>, kinds: seq<string>, x: RecentError, k: string)
    ensures StatusTallies(h + [x]) == Bump(StatusTallies(h), x.status)
    ensures KindTallies(kinds + [k]) == Bump(KindTallies(kinds), k)
  {
    var hx := h + [x];
    assert hx[..|hx| - 1] == h;
    var kk := kinds + [k];
    assert kk[..|kk| - 1] == kinds;
  }

  /** `(tally[key] || 0)`. */
  function Tally<K>(tally: map<K, nat>, key: K): nat {
    if key in tally then tally[key] else 0
  }

  /** `tally[key] = (tally[key] || 0) + 1`. */
  function Bump<K>(tally: map<K, nat>, key: K): (r: map<K, nat>)
    ensures r.Keys == tally.Keys + {key}
    ensures Tally(r, key) == Tally(tally, key) + 1
  {
    tally[key := Tally(tally, key) + 1]
  }

  /** The `byStatus` tally produced by logging the errors of `h` one by one. */
  function StatusTallies(h: seq<RecentError>): map<int, nat> {
    if h == [] then map[] else Bump(StatusTallies(h[..|h| - 1]), h[|h| - 1].status)
  }

  /** The `byType` tally produced by logging the type names of `kinds` one by one. */
  function KindTallies(kinds: seq<string>): map<string, nat> {
    if kinds == [] then map[] else Bump(KindTallies(kinds[..|kinds| - 1]), kinds[|kinds| - 1])
  }

  /** How many logged errors carry `status`. */
  function CountStatus(h: seq<RecentError>, status: int): (c: nat)
    ensures c <= |h|
  {
    if h == [] then 0 else CountStatus(h[..|h| - 1], status) + (if h[|h| - 1].status == status then 1 else 0)
  }

  /** How many logged errors have type name `kind`. */
  function CountKind(kinds: seq<string>, kind: string): (c: nat)
    ensures c <= |kinds|
  {
    if kinds == [] then 0 else CountKind(kinds[..|kinds| - 1], kind) + (if kinds[|kinds| - 1] == kind then 1 else 0)
  }

  /** The status tally counts, for every status, the errors logged with it; a status
      never seen has no entry. */
  lemma {:induction false} StatusTalliesCount(h: seq<RecentError>, status: int)
    ensures Tally(StatusTallies(h), status) == CountStatus(h, status)
    ensures status in StatusTallies(h) <==> CountStatus(h, status) > 0
  {
    if h != [] {
      StatusTalliesCount(h[..|h| - 1], status);
    }
  }

  /** The type tally counts, for every type name, the errors logged with it. */
  lemma {:induction false} KindTalliesCount(kinds: seq<string>, kind: string)
    ensures Tally(KindTallies(kinds), kind) == CountKind(kinds, kind)
    ensures kind in KindTallies(kinds) <==> CountKind(kinds, kind) > 0
  {
    if kinds != [] {
      KindTalliesCount(kinds[..|kinds| - 1], kind);
    }
  }

  /** `recent.push(entry)`, then `recent = recent.slice(-100)` once it holds more than
      100 entries. */
  function PushRecent(recent: seq<RecentError>, entry: RecentError): seq<RecentError> {
    var pushed := recent + [entry];
    if |pushed| > 100 then pushed[|pushed| - 100..] else pushed
  }

  /** The metrics agree with a log of errors: the total is its length, each tally is the
      one the log produces (see StatusTalliesCount and KindTalliesCount for what they
      count), and `recent` is its last 100 entries. */
  ghost predicate Consistent(total: nat, byStatus: map<int, nat>, byType: map<string, nat>, recent: seq<RecentError>,
                             history: seq<RecentError>, kinds: seq<string>)
  {
    && total == |history| == |kinds|
    && byStatus == StatusTallies(history)
    && byType == KindTallies(kinds)
    && recent == LastN(history, 100)
  }

  /** The update of one error keeps the metrics in agreement with the extended log. */
  lemma ConsistentStep(total: nat, byStatus: map<int, nat>, byType: map<string, nat>, recent: seq<RecentError>,
                       history: seq<RecentError>, kinds: seq<string>, entry: RecentError, kind: string)
    requires Consistent(total, byStatus, byType, recent, history, kinds)
    ensures Consistent(total + 1, Bump(byStatus, entry.status), Bump(byType, kind), PushRecent(recent, entry),
                       history + [entry], kinds + [kind])
  {
    LogStep(history, kinds, entry, kind);
    LastNAppend(history, entry, 100);
  }

  /** The module-level `errorMetrics` record. `history` and `kinds` are the ghost log of
      every error seen so far (its entry and its type name), against which the
      counters and the bounded `recent` window are specified. */
  class ErrorMetrics {
    var total: nat
    var byStatus: map<int, nat>
    var byType: map<string, nat>
    var recent: seq<RecentError>
    ghost var history: seq<RecentError>
    ghost var kinds: seq<string>

    /** Every counter agrees with the log (see StatusTalliesCount and KindTalliesCount
        for what the tallies count), and `recent` is its last 100 entries. */
    ghost predicate Valid()
      reads this
    {
      Consistent(total, byStatus, byType, recent, history, kinds)
    }

    constructor ()
      ensures Valid() && history == [] && kinds == []
    {
      total := 0;
      byStatus := map[];
      byType := map[];
      recent := [];
      history := [];
      kinds := [];
    }

    /** The metrics update for one error: bump the total and the two tallies, push the
        entry and trim `recent` back to its last 100. */
    method Record(err: ErrorRecord, o: Occasion)
      requires Valid()
      modifies this
      ensures Valid()
      ensures history == old(history) + [RecentOf(err, o)] && kinds == old(kinds) + [TypeName(err)]
      ensures total == old(total) + 1
      ensures byStatus == Bump(old(byStatus), RecordedStatus(err))
      ensures byType == Bump(old(byType), TypeName(err))
      ensures |recent| <= 100 && recent[|recent| - 1] == RecentOf(err, o)
    {
      var status := RecordedStatus(err);
      var kind := TypeName(err);
      var entry := RecentOf(err, o);
      ConsistentStep(total, byStatus, byType, recent, history, kinds, entry, kind);
      var pushed := recent + [entry];
      if |pushed| > 100 {
        pushed := pushed[|pushed| - 100..];
      }
      assert pushed == PushRecent(recent, entry);
      total, byStatus, byType, recent := total + 1, Bump(byStatus, status), Bump(byType, kind), pushed;
      history, kinds := history + [entry], kinds + [kind];
    }

    /** `errorHandler`: record the error, then answer it. */
    method Handle(err: ErrorRecord, o: Occasion) returns (r: Response)
      requires Valid()
      modifies this
      ensures Valid()
      ensures history == old(history) + [RecentOf(err, o)] && kinds == old(kinds) + [TypeName(err)]
      ensures r == Classify(err, o)
    {
      Record(err, o);
      r := Classify(err, o);
    }
  }

  /** The routes `notFoundHandler` advertises. */
  const AvailableEndpoints: seq<Json> := [
    Str("GET /api/health"),
    Str("GET /api/health/detailed"),
    Str("POST /api/auth/login"),
    Str("POST /api/auth/register"),
    Str("GET /api/auth/me"),
    Str("POST /api/ai/generate/text"),
    Str("POST /api/ai/generate/image")
  ]

  /** `notFoundHandler`: 404, `success: false`, and a message naming the route. */
  function NotFound(verb: string, url: string, errorId: string, timestamp: string): (r: Response)
    ensures r.status == 404 && r.body.Obj? && "success" in r.body.fields && "error" in r.body.fields
    ensures r.body.fields["success"] == Bool(false) && r.body.fields["error"] == Str("Not Found")
  {
    Reply(404, map[
      "success" := Bool(false),
      "error" := Str("Not Found"),
      "message" := Str("Route " + verb + " " + url + " not found"),
      "errorId" := Str(errorId),
      "timestamp" := Str(timestamp),
      "availableEndpoints" := Arr(AvailableEndpoints)])
  }

  /** The 404 message names the method: its second space-separated word is the method
      whenever the method itself holds no space. */
  lemma NotFoundNamesMethod(verb: string, url: string, errorId: string, timestamp: string)
    requires forall i :: 0 <= i < |verb| ==> verb[i] != ' '
    ensures var m := NotFound(verb, url, errorId, timestamp).body.fields["message"];
      m.Str? && |SplitOn(m.s, ' ')| >= 2 && SplitOn(m.s, ' ')[1] == verb
  {
    var rest := url + " not found";
    assert "Route " + verb + " " + url + " not found" == "Route" + [' '] + (verb + [' '] + rest);
    SplitAfterFirst("Route", ' ', verb + [' '] + rest);
    SplitAfterFirst(verb, ' ', rest);
  }
}

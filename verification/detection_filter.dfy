/**
 * The gateway's SQL-injection filter, one request at a time: the on/off
 * switch, the throttle check (429), reading the body, building the payload
 * and its fingerprint, the cache get-or-load step, one subscription to the
 * model call with its fail-open / fail-closed fallback, the decision
 * telemetry, and then 403 with a recorded failure for BLOCK or forwarding
 * with the replayed body for MONITOR and ALLOW.
 *
 * The model service's reply for the request is an input. Side effects on
 * collaborators are recorded as a trace of events; the throttle store and
 * the cache are state.
 */
module DetectionFilter {
  import opened Wrappers
  import opened Scoring
  import opened Fingerprint
  import opened Redaction
  import opened KeyValue
  import opened Throttling

  const Forbidden: int := 403
  const TooManyRequests: int := 429

  /** What the filter reads from a request: the URI path and query (absent = null) and the raw body bytes. */
  datatype Request = Request(path: string, query: Option<string>, body: seq<jbyte>)

  /** The body of the call to the model service. */
  datatype ModelRequest = ModelRequest(payload: string)

  /** What one subscription to the model call yields: a reply, or a failure (timeout, transport, error status, open circuit). */
  datatype ModelReply = Replied(response: ModelResponse) | CallFailed(message: string)

  /** Calls the filter makes on its collaborators, in order. */
  datatype Event =
    | ThrottleChecked(ip: string)
    | BodyRead
    | CacheLoaderRun(key: string)
    | ModelCalled(request: ModelRequest)
    | FailureLogged(message: string)
    | DecisionLogged(decision: Decision, redactedPayload: string)
    | FailedAttemptRecorded(ip: string)

  datatype EventKind = ThrottleKind | BodyKind | LoaderKind | ModelCallKind | FailureKind | DecisionKind | FailedAttemptKind

  function KindOf(e: Event): EventKind
  {
    match e
    case ThrottleChecked(_) => ThrottleKind
    case BodyRead => BodyKind
    case CacheLoaderRun(_) => LoaderKind
    case ModelCalled(_) => ModelCallKind
    case FailureLogged(_) => FailureKind
    case DecisionLogged(_, _) => DecisionKind
    case FailedAttemptRecorded(_) => FailedAttemptKind
  }

  /** How many events of one kind a trace holds. */
  function Count(trace: seq<Event>, kind: EventKind): nat
  {
    if |trace| == 0 then 0
    else (if KindOf(trace[0]) == kind then 1 else 0) + Count(trace[1..], kind)
  }

  lemma {:induction false} CountAppend(a: seq<Event>, b: seq<Event>, kind: EventKind)
    ensures Count(a + b, kind) == Count(a, kind) + Count(b, kind)
  {
    if |a| == 0 {
      assert a + b == b;
    } else {
      assert (a + b)[1..] == a[1..] + b;
      CountAppend(a[1..], b, kind);
    }
  }

  lemma CountSingle(e: Event, kind: EventKind)
    ensures Count([e], kind) == if KindOf(e) == kind then 1 else 0
  {
    assert [e][1..] == [];
  }

  /**
   * How the exchange ends: forwarded downstream, answered with a status,
   * ended by an error (fail-closed), or completed with neither, which is what
   * happens when the body stream is empty and the join yields nothing.
   */
  datatype Outcome =
    | Forwarded(request: Request)
    | Rejected(status: int)
    | Errored(message: string)
    | Completed

  /** `enabled`, `fail-open` and the two thresholds. */
  datatype FilterConfig = FilterConfig(enabled: bool, failOpen: bool, thresholds: Thresholds)

  /** The fixed configuration and library of one gateway. */
  datatype Gateway = Gateway(config: FilterConfig, throttle: ThrottleConfig, lib: Library)

  /** The shared state a request can change: the throttle store (with its clock) and the decision cache. */
  datatype GatewayState = GatewayState(store: Entries, now: int, cache: map<string, ModelRequest>)

  datatype Step = Step(outcome: Outcome, trace: seq<Event>, after: GatewayState)

  /** The fallback's telemetry and its substitute response or error. */
  datatype Fallback = Fallback(logged: seq<Event>, response: Result<ModelResponse, string>)

  /** handleFailure: log the failure, then substitute a 0.0 score (fail-open) or pass the error on (fail-closed). */
  function HandleFailure(failOpen: bool, message: string): (f: Fallback)
    ensures f.logged == [FailureLogged(message)]
    ensures f.response.Ok? <==> failOpen
    ensures f.response.Ok? ==> f.response.value.sqlInjectionScore == 0.0
    ensures f.response.Err? ==> f.response.error == message
  {
    var logged := [FailureLogged(message)];
    if failOpen then Fallback(logged, Ok(ModelResponse(0.0)))
    else Fallback(logged, Err(message))
  }

  /** The telemetry of one model call and the decision it gives, or the error it ends with. */
  datatype Scored = Scored(logged: seq<Event>, decision: Result<Decision, string>)

  /** One subscription to callModelService: the reply, or the fallback on failure, mapped through evaluateScore. */
  function CallModelService(config: FilterConfig, reply: ModelReply): (s: Scored)
    ensures s.logged == if reply.CallFailed? then [FailureLogged(reply.message)] else []
    ensures s.decision.Ok? <==> reply.Replied? || config.failOpen
    ensures s.decision.Ok? ==> s.decision.value.score == (if reply.Replied? then reply.response.sqlInjectionScore else 0.0)
    ensures s.decision.Err? ==> reply.CallFailed? && s.decision.error == reply.message
  {
    match reply
    case Replied(response) => Scored([], Ok(EvaluateScore(config.thresholds, response)))
    case CallFailed(message) =>
      var fallback := HandleFailure(config.failOpen, message);
      match fallback.response
      case Ok(response) => Scored(fallback.logged, Ok(EvaluateScore(config.thresholds, response)))
      case Err(error) => Scored(fallback.logged, Err(error))
  }

  /** The body text decoded from the request's bytes. */
  function BodyText(g: Gateway, req: Request): string
  {
    g.lib.utf8Decode(req.body)
  }

  function RequestPayload(g: Gateway, req: Request): string
  {
    Payload(req.path, req.query, BodyText(g, req))
  }

  function RequestKey(g: Gateway, req: Request): string
  {
    CacheKey(g.lib, RequestPayload(g, req))
  }

  /** Reading the body, the cache loader on a miss, and the model call. */
  function LookupEvents(key: string, loaded: bool, call: ModelRequest): seq<Event>
  {
    [BodyRead] + (if loaded then [CacheLoaderRun(key)] else []) + [ModelCalled(call)]
  }

  /** For a decision: its telemetry, followed for BLOCK by the recorded failure; nothing for an error. */
  function DecisionEvents(decision: Result<Decision, string>, redacted: string, ip: string): seq<Event>
  {
    match decision
    case Err(_) => []
    case Ok(d) => [DecisionLogged(d, redacted)] + (if d.action == Block then [FailedAttemptRecorded(ip)] else [])
  }

  /** The events of an inspected request after the throttle lookup. */
  function InspectionTrace(key: string, loaded: bool, call: ModelRequest, scored: Scored, redacted: string, ip: string): seq<Event>
  {
    LookupEvents(key, loaded, call) + scored.logged + DecisionEvents(scored.decision, redacted, ip)
  }

  /** processRequest, once the throttle has let the request through. */
  function ProcessOutcome(g: Gateway, st: GatewayState, req: Request, ip: string, reply: ModelReply): (s: Step)
    requires ValidConfig(g.throttle)
    ensures |s.trace| >= 1 && s.trace[0] == BodyRead
    ensures s.after.now == st.now && st.cache.Keys <= s.after.cache.Keys
    ensures s.outcome.Rejected? ==> s.outcome.status == Forbidden
    ensures s.after.store != st.store ==> s.outcome == Rejected(Forbidden)
  {
    if |req.body| == 0 then Step(Completed, [BodyRead], st)
    else
      var body := g.lib.utf8Decode(req.body);
      var payload := Payload(req.path, req.query, body);
      var key := CacheKey(g.lib, payload);
      var loaded := key !in st.cache;
      var call := if loaded then ModelRequest(payload) else st.cache[key];
      var cached := st.(cache := st.cache[key := call]);
      var scored := CallModelService(g.config, reply);
      var trace := InspectionTrace(key, loaded, call, scored, RedactPii(payload), ip);
      match scored.decision
      case Err(message) => Step(Errored(message), trace, cached)
      case Ok(decision) =>
        if decision.action == Block then
          Step(Rejected(Forbidden), trace, cached.(store := AfterFailedAttempt(g.throttle, st.store, st.now, ip)))
        else
          Step(Forwarded(req.(body := g.lib.utf8Encode(body))), trace, cached)
  }

  /** filter: the whole per-request flow. */
  function FilterOutcome(g: Gateway, st: GatewayState, req: Request, ip: string, reply: ModelReply): (s: Step)
    requires ValidConfig(g.throttle)
    ensures s.trace == [] <==> !g.config.enabled
    ensures s.after.now == st.now && st.cache.Keys <= s.after.cache.Keys
    ensures s.outcome.Rejected? ==> s.outcome.status == Forbidden || s.outcome.status == TooManyRequests
    ensures s.after.store != st.store ==> s.outcome == Rejected(Forbidden)
  {
    if !g.config.enabled then Step(Forwarded(req), [], st)
    else if Blocked(g.throttle, st.store, st.now, ip) then Step(Rejected(TooManyRequests), [ThrottleChecked(ip)], st)
    else
      var s := ProcessOutcome(g, st, req, ip, reply);
      s.(trace := [ThrottleChecked(ip)] + s.trace)
  }

  /** The request is inspected: detection is on, the IP is not blocked and the body is not empty. */
  predicate Inspected(g: Gateway, st: GatewayState, req: Request, ip: string)
  {
    g.config.enabled && !Blocked(g.throttle, st.store, st.now, ip) && |req.body| > 0
  }

  /**
   * Every failure is logged once, before the policy applies. Fail-open
   * substitutes 0.0 (so ALLOW when both thresholds are positive); fail-closed
   * yields no decision but the error.
   */
  lemma FallbackPolicy(config: FilterConfig, message: string)
    ensures var scored := CallModelService(config, CallFailed(message));
      scored.logged == [FailureLogged(message)]
      && (config.failOpen ==> scored.decision == Ok(EvaluateScore(config.thresholds, ModelResponse(0.0))))
      && (config.failOpen && config.thresholds.block > 0.0 && config.thresholds.monitor > 0.0
          ==> scored.decision == Ok(Decision(Allow, 0.0)))
      && (!config.failOpen ==> scored.decision == Err(message))
  {
  }

  /** A model reply is classified as is, with nothing logged as a failure. */
  lemma ReplyClassified(config: FilterConfig, response: ModelResponse)
    ensures CallModelService(config, Replied(response)) == Scored([], Ok(EvaluateScore(config.thresholds, response)))
  {
  }

  /** Detection off: the request goes on unchanged, with no throttle lookup, body read, model call or telemetry. */
  lemma DisabledPassThrough(g: Gateway, st: GatewayState, req: Request, ip: string, reply: ModelReply)
    requires ValidConfig(g.throttle) && !g.config.enabled
    ensures FilterOutcome(g, st, req, ip, reply) == Step(Forwarded(req), [], st)
  {
  }

  /** A blocked IP gets 429 after the throttle lookup alone: no body read, model call, telemetry or recorded failure. */
  lemma BlockedIpRejected(g: Gateway, st: GatewayState, req: Request, ip: string, reply: ModelReply)
    requires ValidConfig(g.throttle) && g.config.enabled && Blocked(g.throttle, st.store, st.now, ip)
    ensures FilterOutcome(g, st, req, ip, reply) == Step(Rejected(TooManyRequests), [ThrottleChecked(ip)], st)
  {
  }

  /** An empty body joins to nothing: the exchange completes without inspection or forwarding. */
  lemma EmptyBodyCompletes(g: Gateway, st: GatewayState, req: Request, ip: string, reply: ModelReply)
    requires ValidConfig(g.throttle) && g.config.enabled && !Blocked(g.throttle, st.store, st.now, ip)
    requires |req.body| == 0
    ensures FilterOutcome(g, st, req, ip, reply) == Step(Completed, [ThrottleChecked(ip), BodyRead], st)
  {
  }

  /** The fallback logs one failure event for a failed call and nothing for a reply. */
  lemma LoggedCount(config: FilterConfig, reply: ModelReply, kind: EventKind)
    ensures Count(CallModelService(config, reply).logged, kind) == if kind == FailureKind && reply.CallFailed? then 1 else 0
  {
    if reply.CallFailed? {
      CountSingle(FailureLogged(reply.message), kind);
    }
  }

  /** One body read and one model call, and a loader run only when loaded. */
  lemma LookupCount(key: string, loaded: bool, call: ModelRequest, kind: EventKind)
    ensures Count(LookupEvents(key, loaded, call), kind)
      == (if kind == BodyKind || kind == ModelCallKind then 1 else 0) + (if kind == LoaderKind && loaded then 1 else 0)
  {
    var loader: seq<Event> := if loaded then [CacheLoaderRun(key)] else [];
    CountAppend([BodyRead], loader, kind);
    CountAppend([BodyRead] + loader, [ModelCalled(call)], kind);
    CountSingle(BodyRead, kind);
    CountSingle(ModelCalled(call), kind);
    if loaded {
      CountSingle(CacheLoaderRun(key), kind);
    }
  }

  /** One decision event per decision, and one recorded failure exactly for BLOCK. */
  lemma DecisionCount(decision: Result<Decision, string>, redacted: string, ip: string, kind: EventKind)
    ensures Count(DecisionEvents(decision, redacted, ip), kind)
      == (if kind == DecisionKind && decision.Ok? then 1 else 0)
         + (if kind == FailedAttemptKind && decision.Ok? && decision.value.action == Block then 1 else 0)
  {
    if decision.Ok? {
      var d := decision.value;
      var last: seq<Event> := if d.action == Block then [FailedAttemptRecorded(ip)] else [];
      CountAppend([DecisionLogged(d, redacted)], last, kind);
      CountSingle(DecisionLogged(d, redacted), kind);
      if d.action == Block {
        CountSingle(FailedAttemptRecorded(ip), kind);
      }
    }
  }

  /** The number of events of one kind in an inspection trace. */
  lemma InspectionTraceCount(key: string, loaded: bool, call: ModelRequest, scored: Scored, redacted: string, ip: string, kind: EventKind)
    ensures Count(InspectionTrace(key, loaded, call, scored, redacted, ip), kind)
      == (if kind == BodyKind || kind == ModelCallKind then 1 else 0)
         + (if kind == LoaderKind && loaded then 1 else 0)
         + Count(scored.logged, kind)
         + (if kind == DecisionKind && scored.decision.Ok? then 1 else 0)
         + (if kind == FailedAttemptKind && scored.decision.Ok? && scored.decision.value.action == Block then 1 else 0)
  {
    var lookup := LookupEvents(key, loaded, call);
    CountAppend(lookup, scored.logged, kind);
    CountAppend(lookup + scored.logged, DecisionEvents(scored.decision, redacted, ip), kind);
    LookupCount(key, loaded, call, kind);
    DecisionCount(scored.decision, redacted, ip, kind);
  }

  /** The number of events of one kind in the trace of an inspected request. */
  lemma InspectedEventCount(g: Gateway, st: GatewayState, req: Request, ip: string, reply: ModelReply, kind: EventKind)
    requires ValidConfig(g.throttle) && Inspected(g, st, req, ip)
    ensures var s, scored := FilterOutcome(g, st, req, ip, reply), CallModelService(g.config, reply);
      Count(s.trace, kind)
      == (if kind == ThrottleKind || kind == BodyKind || kind == ModelCallKind then 1 else 0)
         + (if kind == LoaderKind && RequestKey(g, req) !in st.cache then 1 else 0)
         + (if kind == FailureKind && reply.CallFailed? then 1 else 0)
         + (if kind == DecisionKind && scored.decision.Ok? then 1 else 0)
         + (if kind == FailedAttemptKind && scored.decision.Ok? && scored.decision.value.action == Block then 1 else 0)
  {
    var key := RequestKey(g, req);
    var payload := RequestPayload(g, req);
    var loaded := key !in st.cache;
    var call := if loaded then ModelRequest(payload) else st.cache[key];
    var scored := CallModelService(g.config, reply);
    var inspection := InspectionTrace(key, loaded, call, scored, RedactPii(payload), ip);
    assert FilterOutcome(g, st, req, ip, reply).trace == [ThrottleChecked(ip)] + inspection;
    CountAppend([ThrottleChecked(ip)], inspection, kind);
    CountSingle(ThrottleChecked(ip), kind);
    InspectionTraceCount(key, loaded, call, scored, RedactPii(payload), ip, kind);
    LoggedCount(g.config, reply, kind);
  }

  /**
   * For an inspected request: one throttle lookup, one body read, one model
   * call (also on a cache hit), the cache loader only on a miss, one failure
   * event per failed call, one decision event per decision obtained, and a
   * recorded failed attempt exactly when the decision is BLOCK.
   */
  lemma InspectedEventCounts(g: Gateway, st: GatewayState, req: Request, ip: string, reply: ModelReply)
    requires ValidConfig(g.throttle) && Inspected(g, st, req, ip)
    ensures var s, scored := FilterOutcome(g, st, req, ip, reply), CallModelService(g.config, reply);
      Count(s.trace, ThrottleKind) == 1 && Count(s.trace, BodyKind) == 1 && Count(s.trace, ModelCallKind) == 1
      && Count(s.trace, LoaderKind) == (if RequestKey(g, req) in st.cache then 0 else 1)
      && Count(s.trace, FailureKind) == (if reply.CallFailed? then 1 else 0)
      && Count(s.trace, DecisionKind) == (if scored.decision.Ok? then 1 else 0)
      && Count(s.trace, FailedAttemptKind) == (if scored.decision.Ok? && scored.decision.value.action == Block then 1 else 0)
  {
    InspectedEventCount(g, st, req, ip, reply, ThrottleKind);
    InspectedEventCount(g, st, req, ip, reply, BodyKind);
    InspectedEventCount(g, st, req, ip, reply, ModelCallKind);
    InspectedEventCount(g, st, req, ip, reply, LoaderKind);
    InspectedEventCount(g, st, req, ip, reply, FailureKind);
    InspectedEventCount(g, st, req, ip, reply, DecisionKind);
    InspectedEventCount(g, st, req, ip, reply, FailedAttemptKind);
  }

  /**
   * The cache step: on a miss the call for this request's payload is stored;
   * on a hit the stored call is used as it is and the cache does not change.
   * Either way the model is called with the stored call's payload.
   */
  lemma CacheGetOrLoad(g: Gateway, st: GatewayState, req: Request, ip: string, reply: ModelReply)
    requires ValidConfig(g.throttle) && Inspected(g, st, req, ip)
    ensures var s, key := FilterOutcome(g, st, req, ip, reply), RequestKey(g, req);
      var call := if key in st.cache then st.cache[key] else ModelRequest(RequestPayload(g, req));
      s.after.cache == st.cache[key := call]
      && (key in st.cache ==> s.after.cache == st.cache)
      && ModelCalled(call) in s.trace
  {
    var key, payload := RequestKey(g, req), RequestPayload(g, req);
    var loaded := key !in st.cache;
    var call := if loaded then ModelRequest(payload) else st.cache[key];
    var scored := CallModelService(g.config, reply);
    var lookup := LookupEvents(key, loaded, call);
    assert ModelCalled(call) in lookup;
    var inspection := InspectionTrace(key, loaded, call, scored, RedactPii(payload), ip);
    assert FilterOutcome(g, st, req, ip, reply).trace == [ThrottleChecked(ip)] + inspection;
  }

  /**
   * A BLOCK decision is logged with the redacted payload, answered with 403
   * and recorded once as a failed attempt; the request is not forwarded.
   * MONITOR and ALLOW are logged the same way and forwarded with the body
   * re-encoded from the very text embedded in the payload; the throttle store
   * is left alone.
   */
  lemma DecisionOutcome(g: Gateway, st: GatewayState, req: Request, ip: string, reply: ModelReply)
    requires ValidConfig(g.throttle) && Inspected(g, st, req, ip)
    requires CallModelService(g.config, reply).decision.Ok?
    ensures var s, d := FilterOutcome(g, st, req, ip, reply), CallModelService(g.config, reply).decision.value;
      DecisionLogged(d, RedactPii(RequestPayload(g, req))) in s.trace
      && (d.action == Block ==>
            s.outcome == Rejected(Forbidden)
            && s.trace[|s.trace| - 1] == FailedAttemptRecorded(ip)
            && s.after.store == AfterFailedAttempt(g.throttle, st.store, st.now, ip))
      && (d.action != Block ==>
            s.outcome == Forwarded(Request(req.path, req.query, g.lib.utf8Encode(BodyText(g, req))))
            && RequestPayload(g, req) == Payload(req.path, req.query, BodyText(g, req))
            && s.after.store == st.store)
  {
    var s := FilterOutcome(g, st, req, ip, reply);
    var d := CallModelService(g.config, reply).decision.value;
    var event := DecisionLogged(d, RedactPii(RequestPayload(g, req)));
    if d.action == Block {
      assert s.trace[|s.trace| - 2] == event;
    } else {
      assert s.trace[|s.trace| - 1] == event;
    }
  }

  /** Fail-closed: a failed call ends the exchange with the error; nothing is forwarded and the throttle store is unchanged. */
  lemma FailClosedNotForwarded(g: Gateway, st: GatewayState, req: Request, ip: string, message: string)
    requires ValidConfig(g.throttle) && Inspected(g, st, req, ip) && !g.config.failOpen
    ensures var s := FilterOutcome(g, st, req, ip, CallFailed(message));
      s.outcome == Errored(message) && s.after.store == st.store
      && s.trace[|s.trace| - 1] == FailureLogged(message)
  {
  }

  /** Fail-open with positive thresholds: a failed call is logged and the request is allowed with score 0.0 and forwarded. */
  lemma FailOpenForwards(g: Gateway, st: GatewayState, req: Request, ip: string, message: string)
    requires ValidConfig(g.throttle) && Inspected(g, st, req, ip) && g.config.failOpen
    requires g.config.thresholds.block > 0.0 && g.config.thresholds.monitor > 0.0
    ensures var s := FilterOutcome(g, st, req, ip, CallFailed(message));
      s.outcome.Forwarded? && s.after.store == st.store
      && s.trace[|s.trace| - 2] == FailureLogged(message)
      && s.trace[|s.trace| - 1] == DecisionLogged(Decision(Allow, 0.0), RedactPii(RequestPayload(g, req)))
  {
  }

  /**
   * A request scoring 0.95 against a block threshold of 0.8 gets 403, its
   * IP's failure counter goes up by one, and BLOCK with 0.95 is logged.
   */
  lemma BlockScenario(g: Gateway, st: GatewayState, req: Request, ip: string)
    requires ValidConfig(g.throttle) && g.throttle.enabled && Inspected(g, st, req, ip)
    requires g.config.thresholds == Thresholds(0.8, 0.5)
    requires !HoldsText(st.store, st.now, AttemptsKey(ip))
    ensures var s := FilterOutcome(g, st, req, ip, Replied(ModelResponse(0.95)));
      s.outcome == Rejected(Forbidden)
      && Counter(s.after.store, st.now, AttemptsKey(ip)) == Counter(st.store, st.now, AttemptsKey(ip)) + 1
      && DecisionLogged(Decision(Block, 0.95), RedactPii(RequestPayload(g, req))) in s.trace
  {
    DecisionOutcome(g, st, req, ip, Replied(ModelResponse(0.95)));
    FailureIncrementsCounter(g.throttle, st.store, st.now, ip);
  }

  /**
   * The decision cache: a fingerprint maps to the model call built for the
   * payload that first produced it. The call is lazy, so using an entry
   * calls the model again.
   */
  class DecisionCache {
    var entries: map<string, ModelRequest>

    constructor()
      ensures entries == map[]
    {
      entries := map[];
    }

    /** get(key, loader): the stored call on a hit; on a miss the loader builds the call for `payload`, which is stored. */
    method Get(key: string, payload: string) returns (call: ModelRequest, loaded: bool)
      modifies this
      ensures loaded <==> key !in old(entries)
      ensures call == if loaded then ModelRequest(payload) else old(entries)[key]
      ensures entries == old(entries)[key := call]
    {
      if key in entries {
        call, loaded := entries[key], false;
      } else {
        call, loaded := ModelRequest(payload), true;
        entries := entries[key := call];
      }
    }
  }

  /** The filter bean with its configuration and collaborators. */
  class SQLiDetectionFilter {
    const config: FilterConfig
    const lib: Library
    const throttling: IpThrottlingService
    const cache: DecisionCache

    constructor(config: FilterConfig, lib: Library, throttling: IpThrottlingService, cache: DecisionCache)
      requires ValidConfig(throttling.config)
      ensures this.config == config && this.lib == lib && this.throttling == throttling && this.cache == cache
    {
      this.config := config;
      this.lib := lib;
      this.throttling := throttling;
      this.cache := cache;
    }

    function Settings(): Gateway
    {
      Gateway(config, throttling.config, lib)
    }

    function Current(): GatewayState
      reads throttling.store, cache
    {
      GatewayState(throttling.store.entries, throttling.store.now, cache.entries)
    }

    /** filter: the on/off switch and the throttle check, then processRequest. */
    method Filter(req: Request, clientIp: string, reply: ModelReply) returns (outcome: Outcome, trace: seq<Event>)
      requires ValidConfig(throttling.config)
      modifies throttling.store, cache
      ensures Step(outcome, trace, Current()) == FilterOutcome(Settings(), old(Current()), req, clientIp, reply)
    {
      if !config.enabled {
        return Forwarded(req), [];
      }
      var blocked := throttling.IsBlocked(clientIp);
      if blocked {
        return Rejected(TooManyRequests), [ThrottleChecked(clientIp)];
      }
      outcome, trace := ProcessRequest(req, clientIp, reply);
      trace := [ThrottleChecked(clientIp)] + trace;
    }

    /** processRequest: body, payload, fingerprint, cache, model call, decision and its effects. */
    method ProcessRequest(req: Request, clientIp: string, reply: ModelReply) returns (outcome: Outcome, trace: seq<Event>)
      requires ValidConfig(throttling.config)
      modifies throttling.store, cache
      ensures Step(outcome, trace, Current()) == ProcessOutcome(Settings(), old(Current()), req, clientIp, reply)
    {
      trace := [BodyRead];
      if |req.body| == 0 {
        return Completed, trace;
      }
      ghost var st := Current();
      var body := lib.utf8Decode(req.body);
      var payload := Payload(req.path, req.query, body);
      var payloadHash := CreateHash(lib, payload);
      var call, loaded := cache.Get(payloadHash, payload);
      if loaded {
        trace := trace + [CacheLoaderRun(payloadHash)];
      }
      trace := trace + [ModelCalled(call)];
      assert trace == LookupEvents(payloadHash, loaded, call);
      var scored := CallModelService(config, reply);
      trace := trace + scored.logged;
      assert Current() == st.(cache := st.cache[payloadHash := call]);
      if scored.decision.Err? {
        assert trace + DecisionEvents(scored.decision, RedactPii(payload), clientIp) == trace;
        return Errored(scored.decision.error), trace;
      }
      var decision := scored.decision.value;
      var decided := [DecisionLogged(decision, RedactPii(payload))];
      if decision.action == Block {
        throttling.RecordFailedAttempt(clientIp);
        decided := decided + [FailedAttemptRecorded(clientIp)];
        return Rejected(Forbidden), trace + decided;
      }
      assert decided == DecisionEvents(scored.decision, RedactPii(payload), clientIp);
      trace := trace + decided;
      outcome := Forwarded(req.(body := lib.utf8Encode(body)));
    }
  }
}

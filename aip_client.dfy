/**
 * The agent engine of the SDK: discovers a provider's manifest and caches it, resolves
 * intakes from it, submits intake data, and binds offers.
 *
 * Transport is not modelled: each `fetch` is answered by a given `Reply`, and the value
 * the client would send is returned alongside the result so that it can be stated.
 */
module AipClient {
  import opened Wrappers
  import opened Json
  import opened Text
  import opened Protocol

  /** What a client call throws. */
  datatype Failure =
      /** `new AIPError(code, message, url)` */
    | AipError(code: Value, message: Value, url: Option<string>)
      /** a property read on null or undefined, or a call of something that is not a function */
    | TypeError
      /** `res.json()` on a body that is not JSON */
    | SyntaxError
      /** `fetch` itself rejected */
    | NetworkError

  datatype Result<T> = Ok(value: T) | Err(failure: Failure)

  /** The answer to one `fetch`: none at all, or a response with its status and body. */
  datatype Reply = Unreachable | Reply(ok: bool, status: int, statusText: string, body: Payload)

  /** The options of the constructor; `consentScope` is absent or a list of scopes. */
  datatype ClientOptions = ClientOptions(agentId: Value, platform: Value, consentScope: Option<seq<string>>)

  /** The `agent` object of a request; bind requests carry no platform. */
  datatype Agent = Agent(id: Value, platform: Option<Value>, consentScope: seq<string>)

  datatype SubmitPayload = SubmitPayload(aipVersion: Value, agent: Agent, intakeData: Value, sessionId: Value)
  datatype BindPayload = BindPayload(offerId: Value, sessionId: Value, bindData: Value, agent: Agent)

  /** A request the client sends: the URL it is posted to and its body. */
  datatype Sent<P> = Sent(url: Value, payload: P)

  const DEFAULT_SCOPE := ["intake", "offer"]
  const NO_MANIFEST := AipError(Str("NO_MANIFEST"), Str("Call discover() first"), None)
  const NO_BIND_ENDPOINT := AipError(
    Str("NO_BIND_ENDPOINT"), Str("Bind endpoint URL is required. Pass it from the offer response."), None)

  function IntakeNotFound(intakeId: string): Failure {
    AipError(Str("INTAKE_NOT_FOUND"), Str("No intake with id '" + intakeId + "'"), None)
  }

  function DiscoveryUrl(baseUrl: string): string {
    baseUrl + DISCOVERY_PATH
  }

  // ---------------------------------------------------------------------------
  // Reading the cached manifest

  /** `listIntakes()` on the cached manifest. */
  function ListIntakes(manifest: Value): (r: Result<Value>)
    ensures r.Err? <==> !Truthy(manifest)
    ensures r.Err? ==> r.failure == NO_MANIFEST
    ensures r.Ok? ==> r.value == Field(manifest, "intakes")
  {
    if !Truthy(manifest) then Err(NO_MANIFEST) else Ok(Field(manifest, "intakes"))
  }

  /** Where the callback `i => i.id === intakeId` stops `find`: it throws, or it matches. */
  predicate Stops(item: Value, intakeId: string) {
    Nullish(item) || Field(item, "id") == Str(intakeId)
  }

  /** `items.find(i => i.id === intakeId)`; a null or undefined item reached first throws. */
  function FindById(items: seq<Value>, intakeId: string): (r: Result<Option<Value>>)
    ensures r.Ok? && r.value.None? <==> forall k :: 0 <= k < |items| ==> !Stops(items[k], intakeId)
    ensures r.Ok? && r.value.Some? ==>
      exists k :: 0 <= k < |items| && items[k] == r.value.value && !Nullish(items[k])
               && Field(items[k], "id") == Str(intakeId) && forall j :: 0 <= j < k ==> !Stops(items[j], intakeId)
    ensures r.Err? ==> (r.failure == TypeError &&
      exists k :: 0 <= k < |items| && Nullish(items[k]) && forall j :: 0 <= j < k ==> !Stops(items[j], intakeId))
    decreases |items|
  {
    if |items| == 0 then Ok(None)
    else if Nullish(items[0]) then Err(TypeError)
    else if Field(items[0], "id") == Str(intakeId) then Ok(Some(items[0]))
    else
      var r := FindById(items[1..], intakeId);
      assert forall k :: 1 <= k < |items| ==> items[k] == items[1..][k - 1];
      r
  }

  /** `getIntake(intakeId)` on the cached manifest. */
  function GetIntake(manifest: Value, intakeId: string): (r: Result<Value>)
    ensures !Truthy(manifest) ==> r == Err(NO_MANIFEST)
    ensures r.Ok? ==> (Truthy(manifest) && Field(manifest, "intakes").Arr?
      && var items := Field(manifest, "intakes").items;
         exists k :: 0 <= k < |items| && items[k] == r.value && Field(items[k], "id") == Str(intakeId)
                  && forall j :: 0 <= j < k ==> !Stops(items[j], intakeId))
    ensures (Truthy(manifest) && Field(manifest, "intakes").Arr?
      && var items := Field(manifest, "intakes").items;
         exists k :: 0 <= k < |items| && !Nullish(items[k]) && Field(items[k], "id") == Str(intakeId)
                  && forall j :: 0 <= j < k ==> !Stops(items[j], intakeId)) ==> r.Ok?
    ensures r == Err(IntakeNotFound(intakeId)) <==>
      Truthy(manifest) && Field(manifest, "intakes").Arr?
      && forall k :: 0 <= k < |Field(manifest, "intakes").items| ==> !Stops(Field(manifest, "intakes").items[k], intakeId)
  {
    if !Truthy(manifest) then Err(NO_MANIFEST)
    else
      var intakes := Field(manifest, "intakes");
      if !intakes.Arr? then Err(TypeError)
      else
        match FindById(intakes.items, intakeId)
        case Err(f) => Err(f)
        case Ok(None) => Err(IntakeNotFound(intakeId))
        case Ok(Some(intake)) => Ok(intake)
  }

  // ---------------------------------------------------------------------------
  // Discovery

  /** The validation `discover()` applies to the parsed manifest. */
  function CheckManifest(m: Value, url: string): (r: Result<Value>)
    ensures r.Ok? <==> !Nullish(m) && Truthy(Field(m, "aip_version")) && Truthy(Field(m, "intakes"))
    ensures r.Ok? ==> r.value == m
    ensures Nullish(m) ==> r == Err(TypeError)
    ensures !Nullish(m) && r.Err? ==> r.failure.AipError? && r.failure.code == Str("INVALID_MANIFEST") && r.failure.url == Some(url)
  {
    if Nullish(m) then Err(TypeError)
    else if !Truthy(Field(m, "aip_version")) || !Truthy(Field(m, "intakes")) then
      Err(AipError(Str("INVALID_MANIFEST"), Str("Manifest missing required fields: aip_version, intakes"), Some(url)))
    else Ok(m)
  }

  /** What `discover()` returns or throws for a reply. */
  function DiscoverResult(baseUrl: string, reply: Reply): (r: Result<Value>)
    ensures reply.Reply? && !reply.ok ==> r.Err? && r.failure.AipError? && r.failure.code == Str("DISCOVERY_FAILED")
    ensures r.Ok? ==> reply.Reply? && reply.ok && reply.body.Parsed? && r.value == reply.body.json
    ensures reply.Reply? && reply.ok && reply.body.Parsed? ==> r == CheckManifest(reply.body.json, DiscoveryUrl(baseUrl))
  {
    var url := DiscoveryUrl(baseUrl);
    match reply
    case Unreachable => Err(NetworkError)
    case Reply(ok, status, statusText, body) =>
      if !ok then
        Err(AipError(Str("DISCOVERY_FAILED"),
                     Str("Failed to fetch manifest: " + IntToString(status) + " " + statusText), Some(url)))
      else if body.Unparsable? then Err(SyntaxError)
      else CheckManifest(body.json, url)
  }

  /** The value `discover()` leaves in `this.manifest`: any parsed document, valid or not. */
  function CachedAfterDiscover(old_manifest: Value, reply: Reply): Value {
    if reply.Reply? && reply.ok && reply.body.Parsed? then reply.body.json else old_manifest
  }

  /**
   * A document lacking `aip_version` or `intakes` is rejected but stays cached: a later
   * `listIntakes` no longer reports NO_MANIFEST.
   */
  lemma InvalidManifestStaysCached(baseUrl: string, old_manifest: Value, reply: Reply)
    requires reply.Reply? && reply.ok && reply.body.Parsed? && reply.body.json.Obj?
    requires !Truthy(Field(reply.body.json, "aip_version")) || !Truthy(Field(reply.body.json, "intakes"))
    ensures DiscoverResult(baseUrl, reply).Err?
    ensures DiscoverResult(baseUrl, reply).failure.AipError?
    ensures DiscoverResult(baseUrl, reply).failure.code == Str("INVALID_MANIFEST")
    ensures ListIntakes(CachedAfterDiscover(old_manifest, reply)) == Ok(Field(reply.body.json, "intakes"))
  {
  }

  // ---------------------------------------------------------------------------
  // Submission

  /** The request `submit` sends, once the intake has been resolved. */
  function SubmitRequest(manifest: Value, agent: Agent, intake: Value, intakeData: Value,
                         sessionId: Value, freshSessionId: string): (s: Sent<SubmitPayload>)
    ensures s.url == Field(intake, "endpoint")
    ensures s.payload.aipVersion == Field(manifest, "aip_version") && s.payload.intakeData == intakeData
    ensures s.payload.sessionId == if Truthy(sessionId) then sessionId else Str(freshSessionId)
  {
    Sent(Field(intake, "endpoint"),
         SubmitPayload(Field(manifest, "aip_version"), agent, intakeData, Or(sessionId, Str(freshSessionId))))
  }

  /** How `submit` maps the parsed response: a status of `'error'` is thrown, anything else is returned as is. */
  function ReadSubmitReply(reply: Reply): (r: Result<Value>)
    ensures r.Ok? <==> (reply.Reply? && reply.body.Parsed? && !Nullish(reply.body.json)
                       && Field(reply.body.json, "status") != Str("error"))
    ensures r.Ok? ==> r.value == reply.body.json
    ensures reply.Reply? && reply.body.Parsed? && !Nullish(reply.body.json) && Field(reply.body.json, "status") == Str("error") ==>
      var e := Field(reply.body.json, "error");
      var code := if Nullish(e) then Undefined else Field(e, "code");
      var message := if Nullish(e) then Undefined else Field(e, "message");
      r == Err(AipError(if Truthy(code) then code else Str("SUBMIT_ERROR"),
                        if Truthy(message) then message else Str("Intake submission failed"), None))
  {
    match reply
    case Unreachable => Err(NetworkError)
    case Reply(_, _, _, body) =>
      if body.Unparsable? then Err(SyntaxError)
      else if Nullish(body.json) then Err(TypeError)
      else if Field(body.json, "status") == Str("error") then
        var e := Field(body.json, "error");
        Err(AipError(Or(OptField(e, "code"), Str("SUBMIT_ERROR")),
                     Or(OptField(e, "message"), Str("Intake submission failed")), None))
      else Ok(body.json)
  }

  /** `submit` never consults `res.ok`: only the `status` field of the body decides. */
  lemma SubmitIgnoresHttpStatus(reply: Reply, ok: bool, status: int)
    requires reply.Reply?
    ensures ReadSubmitReply(reply) == ReadSubmitReply(reply.(ok := ok, status := status))
  {
  }

  /** What `submit` returns or throws, given the cached manifest and the reply. */
  function SubmitResult(manifest: Value, intakeId: string, reply: Reply): Result<Value> {
    var intake := GetIntake(manifest, intakeId);
    if intake.Err? then Err(intake.failure) else ReadSubmitReply(reply)
  }

  // ---------------------------------------------------------------------------
  // Binding

  /** `[...new Set(xs)]`: the elements of `xs` once each, in order of first occurrence. */
  function Dedup(xs: seq<string>): (r: seq<string>)
    ensures NoDuplicates(r)
    ensures forall x :: x in r <==> x in xs
    ensures forall i, j :: 0 <= i < j < |r| ==> FirstIndex(xs, r[i]) < FirstIndex(xs, r[j])
    decreases |xs|
  {
    if |xs| == 0 then []
    else
      var init := xs[..|xs| - 1];
      var last := xs[|xs| - 1];
      var d := Dedup(init);
      assert xs == init + [last];
      forall y | y in init ensures FirstIndex(xs, y) == FirstIndex(init, y) {
        FirstIndexOfPrefix(init, [last], y);
      }
      if last in init then d
      else
        assert FirstIndex(xs, last) == |xs| - 1 by { FirstIndexOfFresh(init, last); }
        d + [last]
  }

  predicate NoDuplicates(xs: seq<string>) {
    forall i, j :: 0 <= i < |xs| && 0 <= j < |xs| && xs[i] == xs[j] ==> i == j
  }

  /** The position of the first occurrence of `x` in `xs`. */
  function FirstIndex(xs: seq<string>, x: string): (k: nat)
    requires x in xs
    ensures k < |xs| && xs[k] == x && forall j :: 0 <= j < k ==> xs[j] != x
    decreases |xs|
  {
    if xs[0] == x then 0 else 1 + FirstIndex(xs[1..], x)
  }

  lemma {:induction false} FirstIndexOfPrefix(xs: seq<string>, ys: seq<string>, x: string)
    requires x in xs
    ensures FirstIndex(xs + ys, x) == FirstIndex(xs, x)
    decreases |xs|
  {
    if xs[0] != x {
      assert (xs + ys)[1..] == xs[1..] + ys;
      FirstIndexOfPrefix(xs[1..], ys, x);
    }
  }

  lemma FirstIndexOfFresh(xs: seq<string>, x: string)
    requires x !in xs
    ensures FirstIndex(xs + [x], x) == |xs|
  {
  }

  /** The `consent_scope` of a bind request: the client's scopes, then `'bind'`, de-duplicated. */
  function BindScope(scope: seq<string>): seq<string> {
    Dedup(scope + ["bind"])
  }

  /** `'bind'` occurs exactly once, and the scopes keep their first-occurrence order. */
  lemma BindScopeShape(scope: seq<string>)
    ensures "bind" in BindScope(scope) && NoDuplicates(BindScope(scope))
    ensures forall x :: x in BindScope(scope) <==> x in scope || x == "bind"
    ensures "bind" !in scope ==> BindScope(scope) == Dedup(scope) + ["bind"]
    ensures "bind" in scope ==> BindScope(scope) == Dedup(scope)
  {
    assert (scope + ["bind"])[..|scope|] == scope;
  }

  /** What `bind` resolves to: the parsed response, whatever its status. */
  function ReadBindReply(reply: Reply): (r: Result<Value>)
    ensures r.Ok? <==> reply.Reply? && reply.body.Parsed?
    ensures r.Ok? ==> r.value == reply.body.json
  {
    match reply
    case Unreachable => Err(NetworkError)
    case Reply(_, _, _, body) => if body.Unparsable? then Err(SyntaxError) else Ok(body.json)
  }

  /** The condition under which `fullFlow` goes on to bind. */
  predicate ShouldBind(bindData: Value, offer: Value) {
    && Truthy(bindData)
    && Field(offer, "status") == Str("offer")
    && Truthy(OptField(Field(offer, "offer"), "bind_endpoint"))
  }

  datatype FlowResult = FlowResult(manifest: Value, offer: Value, bound: Option<Value>)

  /** The agent engine: the state of one `AIPClient` instance. */
  class AIPClient {
    var baseUrl: string
    var agentId: Value
    var platform: Value
    var consentScope: seq<string>
    var manifest: Value

    /** `uuid` stands for `crypto.randomUUID()`, used only when no agent id is given. */
    constructor (baseUrl: string, options: ClientOptions, uuid: string)
      ensures this.baseUrl == StripTrailingSlash(baseUrl)
      ensures agentId == if Truthy(options.agentId) then options.agentId
                         else Str("aip-client-" + uuid[..if |uuid| < 8 then |uuid| else 8])
      ensures platform == if Truthy(options.platform) then options.platform else Str("custom")
      ensures consentScope == if options.consentScope.Some? then options.consentScope.value else ["intake", "offer"]
      ensures manifest == Null
    {
      this.baseUrl := StripTrailingSlash(baseUrl);
      agentId := Or(options.agentId, Str("aip-client-" + uuid[..if |uuid| < 8 then |uuid| else 8]));
      platform := Or(options.platform, Str("custom"));
      consentScope := if options.consentScope.Some? then options.consentScope.value else DEFAULT_SCOPE;
      manifest := Null;
    }

    /** The `agent` block of a submit request. */
    function SubmitAgent(): Agent
      reads this
    {
      Agent(agentId, Some(platform), consentScope)
    }

    /** `discover()`: the parsed document is cached before it is validated. */
    method Discover(reply: Reply) returns (r: Result<Value>)
      modifies this`manifest
      ensures r == DiscoverResult(baseUrl, reply)
      ensures manifest == CachedAfterDiscover(old(manifest), reply)
    {
      var url := DiscoveryUrl(baseUrl);
      if reply.Unreachable? {
        return Err(NetworkError);
      }
      if !reply.ok {
        return Err(AipError(Str("DISCOVERY_FAILED"),
          Str("Failed to fetch manifest: " + IntToString(reply.status) + " " + reply.statusText), Some(url)));
      }
      if reply.body.Unparsable? {
        return Err(SyntaxError);
      }
      manifest := reply.body.json;
      if Nullish(manifest) {
        return Err(TypeError);
      }
      if !Truthy(Field(manifest, "aip_version")) || !Truthy(Field(manifest, "intakes")) {
        return Err(AipError(Str("INVALID_MANIFEST"), Str("Manifest missing required fields: aip_version, intakes"), Some(url)));
      }
      r := Ok(manifest);
    }

    /**
     * `submit(intakeId, intakeData, {sessionId})`: resolves the intake before anything is
     * sent; `freshSessionId` stands for `crypto.randomUUID()`.
     */
    method Submit(intakeId: string, intakeData: Value, sessionId: Value, freshSessionId: string, reply: Reply)
      returns (sent: Option<Sent<SubmitPayload>>, r: Result<Value>)
      ensures GetIntake(manifest, intakeId).Err? ==> sent.None? && r == Err(GetIntake(manifest, intakeId).failure)
      ensures GetIntake(manifest, intakeId).Ok? ==>
        sent == Some(SubmitRequest(manifest, SubmitAgent(),
                                   GetIntake(manifest, intakeId).value, intakeData, sessionId, freshSessionId))
        && r == ReadSubmitReply(reply)
    {
      var intake := GetIntake(manifest, intakeId);
      if intake.Err? {
        return None, Err(intake.failure);
      }
      var sid := Or(sessionId, Str(freshSessionId));
      var payload := SubmitPayload(Field(manifest, "aip_version"), SubmitAgent(), intakeData, sid);
      sent := Some(Sent(Field(intake.value, "endpoint"), payload));
      if reply.Unreachable? {
        return sent, Err(NetworkError);
      }
      if reply.body.Unparsable? {
        return sent, Err(SyntaxError);
      }
      var response := reply.body.json;
      if Nullish(response) {
        return sent, Err(TypeError);
      }
      if Field(response, "status") == Str("error") {
        var e := Field(response, "error");
        return sent, Err(AipError(Or(OptField(e, "code"), Str("SUBMIT_ERROR")),
                                  Or(OptField(e, "message"), Str("Intake submission failed")), None));
      }
      r := Ok(response);
    }

    /** `bind(offerId, sessionId, bindData, {bindEndpoint})`: nothing is sent without an endpoint. */
    method Bind(offerId: Value, sessionId: Value, bindData: Value, bindEndpoint: Value, reply: Reply)
      returns (sent: Option<Sent<BindPayload>>, r: Result<Value>)
      ensures !Truthy(bindEndpoint) ==> sent.None? && r == Err(NO_BIND_ENDPOINT)
      ensures Truthy(bindEndpoint) ==>
        sent == Some(Sent(bindEndpoint, BindPayload(offerId, sessionId, bindData, Agent(agentId, None, BindScope(consentScope)))))
        && r == ReadBindReply(reply)
    {
      if !Truthy(bindEndpoint) {
        return None, Err(NO_BIND_ENDPOINT);
      }
      var scope := Dedup(consentScope + ["bind"]);
      sent := Some(Sent(bindEndpoint, BindPayload(offerId, sessionId, bindData, Agent(agentId, None, scope))));
      if reply.Unreachable? {
        return sent, Err(NetworkError);
      }
      if reply.body.Unparsable? {
        return sent, Err(SyntaxError);
      }
      r := Ok(reply.body.json);
    }

    /**
     * `fullFlow(intakeId, intakeData, bindData)`: discover, submit, and bind exactly when
     * `ShouldBind` holds of the offer response, passing that offer's id, session and endpoint.
     */
    method FullFlow(intakeId: string, intakeData: Value, bindData: Value, freshSessionId: string,
                    discoverReply: Reply, submitReply: Reply, bindReply: Reply)
      returns (submitSent: Option<Sent<SubmitPayload>>, bindSent: Option<Sent<BindPayload>>, r: Result<FlowResult>)
      modifies this`manifest
      ensures manifest == CachedAfterDiscover(old(manifest), discoverReply)
      ensures var d := DiscoverResult(baseUrl, discoverReply);
        && (d.Err? ==> r == Err(d.failure) && submitSent.None? && bindSent.None?)
        && (d.Ok? ==>
              var i := GetIntake(d.value, intakeId);
              && (i.Err? ==> submitSent.None?)
              && (i.Ok? ==> submitSent == Some(SubmitRequest(d.value, SubmitAgent(), i.value, intakeData, Undefined, freshSessionId)))
              && var s := SubmitResult(d.value, intakeId, submitReply);
              && (s.Err? ==> r == Err(s.failure) && bindSent.None?)
              && (s.Ok? ==>
                    var offer := s.value;
                    var inner := Field(offer, "offer");
                    && (bindSent.Some? <==> ShouldBind(bindData, offer))
                    && (bindSent.Some? ==>
                          bindSent.value == Sent(Field(inner, "bind_endpoint"),
                            BindPayload(Field(inner, "id"), Field(offer, "session_id"), bindData,
                                        Agent(agentId, None, BindScope(consentScope)))))
                    && (!ShouldBind(bindData, offer) ==> r == Ok(FlowResult(d.value, offer, None)))
                    && (ShouldBind(bindData, offer) ==>
                          var b := ReadBindReply(bindReply);
                          r == if b.Err? then Err(b.failure) else Ok(FlowResult(d.value, offer, Some(b.value))))))
    {
      var m := Discover(discoverReply);
      var offer;
      if m.Err? {
        return None, None, Err(m.failure);
      }
      submitSent, offer := Submit(intakeId, intakeData, Undefined, freshSessionId, submitReply);
      if offer.Err? {
        return submitSent, None, Err(offer.failure);
      }
      var response := offer.value;
      if Truthy(bindData) && Field(response, "status") == Str("offer")
         && Truthy(OptField(Field(response, "offer"), "bind_endpoint")) {
        var inner := Field(response, "offer");
        var sent, bound := Bind(Field(inner, "id"), Field(response, "session_id"), bindData,
                                Field(inner, "bind_endpoint"), bindReply);
        bindSent := sent;
        if bound.Err? {
          return submitSent, bindSent, Err(bound.failure);
        }
        r := Ok(FlowResult(m.value, response, Some(bound.value)));
      } else {
        bindSent := None;
        r := Ok(FlowResult(m.value, response, None));
      }
    }
  }
}

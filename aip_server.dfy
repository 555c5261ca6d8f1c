/**
 * The provider engine of the SDK: an intake registry, the manifest built from it, an
 * in-memory offer store, and the two request flows (intake and bind).
 *
 * Each flow is specified by a function from (registry, store, request) to a `Step`,
 * the response together with the store afterwards; the class `AIPServer` carries the
 * same state in fields and its methods perform the flows statement by statement.
 */
module AipServer {
  import opened Wrappers
  import opened Json
  import opened Text
  import opened Protocol

  /** The second argument a handler receives: `{ session_id, agent }`. */
  datatype Context = Context(sessionId: Value, agent: Value)

  /** What awaiting a registered handler gives: it throws, or it returns a value. */
  datatype Outcome = Threw | Returned(value: Value)

  /** `config.handler`: `async (intakeData, session) => result`. */
  type Handler = (Value, Context) -> Outcome

  /** The record kept in `activeOffers` for an issued offer. */
  datatype StoredOffer = StoredOffer(sessionId: Value, intakeData: Value, result: Value, intakeId: Option<string>)

  /** `config.onBind`: `async (bindData, storedOffer) => result`. */
  type BindHandler = (Value, StoredOffer) -> Outcome

  datatype Privacy = Privacy(dataRetention: string, piiRequired: bool, redactedAcceptable: bool)

  /** An intake descriptor as listed in the manifest. */
  datatype Intake = Intake(
    id: string,
    name: Value,
    description: Value,
    endpoint: string,
    httpMethod: string,
    category: Value,
    inputSchema: Value,
    offerType: Value,
    bindingAvailable: bool,
    requiresAuth: bool,
    privacy: Privacy)

  /** The argument of `addIntake`. `onBind` is kept only when it is given (truthy). */
  datatype IntakeConfig = IntakeConfig(
    id: string,
    name: Value,
    description: Value,
    category: Value,
    inputSchema: Value,
    offerType: Value,
    bindingAvailable: Value,
    handler: Handler,
    onBind: Option<BindHandler>)

  /** `{ aip_version, provider, intakes }`. */
  datatype ManifestDoc = ManifestDoc(aipVersion: Value, provider: Value, intakes: seq<Intake>)

  /** The state a request is served against, apart from the offer store. */
  datatype Registry = Registry(
    provider: Value,
    baseUrl: string,
    version: Value,
    intakes: seq<Intake>,
    handlers: map<string, Handler>,
    bindHandlers: map<string, BindHandler>)

  type ServerResponse = Response<ManifestDoc, Value, Value>
  type ServerStep = Step<StoredOffer, ManifestDoc, Value, Value>

  const PRIVACY := Privacy("none", false, true)
  const DEFAULT_BIND_REQUIRES := Strs(["email", "full_name"])
  const OFFER_TTL_MS := 7 * DAY_MS
  const PROCESS_FAILED := "Failed to process intake"
  const BIND_FAILED := "Failed to process bind request"

  /** The request path an intake is served on: `/api/aip/<id>`. */
  function IntakePath(id: string): string {
    INTAKE_PREFIX + id
  }

  /** The descriptor `addIntake` pushes for `config`, with the defaults filled in. */
  function Descriptor(baseUrl: string, config: IntakeConfig): (d: Intake)
    ensures d.id == config.id
    ensures d.endpoint == baseUrl + "/api/aip/" + config.id && d.httpMethod == "POST"
    ensures d.description == if Truthy(config.description) then config.description else config.name
    ensures d.offerType == if Truthy(config.offerType) then config.offerType else Str("quote")
    ensures d.bindingAvailable <==> config.bindingAvailable != Bool(false)
    ensures !d.requiresAuth && d.privacy == PRIVACY
  {
    Intake(
      config.id, config.name, Or(config.description, config.name), baseUrl + IntakePath(config.id), "POST",
      config.category, config.inputSchema, Or(config.offerType, Str("quote")),
      config.bindingAvailable != Bool(false), false, PRIVACY)
  }

  /**
   * The registry invariant: every descriptor's endpoint is the base URL followed by its
   * intake path, and the handler table is keyed by exactly those paths.
   */
  ghost predicate RegistryConsistent(baseUrl: string, intakes: seq<Intake>, paths: set<string>) {
    && (forall k :: 0 <= k < |intakes| ==>
          intakes[k].endpoint == baseUrl + IntakePath(intakes[k].id) && IntakePath(intakes[k].id) in paths)
    && (forall p :: p in paths ==> exists k :: 0 <= k < |intakes| && IntakePath(intakes[k].id) == p)
  }

  lemma AddIntakeKeepsConsistency(baseUrl: string, intakes: seq<Intake>, paths: set<string>, config: IntakeConfig)
    requires RegistryConsistent(baseUrl, intakes, paths)
    ensures RegistryConsistent(baseUrl, intakes + [Descriptor(baseUrl, config)], paths + {IntakePath(config.id)})
  {
    var intakes' := intakes + [Descriptor(baseUrl, config)];
    forall p | p in paths + {IntakePath(config.id)}
      ensures exists k :: 0 <= k < |intakes'| && IntakePath(intakes'[k].id) == p
    {
      if p in paths {
        var k :| 0 <= k < |intakes| && IntakePath(intakes[k].id) == p;
        assert intakes'[k] == intakes[k];
      } else {
        assert IntakePath(intakes'[|intakes|].id) == p;
      }
    }
  }

  /** `intakes.find(i => i.endpoint.endsWith(path))`. */
  function FindIntake(intakes: seq<Intake>, path: string): (r: Option<Intake>)
    ensures r.None? <==> forall k :: 0 <= k < |intakes| ==> !EndsWith(intakes[k].endpoint, path)
    ensures r.Some? ==> exists k :: 0 <= k < |intakes| && intakes[k] == r.value && EndsWith(intakes[k].endpoint, path)
                                    && forall j :: 0 <= j < k ==> !EndsWith(intakes[j].endpoint, path)
    decreases |intakes|
  {
    if |intakes| == 0 then None
    else if EndsWith(intakes[0].endpoint, path) then Some(intakes[0])
    else
      var r := FindIntake(intakes[1..], path);
      assert forall k :: 1 <= k < |intakes| ==> intakes[k] == intakes[1..][k - 1];
      r
  }

  /** In a consistent registry, the intake a routed request belongs to is always found. */
  lemma RegisteredPathFindsIntake(baseUrl: string, intakes: seq<Intake>, paths: set<string>, path: string)
    requires RegistryConsistent(baseUrl, intakes, paths)
    requires path in paths
    ensures FindIntake(intakes, path).Some?
  {
    var k :| 0 <= k < |intakes| && IntakePath(intakes[k].id) == path;
    EndsWithConcat(baseUrl, path);
  }

  /** `getManifest()`. */
  function ManifestOf(reg: Registry): ManifestDoc {
    ManifestDoc(reg.version, reg.provider, reg.intakes)
  }

  /** An intake descriptor as a client reads it after `JSON.stringify` and `JSON.parse`. */
  function IntakeJson(i: Intake): (v: Value)
    ensures Field(v, "id") == Str(i.id) && Field(v, "endpoint") == Str(i.endpoint)
  {
    Obj(map[
      "id" := Str(i.id), "name" := i.name, "description" := i.description,
      "endpoint" := Str(i.endpoint), "method" := Str(i.httpMethod), "category" := i.category,
      "input_schema" := i.inputSchema, "offer_type" := i.offerType,
      "binding_available" := Bool(i.bindingAvailable), "requires_auth" := Bool(i.requiresAuth),
      "privacy" := Obj(map[
        "data_retention" := Str(i.privacy.dataRetention),
        "pii_required" := Bool(i.privacy.piiRequired),
        "redacted_acceptable" := Bool(i.privacy.redactedAcceptable)])])
  }

  /** The discovery document as a client reads it. */
  function ManifestJson(m: ManifestDoc): (v: Value)
    ensures Field(v, "aip_version") == m.aipVersion
    ensures Field(v, "intakes") == Arr(seq(|m.intakes|, k requires 0 <= k < |m.intakes| => IntakeJson(m.intakes[k])))
  {
    Obj(map[
      "aip_version" := m.aipVersion, "provider" := m.provider,
      "intakes" := Arr(seq(|m.intakes|, k requires 0 <= k < |m.intakes| => IntakeJson(m.intakes[k])))])
  }

  /** The default bind result when the intake has no `onBind`. */
  function DefaultBindResult(offerId: string): Value {
    Obj(map["status" := Str("bound"), "message" := Str("Binding confirmed for offer " + offerId + ".")])
  }

  /** `_handleIntake`: envelope check, handler, mint the offer, store it, respond. */
  function IntakeStep(reg: Registry, store: map<string, StoredOffer>, path: string, body: Payload,
                      offerId: string, now: int): ServerStep
  {
    var failed := Step(Response(500, Failed(reg.version, Null, INTERNAL_ERROR, PROCESS_FAILED)), store);
    if body.Unparsable? || Nullish(body.json) then failed
    else
      var request := body.json;
      var intakeData := Field(request, "intake_data");
      var sessionId := Field(request, "session_id");
      if !Truthy(intakeData) || !Truthy(sessionId) then
        Step(Response(400, Failed(reg.version, SessionEcho(sessionId), INVALID_INPUT, MISSING_ENVELOPE)), store)
      else if path !in reg.handlers then failed
      else
        match reg.handlers[path](intakeData, Context(sessionId, Field(request, "agent")))
        case Threw => failed
        case Returned(result) =>
          var config := FindIntake(reg.intakes, path);
          var binding := config.Some? && config.value.bindingAvailable;
          if binding && Nullish(result) then failed
          else
            var intakeId := if config.Some? then Some(config.value.id) else None;
            var stored := store[offerId := StoredOffer(sessionId, intakeData, result, intakeId)];
            if Nullish(result) then failed.(store := stored)
            else
              var offer := Offer(
                offerId, Field(result, "summary"), Field(result, "details"), Some(now + OFFER_TTL_MS),
                if binding then Some(reg.baseUrl + BIND_PATH) else None,
                if binding then Some(Or(Field(result, "bind_requires"), DEFAULT_BIND_REQUIRES)) else None);
              Step(Response(200, Issued(reg.version, sessionId, offer)), stored)
  }

  /** `_handleBind`: look the offer up, run `onBind` or acknowledge, then delete the offer. */
  function BindStep(bindHandlers: map<string, BindHandler>, store: map<string, StoredOffer>, body: Payload): ServerStep
  {
    var failed := Step(Response(500, Message(BIND_FAILED)), store);
    if body.Unparsable? || Nullish(body.json) then failed
    else
      var offerId := Field(body.json, "offer_id");
      var bindData := Field(body.json, "bind_data");
      match Lookup(store, offerId)
      case None => Step(Response(404, Message(OFFER_NOT_FOUND)), store)
      case Some(offer) =>
        if offer.intakeId.Some? && offer.intakeId.value in bindHandlers then
          match bindHandlers[offer.intakeId.value](bindData, offer)
          case Threw => failed
          case Returned(result) => Step(Response(200, Bound(result)), store - {offerId.s})
        else
          Step(Response(200, Bound(DefaultBindResult(offerId.s))), store - {offerId.s})
  }

  /** `requestHandler()`: the routing of one request. */
  function ServeStep(reg: Registry, store: map<string, StoredOffer>, req: Request, offerId: string, now: int): ServerStep
  {
    match RouteOf(req.verb, req.url, reg.handlers.Keys)
    case Preflight => Step(Response(204, NoBody), store)
    case Discovery => Step(Response(200, Manifest(ManifestOf(reg))), store)
    case IntakeRoute => IntakeStep(reg, store, req.url, req.body, offerId, now)
    case BindRoute => BindStep(reg.bindHandlers, store, req.body)
    case NoRoute => Step(Response(404, Message(NOT_FOUND)), store)
  }

  // ---------------------------------------------------------------------------
  // Properties of the intake flow

  /**
   * A request missing `intake_data` or `session_id` is answered 400 INVALID_INPUT,
   * echoing `session_id || null`, with the store unchanged, whatever handlers are registered.
   */
  lemma IntakeEnvelopeChecked(reg: Registry, other: map<string, Handler>, store: map<string, StoredOffer>,
                              path: string, request: Value, offerId: string, now: int)
    requires !Nullish(request) && !EnvelopeComplete(request)
    ensures IntakeStep(reg, store, path, Parsed(request), offerId, now)
         == Step(Response(400, Failed(reg.version, SessionEcho(Field(request, "session_id")), INVALID_INPUT, MISSING_ENVELOPE)), store)
    ensures IntakeStep(reg, store, path, Parsed(request), offerId, now)
         == IntakeStep(reg.(handlers := other), store, path, Parsed(request), offerId, now)
  {
  }

  /** An unparsable body or a handler that throws gives 500 INTERNAL_ERROR with a fixed message and stores nothing. */
  lemma IntakeFailureStoresNothing(reg: Registry, store: map<string, StoredOffer>, path: string, body: Payload,
                                   offerId: string, now: int)
    requires body.Unparsable? || (
      && !Nullish(body.json) && EnvelopeComplete(body.json) && path in reg.handlers
      && reg.handlers[path](Field(body.json, "intake_data"),
                            Context(Field(body.json, "session_id"), Field(body.json, "agent"))).Threw?)
    ensures IntakeStep(reg, store, path, body, offerId, now)
         == Step(Response(500, Failed(reg.version, Null, INTERNAL_ERROR, "Failed to process intake")), store)
  {
  }

  /**
   * A successful intake answers with an offer whose id is the minted one, and adds exactly
   * that one entry to the store; no other entry changes.
   */
  lemma IntakeSuccessStoresOneOffer(reg: Registry, store: map<string, StoredOffer>, path: string, body: Payload,
                                    offerId: string, now: int)
    requires offerId !in store
    requires IntakeStep(reg, store, path, body, offerId, now).response.status == 200
    ensures var s := IntakeStep(reg, store, path, body, offerId, now);
      && s.response.body.Issued? && s.response.body.offer.id == offerId
      && s.response.body.sessionId == Field(body.json, "session_id")
      && s.response.body.offer.expires == Some(now + OFFER_TTL_MS)
      && s.store.Keys == store.Keys + {offerId} && |s.store| == |store| + 1
      && (forall k :: k in store ==> s.store[k] == store[k])
      && s.store[offerId].sessionId == Field(body.json, "session_id")
      && s.store[offerId].intakeData == Field(body.json, "intake_data")
  {
  }

  /**
   * `bind_endpoint` and `bind_requires` appear exactly when the intake is bindable;
   * `bind_requires` is the handler's own list when truthy, otherwise `['email', 'full_name']`.
   */
  lemma IntakeBindFields(reg: Registry, store: map<string, StoredOffer>, path: string, body: Payload,
                         offerId: string, now: int)
    requires IntakeStep(reg, store, path, body, offerId, now).response.status == 200
    ensures var s := IntakeStep(reg, store, path, body, offerId, now);
      var config := FindIntake(reg.intakes, path);
      var binding := config.Some? && config.value.bindingAvailable;
      var result := s.store[offerId].result;
      && s.response.body.Issued?
      && (s.response.body.offer.bindEndpoint.Some? <==> binding)
      && (s.response.body.offer.bindRequires.Some? <==> binding)
      && (binding ==> s.response.body.offer.bindEndpoint == Some(reg.baseUrl + "/api/aip/bind"))
      && (binding && !Truthy(Field(result, "bind_requires")) ==>
            s.response.body.offer.bindRequires == Some(Strs(["email", "full_name"])))
      && (binding && Truthy(Field(result, "bind_requires")) ==>
            s.response.body.offer.bindRequires == Some(Field(result, "bind_requires")))
  {
  }

  /** Whatever happens, the intake flow changes the store at most at the minted offer id. */
  lemma IntakeTouchesOnlyOfferId(reg: Registry, store: map<string, StoredOffer>, path: string, body: Payload,
                                 offerId: string, now: int)
    ensures var s := IntakeStep(reg, store, path, body, offerId, now);
      && s.store.Keys <= store.Keys + {offerId}
      && store.Keys <= s.store.Keys
      && (forall k :: k in store && k != offerId ==> s.store[k] == store[k])
      && (s.response.status != 200 && s.store != store ==>
            s.response.status == 500 && offerId in s.store && Nullish(s.store[offerId].result))
  {
  }

  /**
   * As written, a handler that returns `null` or `undefined` for a non-bindable intake
   * makes the flow store the offer (line 173) before `result.summary` throws (line 179):
   * the response is 500, yet the offer stays in the store.
   */
  lemma NullResultStoredDespiteError(reg: Registry, store: map<string, StoredOffer>, path: string,
                                     request: Value, offerId: string, now: int)
    requires !Nullish(request) && EnvelopeComplete(request) && path in reg.handlers
    requires reg.handlers[path](Field(request, "intake_data"),
                                Context(Field(request, "session_id"), Field(request, "agent"))) == Returned(Null)
    requires forall k :: 0 <= k < |reg.intakes| && EndsWith(reg.intakes[k].endpoint, path) ==> !reg.intakes[k].bindingAvailable
    ensures var s := IntakeStep(reg, store, path, Parsed(request), offerId, now);
      s.response.status == 500 && offerId in s.store
  {
    var config := FindIntake(reg.intakes, path);
    assert config.Some? ==> !config.value.bindingAvailable;
  }

  // ---------------------------------------------------------------------------
  // Properties of the bind flow

  /** An unknown `offer_id` gives 404 and leaves the store unchanged. */
  lemma BindUnknownOffer(bindHandlers: map<string, BindHandler>, store: map<string, StoredOffer>, request: Value)
    requires !Nullish(request)
    requires !(Field(request, "offer_id").Str? && Field(request, "offer_id").s in store)
    ensures BindStep(bindHandlers, store, Parsed(request)) == Step(Response(404, Message(OFFER_NOT_FOUND)), store)
  {
  }

  /** A successful bind consumes the offer: it was stored, and afterwards only it is gone. */
  lemma BindSuccessConsumes(bindHandlers: map<string, BindHandler>, store: map<string, StoredOffer>, body: Payload)
    requires BindStep(bindHandlers, store, body).response.status == 200
    ensures body.Parsed? && Field(body.json, "offer_id").Str?
    ensures var id := Field(body.json, "offer_id").s;
      id in store && BindStep(bindHandlers, store, body).store == store - {id}
  {
  }

  /**
   * At most once, for sequential requests: after a successful bind, any later bind
   * naming the same offer id observes 404.
   */
  lemma {:induction false} RebindIsNotFound(bindHandlers: map<string, BindHandler>, store: map<string, StoredOffer>,
                                            first: Payload, again: Value)
    requires BindStep(bindHandlers, store, first).response.status == 200
    requires !Nullish(again) && Field(again, "offer_id") == Field(first.json, "offer_id")
    ensures BindStep(bindHandlers, BindStep(bindHandlers, store, first).store, Parsed(again)).response
         == Response(404, Message(OFFER_NOT_FOUND))
  {
    BindSuccessConsumes(bindHandlers, store, first);
  }

  /** Without `onBind`, the response is the default acknowledgement naming the offer. */
  lemma BindDefaultAcknowledges(bindHandlers: map<string, BindHandler>, store: map<string, StoredOffer>, request: Value)
    requires !Nullish(request)
    requires Field(request, "offer_id").Str? && Field(request, "offer_id").s in store
    requires var offer := store[Field(request, "offer_id").s];
      offer.intakeId.None? || offer.intakeId.value !in bindHandlers
    ensures var id := Field(request, "offer_id").s;
      BindStep(bindHandlers, store, Parsed(request))
        == Step(Response(200, Bound(Obj(map["status" := Str("bound"),
                                            "message" := Str("Binding confirmed for offer " + id + ".")]))),
                store - {id})
  {
  }

  /** If `onBind` throws, the response is 500 and the offer is not deleted. */
  lemma BindHandlerFailureKeepsOffer(bindHandlers: map<string, BindHandler>, store: map<string, StoredOffer>,
                                     request: Value)
    requires !Nullish(request)
    requires Field(request, "offer_id").Str? && Field(request, "offer_id").s in store
    requires var offer := store[Field(request, "offer_id").s];
      offer.intakeId.Some? && offer.intakeId.value in bindHandlers
      && bindHandlers[offer.intakeId.value](Field(request, "bind_data"), offer).Threw?
    ensures BindStep(bindHandlers, store, Parsed(request)) == Step(Response(500, Message(BIND_FAILED)), store)
  {
  }

  // ---------------------------------------------------------------------------
  // Routing

  /** Only the intake and bind routes can change the store. */
  lemma OtherRoutesKeepStore(reg: Registry, store: map<string, StoredOffer>, req: Request, offerId: string, now: int)
    requires RouteOf(req.verb, req.url, reg.handlers.Keys) !in {IntakeRoute, BindRoute}
    ensures ServeStep(reg, store, req, offerId, now).store == store
    ensures ServeStep(reg, store, req, offerId, now).response.status in {200, 204, 404}
  {
  }

  /** An intake registered with id `bind` shadows the bind endpoint. */
  lemma IntakePathShadowsBind(reg: Registry, store: map<string, StoredOffer>, body: Payload, offerId: string, now: int)
    requires IntakePath("bind") in reg.handlers
    ensures ServeStep(reg, store, Request("POST", BIND_PATH, body), offerId, now)
         == IntakeStep(reg, store, BIND_PATH, body, offerId, now)
  {
    assert IntakePath("bind") == BIND_PATH;
  }

  /** The provider engine: the state of one `AIPServer` instance. */
  class AIPServer {
    var provider: Value
    var baseUrl: string
    var version: Value
    var intakes: seq<Intake>
    var handlers: map<string, Handler>
    var bindHandlers: map<string, BindHandler>
    var activeOffers: map<string, StoredOffer>

    ghost predicate Valid()
      reads this
    {
      RegistryConsistent(baseUrl, intakes, handlers.Keys)
    }

    function Registered(): Registry
      reads this
    {
      Registry(provider, baseUrl, version, intakes, handlers, bindHandlers)
    }

    constructor (provider: Value, baseUrl: string, version: Value)
      ensures Valid()
      ensures this.provider == provider
      ensures this.baseUrl == StripTrailingSlash(baseUrl)
      ensures this.version == (if Truthy(version) then version else Str("0.1.0"))
      ensures intakes == [] && handlers == map[] && bindHandlers == map[] && activeOffers == map[]
    {
      this.provider := provider;
      this.baseUrl := StripTrailingSlash(baseUrl);
      this.version := Or(version, Str(AIP_VERSION));
      intakes := [];
      handlers := map[];
      bindHandlers := map[];
      activeOffers := map[];
    }

    /** `addIntake`: duplicate ids are not rejected; a later handler replaces an earlier one. */
    method AddIntake(config: IntakeConfig)
      requires Valid()
      modifies this`intakes, this`handlers, this`bindHandlers
      ensures Valid()
      ensures intakes == old(intakes) + [Descriptor(baseUrl, config)]
      ensures handlers == old(handlers)[IntakePath(config.id) := config.handler]
      ensures bindHandlers == if config.onBind.Some? then old(bindHandlers)[config.id := config.onBind.value]
                              else old(bindHandlers)
    {
      var path := IntakePath(config.id);
      AddIntakeKeepsConsistency(baseUrl, intakes, handlers.Keys, config);
      intakes := intakes + [Descriptor(baseUrl, config)];
      handlers := handlers[path := config.handler];
      if config.onBind.Some? {
        bindHandlers := bindHandlers[config.id := config.onBind.value];
      }
    }

    function GetManifest(): (m: ManifestDoc)
      reads this
      ensures m == ManifestOf(Registered())
    {
      ManifestDoc(version, provider, intakes)
    }

    method HandleIntake(path: string, body: Payload, offerId: string, now: int) returns (resp: ServerResponse)
      modifies this`activeOffers
      ensures Step(resp, activeOffers) == IntakeStep(Registered(), old(activeOffers), path, body, offerId, now)
    {
      var failed := Response(500, Failed(version, Null, INTERNAL_ERROR, PROCESS_FAILED));
      if body.Unparsable? || Nullish(body.json) {
        return failed;
      }
      var request := body.json;
      var intakeData, sessionId := Field(request, "intake_data"), Field(request, "session_id");
      if !Truthy(intakeData) || !Truthy(sessionId) {
        return Response(400, Failed(version, SessionEcho(sessionId), INVALID_INPUT, MISSING_ENVELOPE));
      }
      if path !in handlers {
        return failed;
      }
      var handler := handlers[path];
      var outcome := handler(intakeData, Context(sessionId, Field(request, "agent")));
      if outcome.Threw? {
        return failed;
      }
      var result := outcome.value;
      var config := FindIntake(intakes, path);
      var binding := config.Some? && config.value.bindingAvailable;
      var bindRequires := None;
      if binding {
        if Nullish(result) {
          return failed;
        }
        bindRequires := Some(Or(Field(result, "bind_requires"), DEFAULT_BIND_REQUIRES));
      }
      var intakeId := if config.Some? then Some(config.value.id) else None;
      activeOffers := activeOffers[offerId := StoredOffer(sessionId, intakeData, result, intakeId)];
      if Nullish(result) {
        return failed;
      }
      var offer := Offer(offerId, Field(result, "summary"), Field(result, "details"), Some(now + OFFER_TTL_MS), None, None);
      if binding {
        offer := offer.(bindEndpoint := Some(baseUrl + BIND_PATH), bindRequires := bindRequires);
      }
      resp := Response(200, Issued(version, sessionId, offer));
    }

    method HandleBind(body: Payload) returns (resp: ServerResponse)
      modifies this`activeOffers
      ensures Step(resp, activeOffers) == BindStep(bindHandlers, old(activeOffers), body)
    {
      if body.Unparsable? || Nullish(body.json) {
        return Response(500, Message(BIND_FAILED));
      }
      var offerId, bindData := Field(body.json, "offer_id"), Field(body.json, "bind_data");
      var found := Lookup(activeOffers, offerId);
      if found.None? {
        return Response(404, Message(OFFER_NOT_FOUND));
      }
      var offer := found.value;
      var result;
      if offer.intakeId.Some? && offer.intakeId.value in bindHandlers {
        var bindHandler := bindHandlers[offer.intakeId.value];
        var outcome := bindHandler(bindData, offer);
        if outcome.Threw? {
          return Response(500, Message(BIND_FAILED));
        }
        result := outcome.value;
      } else {
        result := DefaultBindResult(offerId.s);
      }
      activeOffers := activeOffers - {offerId.s};
      resp := Response(200, Bound(result));
    }

    /** One request through `requestHandler()`. */
    method Serve(req: Request, offerId: string, now: int) returns (resp: ServerResponse)
      modifies this`activeOffers
      ensures Step(resp, activeOffers) == ServeStep(Registered(), old(activeOffers), req, offerId, now)
    {
      if req.verb == "OPTIONS" {
        resp := Response(204, NoBody);
      } else if req.verb == "GET" && req.url == DISCOVERY_PATH {
        resp := Response(200, Manifest(GetManifest()));
      } else if req.verb == "POST" && req.url in handlers {
        resp := HandleIntake(req.url, req.body, offerId, now);
      } else if req.verb == "POST" && req.url == BIND_PATH {
        resp := HandleBind(req.body);
      } else {
        resp := Response(404, Message(NOT_FOUND));
      }
    }
  }

  /**
   * Registering two intakes and then asking for the manifest lists both, in order;
   * binding the same request twice consumes the offer on the first success, and the
   * second bind is then not found.
   */
  method RegisterServeAndBindTwice(server: AIPServer, a: IntakeConfig, b: IntakeConfig, bindRequest: Value)
    returns (first: ServerResponse, second: ServerResponse)
    requires server.Valid()
    modifies server
    ensures server.GetManifest().intakes == old(server.intakes) + [Descriptor(server.baseUrl, a), Descriptor(server.baseUrl, b)]
    ensures first.status == 200 ==>
      && !Nullish(bindRequest) && Field(bindRequest, "offer_id").Str?
      && server.activeOffers == old(server.activeOffers) - {Field(bindRequest, "offer_id").s}
      && second == Response(404, Message(OFFER_NOT_FOUND))
  {
    server.AddIntake(a);
    server.AddIntake(b);
    ghost var before := server.activeOffers;
    first := server.HandleBind(Parsed(bindRequest));
    if first.status == 200 {
      BindSuccessConsumes(server.bindHandlers, before, Parsed(bindRequest));
    }
    second := server.HandleBind(Parsed(bindRequest));
  }
}

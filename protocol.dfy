/**
 * The wire shapes of the Agent Intake Protocol that every provider shares: the parsed
 * request, the response envelopes, the offer, and the pair (response, offer store)
 * that one request produces.
 */
module Protocol {
  import opened Wrappers
  import opened Json

  const AIP_VERSION := "0.1.0"
  const DISCOVERY_PATH := "/.well-known/agent-intake.json"
  const BIND_PATH := "/api/aip/bind"
  const INTAKE_PREFIX := "/api/aip/"
  const DAY_MS := 24 * 60 * 60 * 1000

  const INVALID_INPUT := "INVALID_INPUT"
  const SCHEMA_MISMATCH := "SCHEMA_MISMATCH"
  const INTERNAL_ERROR := "INTERNAL_ERROR"

  const MISSING_ENVELOPE := "Missing intake_data or session_id"
  const INVALID_JSON := "Invalid JSON body"
  const OFFER_NOT_FOUND := "Offer not found or expired"
  const NOT_FOUND := "Not found"

  /** A request body: either it failed to parse, or it is the parsed JSON value. */
  datatype Payload = Unparsable | Parsed(json: Value)

  /** An HTTP request after the body has been read in full. */
  datatype Request = Request(verb: string, url: string, body: Payload)

  /** The `offer` object of an intake response; `expires` is a time in milliseconds. */
  datatype Offer<D> = Offer(
    id: string,
    summary: Value,
    details: D,
    expires: Option<int>,
    bindEndpoint: Option<string>,
    bindRequires: Option<Value>)

  /** A response body: M is the manifest, D an offer's details, B a bind result. */
  datatype Body<M, D, B> =
    | NoBody
    | Manifest(doc: M)
      /** `{aip_version, session_id, status: 'error', error: {code, message}}` */
    | Failed(aipVersion: Value, sessionId: Value, code: string, message: string)
      /** `{aip_version, session_id, status: 'offer', offer}` */
    | Issued(aipVersion: Value, sessionId: Value, offer: Offer<D>)
      /** `{error: message}` */
    | Message(error: string)
    | Bound(result: B)

  datatype Response<M, D, B> = Response(status: nat, body: Body<M, D, B>)

  /** What one request produces: the response and the offer store afterwards. */
  datatype Step<S, M, D, B> = Step(response: Response<M, D, B>, store: map<string, S>)

  /** The intake envelope check `!intake_data || !session_id`, negated. */
  predicate EnvelopeComplete(request: Value) {
    Truthy(Field(request, "intake_data")) && Truthy(Field(request, "session_id"))
  }

  /** `session_id || null`. */
  function SessionEcho(sessionId: Value): (r: Value)
    ensures Truthy(r) <==> Truthy(sessionId)
    ensures Truthy(sessionId) ==> r == sessionId
    ensures !Truthy(sessionId) ==> r == Null
  {
    if Truthy(sessionId) then sessionId else Null
  }

  /**
   * `activeOffers.get(offer_id)`: the store's keys are offer-id strings, so only a
   * string equal to a key finds anything.
   */
  function Lookup<S>(store: map<string, S>, offerId: Value): (r: Option<S>)
    ensures r.Some? <==> offerId.Str? && offerId.s in store
    ensures r.Some? ==> r.value == store[offerId.s]
  {
    if offerId.Str? && offerId.s in store then Some(store[offerId.s]) else None
  }

  /**
   * Which branch a provider's request handler takes, tested in this order: preflight,
   * discovery, one of the intake paths, the bind path, anything else.
   */
  datatype Route = Preflight | Discovery | IntakeRoute | BindRoute | NoRoute

  function RouteOf(verb: string, url: string, intakePaths: set<string>): (r: Route)
    ensures r == Preflight <==> verb == "OPTIONS"
    ensures r == IntakeRoute <==> verb == "POST" && url in intakePaths
    ensures r == BindRoute <==> verb == "POST" && url == BIND_PATH && url !in intakePaths
    ensures r == Discovery <==> verb == "GET" && url == DISCOVERY_PATH
  {
    if verb == "OPTIONS" then Preflight
    else if verb == "GET" && url == DISCOVERY_PATH then Discovery
    else if verb == "POST" && url in intakePaths then IntakeRoute
    else if verb == "POST" && url == BIND_PATH then BindRoute
    else NoRoute
  }
}

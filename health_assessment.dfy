/**
 * The Man vs Health metabolic-assessment provider: a hand-written Agent Intake Protocol
 * server whose one intake, `metabolic-assessment`, recommends a coaching plan by concern
 * and risk, and whose bind endpoint confirms the enrolment.
 */
module HealthAssessment {
  import opened Wrappers
  import opened Json
  import opened Text
  import opened Protocol

  const INTAKE_PATH := "/api/aip/metabolic-assessment"
  const OFFER_TTL_MS := 7 * DAY_MS
  const MISSING_FIELDS := "Missing required fields: age_range, sex, primary_concern"
  const MISSING_BIND_ENVELOPE := "Missing offer_id, session_id, or bind_data"
  const BIND_FIELDS_MISSING := "Bind requires email and full_name"
  const NEXT_STEPS := ["Check your email for onboarding instructions", "Complete your health questionnaire",
                       "Schedule your first coaching call"]

  /** A row of the plan table; `monthlyCost` is in dollars. */
  datatype PlanData = PlanData(plan: string, monthlyCost: nat, includes: seq<string>, timeline: string)

  /** The offer details: `generateOffer`'s result. */
  datatype OfferDetails = OfferDetails(plan: string, monthlyCost: nat, currency: string, includes: seq<string>, timeline: string)

  /** The record kept in `activeOffers`; `expires` is a time in milliseconds. */
  datatype StoredOffer = StoredOffer(sessionId: Value, intakeData: Value, details: OfferDetails, expires: int)

  /** The body of a successful bind: `{status: 'bound', message, next_steps, account_ref}`. */
  datatype Enrolment = Enrolment(message: string, nextSteps: seq<string>, accountRef: string)

  type HealthStep = Step<StoredOffer, Value, OfferDetails, Enrolment>

  // ---------------------------------------------------------------------------
  // The plan table

  const HIGH_RISK := PlanData("Intensive Metabolic Reset", 249,
    ["Personalized Power Foods database (insulin-focused)", "Daily glucose tracking protocol",
     "Bi-weekly coaching calls", "Monthly metabolic panel review", "Supplement protocol"],
    "90-day intensive protocol")
  const MODERATE_RISK := PlanData("Foundation Coaching", 149,
    ["Personalized Power Foods database", "Weekly SMS check-ins", "Monthly metabolic review",
     "Meal timing optimization guide"],
    "90-day initial protocol")
  const WEIGHT := PlanData("Weight Optimization Program", 149,
    ["Personalized Power Foods database", "Weekly weigh-in tracking", "Bi-weekly coaching calls",
     "Metabolic rate assessment"],
    "12-week program")
  const ENERGY := PlanData("Energy & Vitality Protocol", 129,
    ["Sleep and recovery optimization", "Personalized Power Foods database", "Monthly hormone panel review",
     "Supplement recommendations"],
    "8-week protocol")
  const GENERAL := PlanData("Comprehensive Health Assessment", 99,
    ["Full metabolic panel review", "Personalized Power Foods database", "Monthly check-in",
     "Health optimization roadmap"],
    "90-day assessment period")

  /** `PLANS[concern]` for the flat entries of the table. */
  function ConcernPlan(concern: string): Option<PlanData> {
    if concern == "weight" then Some(WEIGHT)
    else if concern == "energy" then Some(ENERGY)
    else if concern == "general" then Some(GENERAL)
    else None
  }

  // ---------------------------------------------------------------------------
  // generateOffer

  /** The insulin-resistance risk rule. */
  predicate IsHighRisk(glucose: Value, activity: Value) {
    glucose == Str("high") || (glucose == Str("elevated") && activity == Str("sedentary"))
  }

  /** The plan row `generateOffer` picks for a submission. */
  function ChoosePlan(intakeData: Value): (p: PlanData)
    ensures Field(intakeData, "primary_concern") == Str("insulin_resistance") ==>
      (p == HIGH_RISK <==> IsHighRisk(Field(intakeData, "fasting_glucose_range"), Field(intakeData, "activity_level")))
      && (p == HIGH_RISK || p == MODERATE_RISK)
    ensures Field(intakeData, "primary_concern") != Str("insulin_resistance") ==>
      var row := ConcernPlan(ToString(Field(intakeData, "primary_concern")));
      p == if row.Some? then row.value else GENERAL
  {
    var concern := Field(intakeData, "primary_concern");
    if concern == Str("insulin_resistance") then
      if IsHighRisk(Field(intakeData, "fasting_glucose_range"), Field(intakeData, "activity_level"))
      then HIGH_RISK else MODERATE_RISK
    else
      var row := ConcernPlan(ToString(concern));
      if row.Some? then row.value else GENERAL
  }

  /** `Math.round(cost * 0.85)`, the price for the `60+` age range. */
  function SeniorPrice(cost: nat): (r: nat)
    ensures 200 * r - 100 <= 170 * cost < 200 * r + 100
    ensures r <= cost
  {
    MathRound(85 * cost, 100)
  }

  /** `generateOffer(intakeData)`. */
  function GenerateOffer(intakeData: Value): (d: OfferDetails)
    ensures var p := ChoosePlan(intakeData);
      && d.plan == p.plan && d.includes == p.includes && d.timeline == p.timeline && d.currency == "USD"
      && d.monthlyCost == if Field(intakeData, "age_range") == Str("60+") then SeniorPrice(p.monthlyCost) else p.monthlyCost
  {
    var p := ChoosePlan(intakeData);
    var cost := if Field(intakeData, "age_range") == Str("60+") then SeniorPrice(p.monthlyCost) else p.monthlyCost;
    OfferDetails(p.plan, cost, "USD", p.includes, p.timeline)
  }

  /** The senior prices of the four table costs: 249 to 212, 149 to 127, 129 to 110, 99 to 84. */
  lemma SeniorPrices()
    ensures SeniorPrice(249) == 212 && SeniorPrice(149) == 127 && SeniorPrice(129) == 110 && SeniorPrice(99) == 84
  {
  }

  /** A glucose range of `high` or `elevated` with a sedentary activity level gets the intensive plan at $249, or $212 for 60+. */
  lemma InsulinResistancePricing(intakeData: Value)
    requires Field(intakeData, "primary_concern") == Str("insulin_resistance")
    ensures var d := GenerateOffer(intakeData);
      var high := IsHighRisk(Field(intakeData, "fasting_glucose_range"), Field(intakeData, "activity_level"));
      var senior := Field(intakeData, "age_range") == Str("60+");
      && d.plan == (if high then "Intensive Metabolic Reset" else "Foundation Coaching")
      && d.monthlyCost == (if high then (if senior then 212 else 249) else (if senior then 127 else 149))
  {
    SeniorPrices();
  }

  function Summary(intakeData: Value, details: OfferDetails): string {
    "Based on your profile (" + ToString(Field(intakeData, "age_range")) + ", "
    + ToString(Field(intakeData, "primary_concern")) + "), we recommend our " + details.plan
    + " at $" + NatToString(details.monthlyCost) + "/month."
  }

  // ---------------------------------------------------------------------------
  // The request flows

  /** The intake flow at `/api/aip/metabolic-assessment`. */
  function IntakeStep(host: string, store: map<string, StoredOffer>, body: Payload, offerId: string, now: int): HealthStep {
    var version := Str(AIP_VERSION);
    if body.Unparsable? || Nullish(body.json) then
      Step(Response(400, Failed(version, Null, INVALID_INPUT, INVALID_JSON)), store)
    else
      var intakeData := Field(body.json, "intake_data");
      var sessionId := Field(body.json, "session_id");
      if !Truthy(intakeData) || !Truthy(sessionId) then
        Step(Response(400, Failed(version, SessionEcho(sessionId), INVALID_INPUT, MISSING_ENVELOPE)), store)
      else if !Truthy(Field(intakeData, "age_range")) || !Truthy(Field(intakeData, "sex"))
              || !Truthy(Field(intakeData, "primary_concern")) then
        Step(Response(400, Failed(version, sessionId, SCHEMA_MISMATCH, MISSING_FIELDS)), store)
      else
        var details := GenerateOffer(intakeData);
        var expires := now + OFFER_TTL_MS;
        var offer := Offer(offerId, Str(Summary(intakeData, details)), details, Some(expires),
                           Some(host + BIND_PATH), Some(Strs(["email", "full_name"])));
        Step(Response(200, Issued(version, sessionId, offer)),
             store[offerId := StoredOffer(sessionId, intakeData, details, expires)])
  }

  function EnrolmentFor(offer: StoredOffer, fullName: Value, now: int): Enrolment {
    Enrolment("Welcome, " + ToString(fullName) + "! Your " + offer.details.plan + " enrollment is confirmed.",
              NEXT_STEPS, "mvh-" + IntToString(now))
  }

  /** The bind envelope check, negated: `offer_id`, `session_id` and `bind_data` all present. */
  predicate BindEnvelopeComplete(request: Value) {
    Truthy(Field(request, "offer_id")) && Truthy(Field(request, "session_id")) && Truthy(Field(request, "bind_data"))
  }

  /** The bind flow: envelope check, lookup, the `email`/`full_name` check, then delete. */
  function BindStep(store: map<string, StoredOffer>, body: Payload, now: int): HealthStep {
    if body.Unparsable? || Nullish(body.json) then Step(Response(400, Message(INVALID_JSON)), store)
    else if !BindEnvelopeComplete(body.json) then Step(Response(400, Message(MISSING_BIND_ENVELOPE)), store)
    else
      var offerId := Field(body.json, "offer_id");
      var bindData := Field(body.json, "bind_data");
      match Lookup(store, offerId)
      case None => Step(Response(404, Message(OFFER_NOT_FOUND)), store)
      case Some(offer) =>
        if !Truthy(Field(bindData, "email")) || !Truthy(Field(bindData, "full_name")) then
          Step(Response(400, Message(BIND_FIELDS_MISSING)), store)
        else
          Step(Response(200, Bound(EnrolmentFor(offer, Field(bindData, "full_name"), now))), store - {offerId.s})
  }

  /** `handleRequest`: the routing of one request; the discovery document is served as loaded. */
  function ServeStep(host: string, manifest: Value, store: map<string, StoredOffer>, req: Request,
                     offerId: string, now: int): HealthStep
  {
    match RouteOf(req.verb, req.url, {INTAKE_PATH})
    case Preflight => Step(Response(204, NoBody), store)
    case Discovery => Step(Response(200, Manifest(manifest)), store)
    case IntakeRoute => IntakeStep(host, store, req.body, offerId, now)
    case BindRoute => BindStep(store, req.body, now)
    case NoRoute => Step(Response(404, Message(NOT_FOUND)), store)
  }

  // ---------------------------------------------------------------------------
  // Properties of the flows

  /**
   * Validation precedence: INVALID_INPUT for an incomplete envelope before SCHEMA_MISMATCH
   * for a missing `age_range`, `sex` or `primary_concern`; neither stores anything.
   */
  lemma IntakeValidationOrder(host: string, store: map<string, StoredOffer>, request: Value, offerId: string, now: int)
    requires !Nullish(request)
    ensures var s := IntakeStep(host, store, Parsed(request), offerId, now);
      var d := Field(request, "intake_data");
      && (!EnvelopeComplete(request) ==>
            s.response == Response(400, Failed(Str("0.1.0"), SessionEcho(Field(request, "session_id")), INVALID_INPUT, MISSING_ENVELOPE)))
      && (EnvelopeComplete(request)
          && (!Truthy(Field(d, "age_range")) || !Truthy(Field(d, "sex")) || !Truthy(Field(d, "primary_concern"))) ==>
            s.response == Response(400, Failed(Str("0.1.0"), Field(request, "session_id"), SCHEMA_MISMATCH, MISSING_FIELDS)))
      && (s.response.status != 200 ==> s.store == store)
  {
  }

  /** A successful intake stores exactly the minted offer, with the details it reports, for seven days. */
  lemma IntakeSuccessStoresOneOffer(host: string, store: map<string, StoredOffer>, body: Payload, offerId: string, now: int)
    requires offerId !in store
    requires IntakeStep(host, store, body, offerId, now).response.status == 200
    ensures var s := IntakeStep(host, store, body, offerId, now);
      && s.response.body.Issued? && s.response.body.offer.id == offerId
      && s.response.body.offer.bindEndpoint == Some(host + "/api/aip/bind")
      && s.response.body.offer.bindRequires == Some(Strs(["email", "full_name"]))
      && s.response.body.offer.expires == Some(now + 7 * DAY_MS)
      && s.store.Keys == store.Keys + {offerId} && |s.store| == |store| + 1
      && (forall k :: k in store ==> s.store[k] == store[k])
      && s.store[offerId].details == GenerateOffer(Field(body.json, "intake_data")) == s.response.body.offer.details
  {
  }

  /**
   * The bind envelope is checked before the store is consulted: missing `offer_id`,
   * `session_id` or `bind_data` gives 400 even for a stored offer; then an unknown id
   * gives 404; then missing `email` or `full_name` gives 400 with the offer kept.
   */
  lemma BindOutcomes(store: map<string, StoredOffer>, request: Value, now: int)
    requires !Nullish(request)
    ensures var s := BindStep(store, Parsed(request), now);
      var offerId := Field(request, "offer_id");
      var bindData := Field(request, "bind_data");
      && (!BindEnvelopeComplete(request) ==> s == Step(Response(400, Message(MISSING_BIND_ENVELOPE)), store))
      && (BindEnvelopeComplete(request) && Lookup(store, offerId).None? ==>
            s == Step(Response(404, Message(OFFER_NOT_FOUND)), store))
      && (s.response.status == 200 <==>
            BindEnvelopeComplete(request) && Lookup(store, offerId).Some?
            && Truthy(Field(bindData, "email")) && Truthy(Field(bindData, "full_name")))
      && (s.response.status == 200 ==> offerId.s in store && s.store == store - {offerId.s})
      && (s.response.status != 200 ==> s.store == store)
  {
  }

  /** The bind `session_id` must be present but is never compared with the offer's session. */
  lemma BindIgnoresSessionMatch(store: map<string, StoredOffer>, request: Value, other: Value, now: int)
    requires request.Obj? && Truthy(other) && "session_id" in request.fields && Truthy(request.fields["session_id"])
    ensures BindStep(store, Parsed(request), now)
         == BindStep(store, Parsed(Obj(request.fields["session_id" := other])), now)
  {
    var request' := Obj(request.fields["session_id" := other]);
    assert Field(request', "offer_id") == Field(request, "offer_id");
    assert Field(request', "bind_data") == Field(request, "bind_data");
  }

  /** After a successful bind, the same request is 404. */
  lemma {:induction false} RebindIsNotFound(store: map<string, StoredOffer>, request: Value, now: int, later: int)
    requires !Nullish(request)
    requires BindStep(store, Parsed(request), now).response.status == 200
    ensures BindStep(BindStep(store, Parsed(request), now).store, Parsed(request), later).response
         == Response(404, Message(OFFER_NOT_FOUND))
  {
    BindOutcomes(store, request, now);
  }

  /** The provider's module-level state: the loaded manifest and the offer map. */
  class HealthServer {
    const host: string
    const manifest: Value
    var activeOffers: map<string, StoredOffer>

    constructor (host: string, manifest: Value)
      ensures this.host == host && this.manifest == manifest && activeOffers == map[]
    {
      this.host := host;
      this.manifest := manifest;
      activeOffers := map[];
    }

    method HandleIntake(body: Payload, offerId: string, now: int) returns (resp: Response<Value, OfferDetails, Enrolment>)
      modifies this`activeOffers
      ensures Step(resp, activeOffers) == IntakeStep(host, old(activeOffers), body, offerId, now)
    {
      var version := Str(AIP_VERSION);
      if body.Unparsable? || Nullish(body.json) {
        return Response(400, Failed(version, Null, INVALID_INPUT, INVALID_JSON));
      }
      var intakeData, sessionId := Field(body.json, "intake_data"), Field(body.json, "session_id");
      if !Truthy(intakeData) || !Truthy(sessionId) {
        return Response(400, Failed(version, SessionEcho(sessionId), INVALID_INPUT, MISSING_ENVELOPE));
      }
      if !Truthy(Field(intakeData, "age_range")) || !Truthy(Field(intakeData, "sex"))
         || !Truthy(Field(intakeData, "primary_concern")) {
        return Response(400, Failed(version, sessionId, SCHEMA_MISMATCH, MISSING_FIELDS));
      }
      var details := GenerateOffer(intakeData);
      var expires := now + OFFER_TTL_MS;
      activeOffers := activeOffers[offerId := StoredOffer(sessionId, intakeData, details, expires)];
      resp := Response(200, Issued(version, sessionId, Offer(offerId, Str(Summary(intakeData, details)), details,
                                                            Some(expires), Some(host + BIND_PATH),
                                                            Some(Strs(["email", "full_name"])))));
    }

    method HandleBind(body: Payload, now: int) returns (resp: Response<Value, OfferDetails, Enrolment>)
      modifies this`activeOffers
      ensures Step(resp, activeOffers) == BindStep(old(activeOffers), body, now)
    {
      if body.Unparsable? || Nullish(body.json) {
        return Response(400, Message(INVALID_JSON));
      }
      if !BindEnvelopeComplete(body.json) {
        return Response(400, Message(MISSING_BIND_ENVELOPE));
      }
      var offerId, bindData := Field(body.json, "offer_id"), Field(body.json, "bind_data");
      var offer := Lookup(activeOffers, offerId);
      if offer.None? {
        return Response(404, Message(OFFER_NOT_FOUND));
      }
      if !Truthy(Field(bindData, "email")) || !Truthy(Field(bindData, "full_name")) {
        return Response(400, Message(BIND_FIELDS_MISSING));
      }
      activeOffers := activeOffers - {offerId.s};
      resp := Response(200, Bound(EnrolmentFor(offer.value, Field(bindData, "full_name"), now)));
    }

    method Serve(req: Request, offerId: string, now: int) returns (resp: Response<Value, OfferDetails, Enrolment>)
      modifies this`activeOffers
      ensures Step(resp, activeOffers) == ServeStep(host, manifest, old(activeOffers), req, offerId, now)
    {
      match RouteOf(req.verb, req.url, {INTAKE_PATH})
      case Preflight => resp := Response(204, NoBody);
      case Discovery => resp := Response(200, Manifest(manifest));
      case IntakeRoute => resp := HandleIntake(req.body, offerId, now);
      case BindRoute => resp := HandleBind(req.body, now);
      case NoRoute => resp := Response(404, Message(NOT_FOUND));
    }
  }
}

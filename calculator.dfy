/**
 * The HealthCalc BMI provider: a hand-written Agent Intake Protocol server with one
 * non-binding intake, `bmi`. It keeps no state and has no bind endpoint; each response
 * is computed from the request alone. BMI is held in tenths (25.8 is 258).
 */
module Calculator {
  import opened Wrappers
  import opened Json
  import opened Text
  import opened Protocol

  const INTAKE_PATH := "/api/aip/bmi"
  const MISSING_FIELDS := "Missing required fields: height_inches, weight_lbs"
  const FORMULA := "BMI = (weight_lbs × 703) / height_inches²"
  const DISCLAIMER := "BMI is a screening tool, not a diagnostic measure. It does not account for muscle mass, bone density, or body composition. Consult a healthcare provider for personalized advice."

  /** The six categories of `getBMICategory`, in increasing order of BMI. */
  datatype Band = Underweight | NormalWeight | Overweight | ObeseI | ObeseII | ObeseIII

  /** `{min_lbs, max_lbs}`. */
  datatype WeightRange = WeightRange(minLbs: int, maxLbs: int)

  /**
   * The offer details. `bmi` and `healthyRange` are `None` where the source computes NaN:
   * a height or weight that is not a number.
   */
  datatype BmiDetails = BmiDetails(
    bmi: Option<int>,
    category: string,
    riskLevel: string,
    heightInches: Value,
    weightLbs: Value,
    healthyRange: Option<WeightRange>,
    formula: string,
    disclaimer: string)

  type CalcResponse = Response<Value, BmiDetails, Value>

  // ---------------------------------------------------------------------------
  // The calculations

  /** `calculateBMI`: `703 w / h²`, rounded to tenths. */
  function BmiTenths(height: Value, weight: Value): (t: Option<int>)
    ensures t.Some? <==> height.Num? && weight.Num? && height.n != 0
    ensures t.Some? ==> var hh := height.n * height.n;
      2 * hh * t.value - hh <= 2 * 7030 * weight.n < 2 * hh * t.value + hh
  {
    if height.Num? && weight.Num? && height.n != 0 then Some(MathRound(7030 * weight.n, height.n * height.n))
    else None
  }

  /** `getBMICategory`: lower bounds inclusive; NaN fails every comparison and lands in Class III. */
  function BandOf(bmi: Option<int>): (b: Band)
    ensures bmi.None? ==> b == ObeseIII
    ensures bmi.Some? ==>
      && (b == Underweight <==> bmi.value < 185)
      && (b == NormalWeight <==> 185 <= bmi.value < 250)
      && (b == Overweight <==> 250 <= bmi.value < 300)
      && (b == ObeseI <==> 300 <= bmi.value < 350)
      && (b == ObeseII <==> 350 <= bmi.value < 400)
      && (b == ObeseIII <==> 400 <= bmi.value)
  {
    match bmi
    case None => ObeseIII
    case Some(t) =>
      if t < 185 then Underweight
      else if t < 250 then NormalWeight
      else if t < 300 then Overweight
      else if t < 350 then ObeseI
      else if t < 400 then ObeseII
      else ObeseIII
  }

  function BandIndex(b: Band): nat {
    match b
    case Underweight => 0
    case NormalWeight => 1
    case Overweight => 2
    case ObeseI => 3
    case ObeseII => 4
    case ObeseIII => 5
  }

  /** A larger BMI never falls in an earlier category. */
  lemma BandMonotone(a: int, b: int)
    requires a <= b
    ensures BandIndex(BandOf(Some(a))) <= BandIndex(BandOf(Some(b)))
  {
  }

  function Category(b: Band): string {
    match b
    case Underweight => "Underweight"
    case NormalWeight => "Normal weight"
    case Overweight => "Overweight"
    case ObeseI => "Obese (Class I)"
    case ObeseII => "Obese (Class II)"
    case ObeseIII => "Obese (Class III)"
  }

  function Risk(b: Band): string {
    match b
    case Underweight => "Increased health risk"
    case NormalWeight => "Low health risk"
    case Overweight => "Moderate health risk"
    case ObeseI => "High health risk"
    case ObeseII => "Very high health risk"
    case ObeseIII => "Extremely high health risk"
  }

  /** `getHealthyWeightRange`: the weights for a BMI of 18.5 and 24.9 at this height, rounded. */
  function HealthyRange(height: Value): (r: Option<WeightRange>)
    ensures r.Some? <==> height.Num?
    ensures r.Some? ==> var hh := height.n * height.n;
      && 2 * 7030 * r.value.minLbs - 7030 <= 2 * 185 * hh < 2 * 7030 * r.value.minLbs + 7030
      && 2 * 7030 * r.value.maxLbs - 7030 <= 2 * 249 * hh < 2 * 7030 * r.value.maxLbs + 7030
  {
    if height.Num? then
      var hh := height.n * height.n;
      Some(WeightRange(MathRound(185 * hh, 7030), MathRound(249 * hh, 7030)))
    else None
  }

  /** The bounds of the healthy range never cross. */
  lemma HealthyRangeOrdered(height: Value)
    requires height.Num?
    ensures HealthyRange(height).value.minLbs <= HealthyRange(height).value.maxLbs
  {
    var r := HealthyRange(height).value;
    var hh := height.n * height.n;
    assert 185 * hh <= 249 * hh;
  }

  function NumberText(v: Option<int>): string {
    if v.Some? then TenthsToString(v.value) else "NaN"
  }

  function RangeText(r: Option<WeightRange>): string {
    if r.Some? then IntToString(r.value.minLbs) + "-" + IntToString(r.value.maxLbs) else "NaN-NaN"
  }

  function Summary(d: BmiDetails): string {
    "BMI: " + NumberText(d.bmi) + " — " + d.category + ". " + d.riskLevel
    + ". Healthy weight range for your height: " + RangeText(d.healthyRange) + " lbs."
  }

  function Assess(height: Value, weight: Value): BmiDetails {
    var bmi := BmiTenths(height, weight);
    var band := BandOf(bmi);
    BmiDetails(bmi, Category(band), Risk(band), height, weight, HealthyRange(height), FORMULA, DISCLAIMER)
  }

  // ---------------------------------------------------------------------------
  // The request flow

  /** The intake flow at `/api/aip/bmi`: no offer is stored and nothing can be bound. */
  function IntakeResponse(body: Payload, offerId: string): CalcResponse {
    var version := Str(AIP_VERSION);
    if body.Unparsable? || Nullish(body.json) then Response(400, Failed(version, Null, INVALID_INPUT, INVALID_JSON))
    else
      var intakeData := Field(body.json, "intake_data");
      var sessionId := Field(body.json, "session_id");
      if !Truthy(intakeData) || !Truthy(sessionId) then
        Response(400, Failed(version, SessionEcho(sessionId), INVALID_INPUT, MISSING_ENVELOPE))
      else
        var height := Field(intakeData, "height_inches");
        var weight := Field(intakeData, "weight_lbs");
        if !Truthy(height) || !Truthy(weight) then
          Response(400, Failed(version, sessionId, SCHEMA_MISMATCH, MISSING_FIELDS))
        else
          var details := Assess(height, weight);
          Response(200, Issued(version, sessionId, Offer(offerId, Str(Summary(details)), details, None, None, None)))
  }

  /** `handleRequest`: there is no bind route, so a bind request falls through to 404. */
  function Respond(manifest: Value, req: Request, offerId: string): CalcResponse {
    match RouteOf(req.verb, req.url, {INTAKE_PATH})
    case Preflight => Response(204, NoBody)
    case Discovery => Response(200, Manifest(manifest))
    case IntakeRoute => IntakeResponse(req.body, offerId)
    case BindRoute => Response(404, Message(NOT_FOUND))
    case NoRoute => Response(404, Message(NOT_FOUND))
  }

  // ---------------------------------------------------------------------------
  // Properties

  /**
   * Validation precedence: INVALID_INPUT for an incomplete envelope, then SCHEMA_MISMATCH
   * when the height or the weight is missing, zero, or otherwise falsy.
   */
  lemma IntakeValidationOrder(request: Value, offerId: string)
    requires !Nullish(request)
    ensures var r := IntakeResponse(Parsed(request), offerId);
      var d := Field(request, "intake_data");
      && (!EnvelopeComplete(request) ==>
            r == Response(400, Failed(Str("0.1.0"), SessionEcho(Field(request, "session_id")), INVALID_INPUT, MISSING_ENVELOPE)))
      && (EnvelopeComplete(request) && (!Truthy(Field(d, "height_inches")) || !Truthy(Field(d, "weight_lbs"))) ==>
            r == Response(400, Failed(Str("0.1.0"), Field(request, "session_id"), SCHEMA_MISMATCH, MISSING_FIELDS)))
      && (EnvelopeComplete(request) && Field(d, "height_inches") == Num(0) ==> r.status == 400 && r.body.code == SCHEMA_MISMATCH)
  {
  }

  /** An unparsable body gives 400 INVALID_INPUT with a null session. */
  lemma UnparsableIsInvalidInput(offerId: string)
    ensures IntakeResponse(Unparsable, offerId) == Response(400, Failed(Str("0.1.0"), Null, INVALID_INPUT, "Invalid JSON body"))
  {
  }

  /** A successful offer is non-binding: no expiry, no bind endpoint, no bind requirements. */
  lemma OfferIsNonBinding(body: Payload, offerId: string)
    requires IntakeResponse(body, offerId).status == 200
    ensures var r := IntakeResponse(body, offerId);
      && r.body.Issued? && r.body.offer.id == offerId
      && r.body.offer.expires.None? && r.body.offer.bindEndpoint.None? && r.body.offer.bindRequires.None?
      && r.body.sessionId == Field(body.json, "session_id")
  {
  }

  /** `POST /api/aip/bind` is not a route of this provider. */
  lemma BindIsNotFound(manifest: Value, body: Payload, offerId: string)
    ensures Respond(manifest, Request("POST", BIND_PATH, body), offerId) == Response(404, Message("Not found"))
  {
  }

  /** 70 inches and 180 lbs: BMI 25.8, Overweight, healthy range 129-174 lbs. */
  lemma SeventyInchesOneEighty(request: Value, offerId: string)
    requires !Nullish(request) && EnvelopeComplete(request)
    requires Field(Field(request, "intake_data"), "height_inches") == Num(70)
    requires Field(Field(request, "intake_data"), "weight_lbs") == Num(180)
    ensures var r := IntakeResponse(Parsed(request), offerId);
      && r.status == 200 && r.body.Issued?
      && r.body.offer.details.bmi == Some(258)
      && r.body.offer.details.category == "Overweight"
      && r.body.offer.details.healthyRange == Some(WeightRange(129, 174))
  {
    assert MathRound(7030 * 180, 4900) == 258;
    assert MathRound(185 * 4900, 7030) == 129;
    assert MathRound(249 * 4900, 7030) == 174;
  }
}

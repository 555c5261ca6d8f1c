/**
 * The WhoDo home-services provider: a hand-written Agent Intake Protocol server whose one
 * intake, `service-request`, lists matching local providers, and whose bind endpoint
 * books the top match. Ratings are held in tenths of a star (4.8 is 48).
 */
module ServiceMatching {
  import opened Wrappers
  import opened Json
  import opened Text
  import opened Protocol

  const INTAKE_PATH := "/api/aip/service-request"
  const OFFER_TTL_MS := 3 * DAY_MS
  const MISSING_FIELDS := "Missing required fields: service_type, zip_code"
  const BIND_FIELDS_MISSING := "Bind requires email, full_name, and phone"
  const SAME_DAY := "Same day"
  const WITHIN_3_DAYS := "Within 3 business days"

  /** A row of the provider database; `rating` is in tenths. */
  datatype Provider = Provider(name: string, rating: nat, reviews: nat, yearsExp: nat, hourlyRate: nat)

  /** One entry of `matched_providers`; `badge` is `None` for null. */
  datatype Match = Match(
    providerName: string,
    rating: nat,
    totalReviews: nat,
    yearsExperience: nat,
    estimatedHourlyRate: nat,
    availability: string,
    badge: Option<string>)

  /** The offer details. */
  datatype Details = Details(matchedProviders: seq<Match>, serviceType: Value, area: Value, totalMatches: nat)

  /** The record kept in `activeOffers`; `expires` is a time in milliseconds. */
  datatype StoredOffer = StoredOffer(sessionId: Value, intakeData: Value, matched: seq<Match>, expires: int)

  /** The body of a successful bind: `{status: 'bound', message, booking_ref, matched_provider}`. */
  datatype Booking = Booking(message: string, bookingRef: string, matchedProvider: string)

  type MatchingStep = Step<StoredOffer, Value, Details, Booking>

  // ---------------------------------------------------------------------------
  // The provider database

  /** `PROVIDERS[serviceType]`. */
  function ProvidersFor(serviceType: string): (r: Option<seq<Provider>>)
    ensures r.Some? ==> |r.value| > 0
  {
    if serviceType == "plumbing" then Some([
      Provider("Metro Plumbing Co.", 48, 234, 15, 85),
      Provider("QuickFix Plumbers", 46, 167, 8, 75),
      Provider("Elite Pipe Services", 49, 312, 22, 110)])
    else if serviceType == "electrical" then Some([
      Provider("Spark Electric", 47, 189, 12, 95),
      Provider("BrightWire Electrical", 45, 98, 6, 80)])
    else if serviceType == "cleaning" then Some([
      Provider("Spotless Home Services", 49, 456, 10, 45),
      Provider("Fresh & Clean Co.", 47, 278, 7, 40),
      Provider("ProClean Team", 44, 123, 4, 35)])
    else if serviceType == "landscaping" then Some([
      Provider("Green Thumb Landscapes", 48, 201, 18, 65),
      Provider("Nature's Best Landscaping", 46, 145, 9, 55)])
    else if serviceType == "painting" then Some([
      Provider("ColorPro Painters", 47, 178, 14, 60),
      Provider("Fresh Coat Painting", 45, 112, 5, 50)])
    else None
  }

  const DEFAULT_PROVIDERS := [
    Provider("Trusted Local Services", 45, 89, 5, 70),
    Provider("HomeRight Pros", 43, 56, 3, 60)]

  /** `PROVIDERS[service_type] || DEFAULT_PROVIDERS`: never empty. */
  function Candidates(serviceType: Value): (r: seq<Provider>)
    ensures |r| > 0
    ensures ProvidersFor(ToString(serviceType)).Some? ==> r == ProvidersFor(ToString(serviceType)).value
    ensures ProvidersFor(ToString(serviceType)).None? ==> r == DEFAULT_PROVIDERS
  {
    var row := ProvidersFor(ToString(serviceType));
    if row.Some? then row.value else DEFAULT_PROVIDERS
  }

  // ---------------------------------------------------------------------------
  // The emergency ordering: a stable sort by descending rating

  predicate SortedByRating(s: seq<Provider>) {
    forall i, j :: 0 <= i < j < |s| ==> s[i].rating >= s[j].rating
  }

  /** Places `p` after every element rated at least as high, before the first rated lower. */
  function Insert(s: seq<Provider>, p: Provider): (r: seq<Provider>)
    ensures multiset(r) == multiset(s) + multiset{p}
    ensures SortedByRating(s) ==> SortedByRating(r)
    decreases |s|
  {
    if |s| == 0 then [p]
    else if s[0].rating < p.rating then
      assert SortedByRating(s) ==> forall j :: 0 <= j < |s| ==> p.rating >= s[j].rating;
      [p] + s
    else
      var rest := Insert(s[1..], p);
      assert s == [s[0]] + s[1..];
      InsertBounded(s, p, rest);
      [s[0]] + rest
  }

  lemma InsertBounded(s: seq<Provider>, p: Provider, rest: seq<Provider>)
    requires |s| > 0 && s[0].rating >= p.rating
    requires multiset(rest) == multiset(s[1..]) + multiset{p}
    requires SortedByRating(s[1..]) ==> SortedByRating(rest)
    ensures SortedByRating(s) ==> SortedByRating([s[0]] + rest)
  {
    if SortedByRating(s) {
      assert SortedByRating(s[1..]);
      forall j | 0 <= j < |rest| ensures s[0].rating >= rest[j].rating {
        assert rest[j] in multiset(rest);
        if rest[j] != p {
          assert rest[j] in multiset(s[1..]);
          var i :| 0 <= i < |s[1..]| && s[1..][i] == rest[j];
          assert s[i + 1] == rest[j];
        }
      }
    }
  }

  /** `[...providers].sort((a, b) => b.rating - a.rating)`, a stable sort, on a copy. */
  function SortByRating(s: seq<Provider>): (r: seq<Provider>)
    ensures multiset(r) == multiset(s)
    ensures SortedByRating(r)
    decreases |s|
  {
    if |s| == 0 then []
    else
      assert s == s[..|s| - 1] + [s[|s| - 1]];
      Insert(SortByRating(s[..|s| - 1]), s[|s| - 1])
  }

  /** The elements of `s` with the given rating, in order. */
  function WithRating(s: seq<Provider>, rating: nat): seq<Provider>
    decreases |s|
  {
    if |s| == 0 then []
    else (if s[0].rating == rating then [s[0]] else []) + WithRating(s[1..], rating)
  }

  lemma {:induction false} WithRatingConcat(a: seq<Provider>, b: seq<Provider>, rating: nat)
    ensures WithRating(a + b, rating) == WithRating(a, rating) + WithRating(b, rating)
    decreases |a|
  {
    if |a| == 0 {
      assert a + b == b;
    } else {
      assert (a + b)[0] == a[0];
      assert (a + b)[1..] == a[1..] + b;
      WithRatingConcat(a[1..], b, rating);
    }
  }

  lemma {:induction false} WithRatingBelow(s: seq<Provider>, rating: nat)
    requires forall x :: x in s ==> x.rating < rating
    ensures WithRating(s, rating) == []
    decreases |s|
  {
    if |s| > 0 {
      assert s[0] in s;
      assert forall x :: x in s[1..] ==> x in s;
      WithRatingBelow(s[1..], rating);
    }
  }

  lemma {:induction false} InsertIsStable(s: seq<Provider>, p: Provider, rating: nat)
    requires SortedByRating(s)
    ensures WithRating(Insert(s, p), rating) == WithRating(s, rating) + (if p.rating == rating then [p] else [])
    decreases |s|
  {
    if |s| == 0 {
    } else if s[0].rating < p.rating {
      if p.rating == rating {
        forall x | x in s ensures x.rating < rating {
          var i :| 0 <= i < |s| && s[i] == x;
          assert s[0].rating >= s[i].rating;
        }
        WithRatingBelow(s, rating);
      }
      assert ([p] + s)[0] == p && ([p] + s)[1..] == s;
    } else {
      var r := [s[0]] + Insert(s[1..], p);
      assert r[0] == s[0] && r[1..] == Insert(s[1..], p);
      InsertIsStable(s[1..], p, rating);
    }
  }

  /**
   * The sort is stable: providers with equal ratings keep their table order. With the
   * sortedness and the permutation in `SortByRating`'s contract, this determines the order.
   */
  lemma {:induction false} SortIsStable(s: seq<Provider>, rating: nat)
    ensures WithRating(SortByRating(s), rating) == WithRating(s, rating)
    decreases |s|
  {
    if |s| > 0 {
      var init, last := s[..|s| - 1], s[|s| - 1];
      var tail := if last.rating == rating then [last] else [];
      assert SortByRating(s) == Insert(SortByRating(init), last);
      InsertIsStable(SortByRating(init), last, rating);
      SortIsStable(init, rating);
      assert WithRating(SortByRating(s), rating) == WithRating(init, rating) + tail;
      assert [last][1..] == [];
      assert WithRating([last], rating) == tail;
      WithRatingConcat(init, [last], rating);
      assert s == init + [last];
    }
  }

  // ---------------------------------------------------------------------------
  // matchProviders

  /** The badge rule: Top Rated from 4.8 stars, else Experienced from ten years, else null. */
  function Badge(p: Provider): (b: Option<string>)
    ensures b == Some("Top Rated") <==> p.rating >= 48
    ensures b == Some("Experienced") <==> p.rating < 48 && p.yearsExp >= 10
    ensures b.None? <==> p.rating < 48 && p.yearsExp < 10
  {
    if p.rating >= 48 then Some("Top Rated") else if p.yearsExp >= 10 then Some("Experienced") else None
  }

  function ToMatch(p: Provider, emergency: bool): Match {
    Match(p.name, p.rating, p.reviews, p.yearsExp, p.hourlyRate, if emergency then SAME_DAY else WITHIN_3_DAYS, Badge(p))
  }

  predicate IsEmergency(intakeData: Value) {
    Field(intakeData, "urgency") == Str("emergency")
  }

  /** The candidates in the order they are listed: by rating for an emergency, else the table's. */
  function Ordered(intakeData: Value): seq<Provider> {
    var candidates := Candidates(Field(intakeData, "service_type"));
    if IsEmergency(intakeData) then SortByRating(candidates) else candidates
  }

  /** `matchProviders(intakeData)`. */
  function MatchProviders(intakeData: Value): (r: seq<Match>)
    ensures |r| == |Ordered(intakeData)| == |Candidates(Field(intakeData, "service_type"))| > 0
    ensures forall k :: 0 <= k < |r| ==> r[k] == ToMatch(Ordered(intakeData)[k], IsEmergency(intakeData))
  {
    var candidates := Candidates(Field(intakeData, "service_type"));
    var emergency := IsEmergency(intakeData);
    var ordered := if emergency then SortByRating(candidates) else candidates;
    assert |ordered| == |candidates| by {
      assert |multiset(ordered)| == |multiset(candidates)|;
    }
    seq(|ordered|, k requires 0 <= k < |ordered| => ToMatch(ordered[k], emergency))
  }

  /**
   * One entry per candidate: for an emergency a permutation of the table ordered by
   * non-increasing rating, otherwise the table order; availability follows the urgency.
   */
  lemma MatchProvidersShape(intakeData: Value)
    ensures var r := MatchProviders(intakeData);
      var candidates := Candidates(Field(intakeData, "service_type"));
      && multiset(Ordered(intakeData)) == multiset(candidates)
      && (IsEmergency(intakeData) ==> forall i, j :: 0 <= i < j < |r| ==> r[i].rating >= r[j].rating)
      && (!IsEmergency(intakeData) ==> forall k :: 0 <= k < |r| ==> r[k].providerName == candidates[k].name)
      && (forall k :: 0 <= k < |r| ==>
            r[k].availability == if IsEmergency(intakeData) then "Same day" else "Within 3 business days")
  {
  }

  /** For an emergency plumbing request, Elite Pipe Services (4.9) comes first, then Metro (4.8), then QuickFix (4.6). */
  lemma EmergencyPlumbingOrder(intakeData: Value)
    requires Field(intakeData, "service_type") == Str("plumbing") && IsEmergency(intakeData)
    ensures var r := MatchProviders(intakeData);
      |r| == 3 && r[0].providerName == "Elite Pipe Services" && r[1].providerName == "Metro Plumbing Co."
      && r[2].providerName == "QuickFix Plumbers" && r[0].badge == Some("Top Rated") && r[2].badge == None
  {
    var ps := Candidates(Field(intakeData, "service_type"));
    assert ps[..2][..1] == [ps[0]];
    assert ps[..2] == [ps[0], ps[1]];
  }

  // ---------------------------------------------------------------------------
  // The request flows

  function Summary(matched: seq<Match>, intakeData: Value): string
    requires |matched| > 0
  {
    "We found " + NatToString(|matched|) + " " + ToString(Field(intakeData, "service_type")) + " providers near "
    + ToString(Field(intakeData, "zip_code")) + ". Top match: " + matched[0].providerName + " ("
    + TenthsToString(matched[0].rating) + " stars, " + NatToString(matched[0].totalReviews) + " reviews)."
  }

  /** The intake flow at `/api/aip/service-request`. */
  function IntakeStep(host: string, store: map<string, StoredOffer>, body: Payload, offerId: string, now: int): MatchingStep {
    var version := Str(AIP_VERSION);
    if body.Unparsable? || Nullish(body.json) then
      Step(Response(400, Failed(version, Null, INVALID_INPUT, INVALID_JSON)), store)
    else
      var intakeData := Field(body.json, "intake_data");
      var sessionId := Field(body.json, "session_id");
      if !Truthy(intakeData) || !Truthy(sessionId) then
        Step(Response(400, Failed(version, SessionEcho(sessionId), INVALID_INPUT, MISSING_ENVELOPE)), store)
      else if !Truthy(Field(intakeData, "service_type")) || !Truthy(Field(intakeData, "zip_code")) then
        Step(Response(400, Failed(version, sessionId, SCHEMA_MISMATCH, MISSING_FIELDS)), store)
      else
        var matched := MatchProviders(intakeData);
        var expires := now + OFFER_TTL_MS;
        var details := Details(matched, Field(intakeData, "service_type"), Field(intakeData, "zip_code"), |matched|);
        var offer := Offer(offerId, Str(Summary(matched, intakeData)), details, Some(expires),
                           Some(host + BIND_PATH), Some(Strs(["email", "full_name", "phone"])));
        Step(Response(200, Issued(version, sessionId, offer)),
             store[offerId := StoredOffer(sessionId, intakeData, matched, expires)])
  }

  function BookingFor(offer: StoredOffer, fullName: Value, now: int): Booking
    requires |offer.matched| > 0
  {
    var top := offer.matched[0].providerName;
    Booking("Thanks, " + ToString(fullName) + "! We're connecting you with " + top + ". They'll reach out within 2 hours.",
            "wd-" + IntToString(now), top)
  }

  /** The bind flow: lookup, the `email`/`full_name`/`phone` check, then delete. */
  function BindStep(store: map<string, StoredOffer>, body: Payload, now: int): MatchingStep {
    var invalid := Step(Response(400, Message(INVALID_JSON)), store);
    if body.Unparsable? || Nullish(body.json) then invalid
    else
      var offerId := Field(body.json, "offer_id");
      var bindData := Field(body.json, "bind_data");
      match Lookup(store, offerId)
      case None => Step(Response(404, Message(OFFER_NOT_FOUND)), store)
      case Some(offer) =>
        if Nullish(bindData) then invalid
        else if !Truthy(Field(bindData, "email")) || !Truthy(Field(bindData, "full_name"))
                || !Truthy(Field(bindData, "phone")) then
          Step(Response(400, Message(BIND_FIELDS_MISSING)), store)
        else if |offer.matched| == 0 then invalid.(store := store - {offerId.s})
        else Step(Response(200, Bound(BookingFor(offer, Field(bindData, "full_name"), now))), store - {offerId.s})
  }

  /** `handleRequest`: the routing of one request; the discovery document is served as loaded. */
  function ServeStep(host: string, manifest: Value, store: map<string, StoredOffer>, req: Request,
                     offerId: string, now: int): MatchingStep
  {
    match RouteOf(req.verb, req.url, {INTAKE_PATH})
    case Preflight => Step(Response(204, NoBody), store)
    case Discovery => Step(Response(200, Manifest(manifest)), store)
    case IntakeRoute => IntakeStep(host, store, req.body, offerId, now)
    case BindRoute => BindStep(store, req.body, now)
    case NoRoute => Step(Response(404, Message(NOT_FOUND)), store)
  }

  // ---------------------------------------------------------------------------
  // Properties of the flows

  /** The store invariant: every stored offer has at least one matched provider. */
  ghost predicate OffersMatched(store: map<string, StoredOffer>) {
    forall k :: k in store ==> |store[k].matched| > 0
  }

  /** Serving any request keeps every stored offer's match list non-empty. */
  lemma ServePreservesMatches(host: string, manifest: Value, store: map<string, StoredOffer>, req: Request,
                              offerId: string, now: int)
    requires OffersMatched(store)
    ensures OffersMatched(ServeStep(host, manifest, store, req, offerId, now).store)
  {
  }

  /**
   * Validation precedence: INVALID_INPUT for an incomplete envelope before SCHEMA_MISMATCH
   * for a missing `service_type` or `zip_code`; neither stores anything.
   */
  lemma IntakeValidationOrder(host: string, store: map<string, StoredOffer>, request: Value, offerId: string, now: int)
    requires !Nullish(request)
    ensures var s := IntakeStep(host, store, Parsed(request), offerId, now);
      var d := Field(request, "intake_data");
      && (!EnvelopeComplete(request) ==>
            s.response == Response(400, Failed(Str("0.1.0"), SessionEcho(Field(request, "session_id")), INVALID_INPUT, MISSING_ENVELOPE)))
      && (EnvelopeComplete(request) && (!Truthy(Field(d, "service_type")) || !Truthy(Field(d, "zip_code"))) ==>
            s.response == Response(400, Failed(Str("0.1.0"), Field(request, "session_id"), SCHEMA_MISMATCH, MISSING_FIELDS)))
      && (s.response.status != 200 ==> s.store == store)
  {
  }

  /**
   * A successful intake stores exactly the minted offer for three days, with the match
   * list it reports, and asks for `email`, `full_name` and `phone` at bind time.
   */
  lemma IntakeSuccessStoresOneOffer(host: string, store: map<string, StoredOffer>, body: Payload, offerId: string, now: int)
    requires offerId !in store
    requires IntakeStep(host, store, body, offerId, now).response.status == 200
    ensures var s := IntakeStep(host, store, body, offerId, now);
      && s.response.body.Issued? && s.response.body.offer.id == offerId
      && s.response.body.offer.bindEndpoint == Some(host + "/api/aip/bind")
      && s.response.body.offer.bindRequires == Some(Strs(["email", "full_name", "phone"]))
      && s.response.body.offer.expires == Some(now + 3 * DAY_MS)
      && s.store.Keys == store.Keys + {offerId} && |s.store| == |store| + 1
      && (forall k :: k in store ==> s.store[k] == store[k])
      && s.store[offerId].matched == MatchProviders(Field(body.json, "intake_data"))
      && s.response.body.offer.details.matchedProviders == s.store[offerId].matched
      && s.response.body.offer.details.totalMatches == |s.store[offerId].matched| > 0
  {
  }

  /**
   * Bind: an unknown offer id gives 404; a missing `email`, `full_name` or `phone` gives
   * 400 with the offer kept; success deletes the offer and names its top match.
   */
  lemma BindOutcomes(store: map<string, StoredOffer>, request: Value, now: int)
    requires OffersMatched(store)
    requires !Nullish(request)
    ensures var s := BindStep(store, Parsed(request), now);
      var offerId := Field(request, "offer_id");
      var bindData := Field(request, "bind_data");
      && (Lookup(store, offerId).None? ==> s == Step(Response(404, Message(OFFER_NOT_FOUND)), store))
      && (Lookup(store, offerId).Some? && !Nullish(bindData)
          && (!Truthy(Field(bindData, "email")) || !Truthy(Field(bindData, "full_name")) || !Truthy(Field(bindData, "phone"))) ==>
            s == Step(Response(400, Message("Bind requires email, full_name, and phone")), store))
      && (s.response.status == 200 <==>
            Lookup(store, offerId).Some? && !Nullish(bindData) && Truthy(Field(bindData, "email"))
            && Truthy(Field(bindData, "full_name")) && Truthy(Field(bindData, "phone")))
      && (s.response.status == 200 ==>
            offerId.s in store && s.store == store - {offerId.s} && s.response.body.Bound?
            && s.response.body.result.matchedProvider == store[offerId.s].matched[0].providerName)
      && (s.response.status != 200 ==> s.store == store)
  {
  }

  /** After a successful bind, the same request is 404. */
  lemma {:induction false} RebindIsNotFound(store: map<string, StoredOffer>, request: Value, now: int, later: int)
    requires OffersMatched(store)
    requires !Nullish(request)
    requires BindStep(store, Parsed(request), now).response.status == 200
    ensures BindStep(BindStep(store, Parsed(request), now).store, Parsed(request), later).response
         == Response(404, Message(OFFER_NOT_FOUND))
  {
    BindOutcomes(store, request, now);
  }

  /** The provider's module-level state: the loaded manifest and the offer map. */
  class MatchingServer {
    const host: string
    const manifest: Value
    var activeOffers: map<string, StoredOffer>

    ghost predicate Valid()
      reads this
    {
      OffersMatched(activeOffers)
    }

    constructor (host: string, manifest: Value)
      ensures Valid()
      ensures this.host == host && this.manifest == manifest && activeOffers == map[]
    {
      this.host := host;
      this.manifest := manifest;
      activeOffers := map[];
    }

    method HandleIntake(body: Payload, offerId: string, now: int) returns (resp: Response<Value, Details, Booking>)
      requires Valid()
      modifies this`activeOffers
      ensures Valid()
      ensures Step(resp, activeOffers) == IntakeStep(host, old(activeOffers), body, offerId, now)
    {
      var version := Str(AIP_VERSION);
      if body.Unparsable? || Nullish(body.json) {
        return Response(400, Failed(version, Null, INVALID_INPUT, INVALID_JSON));
      }
      var intakeData, sessionId := Field(body.json, "intake_data"), Field(body.json, "session_id");
      if !Truthy(intakeData) || !Truthy(sessionId) {
        return Response(400, Failed(version, SessionEcho(sessionId), INVALID_INPUT, MISSING_ENVELOPE));
      }
      if !Truthy(Field(intakeData, "service_type")) || !Truthy(Field(intakeData, "zip_code")) {
        return Response(400, Failed(version, sessionId, SCHEMA_MISMATCH, MISSING_FIELDS));
      }
      var matched := MatchProviders(intakeData);
      var expires := now + OFFER_TTL_MS;
      activeOffers := activeOffers[offerId := StoredOffer(sessionId, intakeData, matched, expires)];
      var details := Details(matched, Field(intakeData, "service_type"), Field(intakeData, "zip_code"), |matched|);
      resp := Response(200, Issued(version, sessionId, Offer(offerId, Str(Summary(matched, intakeData)), details,
                                                            Some(expires), Some(host + BIND_PATH),
                                                            Some(Strs(["email", "full_name", "phone"])))));
    }

    method HandleBind(body: Payload, now: int) returns (resp: Response<Value, Details, Booking>)
      requires Valid()
      modifies this`activeOffers
      ensures Valid()
      ensures Step(resp, activeOffers) == BindStep(old(activeOffers), body, now)
    {
      var invalid := Response(400, Message(INVALID_JSON));
      if body.Unparsable? || Nullish(body.json) {
        return invalid;
      }
      var offerId, bindData := Field(body.json, "offer_id"), Field(body.json, "bind_data");
      var offer := Lookup(activeOffers, offerId);
      if offer.None? {
        return Response(404, Message(OFFER_NOT_FOUND));
      }
      if Nullish(bindData) {
        return invalid;
      }
      if !Truthy(Field(bindData, "email")) || !Truthy(Field(bindData, "full_name")) || !Truthy(Field(bindData, "phone")) {
        return Response(400, Message(BIND_FIELDS_MISSING));
      }
      assert |offer.value.matched| > 0;
      activeOffers := activeOffers - {offerId.s};
      resp := Response(200, Bound(BookingFor(offer.value, Field(bindData, "full_name"), now)));
    }

    method Serve(req: Request, offerId: string, now: int) returns (resp: Response<Value, Details, Booking>)
      requires Valid()
      modifies this`activeOffers
      ensures Valid()
      ensures Step(resp, activeOffers) == ServeStep(host, manifest, old(activeOffers), req, offerId, now)
    {
      match RouteOf(req.verb, req.url, {INTAKE_PATH})
      case Preflight => resp := Response(204, NoBody);
      case Discovery => resp := Response(200, Manifest(manifest));
      case IntakeRoute => resp := HandleIntake(req.body, offerId, now);
      case BindRoute => resp := HandleBind(req.body, now);
      case NoRoute => resp := Response(404, Message(NOT_FOUND));
    }
  }
}

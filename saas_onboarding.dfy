/**
 * The TaskFlow trial-onboarding provider: a hand-written Agent Intake Protocol server
 * with one intake, `trial-setup`, that recommends a plan and pre-configured workspace,
 * and a bind endpoint that starts the trial.
 */
module SaasOnboarding {
  import opened Wrappers
  import opened Json
  import opened Text
  import opened Protocol

  const INTAKE_PATH := "/api/aip/trial-setup"
  const OFFER_TTL_MS := 14 * DAY_MS
  const MISSING_FIELDS := "Missing required fields: team_size, use_case"
  const BIND_FIELDS_MISSING := "Bind requires email and full_name"
  const DEFAULT_FEATURES := Strs(["kanban", "docs"])
  const NEXT_STEPS := ["Check your email for login credentials", "Invite your team members",
                       "Explore your pre-configured templates"]

  /** A per-user monthly price: a number of dollars, or `'Custom'`. */
  datatype Price = Dollars(n: nat) | Custom

  /** `max_projects`: a number, or `'Unlimited'`. */
  datatype Projects = MaxProjects(n: nat) | Unlimited

  datatype PlanConfig = PlanConfig(plan: string, price: Price, trialDays: nat, maxProjects: Projects)

  datatype Integration = Integration(name: Value, status: string, setupTime: string)

  datatype Migration = Migration(from: Value, guide: string)

  /** The offer details: `generateTrialConfig`'s result. */
  datatype TrialConfig = TrialConfig(
    plan: string,
    price: Price,
    trialDays: nat,
    maxProjects: Projects,
    templates: seq<string>,
    integrations: seq<Integration>,
    migrations: seq<Migration>,
    features: Value)

  /** The record kept in `activeOffers`; `expires` is a time in milliseconds. */
  datatype StoredOffer = StoredOffer(sessionId: Value, intakeData: Value, config: TrialConfig, expires: int)

  datatype Workspace = Workspace(url: string, trialExpires: int, templatesLoaded: seq<string>, nextSteps: seq<string>)

  /** The body of a successful bind: `{status: 'bound', message, workspace}`. */
  datatype Welcome = Welcome(message: string, workspace: Workspace)

  type SaasStep = Step<StoredOffer, Value, TrialConfig, Welcome>

  // ---------------------------------------------------------------------------
  // Tables

  /** `PLANS[teamSize]`. */
  function PlanRow(teamSize: string): Option<PlanConfig> {
    if teamSize == "solo" then Some(PlanConfig("Starter", Dollars(0), 14, MaxProjects(3)))
    else if teamSize == "2-5" then Some(TEAM_PLAN)
    else if teamSize == "6-20" then Some(PlanConfig("Business", Dollars(20), 30, MaxProjects(50)))
    else if teamSize == "21-50" then Some(PlanConfig("Business Plus", Dollars(18), 30, MaxProjects(100)))
    else if teamSize == "51-200" then Some(PlanConfig("Enterprise", Dollars(15), 30, Unlimited))
    else if teamSize == "200+" then Some(PlanConfig("Enterprise", Custom, 30, Unlimited))
    else None
  }

  const TEAM_PLAN := PlanConfig("Team", Dollars(12), 14, MaxProjects(10))

  /** `TEMPLATES[useCase]`. */
  function TemplatesFor(useCase: string): Option<seq<string>> {
    if useCase == "software_dev" then Some(["Sprint Board", "Bug Tracker", "Product Roadmap", "Release Planning"])
    else if useCase == "marketing" then Some(["Campaign Tracker", "Content Calendar", "Brand Assets", "Social Media Planner"])
    else if useCase == "design" then Some(["Design System", "Creative Briefs", "Asset Library", "Review & Approval"])
    else if useCase == "operations" then Some(["Process Tracker", "Inventory Management", "Vendor Management", "SOP Library"])
    else if useCase == "consulting" then Some(["Client Projects", "Time & Billing", "Proposal Tracker", "Resource Allocation"])
    else if useCase == "general" then Some(GENERAL_TEMPLATES)
    else None
  }

  const GENERAL_TEMPLATES := ["Task Board", "Team Wiki", "Meeting Notes", "Project Timeline"]

  /** `MIGRATION_GUIDES[tool]`. */
  function GuideFor(tool: string): Option<string> {
    if tool == "jira" then Some("Automated Jira import available — issues, sprints, and epics transfer directly.")
    else if tool == "asana" then Some("One-click Asana import — tasks, sections, and assignees preserved.")
    else if tool == "trello" then Some("Trello board import — cards, lists, labels, and attachments included.")
    else if tool == "monday" then Some("monday.com CSV export supported — we map columns to custom fields.")
    else if tool == "notion" then Some("Notion database import — pages convert to docs, databases to boards.")
    else if tool == "linear" then Some("Linear import via API — issues, cycles, and labels transfer seamlessly.")
    else if tool == "clickup" then Some("ClickUp import — spaces, folders, and lists map to our hierarchy.")
    else if tool == "spreadsheets" then Some("CSV/Excel import — we auto-detect columns and create matching fields.")
    else None
  }

  // ---------------------------------------------------------------------------
  // generateTrialConfig

  /** The filter of `current_tools`: not `'none'`, and a migration guide exists for it. */
  predicate Migrates(tool: Value) {
    tool != Str("none") && GuideFor(ToString(tool)).Some?
  }

  /** `tools.filter(Migrates).map(tool => ({from: tool, guide}))`. */
  function Migrations(tools: seq<Value>): (r: seq<Migration>)
    ensures |r| <= |tools|
    ensures forall m :: m in r ==> m.from in tools && Migrates(m.from) && Some(m.guide) == GuideFor(ToString(m.from))
    decreases |tools|
  {
    if |tools| == 0 then []
    else
      var rest := Migrations(tools[1..]);
      assert forall m :: m in rest ==> m.from in tools by {
        forall m | m in rest ensures m.from in tools {
          assert m.from in tools[1..];
        }
      }
      if Migrates(tools[0]) then [Migration(tools[0], GuideFor(ToString(tools[0])).value)] + rest else rest
  }

  /**
   * `Migrations` keeps the input order: it distributes over concatenation and turns one
   * tool into one migration exactly when that tool migrates. These two facts determine it.
   */
  lemma {:induction false} MigrationsInOrder(a: seq<Value>, b: seq<Value>, tool: Value)
    ensures Migrations(a + b) == Migrations(a) + Migrations(b)
    ensures Migrations([tool]) == if Migrates(tool) then [Migration(tool, GuideFor(ToString(tool)).value)] else []
    decreases |a|
  {
    if |a| == 0 {
      assert a + b == b;
    } else {
      assert (a + b)[0] == a[0];
      assert (a + b)[1..] == a[1..] + b;
      MigrationsInOrder(a[1..], b, tool);
    }
    assert [tool][1..] == [];
  }

  /** `needed.map(i => ({name: i, status: 'ready_to_connect', setup_time: '2 minutes'}))`. */
  function Integrations(needed: seq<Value>): (r: seq<Integration>)
    ensures |r| == |needed|
    ensures forall k :: 0 <= k < |r| ==>
      r[k].name == needed[k] && r[k].status == "ready_to_connect" && r[k].setupTime == "2 minutes"
  {
    seq(|needed|, k requires 0 <= k < |needed| => Integration(needed[k], "ready_to_connect", "2 minutes"))
  }

  /** `(v || []).filter` or `.map`: only a falsy value or an array has them; anything else throws. */
  function ListOrEmpty(v: Value): Option<seq<Value>> {
    if !Truthy(v) then Some([]) else if v.Arr? then Some(v.items) else None
  }

  /** `generateTrialConfig(intakeData)`; `None` stands for the TypeError a non-array list throws. */
  function GenerateTrialConfig(intakeData: Value): (r: Option<TrialConfig>)
    ensures r.None? <==> (ListOrEmpty(Field(intakeData, "current_tools")).None?
                       || ListOrEmpty(Field(intakeData, "integrations_needed")).None?)
    ensures r.Some? ==>
      var row := PlanRow(ToString(Field(intakeData, "team_size")));
      var plan := if row.Some? then row.value else PlanRow("2-5").value;
      var templates := TemplatesFor(ToString(Field(intakeData, "use_case")));
      && PlanConfig(r.value.plan, r.value.price, r.value.trialDays, r.value.maxProjects) == plan
      && r.value.templates == (if templates.Some? then templates.value else TemplatesFor("general").value)
      && r.value.migrations == Migrations(ListOrEmpty(Field(intakeData, "current_tools")).value)
      && r.value.integrations == Integrations(ListOrEmpty(Field(intakeData, "integrations_needed")).value)
      && r.value.features == (if Truthy(Field(intakeData, "priority_features")) then Field(intakeData, "priority_features")
                              else Strs(["kanban", "docs"]))
  {
    var row := PlanRow(ToString(Field(intakeData, "team_size")));
    var plan := if row.Some? then row.value else TEAM_PLAN;
    var templates := TemplatesFor(ToString(Field(intakeData, "use_case")));
    var tools := ListOrEmpty(Field(intakeData, "current_tools"));
    var needed := ListOrEmpty(Field(intakeData, "integrations_needed"));
    if tools.None? || needed.None? then None
    else
      Some(TrialConfig(plan.plan, plan.price, plan.trialDays, plan.maxProjects,
                       if templates.Some? then templates.value else GENERAL_TEMPLATES,
                       Integrations(needed.value), Migrations(tools.value),
                       Or(Field(intakeData, "priority_features"), DEFAULT_FEATURES)))
  }

  /** Every template list has four entries, so the summary always announces four templates. */
  lemma TemplateCount(intakeData: Value)
    requires GenerateTrialConfig(intakeData).Some?
    ensures |GenerateTrialConfig(intakeData).value.templates| == 4
  {
    var useCase := ToString(Field(intakeData, "use_case"));
    if TemplatesFor(useCase).Some? {
      assert |TemplatesFor(useCase).value| == 4;
    }
  }

  /** An unknown team size gets the `2-5` plan: Team, $12, a 14-day trial. */
  lemma UnknownTeamSizeGetsTeamPlan(intakeData: Value)
    requires GenerateTrialConfig(intakeData).Some?
    requires ToString(Field(intakeData, "team_size")) !in {"solo", "2-5", "6-20", "21-50", "51-200", "200+"}
    ensures GenerateTrialConfig(intakeData).value.plan == "Team"
    ensures GenerateTrialConfig(intakeData).value.price == Dollars(12)
    ensures GenerateTrialConfig(intakeData).value.trialDays == 14
  {
  }

  // ---------------------------------------------------------------------------
  // The offer text

  /** The price phrase of the summary. */
  function PriceString(p: Price): (s: string)
    ensures p == Dollars(0) <==> s == "Free"
    ensures p == Custom <==> s == "Custom pricing"
    ensures p.Dollars? && p.n != 0 ==> s == "$" + NatToString(p.n) + "/user/mo"
  {
    match p
    case Dollars(n) =>
      if n == 0 then "Free"
      else
        var s := "$" + NatToString(n) + "/user/mo";
        assert s[0] == '$';
        s
    case Custom => "Custom pricing"
  }

  /** Different prices never read the same. */
  lemma PriceStringInjective(p: Price, q: Price)
    requires PriceString(p) == PriceString(q)
    ensures p == q
  {
    if p.Dollars? && p.n != 0 && q.Dollars? && q.n != 0 {
      var s := PriceString(p);
      assert s[1..|s| - 8] == NatToString(p.n);
      assert PriceString(q)[1..|s| - 8] == NatToString(q.n);
      NatToStringInjective(p.n, q.n);
    }
  }

  function Summary(config: TrialConfig, intakeData: Value): string {
    "We recommend the " + config.plan + " plan (" + PriceString(config.price) + ") with a "
    + NatToString(config.trialDays) + "-day free trial. We'll pre-configure "
    + NatToString(|config.templates|) + " templates for " + ToString(Field(intakeData, "use_case")) + " workflows."
  }

  // ---------------------------------------------------------------------------
  // The request flows

  /** The intake flow at `/api/aip/trial-setup`. */
  function IntakeStep(host: string, store: map<string, StoredOffer>, body: Payload, offerId: string, now: int): SaasStep {
    var version := Str(AIP_VERSION);
    var invalid := Step(Response(400, Failed(version, Null, INVALID_INPUT, INVALID_JSON)), store);
    if body.Unparsable? || Nullish(body.json) then invalid
    else
      var intakeData := Field(body.json, "intake_data");
      var sessionId := Field(body.json, "session_id");
      if !Truthy(intakeData) || !Truthy(sessionId) then
        Step(Response(400, Failed(version, SessionEcho(sessionId), INVALID_INPUT, MISSING_ENVELOPE)), store)
      else if !Truthy(Field(intakeData, "team_size")) || !Truthy(Field(intakeData, "use_case")) then
        Step(Response(400, Failed(version, sessionId, SCHEMA_MISMATCH, MISSING_FIELDS)), store)
      else
        match GenerateTrialConfig(intakeData)
        case None => invalid
        case Some(config) =>
          var expires := now + OFFER_TTL_MS;
          var offer := Offer(offerId, Str(Summary(config, intakeData)), config, Some(expires),
                             Some(host + BIND_PATH), Some(Strs(["email", "full_name"])));
          Step(Response(200, Issued(version, sessionId, offer)),
               store[offerId := StoredOffer(sessionId, intakeData, config, expires)])
  }

  function WelcomeFor(offer: StoredOffer, fullName: Value, now: int): Welcome {
    Welcome("Welcome to TaskFlow, " + ToString(fullName) + "! Your " + offer.config.plan + " trial is ready.",
            Workspace("https://taskflow.example.com/workspace/demo-" + IntToString(now),
                      now + offer.config.trialDays * DAY_MS, offer.config.templates, NEXT_STEPS))
  }

  /** The bind flow: lookup first, then the `email`/`full_name` check, then delete. */
  function BindStep(store: map<string, StoredOffer>, body: Payload, now: int): SaasStep {
    var invalid := Step(Response(400, Message(INVALID_JSON)), store);
    if body.Unparsable? || Nullish(body.json) then invalid
    else
      var offerId := Field(body.json, "offer_id");
      var bindData := Field(body.json, "bind_data");
      match Lookup(store, offerId)
      case None => Step(Response(404, Message(OFFER_NOT_FOUND)), store)
      case Some(offer) =>
        if Nullish(bindData) then invalid
        else if !Truthy(Field(bindData, "email")) || !Truthy(Field(bindData, "full_name")) then
          Step(Response(400, Message(BIND_FIELDS_MISSING)), store)
        else
          Step(Response(200, Bound(WelcomeFor(offer, Field(bindData, "full_name"), now))), store - {offerId.s})
  }

  /** `handleRequest`: the routing of one request; the discovery document is served as loaded. */
  function ServeStep(host: string, manifest: Value, store: map<string, StoredOffer>, req: Request,
                     offerId: string, now: int): SaasStep
  {
    match RouteOf(req.verb, req.url, {INTAKE_PATH})
    case Preflight => Step(Response(204, NoBody), store)
    case Discovery => Step(Response(200, Manifest(manifest)), store)
    case IntakeRoute => IntakeStep(host, store, req.body, offerId, now)
    case BindRoute => BindStep(store, req.body, now)
    case NoRoute => Step(Response(404, Message(NOT_FOUND)), store)
  }

  // ---------------------------------------------------------------------------
  // Properties of the intake flow

  /**
   * Validation precedence: a request missing `intake_data` or `session_id` is answered
   * INVALID_INPUT whatever its intake fields are; one with a complete envelope but no
   * `team_size` or `use_case` is answered SCHEMA_MISMATCH. Neither stores anything.
   */
  lemma IntakeValidationOrder(host: string, store: map<string, StoredOffer>, request: Value, offerId: string, now: int)
    requires !Nullish(request)
    ensures var s := IntakeStep(host, store, Parsed(request), offerId, now);
      var intakeData := Field(request, "intake_data");
      && (!EnvelopeComplete(request) ==>
            s.response == Response(400, Failed(Str("0.1.0"), SessionEcho(Field(request, "session_id")), INVALID_INPUT, MISSING_ENVELOPE)))
      && (EnvelopeComplete(request) && (!Truthy(Field(intakeData, "team_size")) || !Truthy(Field(intakeData, "use_case"))) ==>
            s.response == Response(400, Failed(Str("0.1.0"), Field(request, "session_id"), SCHEMA_MISMATCH, MISSING_FIELDS)))
      && (s.response.status != 200 ==> s.store == store)
  {
  }

  /**
   * A successful intake adds exactly the minted offer to the store, and advertises a
   * bind endpoint on the host with `bind_requires ['email', 'full_name']`.
   */
  lemma IntakeSuccessStoresOneOffer(host: string, store: map<string, StoredOffer>, body: Payload, offerId: string, now: int)
    requires offerId !in store
    requires IntakeStep(host, store, body, offerId, now).response.status == 200
    ensures var s := IntakeStep(host, store, body, offerId, now);
      && s.response.body.Issued? && s.response.body.offer.id == offerId
      && s.response.body.offer.bindEndpoint == Some(host + "/api/aip/bind")
      && s.response.body.offer.bindRequires == Some(Strs(["email", "full_name"]))
      && s.response.body.offer.expires == Some(now + 14 * DAY_MS)
      && s.store.Keys == store.Keys + {offerId} && |s.store| == |store| + 1
      && (forall k :: k in store ==> s.store[k] == store[k])
      && s.store[offerId].config == s.response.body.offer.details
      && Some(s.store[offerId].config) == GenerateTrialConfig(Field(body.json, "intake_data"))
  {
  }

  /** A list field that is truthy but not an array throws inside the handler: 400 Invalid JSON body. */
  lemma MalformedListIsInvalidJson(host: string, store: map<string, StoredOffer>, request: Value, offerId: string, now: int)
    requires !Nullish(request) && EnvelopeComplete(request)
    requires var d := Field(request, "intake_data"); Truthy(Field(d, "team_size")) && Truthy(Field(d, "use_case"))
    requires var tools := Field(Field(request, "intake_data"), "current_tools"); Truthy(tools) && !tools.Arr?
    ensures IntakeStep(host, store, Parsed(request), offerId, now)
         == Step(Response(400, Failed(Str("0.1.0"), Null, INVALID_INPUT, "Invalid JSON body")), store)
  {
  }

  // ---------------------------------------------------------------------------
  // Properties of the bind flow

  /**
   * An unknown offer id gives 404 before the bind fields are examined; missing `email`
   * or `full_name` gives 400 with the offer kept; otherwise the offer is consumed.
   */
  lemma BindOutcomes(store: map<string, StoredOffer>, request: Value, now: int)
    requires !Nullish(request)
    ensures var s := BindStep(store, Parsed(request), now);
      var offerId := Field(request, "offer_id");
      var bindData := Field(request, "bind_data");
      && (Lookup(store, offerId).None? ==> s == Step(Response(404, Message(OFFER_NOT_FOUND)), store))
      && (Lookup(store, offerId).Some? && !Nullish(bindData)
          && (!Truthy(Field(bindData, "email")) || !Truthy(Field(bindData, "full_name"))) ==>
            s == Step(Response(400, Message("Bind requires email and full_name")), store))
      && (s.response.status == 200 <==>
            Lookup(store, offerId).Some? && !Nullish(bindData)
            && Truthy(Field(bindData, "email")) && Truthy(Field(bindData, "full_name")))
      && (s.response.status == 200 ==> s.store == store - {offerId.s} && offerId.s in store)
      && (s.response.status != 200 ==> s.store == store)
  {
  }

  /** After a successful bind a repeat of the same request is 404. */
  lemma {:induction false} RebindIsNotFound(store: map<string, StoredOffer>, request: Value, now: int, later: int)
    requires !Nullish(request)
    requires BindStep(store, Parsed(request), now).response.status == 200
    ensures BindStep(BindStep(store, Parsed(request), now).store, Parsed(request), later).response
         == Response(404, Message(OFFER_NOT_FOUND))
  {
    BindOutcomes(store, request, now);
  }

  /** The welcome names the person and the recommended plan, and lists the offer's templates. */
  lemma BindWelcome(store: map<string, StoredOffer>, request: Value, now: int)
    requires !Nullish(request)
    requires BindStep(store, Parsed(request), now).response.status == 200
    ensures var offer := store[Field(request, "offer_id").s];
      var b := BindStep(store, Parsed(request), now).response.body;
      && b.Bound?
      && b.result.message == "Welcome to TaskFlow, " + ToString(Field(Field(request, "bind_data"), "full_name"))
                             + "! Your " + offer.config.plan + " trial is ready."
      && b.result.workspace.trialExpires == now + offer.config.trialDays * 24 * 60 * 60 * 1000
      && b.result.workspace.templatesLoaded == offer.config.templates
  {
  }

  /** Only the intake and bind routes can change the store. */
  lemma OtherRoutesKeepStore(host: string, manifest: Value, store: map<string, StoredOffer>, req: Request,
                             offerId: string, now: int)
    requires RouteOf(req.verb, req.url, {INTAKE_PATH}) !in {IntakeRoute, BindRoute}
    ensures ServeStep(host, manifest, store, req, offerId, now).store == store
  {
  }

  /** The provider's module-level state: the loaded manifest and the offer map. */
  class SaasServer {
    const host: string
    const manifest: Value
    var activeOffers: map<string, StoredOffer>

    constructor (host: string, manifest: Value)
      ensures this.host == host && this.manifest == manifest && activeOffers == map[]
    {
      this.host := host;
      this.manifest := manifest;
      activeOffers := map[];
    }

    method HandleIntake(body: Payload, offerId: string, now: int) returns (resp: Response<Value, TrialConfig, Welcome>)
      modifies this`activeOffers
      ensures Step(resp, activeOffers) == IntakeStep(host, old(activeOffers), body, offerId, now)
    {
      var version := Str(AIP_VERSION);
      var invalid := Response(400, Failed(version, Null, INVALID_INPUT, INVALID_JSON));
      if body.Unparsable? || Nullish(body.json) {
        return invalid;
      }
      var intakeData, sessionId := Field(body.json, "intake_data"), Field(body.json, "session_id");
      if !Truthy(intakeData) || !Truthy(sessionId) {
        return Response(400, Failed(version, SessionEcho(sessionId), INVALID_INPUT, MISSING_ENVELOPE));
      }
      if !Truthy(Field(intakeData, "team_size")) || !Truthy(Field(intakeData, "use_case")) {
        return Response(400, Failed(version, sessionId, SCHEMA_MISMATCH, MISSING_FIELDS));
      }
      var config := GenerateTrialConfig(intakeData);
      if config.None? {
        return invalid;
      }
      var expires := now + OFFER_TTL_MS;
      activeOffers := activeOffers[offerId := StoredOffer(sessionId, intakeData, config.value, expires)];
      var summary := Summary(config.value, intakeData);
      resp := Response(200, Issued(version, sessionId, Offer(offerId, Str(summary), config.value, Some(expires),
                                                            Some(host + BIND_PATH), Some(Strs(["email", "full_name"])))));
    }

    method HandleBind(body: Payload, now: int) returns (resp: Response<Value, TrialConfig, Welcome>)
      modifies this`activeOffers
      ensures Step(resp, activeOffers) == BindStep(old(activeOffers), body, now)
    {
      var invalid := Response(400, Message(INVALID_JSON));
      if body.Unparsable? || Nullish(body.json) {
        return invalid;
      }
      var offerId, bindData := Field(body.json, "offer_id"), Field(body.json, "bind_data");
      var offer := Lookup(activeOffers, offerId);
      if offer.None? {
        return Response(404, Message(OFFER_NOT_FOUND));
      }
      if Nullish(bindData) {
        return invalid;
      }
      if !Truthy(Field(bindData, "email")) || !Truthy(Field(bindData, "full_name")) {
        return Response(400, Message(BIND_FIELDS_MISSING));
      }
      activeOffers := activeOffers - {offerId.s};
      resp := Response(200, Bound(WelcomeFor(offer.value, Field(bindData, "full_name"), now)));
    }

    method Serve(req: Request, offerId: string, now: int) returns (resp: Response<Value, TrialConfig, Welcome>)
      modifies this`activeOffers
      ensures Step(resp, activeOffers) == ServeStep(host, manifest, old(activeOffers), req, offerId, now)
    {
      match RouteOf(req.verb, req.url, {INTAKE_PATH})
      case Preflight => resp := Response(204, NoBody);
      case Discovery => resp := Response(200, Manifest(manifest));
      case IntakeRoute => resp := HandleIntake(req.body, offerId, now);
      case BindRoute => resp := HandleBind(req.body, now);
      case NoRoute => resp := Response(404, Message(NOT_FOUND));
    }
  }
}

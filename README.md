# Agent Intake Protocol — a Dafny model

This project models the protocol engine of the Agent Intake Protocol (AIP). In AIP an
agent discovers a provider's intakes from a manifest at `/.well-known/agent-intake.json`,
posts intake data to one of them, gets back an offer, and may bind (accept) that offer
at `/api/aip/bind` by sending personal data. The model covers both halves of the
JavaScript SDK and the four hand-written example providers.

- **Provider engine** (`AipServer`, class `AIPServer`). It holds the intake registry:
  the `intakes`, `handlers` and `bindHandlers` fields. It builds the manifest, keeps the
  in-memory offer store `activeOffers`, routes requests, and runs the intake and bind
  flows.
- **Agent engine** (`AipClient`, class `AIPClient`). It caches the discovered manifest,
  resolves intakes from it, builds the submit and bind payloads, maps submit errors,
  de-duplicates the consent scope, and gates `fullFlow`.
- **Round trip** (`RoundTrip`). It proves what the client makes of the manifest the
  server publishes.
- **Example providers**:
  - `SaasOnboarding` (plan, templates, migrations, price string);
  - `HealthAssessment` (risk tier, senior discount, bind envelope check);
  - `ServiceMatching` (fallback list, stable emergency sort, badge rule);
  - `Calculator` (BMI bands; no state and no bind route).
- **Shared modules**:
  - `Json`: parsed JSON values with JavaScript truthiness, `||`, property reads and `String(v)`;
  - `Text`: decimal rendering;
  - `Protocol`: request/response shapes, the `Step` pair and routing;
  - `Wrappers`: `Option`.

## How the model is built

Every request flow is a function from the state before a request to a `Step`: the
response together with the offer store after the request. Each provider is also a
class with the source's fields. Its methods perform the flow statement by statement and
promise that their response and new `activeOffers` equal the function's `Step`. The
properties are lemmas about those functions.

The shared JavaScript semantics work as follows:

- `!x` is `Truthy`.
- A property read on `null` or `undefined` throws, which is the catch path of each
  server (`Nullish`).
- A table lookup `T[k]` converts the key with `String(k)` (`ToString`).

Values outside the program's control are parameters:

- the handlers, which are function values that return a value or throw;
- `crypto.randomUUID()`, given as a fresh id;
- `Date.now()`, given as `now` in milliseconds;
- each `fetch` of the client, answered by a given `Reply`.

Numbers are integers. Ratings and BMI are held in tenths, and `Math.round` is exact
rational rounding with halves rounded up.

Where the written protocol description and the code disagree, the model follows the code:
- No flow reads an offer's `expires`. An offer is never rejected as expired.
- `addIntake` does not reject a duplicate id. A later handler replaces the earlier one, and the manifest lists both descriptors.
- The intake flow overwrites an existing entry when a minted id collides. It does not fail.
- The SDK's bind flow does not check `bind_data` against `bind_requires`. The examples check fixed fields ad hoc, with plain `{error}` bodies rather than a MISSING_FIELDS code.
- The SDK deletes an offer only after `onBind` returns. A failed `onBind` leaves the offer bindable.
- An unparsable intake body gets 500 INTERNAL_ERROR from the SDK. It gets 400 INVALID_INPUT from the examples.
- The SDK stores an offer before reading `result.summary`. A handler that returns `null` for a non-binding intake therefore gets a 500 response while its offer stays stored (`AipServer.NullResultStoredDespiteError`).

## Model

| member | source | states |
|---|---|---|
| Text.StripTrailingSlash | sdk/js/aip-server.js:35 | one trailing `/` is removed, and only one; a base URL without it is unchanged |
| Json.FalsyValues | sdk/js/aip-server.js:149 | exactly `undefined`, `null`, `false`, `0` and `""` count as missing |
| Json.Or | sdk/js/aip-server.js:36 | `a \|\| b` is `a` when `a` is truthy, otherwise `b`; it is truthy iff either operand is |
| Json.MathRound | examples/health-assessment/server.js:98 | the result is the nearest integer to `num/den`, a half rounded up |
| Protocol.SessionEcho | sdk/js/aip-server.js:153 | `session_id \|\| null` is the session id when it is truthy, and `null` otherwise |
| Protocol.Lookup | sdk/js/aip-server.js:216 | `activeOffers.get` finds an offer iff the id is a string key of the store, and returns that entry |
| Protocol.RouteOf | sdk/js/aip-server.js:111-137 | preflight iff OPTIONS; intake iff POST to a registered path; bind iff POST to `/api/aip/bind` not shadowed by an intake; discovery iff GET of the manifest path; anything else is the 404 route |
| AipServer.AIPServer.constructor | sdk/js/aip-server.js:33-41 | base URL with one trailing `/` stripped, version defaulting to `0.1.0`, empty registry and store, registry invariant established |
| AipServer.Descriptor | sdk/js/aip-server.js:58-77 | endpoint is base URL + `/api/aip/` + id with method POST; description defaults to name, offer type to `quote`; binding available unless exactly `false`; no auth; fixed privacy flags |
| AipServer.AIPServer.AddIntake | sdk/js/aip-server.js:57-85 | the descriptor is appended, the handler is set under `/api/aip/<id>`, `onBind` is kept only when given; the registry invariant is preserved |
| AipServer.AddIntakeKeepsConsistency | sdk/js/aip-server.js:58-80 | registering keeps every endpoint equal to base URL + intake path and the handler keys equal to the registered paths |
| AipServer.FindIntake | sdk/js/aip-server.js:167 | returns the first descriptor whose endpoint ends with the path, and none iff no endpoint does |
| AipServer.RegisteredPathFindsIntake | sdk/js/aip-server.js:125-167 | in a consistent registry, a routed intake path always finds its descriptor |
| AipServer.AIPServer.GetManifest | sdk/js/aip-server.js:91-97 | the manifest is the version, the provider and the intakes in registration order |
| AipServer.RegisterServeAndBindTwice | sdk/js/aip-server.js:79-235 | after two registrations the manifest lists the earlier intakes followed by both new descriptors in registration order; if the first of two identical binds succeeds, exactly its offer is gone and the second gets 404 |
| AipServer.IntakeJson | sdk/js/aip-server.js:61-77 | the serialised descriptor carries the intake's id and endpoint |
| AipServer.ManifestJson | sdk/js/aip-server.js:91-97 | the serialised manifest carries `aip_version` and one serialised descriptor per intake, in order |
| AipServer.IntakeEnvelopeChecked | sdk/js/aip-server.js:149-158 | missing `intake_data` or `session_id` gives 400 INVALID_INPUT echoing the session or null, store unchanged, and the result does not depend on any handler |
| AipServer.IntakeFailureStoresNothing | sdk/js/aip-server.js:196-204 | an unparsable body or a throwing handler gives 500 INTERNAL_ERROR `Failed to process intake` with the store unchanged |
| AipServer.IntakeSuccessStoresOneOffer | sdk/js/aip-server.js:163-195 | a 200 response carries the minted offer id, the request's session and an expiry seven days on; exactly that one entry is added and every other entry is unchanged |
| AipServer.IntakeBindFields | sdk/js/aip-server.js:167-187 | `bind_endpoint` and `bind_requires` appear iff the intake is bindable; `bind_requires` is the handler's list when truthy, else `['email','full_name']` |
| AipServer.IntakeTouchesOnlyOfferId | sdk/js/aip-server.js:141-206 | the intake flow changes the store at most at the minted id, and a non-200 response that stored something is the 500 of a nullish result |
| AipServer.NullResultStoredDespiteError | sdk/js/aip-server.js:168-179 | a handler returning `null` for a non-bindable intake yields 500 while the offer stays stored |
| AipServer.BindUnknownOffer | sdk/js/aip-server.js:216-221 | an offer id that is not a stored key gives 404 `Offer not found or expired` with the store unchanged |
| AipServer.BindSuccessConsumes | sdk/js/aip-server.js:216-238 | a 200 bind names a stored offer, and afterwards the store is the old one without exactly that offer |
| AipServer.RebindIsNotFound | sdk/js/aip-server.js:235 | after a successful bind, a later bind naming the same offer id gets 404 |
| AipServer.BindDefaultAcknowledges | sdk/js/aip-server.js:223-235 | without `onBind` the response is `{status:'bound', message:'Binding confirmed for offer <id>.'}` and the offer is deleted |
| AipServer.BindHandlerFailureKeepsOffer | sdk/js/aip-server.js:226-241 | a throwing `onBind` gives 500 `Failed to process bind request` and the offer is kept |
| AipServer.OtherRoutesKeepStore | sdk/js/aip-server.js:111-137 | preflight, discovery and unknown routes leave the store unchanged and answer 204, 200 or 404 |
| AipServer.IntakePathShadowsBind | sdk/js/aip-server.js:125-134 | once an intake with id `bind` is registered, a POST to `/api/aip/bind` runs that intake's flow |
| AipServer.AIPServer.HandleIntake | sdk/js/aip-server.js:141-206 | the response and new `activeOffers` are those of the intake flow on the old store |
| AipServer.AIPServer.HandleBind | sdk/js/aip-server.js:208-244 | the response and new `activeOffers` are those of the bind flow on the old store |
| AipServer.AIPServer.Serve | sdk/js/aip-server.js:103-138 | the response and new `activeOffers` are those of the routed flow |
| AipClient.AIPClient.constructor | sdk/js/aip-client.js:22-28 | one trailing `/` stripped; agent id given or `aip-client-` + 8 uuid characters; platform defaults to `custom`, scope to `['intake','offer']`; no manifest |
| AipClient.ListIntakes | sdk/js/aip-client.js:55-60 | throws NO_MANIFEST iff no manifest is cached, else returns its `intakes` |
| AipClient.FindById | sdk/js/aip-client.js:71 | `find` returns the first item with the id, none iff no item stops the scan, and throws iff a null item is reached first |
| AipClient.GetIntake | sdk/js/aip-client.js:67-76 | NO_MANIFEST without a manifest; a result is the first listed intake with that id; a listed intake with that id, reached before any null entry, is returned; INTAKE_NOT_FOUND iff the list has no such intake |
| AipClient.CheckManifest | sdk/js/aip-client.js:44-46 | a document is accepted iff it has truthy `aip_version` and `intakes`, otherwise INVALID_MANIFEST with the discovery URL |
| AipClient.DiscoverResult | sdk/js/aip-client.js:34-49 | a non-ok reply throws DISCOVERY_FAILED; an ok, parsed reply gives exactly the manifest check of its body (accepted iff `aip_version` and `intakes` are truthy, else INVALID_MANIFEST); a returned manifest is that body |
| AipClient.InvalidManifestStaysCached | sdk/js/aip-client.js:42-46 | a document lacking `aip_version` or `intakes` is rejected with INVALID_MANIFEST yet cached, so `listIntakes` no longer throws NO_MANIFEST |
| AipClient.AIPClient.Discover | sdk/js/aip-client.js:34-49 | the result is the discovery outcome, and the manifest field holds any parsed ok document, valid or not |
| AipClient.SubmitRequest | sdk/js/aip-client.js:88-99 | posted to the intake's endpoint, with the manifest's `aip_version`, the intake data unchanged, and the given session id if truthy else a fresh one |
| AipClient.ReadSubmitReply | sdk/js/aip-client.js:107-113 | a status of `'error'` throws with `error.code` or SUBMIT_ERROR and `error.message` or `Intake submission failed`; any other parsed response is returned as is |
| AipClient.SubmitIgnoresHttpStatus | sdk/js/aip-client.js:101-113 | the submit result does not depend on the HTTP status or `ok` flag |
| AipClient.AIPClient.Submit | sdk/js/aip-client.js:86-114 | the intake is resolved before anything is sent; a failed resolution sends nothing; otherwise the sent request and result are as above |
| AipClient.Dedup | sdk/js/aip-client.js:137 | no duplicates, the same elements, in order of first occurrence |
| AipClient.BindScopeShape | sdk/js/aip-client.js:137 | `'bind'` occurs exactly once, after the de-duplicated scopes unless already among them |
| AipClient.ReadBindReply | sdk/js/aip-client.js:147 | `bind` resolves to the parsed body whatever the status |
| AipClient.AIPClient.Bind | sdk/js/aip-client.js:125-148 | no endpoint throws NO_BIND_ENDPOINT before sending; otherwise the payload carries the offer id, session, bind data and the bind scope |
| AipClient.AIPClient.FullFlow | sdk/js/aip-client.js:157-173 | the cached manifest is what `discover` leaves; the intake request is the one `submit` builds from the discovered manifest with a fresh session id, sent iff the intake resolves; bind is sent iff bind data is truthy, the status is `'offer'` and `offer.bind_endpoint` is present, with that offer's id, session id and endpoint; the result is the discovered manifest, the offer and the bind response |
| RoundTrip.ServedManifestAccepted | sdk/js/aip-client.js:44-46 | the server's manifest passes the client's check iff its version is truthy |
| RoundTrip.FirstWithIdIsFirst | sdk/js/aip-client.js:71 | the intake a served manifest resolves to sits at a position with no earlier intake of that id |
| RoundTrip.ClientResolvesServedIntake | sdk/js/aip-client.js:67-76 | from a server manifest, `getIntake(id)` returns the descriptor of the first intake registered under id, else INTAKE_NOT_FOUND |
| RoundTrip.ResolvedEndpointIsRouted | sdk/js/aip-server.js:58-80 | in a consistent registry the resolved endpoint is base URL + a path the server routes to that intake |
| SaasOnboarding.Migrations | examples/saas-onboarding/server.js:54-56 | every migration comes from an input tool that is not `'none'` and has a guide, with that guide |
| SaasOnboarding.MigrationsInOrder | examples/saas-onboarding/server.js:54-56 | migrations distribute over concatenation and one tool yields one migration iff it qualifies, so input order is kept |
| SaasOnboarding.Integrations | examples/saas-onboarding/server.js:58-62 | one `ready_to_connect`, `2 minutes` entry per requested integration, in order |
| SaasOnboarding.GenerateTrialConfig | examples/saas-onboarding/server.js:48-77 | unknown team size falls back to the `2-5` plan, unknown use case to `general` templates; features default to `['kanban','docs']`; a truthy non-array list throws |
| SaasOnboarding.TemplateCount | examples/saas-onboarding/server.js:143 | the summary always announces four templates |
| SaasOnboarding.UnknownTeamSizeGetsTeamPlan | examples/saas-onboarding/server.js:51 | an unknown team size gets Team at $12 with a 14-day trial |
| SaasOnboarding.PriceString | examples/saas-onboarding/server.js:131-135 | `Free` iff price 0, `Custom pricing` iff `'Custom'`, otherwise `$N/user/mo` |
| SaasOnboarding.PriceStringInjective | examples/saas-onboarding/server.js:131-135 | different prices give different price strings |
| SaasOnboarding.IntakeValidationOrder | examples/saas-onboarding/server.js:105-123 | INVALID_INPUT is decided before SCHEMA_MISMATCH, and no error path stores an offer |
| SaasOnboarding.IntakeSuccessStoresOneOffer | examples/saas-onboarding/server.js:125-149 | exactly the minted offer is added, with the reported config, a 14-day expiry and `bind_requires ['email','full_name']` |
| SaasOnboarding.MalformedListIsInvalidJson | examples/saas-onboarding/server.js:153-160 | a non-array `current_tools` lands in the catch: 400 `Invalid JSON body`, null session, nothing stored |
| SaasOnboarding.BindOutcomes | examples/saas-onboarding/server.js:173-190 | unknown id gives 404 before fields are checked; missing email or name gives 400 with the offer kept; 200 iff both present, deleting only that offer |
| SaasOnboarding.RebindIsNotFound | examples/saas-onboarding/server.js:186 | repeating a successful bind gives 404 |
| SaasOnboarding.BindWelcome | examples/saas-onboarding/server.js:188-202 | the welcome names the person and plan, the trial ends `trial_days` after now, and the offer's templates are loaded |
| SaasOnboarding.OtherRoutesKeepStore | examples/saas-onboarding/server.js:85-95 | preflight, discovery and unknown routes leave the store unchanged |
| SaasOnboarding.SaasServer.constructor | examples/saas-onboarding/server.js:46 | the store starts empty |
| SaasOnboarding.SaasServer.HandleIntake | examples/saas-onboarding/server.js:97-163 | the response and new store are those of the intake flow |
| SaasOnboarding.SaasServer.HandleBind | examples/saas-onboarding/server.js:165-209 | the response and new store are those of the bind flow |
| SaasOnboarding.SaasServer.Serve | examples/saas-onboarding/server.js:79-213 | the response and new store are those of the routed flow |
| HealthAssessment.ChoosePlan | examples/health-assessment/server.js:84-93 | for insulin resistance, the high-risk plan iff glucose `high` or `elevated` with `sedentary`; otherwise the concern's entry or `general` |
| HealthAssessment.SeniorPrice | examples/health-assessment/server.js:96-99 | the discounted cost is 0.85 times the cost rounded to the nearest dollar, never above it |
| HealthAssessment.GenerateOffer | examples/health-assessment/server.js:81-108 | the chosen plan's name, inclusions and timeline in USD, with the senior price exactly for `60+` |
| HealthAssessment.SeniorPrices | examples/health-assessment/server.js:97-99 | 249 to 212, 149 to 127, 129 to 110, 99 to 84 |
| HealthAssessment.InsulinResistancePricing | examples/health-assessment/server.js:85-99 | the insulin-resistance plan and monthly cost for each risk and age combination |
| HealthAssessment.IntakeValidationOrder | examples/health-assessment/server.js:139-160 | INVALID_INPUT is decided before SCHEMA_MISMATCH, and no error path stores an offer |
| HealthAssessment.IntakeSuccessStoresOneOffer | examples/health-assessment/server.js:162-181 | exactly the minted offer is added, with the reported details, a 7-day expiry and `bind_requires ['email','full_name']` |
| HealthAssessment.BindOutcomes | examples/health-assessment/server.js:207-227 | missing offer id, session or bind data gives 400 before the lookup; then unknown gives 404; then missing email or name gives 400 with the offer kept; 200 deletes only that offer |
| HealthAssessment.BindIgnoresSessionMatch | examples/health-assessment/server.js:205-227 | any truthy bind `session_id` gives the same outcome; it is never compared with the offer's session |
| HealthAssessment.RebindIsNotFound | examples/health-assessment/server.js:227 | repeating a successful bind gives 404 |
| HealthAssessment.HealthServer.constructor | examples/health-assessment/server.js:79 | the store starts empty |
| HealthAssessment.HealthServer.HandleIntake | examples/health-assessment/server.js:131-196 | the response and new store are those of the intake flow |
| HealthAssessment.HealthServer.HandleBind | examples/health-assessment/server.js:199-246 | the response and new store are those of the bind flow |
| HealthAssessment.HealthServer.Serve | examples/health-assessment/server.js:110-251 | the response and new store are those of the routed flow |
| ServiceMatching.ProvidersFor | examples/service-matching/server.js:15-38 | every service type's provider list is non-empty |
| ServiceMatching.Candidates | examples/service-matching/server.js:50 | the service type's list, else the default list; never empty |
| ServiceMatching.Insert | examples/service-matching/server.js:54 | inserting adds exactly one element and keeps the order by non-increasing rating |
| ServiceMatching.SortByRating | examples/service-matching/server.js:54 | the sorted copy is a permutation ordered by non-increasing rating |
| ServiceMatching.SortIsStable | examples/service-matching/server.js:54 | providers with equal ratings keep their relative table order |
| ServiceMatching.Badge | examples/service-matching/server.js:64 | Top Rated iff rating at least 4.8; Experienced iff below that with at least 10 years; else null |
| ServiceMatching.MatchProviders | examples/service-matching/server.js:57-65 | one entry per candidate, each built from the candidate at the same position of the order |
| ServiceMatching.MatchProvidersShape | examples/service-matching/server.js:50-65 | for an emergency, a permutation by non-increasing rating; otherwise table order; availability `Same day` iff emergency |
| ServiceMatching.EmergencyPlumbingOrder | examples/service-matching/server.js:16-20 | an emergency plumbing request lists Elite Pipe Services, Metro Plumbing Co., QuickFix Plumbers, with their badges |
| ServiceMatching.ServePreservesMatches | examples/service-matching/server.js:118 | every stored offer keeps a non-empty match list, so `matched[0]` exists |
| ServiceMatching.IntakeValidationOrder | examples/service-matching/server.js:94-112 | INVALID_INPUT is decided before SCHEMA_MISMATCH, and no error path stores an offer |
| ServiceMatching.IntakeSuccessStoresOneOffer | examples/service-matching/server.js:114-137 | exactly the minted offer is added, with the reported matches, a 3-day expiry and `bind_requires ['email','full_name','phone']` |
| ServiceMatching.BindOutcomes | examples/service-matching/server.js:161-181 | unknown id gives 404; a missing email, name or phone gives 400 with the offer kept; 200 deletes only that offer and names its top match |
| ServiceMatching.RebindIsNotFound | examples/service-matching/server.js:174 | repeating a successful bind gives 404 |
| ServiceMatching.MatchingServer.constructor | examples/service-matching/server.js:46 | the store starts empty |
| ServiceMatching.MatchingServer.HandleIntake | examples/service-matching/server.js:86-151 | the response and new store are those of the intake flow, and stored offers keep non-empty match lists |
| ServiceMatching.MatchingServer.HandleBind | examples/service-matching/server.js:153-189 | the response and new store are those of the bind flow |
| ServiceMatching.MatchingServer.Serve | examples/service-matching/server.js:68-193 | the response and new store are those of the routed flow |
| Calculator.BmiTenths | examples/calculator/server.js:14-18 | BMI in tenths is `7030 w / h²` rounded to the nearest integer, defined iff both are numbers |
| Calculator.BandOf | examples/calculator/server.js:20-27 | six bands with inclusive lower bounds 18.5, 25, 30, 35 and 40; NaN lands in Class III |
| Calculator.BandMonotone | examples/calculator/server.js:20-27 | a larger BMI never yields an earlier category |
| Calculator.HealthyRange | examples/calculator/server.js:29-34 | the weights for BMI 18.5 and 24.9 at the height, each rounded to the nearest pound |
| Calculator.HealthyRangeOrdered | examples/calculator/server.js:29-34 | the minimum never exceeds the maximum |
| Calculator.IntakeValidationOrder | examples/calculator/server.js:62-82 | INVALID_INPUT before SCHEMA_MISMATCH; a height of 0 counts as missing |
| Calculator.UnparsableIsInvalidInput | examples/calculator/server.js:111-118 | an unparsable body gives 400 INVALID_INPUT with a null session |
| Calculator.OfferIsNonBinding | examples/calculator/server.js:88-108 | an offer has the minted id and no expiry, bind endpoint or bind requirements |
| Calculator.BindIsNotFound | examples/calculator/server.js:123-124 | `POST /api/aip/bind` gets 404 `Not found` |
| Calculator.SeventyInchesOneEighty | examples/calculator/server.js:84-86 | 70 inches and 180 lbs give BMI 25.8, Overweight, healthy range 129-174 lbs |

## Left out

- HTTP plumbing is not modelled: the server setup, chunked body reading, CORS headers and logging. It has no protocol logic. A request arrives as a verb, a URL and a parsed body or a parse failure.
- `JSON.parse` and `JSON.stringify` are not modelled, and neither is property order in serialised bodies. Bodies are parsed values, and responses are typed records.
- Only integer numbers are modelled. Scores are in tenths and `Math.round` is exact. Floating-point rounding error, non-integer inputs, and the numeric coercion of strings or booleans are left out.
- Calculator.BmiTenths: a height or weight that is not a number is treated as NaN. The source would coerce a numeric string or `true` to a number.
- Table lookups `T[k]` miss every inherited `Object.prototype` key, such as `constructor`.
- HealthAssessment.ChoosePlan: a non-string `primary_concern` whose string form is `insulin_resistance` falls back to the general plan. The source reaches the nested risk table there and produces an offer with no plan name or cost.
- Concurrency is not modelled. In the SDK's bind flow, the lookup and the delete are separated by an `await`, so two concurrent binds can both succeed. At most once is stated only for sequential requests.
- Expiry times are carried as integers in milliseconds. No flow reads them. The two `Date.now()` calls in a bind are modelled as one `now`, and ISO date formatting is left out.
- The example providers load their discovery documents from a file at start-up and rewrite the endpoint to the local host. That is file I/O, so each document is a given value.
- Handlers and `onBind` are pure functions of their arguments. Their side effects are not modelled.
- The client's `fetch` is answered by a given reply. The reply says whether the transport failed, and gives the status, the status text and the parsed body. URLs are not validated.
- AipClient.AIPClient.constructor: `consentScope` is modelled as absent or a list of strings. Other option values are not modelled.
- The random parts of the model are parameters: the agent-id suffix and the session and offer ids.
- AipServer.IntakeSuccessStoresOneOffer: this assumes the minted id is fresh, as a random UUID makes overwhelmingly likely. With a colliding id, the source overwrites the entry (`AipServer.IntakeTouchesOnlyOfferId`).
- The documentation site's script is not part of this model. It is DOM and scrolling behaviour only.

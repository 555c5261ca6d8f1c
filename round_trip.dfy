/**
 * The discovery round trip between the two halves of the SDK: what `AIPClient` makes of
 * the manifest an `AIPServer` publishes.
 */
module RoundTrip {
  import opened Wrappers
  import opened Json
  import opened Protocol
  import opened AipServer
  import opened AipClient

  /** The first registered intake with the given id. */
  function FirstWithId(intakes: seq<Intake>, id: string): (r: Option<Intake>)
    ensures r.Some? ==> r.value in intakes && r.value.id == id
    ensures r.None? <==> forall k :: 0 <= k < |intakes| ==> intakes[k].id != id
    decreases |intakes|
  {
    if |intakes| == 0 then None
    else if intakes[0].id == id then Some(intakes[0])
    else
      assert forall k :: 1 <= k < |intakes| ==> intakes[k] == intakes[1..][k - 1];
      FirstWithId(intakes[1..], id)
  }

  /** The intake found is the first with that id: no earlier intake carries it. */
  lemma {:induction false} FirstWithIdIsFirst(intakes: seq<Intake>, id: string)
    requires FirstWithId(intakes, id).Some?
    ensures exists k :: 0 <= k < |intakes| && intakes[k] == FirstWithId(intakes, id).value
                        && forall j :: 0 <= j < k ==> intakes[j].id != id
    decreases |intakes|
  {
    if intakes[0].id == id {
      assert intakes[0] == FirstWithId(intakes, id).value;
    } else {
      FirstWithIdIsFirst(intakes[1..], id);
      var k :| 0 <= k < |intakes[1..]| && intakes[1..][k] == FirstWithId(intakes[1..], id).value
               && forall j :: 0 <= j < k ==> intakes[1..][j].id != id;
      assert intakes[k + 1] == FirstWithId(intakes, id).value;
      assert forall j :: 0 <= j < k + 1 ==> intakes[j].id != id by {
        forall j | 0 <= j < k + 1 ensures intakes[j].id != id {
          if j > 0 { assert intakes[j] == intakes[1..][j - 1]; }
        }
      }
    }
  }

  function Listed(intakes: seq<Intake>): seq<Value> {
    seq(|intakes|, k requires 0 <= k < |intakes| => IntakeJson(intakes[k]))
  }

  lemma {:induction false} FindListed(intakes: seq<Intake>, id: string)
    ensures FindById(Listed(intakes), id)
         == if FirstWithId(intakes, id).None? then Ok(None) else Ok(Some(IntakeJson(FirstWithId(intakes, id).value)))
    decreases |intakes|
  {
    if |intakes| > 0 {
      var listed := Listed(intakes);
      assert listed[0] == IntakeJson(intakes[0]);
      assert listed[1..] == Listed(intakes[1..]);
      FindListed(intakes[1..], id);
    }
  }

  /** The server's discovery document passes the client's check exactly when its version is truthy. */
  lemma ServedManifestAccepted(m: ManifestDoc, url: string)
    ensures CheckManifest(ManifestJson(m), url).Ok? <==> Truthy(m.aipVersion)
    ensures CheckManifest(ManifestJson(m), url).Ok? ==> CheckManifest(ManifestJson(m), url).value == ManifestJson(m)
  {
  }

  /**
   * After discovering a server's manifest, `getIntake(id)` returns the descriptor of the
   * first intake registered under `id`, and INTAKE_NOT_FOUND when there is none.
   */
  lemma ClientResolvesServedIntake(m: ManifestDoc, id: string)
    ensures FirstWithId(m.intakes, id).Some? ==>
      GetIntake(ManifestJson(m), id) == Ok(IntakeJson(FirstWithId(m.intakes, id).value))
    ensures FirstWithId(m.intakes, id).None? ==> GetIntake(ManifestJson(m), id) == Err(IntakeNotFound(id))
  {
    var v := ManifestJson(m);
    assert Truthy(v);
    assert Field(v, "intakes") == Arr(Listed(m.intakes));
    FindListed(m.intakes, id);
  }

  /**
   * In a consistent registry, the endpoint a client resolves from the manifest is the
   * base URL followed by a path the server routes to that intake's handler.
   */
  lemma ResolvedEndpointIsRouted(reg: Registry, id: string)
    requires RegistryConsistent(reg.baseUrl, reg.intakes, reg.handlers.Keys)
    requires FirstWithId(reg.intakes, id).Some?
    ensures GetIntake(ManifestJson(ManifestOf(reg)), id).Ok?
    ensures Field(GetIntake(ManifestJson(ManifestOf(reg)), id).value, "endpoint") == Str(reg.baseUrl + IntakePath(id))
    ensures RouteOf("POST", IntakePath(id), reg.handlers.Keys) == IntakeRoute
  {
    ClientResolvesServedIntake(ManifestOf(reg), id);
    var i := FirstWithId(reg.intakes, id).value;
    var k :| 0 <= k < |reg.intakes| && reg.intakes[k] == i;
  }
}

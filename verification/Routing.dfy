/** Org-aware routing: a resolved route rewritten for its caller, first its own
    connections, then its provider policy, then the refusal of unfunded lanes. */
module Routing {
  import opened Prelude
  import opened CatalogRows
  import opened CatalogAssembly

  /** One normalised deployment, as far as routing reads it: its id, and the provider
      family of its connection. */
  datatype Deployment = Deployment(id: DeploymentId, provider: Family)

  /** What the ledger lets an attempt dispatch. */
  datatype Snapshot = Snapshot(authorization: nat, exactModel: string, pool: string, deploymentIds: seq<DeploymentId>)

  datatype Route = Route(
    snapshot: Snapshot, primary: Deployment, fallbacks: seq<Deployment>, reason: string, fallbackReason: string)
  {
    function Deployments(): (ds: seq<Deployment>)
      ensures ds != []
    {
      [primary] + fallbacks
    }

    /** The snapshot names the route's deployments, in order. */
    predicate Consistent() {
      snapshot.deploymentIds == Ids(Deployments())
    }
  }

  function Ids(ds: seq<Deployment>): seq<DeploymentId> {
    seq(|ds|, i requires 0 <= i < |ds| => ds[i].id)
  }

  /** Both rewrites rebuild the route around other deployments, the same way. */
  function Rebuilt(route: Route, ds: seq<Deployment>): (r: Route)
    requires ds != []
    ensures r.Deployments() == ds && r.Consistent()
    ensures r.reason == route.reason && r.fallbackReason == route.fallbackReason
    ensures r.snapshot.authorization == route.snapshot.authorization && r.snapshot.exactModel == route.snapshot.exactModel
    ensures r.snapshot.pool == route.snapshot.pool
  {
    Route(route.snapshot.(deploymentIds := Ids(ds)), ds[0], ds[1..], route.reason, route.fallbackReason)
  }

  // Variants -----------------------------------------------------------------

  /** The caller's own deployment for a canonical, when one is registered. */
  function Own(variants: map<DeploymentId, DeploymentId>, deployments: map<DeploymentId, Deployment>, d: Deployment): Deployment {
    if d.id in variants && variants[d.id] in deployments then deployments[variants[d.id]] else d
  }

  function OwnAll(variants: map<DeploymentId, DeploymentId>, deployments: map<DeploymentId, Deployment>, ds: seq<Deployment>)
    : (r: seq<Deployment>)
    ensures |r| == |ds|
  {
    if ds == [] then [] else OwnAll(variants, deployments, ds[..|ds| - 1]) + [Own(variants, deployments, ds[|ds| - 1])]
  }

  lemma {:induction false} OwnAt(variants: map<DeploymentId, DeploymentId>, deployments: map<DeploymentId, Deployment>, ds: seq<Deployment>, i: nat)
    requires i < |ds|
    ensures OwnAll(variants, deployments, ds)[i] == Own(variants, deployments, ds[i])
  {
    if i < |ds| - 1 {
      OwnAt(variants, deployments, ds[..|ds| - 1], i);
    }
  }

  /** Swaps the caller's variants into the route, if any apply. */
  method SubstituteOrgVariants(route: Route, variants: map<DeploymentId, DeploymentId>, deployments: map<DeploymentId, Deployment>)
    returns (r: Route)
    requires route.Consistent()
    ensures r == Rebuilt(route, OwnAll(variants, deployments, route.Deployments()))
  {
    var ds := route.Deployments();
    KeepsItself(route);
    if variants == map[] {
      NothingOwned(deployments, ds);
      return route;
    }
    var substituted: seq<Deployment> := [];
    var changed := false;
    var i := 0;
    while i < |ds|
      invariant i <= |ds| && substituted == OwnAll(variants, deployments, ds[..i])
      invariant !changed ==> substituted == ds[..i]
    {
      assert ds[..i + 1][..i] == ds[..i] && ds[..i + 1] == ds[..i] + [ds[i]];
      var d := ds[i];
      if d.id in variants && variants[d.id] in deployments {
        substituted := substituted + [deployments[variants[d.id]]];
        changed := true;
      } else {
        substituted := substituted + [d];
      }
      i := i + 1;
    }
    assert ds[..i] == ds;
    if !changed {
      return route;
    }
    r := Rebuilt(route, substituted);
  }

  lemma KeepsItself(route: Route)
    requires route.Consistent()
    ensures Rebuilt(route, route.Deployments()) == route
  {
    assert route.Deployments()[1..] == route.fallbacks;
  }

  lemma {:induction false} NothingOwned(deployments: map<DeploymentId, Deployment>, ds: seq<Deployment>)
    ensures OwnAll(map[], deployments, ds) == ds
  {
    if ds != [] {
      NothingOwned(deployments, ds[..|ds| - 1]);
    }
  }

  // Provider policy ----------------------------------------------------------

  datatype Controls = Controls(zeroDataRetention: bool, noTraining: bool)

  datatype Policy = Policy(allowed: Option<set<Family>>, requireZdr: bool, requireNoTraining: bool)
  {
    /** An unknown posture fails every required control. */
    predicate Permits(provider: Family, controls: map<Family, Controls>) {
      if allowed.Some? && provider !in allowed.value then false
      else if requireZdr || requireNoTraining then
        provider in controls
        && (requireZdr ==> controls[provider].zeroDataRetention)
        && (requireNoTraining ==> controls[provider].noTraining)
      else true
    }
  }

  function Permitted(policy: Option<Policy>, controls: map<Family, Controls>, ds: seq<Deployment>): seq<Deployment> {
    if ds == [] then []
    else
      var n := |ds| - 1;
      Permitted(policy, controls, ds[..n])
      + if policy.None? || policy.value.Permits(ds[n].provider, controls) then [ds[n]] else []
  }

  datatype Refusal = NoCompliantRoute | OwnKeyRequired

  function ApplyProviderPolicy(route: Route, policy: Option<Policy>, controls: map<Family, Controls>)
    : Result<Route, Refusal>
  {
    if policy.None? then Ok(route)
    else
      var kept := Permitted(policy, controls, route.Deployments());
      if |kept| == |route.Deployments()| then Ok(route)
      else if kept == [] then Err(NoCompliantRoute)
      else Ok(Rebuilt(route, kept))
  }

  lemma {:induction false} AllPermitted(policy: Option<Policy>, controls: map<Family, Controls>, ds: seq<Deployment>)
    ensures |Permitted(policy, controls, ds)| <= |ds|
    ensures |Permitted(policy, controls, ds)| == |ds| || policy.None? ==> Permitted(policy, controls, ds) == ds
  {
    if ds != [] {
      AllPermitted(policy, controls, ds[..|ds| - 1]);
    }
  }

  // The unfunded lanes -------------------------------------------------------

  predicate AllRequireOwnKey(ds: seq<Deployment>, required: set<DeploymentId>) {
    forall d :: d in ds ==> d.id in required
  }

  function RequireByokConnection(route: Route, required: set<DeploymentId>): Result<Route, Refusal> {
    if required == {} then Ok(route)
    else if AllRequireOwnKey(route.Deployments(), required) then Err(OwnKeyRequired)
    else Ok(route)
  }

  // The pipeline -------------------------------------------------------------

  /** What a worker's state holds for one catalog key. */
  datatype KeyState = KeyState(
    variants: map<Org, map<DeploymentId, DeploymentId>>, deployments: map<DeploymentId, Deployment>, ownKeyRequired: set<DeploymentId>)

  datatype Governance = Governance(policies: map<Org, Policy>, controls: map<Family, Controls>)

  function VariantsOf(state: KeyState, org: Org): map<DeploymentId, DeploymentId> {
    if org in state.variants then state.variants[org] else map[]
  }

  function PolicyOf(g: Governance, org: Org): Option<Policy> {
    if org in g.policies then Some(g.policies[org]) else None
  }

  /** The deployments a caller may be served by: its own where it has one, then only
      those its policy permits. */
  function Lanes(state: KeyState, g: Governance, org: Org, ds: seq<Deployment>): seq<Deployment> {
    Permitted(PolicyOf(g, org), g.controls, OwnAll(VariantsOf(state, org), state.deployments, ds))
  }

  /** What a caller's policy asks of the family it is served by: one it allows, known
      to keep no data where that is required, known not to train where that is. */
  ghost predicate Meets(g: Governance, org: Org, family: Family) {
    org in g.policies ==>
      var policy := g.policies[org];
      && (policy.allowed.Some? ==> family in policy.allowed.value)
      && (policy.requireZdr ==> family in g.controls && g.controls[family].zeroDataRetention)
      && (policy.requireNoTraining ==> family in g.controls && g.controls[family].noTraining)
  }

  /** The lane a caller is given in a deployment's place. */
  ghost predicate StandsFor(state: KeyState, org: Org, lane: Deployment, d: Deployment) {
    if org in state.variants && d.id in state.variants[org] && state.variants[org][d.id] in state.deployments
    then lane == state.deployments[state.variants[org][d.id]] else lane == d
  }

  /** The lanes stand, in order, for those deployments whose stand-in the policy lets
      through, and for no other. */
  ghost predicate Keeps(state: KeyState, g: Governance, org: Org, ds: seq<Deployment>, lanes: seq<Deployment>) {
    exists at: seq<nat> :: KeepsAt(state, g, org, ds, lanes, at)
  }

  ghost predicate KeepsAt(state: KeyState, g: Governance, org: Org, ds: seq<Deployment>, lanes: seq<Deployment>, at: seq<nat>) {
    && |at| == |lanes|
    && (forall k, l :: 0 <= k < l < |at| ==> at[k] < at[l])
    && (forall k :: 0 <= k < |at| ==> at[k] < |ds| && StandsFor(state, org, lanes[k], ds[at[k]]) && Meets(g, org, lanes[k].provider))
    && (forall i: nat, lane :: i < |ds| && StandsFor(state, org, lane, ds[i]) && Meets(g, org, lane.provider) ==> i in at)
  }

  lemma StandInIs(state: KeyState, org: Org, lane: Deployment, d: Deployment)
    ensures StandsFor(state, org, lane, d) <==> lane == Own(VariantsOf(state, org), state.deployments, d)
  {
  }

  lemma MeetsIs(g: Governance, org: Org, family: Family)
    ensures Meets(g, org, family) <==> PolicyOf(g, org).None? || PolicyOf(g, org).value.Permits(family, g.controls)
  {
  }

  lemma {:induction false} LanesAreKept(state: KeyState, g: Governance, org: Org, ds: seq<Deployment>)
    ensures Keeps(state, g, org, ds, Lanes(state, g, org, ds))
  {
    if ds == [] {
      assert KeepsAt(state, g, org, [], [], []);
    } else {
      var n := |ds| - 1;
      var front, d := ds[..n], ds[n];
      assert ds == front + [d];
      LanesAreKept(state, g, org, front);
      var lanes := Lanes(state, g, org, front);
      var at :| KeepsAt(state, g, org, front, lanes, at);
      var own := Own(VariantsOf(state, org), state.deployments, d);
      OwnSnoc(VariantsOf(state, org), state.deployments, front, d);
      PermittedSnoc(PolicyOf(g, org), g.controls, OwnAll(VariantsOf(state, org), state.deployments, front), own);
      MeetsIs(g, org, own.provider);
      forall lane ensures StandsFor(state, org, lane, d) <==> lane == own {
        StandInIs(state, org, lane, d);
      }
      hide Own, OwnAll, Permitted, Policy.Permits, StandsFor, Meets, PolicyOf, VariantsOf;
      if Meets(g, org, own.provider) {
        KeepOne(state, g, org, front, d, lanes, own, at);
      } else {
        assert lanes + [] == lanes;
        KeepNone(state, g, org, front, d, lanes, at);
      }
    }
  }

  lemma EveryLaneMeets(state: KeyState, g: Governance, org: Org, ds: seq<Deployment>, lanes: seq<Deployment>)
    requires Keeps(state, g, org, ds, lanes)
    ensures forall d :: d in lanes ==> Meets(g, org, d.provider)
  {
    hide StandsFor, Meets;
    var at :| KeepsAt(state, g, org, ds, lanes, at);
    forall d | d in lanes ensures Meets(g, org, d.provider) {
      var k :| 0 <= k < |lanes| && lanes[k] == d;
      assert at[k] < |ds|;
    }
  }

  lemma KeepOne(state: KeyState, g: Governance, org: Org, front: seq<Deployment>, d: Deployment, lanes: seq<Deployment>,
                own: Deployment, at: seq<nat>)
    requires KeepsAt(state, g, org, front, lanes, at) && StandsFor(state, org, own, d) && Meets(g, org, own.provider)
    ensures KeepsAt(state, g, org, front + [d], lanes + [own], at + [|front|])
  {
    hide StandsFor, Meets;
    var all := at + [|front|];
    forall i: nat, lane | i < |front + [d]| && StandsFor(state, org, lane, (front + [d])[i]) && Meets(g, org, lane.provider)
      ensures i in all
    {
      assert i < |front| ==> (front + [d])[i] == front[i] && i in at;
      assert i == |front| ==> all[|at|] == i;
    }
  }

  lemma KeepNone(state: KeyState, g: Governance, org: Org, front: seq<Deployment>, d: Deployment, lanes: seq<Deployment>, at: seq<nat>)
    requires KeepsAt(state, g, org, front, lanes, at)
    requires forall lane :: StandsFor(state, org, lane, d) ==> !Meets(g, org, lane.provider)
    ensures KeepsAt(state, g, org, front + [d], lanes, at)
  {
    hide StandsFor, Meets;
  }

  /** Variant substitution, then the policy, then the fail-closed check. */
  method FinishRoute(state: KeyState, g: Governance, org: Org, route: Route)
    returns (result: Result<Route, Refusal>)
    requires route.Consistent()
    ensures var lanes := Lanes(state, g, org, route.Deployments());
            && (result.Ok? <==> !AllRequireOwnKey(lanes, state.ownKeyRequired))
            && (result.Ok? ==> lanes != [] && result.value == Rebuilt(route, lanes))
            && Keeps(state, g, org, route.Deployments(), lanes)
            && (result.Ok? <==> exists d :: d in lanes && d.id !in state.ownKeyRequired)
            && (result.Ok? ==> result.value.Deployments() == lanes && forall d :: d in lanes ==> Meets(g, org, d.provider))
            && (result.Err? ==> result.error == if lanes == [] then NoCompliantRoute else OwnKeyRequired)
  {
    LanesAreKept(state, g, org, route.Deployments());
    EveryLaneMeets(state, g, org, route.Deployments(), Lanes(state, g, org, route.Deployments()));
    var substituted := SubstituteOrgVariants(route, VariantsOf(state, org), state.deployments);
    var ds := substituted.Deployments();
    AllPermitted(PolicyOf(g, org), g.controls, ds);
    KeepsItself(substituted);
    var compliant := ApplyProviderPolicy(substituted, PolicyOf(g, org), g.controls);
    if compliant.Err? {
      return compliant;
    }
    assert compliant.value.Deployments()[0] in compliant.value.Deployments();
    result := RequireByokConnection(compliant.value, state.ownKeyRequired);
  }

  /** Every registered variant serves through its canonical's provider. */
  predicate KeepProvider(variants: map<DeploymentId, DeploymentId>, deployments: map<DeploymentId, Deployment>, ds: seq<Deployment>) {
    forall d :: d in ds ==> Own(variants, deployments, d).provider == d.provider
  }

  /** Substitution and policy commute as long as variants keep their canonical's
      provider: the order of the two rewrites does not matter. */
  lemma {:induction false} RewritesCommute(variants: map<DeploymentId, DeploymentId>, deployments: map<DeploymentId, Deployment>,
                                               policy: Option<Policy>, controls: map<Family, Controls>,
                                               ds: seq<Deployment>)
    requires KeepProvider(variants, deployments, ds)
    ensures Permitted(policy, controls, OwnAll(variants, deployments, ds))
         == OwnAll(variants, deployments, Permitted(policy, controls, ds))
  {
    hide Policy.Permits, OwnAll, Permitted, Own;
    if ds == [] {
      NoLanes(variants, deployments, policy, controls);
    } else {
      var n := |ds| - 1;
      var front, last := ds[..n], ds[n];
      assert ds == front + [last];
      assert last in ds && forall d :: d in front ==> d in ds;
      RewritesCommute(variants, deployments, policy, controls, front);
      var own := Own(variants, deployments, last);
      assert own.provider == last.provider;
      OwnSnoc(variants, deployments, front, last);
      PermittedSnoc(policy, controls, front, last);
      PermittedSnoc(policy, controls, OwnAll(variants, deployments, front), own);
      OwnSnoc(variants, deployments, Permitted(policy, controls, front), last);
      var kept := Permitted(policy, controls, front);
      assert kept + [] == kept;
    }
  }

  lemma NoLanes(variants: map<DeploymentId, DeploymentId>, deployments: map<DeploymentId, Deployment>,
                policy: Option<Policy>, controls: map<Family, Controls>)
    ensures OwnAll(variants, deployments, []) == [] && Permitted(policy, controls, []) == []
  {
  }

  lemma OwnSnoc(variants: map<DeploymentId, DeploymentId>, deployments: map<DeploymentId, Deployment>,
                ds: seq<Deployment>, d: Deployment)
    ensures OwnAll(variants, deployments, ds + [d]) == OwnAll(variants, deployments, ds) + [Own(variants, deployments, d)]
  {
    assert (ds + [d])[..|ds|] == ds;
  }

  lemma PermittedSnoc(policy: Option<Policy>, controls: map<Family, Controls>, ds: seq<Deployment>, d: Deployment)
    ensures Permitted(policy, controls, ds + [d])
         == Permitted(policy, controls, ds)
            + if policy.None? || policy.value.Permits(d.provider, controls) then [d] else []
  {
    assert (ds + [d])[..|ds|] == ds;
  }

  /** Whoever is served is served by lanes its policy permits, and never only by
      lanes that have no key. */
  lemma {:induction false} LanesArePermitted(policy: Option<Policy>, controls: map<Family, Controls>, ds: seq<Deployment>, d: Deployment)
    ensures d in Permitted(policy, controls, ds)
       <==> d in ds && (policy.None? || policy.value.Permits(d.provider, controls))
  {
    if ds != [] {
      LanesArePermitted(policy, controls, ds[..|ds| - 1], d);
      assert ds == ds[..|ds| - 1] + [ds[|ds| - 1]];
    }
  }
}

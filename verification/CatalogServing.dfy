/** Routing over a built catalog: what the assembler guarantees is what the resolver
    relies on. */
module CatalogServing {
  import opened Prelude
  import opened Sorting
  import opened Grouping
  import opened CatalogRows
  import opened CatalogAssembly
  import opened CatalogClosed
  import opened Routing

  /** The normalised deployments of a catalog keep their ids. */
  function Served(cat: Catalog): map<DeploymentId, Deployment> {
    map id | id in cat.models && cat.models[id].connection in cat.connections ::
      Deployment(id, cat.connections[cat.models[id].connection].family)
  }

  /** What a worker serves a build's keys from. */
  function KeyStateOf(cat: Catalog): KeyState {
    KeyState(cat.variants, Served(cat), cat.ownKeyRequired)
  }

  predicate AreServed(cat: Catalog, ds: seq<Deployment>) {
    forall d :: d in ds ==> d.id in Served(cat) && Served(cat)[d.id] == d
  }

  /** A caller's own lane of a deployment serves the same exact model through the same
      provider, over a connection of the caller's own organisation. */
  lemma OwnLaneIsTheCallers(rows: Rows, w: Worker, org: Org, d: Deployment)
    requires Keyed(rows) && AreServed(BuildCatalog(w, rows).catalog, [d])
    ensures var cat := BuildCatalog(w, rows).catalog;
            var own := Own(VariantsOf(KeyStateOf(cat), org), Served(cat), d);
            && own.provider == d.provider
            && own.id in cat.models && d.id in cat.models && cat.models[own.id].exactModel == cat.models[d.id].exactModel
            && (own != d ==> own.id in cat.boundTo && cat.boundTo[own.id].org == org
                             && cat.models[own.id].connection == Conn(cat.boundTo[own.id].id))
  {
    hide BuildCatalog, Keyed;
    var cat := BuildCatalog(w, rows).catalog;
    assert d in [d];
    var variants := VariantsOf(KeyStateOf(cat), org);
    if d.id in variants {
      VariantsStayHome(rows, w, org, d.id);
    }
  }

  /** So on every built catalog substitution and policy commute, for every caller. */
  lemma BuiltRewritesCommute(rows: Rows, w: Worker, org: Org, policy: Option<Policy>, controls: map<Family, Controls>,
                             ds: seq<Deployment>)
    requires Keyed(rows) && AreServed(BuildCatalog(w, rows).catalog, ds)
    ensures var cat := BuildCatalog(w, rows).catalog;
            var variants := VariantsOf(KeyStateOf(cat), org);
            Permitted(policy, controls, OwnAll(variants, Served(cat), ds))
            == OwnAll(variants, Served(cat), Permitted(policy, controls, ds))
  {
    hide BuildCatalog, Keyed, Own, OwnAll, Permitted, VariantsOf, Served;
    var cat := BuildCatalog(w, rows).catalog;
    var variants := VariantsOf(KeyStateOf(cat), org);
    forall d | d in ds ensures Own(variants, Served(cat), d).provider == d.provider {
      OwnLaneIsTheCallers(rows, w, org, d);
    }
    RewritesCommute(variants, Served(cat), policy, controls, ds);
  }

  // Placeholder lanes ----------------------------------------------------------

  predicate PermittedFor(g: Governance, org: Org, provider: Family) {
    PolicyOf(g, org).None? || PolicyOf(g, org).value.Permits(provider, g.controls)
  }

  /** The caller's policy permits this deployment, and it has no key to serve it with. */
  predicate Unfunded(cat: Catalog, g: Governance, org: Org, d: Deployment) {
    PermittedFor(g, org, d.provider) && d.id in cat.ownKeyRequired && d.id !in VariantsOf(KeyStateOf(cat), org)
  }

  predicate Funded(cat: Catalog, g: Governance, org: Org, d: Deployment) {
    PermittedFor(g, org, d.provider) && (d.id !in cat.ownKeyRequired || d.id in VariantsOf(KeyStateOf(cat), org))
  }

  /** A caller's lane of a deployment has no key exactly where the deployment needs
      the caller's own and the caller has none. */
  lemma OwnLaneIsFunded(rows: Rows, w: Worker, org: Org, d: Deployment)
    requires Keyed(rows) && AreServed(BuildCatalog(w, rows).catalog, [d])
    ensures var cat := BuildCatalog(w, rows).catalog;
            var variants := VariantsOf(KeyStateOf(cat), org);
            Own(variants, Served(cat), d).id in cat.ownKeyRequired <==> d.id in cat.ownKeyRequired && d.id !in variants
  {
    hide BuildCatalog, Keyed, ConnectionsOk, RecordsOk, PoolsOk;
    var cat := BuildCatalog(w, rows).catalog;
    assert d in [d];
    BuildIsClosed(rows, w);
    var variants := VariantsOf(KeyStateOf(cat), org);
    if d.id in variants {
      VariantsStayHome(rows, w, org, d.id);
      assert VariantOk(cat, org, d.id);
    }
  }

  /** Lane by lane: what a caller is served by comes from a permitted deployment. */
  lemma LaneOf(rows: Rows, w: Worker, g: Governance, org: Org, ds: seq<Deployment>, lane: Deployment) returns (d: Deployment)
    requires Keyed(rows) && AreServed(BuildCatalog(w, rows).catalog, ds)
    requires lane in Lanes(KeyStateOf(BuildCatalog(w, rows).catalog), g, org, ds)
    ensures var cat := BuildCatalog(w, rows).catalog;
            d in ds && PermittedFor(g, org, d.provider) && lane == Own(VariantsOf(KeyStateOf(cat), org), Served(cat), d)
  {
    var cat := BuildCatalog(w, rows).catalog;
    var variants := VariantsOf(KeyStateOf(cat), org);
    hide BuildCatalog, Keyed, OwnAll, Own, VariantsOf, Served, Permitted, Policy.Permits;
    LanesArePermitted(PolicyOf(g, org), g.controls, OwnAll(variants, Served(cat), ds), lane);
    var i :| 0 <= i < |ds| && OwnAll(variants, Served(cat), ds)[i] == lane;
    d := ds[i];
    OwnAt(variants, Served(cat), ds, i);
    OwnLaneIsTheCallers(rows, w, org, d);
  }

  lemma LaneFrom(rows: Rows, w: Worker, g: Governance, org: Org, ds: seq<Deployment>, i: nat)
    requires Keyed(rows) && AreServed(BuildCatalog(w, rows).catalog, ds) && i < |ds| && PermittedFor(g, org, ds[i].provider)
    ensures var cat := BuildCatalog(w, rows).catalog;
            Own(VariantsOf(KeyStateOf(cat), org), Served(cat), ds[i]) in Lanes(KeyStateOf(cat), g, org, ds)
  {
    var cat := BuildCatalog(w, rows).catalog;
    var variants := VariantsOf(KeyStateOf(cat), org);
    hide BuildCatalog, Keyed, OwnAll, Own, VariantsOf, Served, Permitted, Policy.Permits;
    OwnAt(variants, Served(cat), ds, i);
    OwnLaneIsTheCallers(rows, w, org, ds[i]);
    LanesArePermitted(PolicyOf(g, org), g.controls, OwnAll(variants, Served(cat), ds), Own(variants, Served(cat), ds[i]));
  }

  /** On every built catalog: a route is refused as unfunded, or altogether, exactly
      when no deployment in it is funded for the caller; and one that is accepted
      still holds a placeholder lane exactly when some other permitted deployment in
      it is unfunded. So the placeholder stays out of dispatch if and only if funding
      is all or nothing. */
  lemma PlaceholderServedExactly(rows: Rows, w: Worker, g: Governance, org: Org, ds: seq<Deployment>)
    requires Keyed(rows) && AreServed(BuildCatalog(w, rows).catalog, ds)
    ensures var cat := BuildCatalog(w, rows).catalog;
            var lanes := Lanes(KeyStateOf(cat), g, org, ds);
            && (!AllRequireOwnKey(lanes, cat.ownKeyRequired) <==> exists d :: d in ds && Funded(cat, g, org, d))
            && ((exists lane :: lane in lanes && lane.id in cat.ownKeyRequired) <==> exists d :: d in ds && Unfunded(cat, g, org, d))
  {
    var cat := BuildCatalog(w, rows).catalog;
    var lanes := Lanes(KeyStateOf(cat), g, org, ds);
    hide BuildCatalog, Keyed, Lanes, Own, VariantsOf, Served, Policy.Permits, PermittedFor;
    forall lane | lane in lanes
      ensures if lane.id in cat.ownKeyRequired then exists d :: d in ds && Unfunded(cat, g, org, d)
              else exists d :: d in ds && Funded(cat, g, org, d)
    {
      var d := LaneOf(rows, w, g, org, ds, lane);
      OwnLaneIsFunded(rows, w, org, d);
      assert Funded(cat, g, org, d) || Unfunded(cat, g, org, d);
    }
    forall d | d in ds
      ensures Unfunded(cat, g, org, d) ==> exists lane :: lane in lanes && lane.id in cat.ownKeyRequired
      ensures Funded(cat, g, org, d) ==> exists lane :: lane in lanes && lane.id !in cat.ownKeyRequired
    {
      if PermittedFor(g, org, d.provider) {
        var i :| 0 <= i < |ds| && ds[i] == d;
        LaneFrom(rows, w, g, org, ds, i);
        OwnLaneIsFunded(rows, w, org, d);
      }
    }
  }

  // A catalog that serves a placeholder: one public model, a platform-funded rung and
  // behind it a rung every caller must bring a key for; the caller has none.

  const PUBLIC_MODEL := ModelRow(1, 0, None, 0)
  const FUNDED_ROW := ProviderRow(1, 1, OpenAI, "a", None, None, None, None, true, false, 0, 0)
  const UNFUNDED_ROW := ProviderRow(2, 1, Anthropic, "b", None, None, None, None, false, false, 1, 0)
  const FIRST_RUNG := WaterfallRow(1, 1, None, 1, 1, 0)
  const SECOND_RUNG := WaterfallRow(2, 1, None, 2, 2, 0)
  const MIXED_ROWS := Rows([PUBLIC_MODEL], [FUNDED_ROW, UNFUNDED_ROW], [FIRST_RUNG, SECOND_RUNG], [], None)
  const MIXED_WORKER := Worker({OpenAI}, None, false, _ => true, _ => true)

  lemma MixedIndex()
    ensures Keyed(MIXED_ROWS)
    ensures var ix := IndexOf(MIXED_ROWS);
            && ix.models == [PUBLIC_MODEL] && ix.ProvidersOf(1) == [FUNDED_ROW, UNFUNDED_ROW]
            && ix.Chain((1, None)) == [FIRST_RUNG, SECOND_RUNG]
            && ix.house.None? && (forall p :: ix.ConnectionsOf(p) == [])
  {
    MixedKeyed();
    SortOne(PUBLIC_MODEL, ModelBefore);
    SortTwo(FUNDED_ROW, UNFUNDED_ROW, ProviderBefore);
    HavingTwo(FUNDED_ROW, UNFUNDED_ROW, ModelOf, 1);
    HavingTwo(FIRST_RUNG, SECOND_RUNG, ChainOf, (1, None));
    SortTwo(FIRST_RUNG, SECOND_RUNG, RungBefore);
    SortNone(ConnectionBefore);
    hide Sort, Having, Keyed;
    assert ModelOf([FUNDED_ROW, UNFUNDED_ROW][0]) == 1 && ChainOf([FIRST_RUNG, SECOND_RUNG][0]) == (1, None);
  }

  lemma MixedKeyed()
    ensures Keyed(MIXED_ROWS)
  {
  }

  lemma SortNone<T>(leq: (T, T) -> bool)
    ensures Sort([], leq) == []
  {
  }

  lemma SortOne<T>(x: T, leq: (T, T) -> bool)
    ensures Sort([x], leq) == [x]
  {
    assert [x][1..] == [];
  }

  lemma SortTwo<T>(x: T, y: T, leq: (T, T) -> bool)
    requires leq(x, y)
    ensures Sort([x, y], leq) == [x, y]
  {
    assert [x, y][1..] == [y];
    SortOne(y, leq);
  }

  lemma HavingTwo<T(!new), K>(x: T, y: T, key: T -> K, k: K)
    requires key(x) == k && key(y) == k
    ensures Having([x, y], key, k) == [x, y]
  {
    assert [x, y][..1] == [x] && [x][..0] == [];
    assert Having([x], key, k) == [] + [x];
  }

  const MIXED_FIRST := Catalog(
    map[Platform(OpenAI) := ConnectionConfig(OpenAIFamily, None, None, Some(PlatformKey(OpenAI)), None)],
    map[PlatformKey(OpenAI) := CredentialRef(PlatformKey(OpenAI), FromPlatform)],
    map[Canonical(1) := Record(Platform(OpenAI), "a", true, 1, 0, FUNDED_ROW)],
    map[], map[], map[Canonical(1) := OpenAI], map[], {})

  const MIXED_ROW_ADDED := MIXED_FIRST.(
    connections := MIXED_FIRST.connections[OwnKey(2) := ConnectionConfig(AnthropicFamily, None, None, Some(OwnKeyPlaceholder(2)), None)],
    refs := MIXED_FIRST.refs[OwnKeyPlaceholder(2) := CredentialRef(OwnKeyPlaceholder(2), Placeholder)],
    models := MIXED_FIRST.models[Canonical(2) := Record(OwnKey(2), "b", false, 1, 0, UNFUNDED_ROW)],
    providers := MIXED_FIRST.providers[Canonical(2) := Anthropic],
    ownKeyRequired := {Canonical(2)})

  const MIXED_CHAIN := [Canonical(1), Canonical(2)]

  const MIXED_CATALOG := MIXED_ROW_ADDED.(pools := map[Wf(1, None) := Pool(1, MIXED_CHAIN, [FIRST_RUNG, SECOND_RUNG])])

  lemma MixedFirstRow(ix: Index)
    requires ix.house.None? && forall p :: ix.ConnectionsOf(p) == []
    ensures AddRow(MIXED_WORKER, ix, EMPTY, PUBLIC_MODEL, FUNDED_ROW) == (MIXED_FIRST, Some(Canonical(1)))
  {
    var (next, lane) := HostLane(MIXED_WORKER, ix, EMPTY, FUNDED_ROW);
    assert lane == Some(Lane(Platform(OpenAI), "a", None));
    assert next == EMPTY.(connections := MIXED_FIRST.connections, refs := MIXED_FIRST.refs);
    assert Eligible(ix, PUBLIC_MODEL, []) == [];
  }

  lemma MixedSecondRow(ix: Index)
    requires ix.house.None? && forall p :: ix.ConnectionsOf(p) == []
    ensures AddRow(MIXED_WORKER, ix, MIXED_FIRST, PUBLIC_MODEL, UNFUNDED_ROW) == (MIXED_ROW_ADDED, Some(Canonical(2)))
  {
    var (next, id) := PublicByokCanonical(MIXED_FIRST, PUBLIC_MODEL, UNFUNDED_ROW);
    assert next == MIXED_ROW_ADDED.(providers := MIXED_FIRST.providers);
    assert next.(providers := next.providers[Canonical(2) := Anthropic]) == MIXED_ROW_ADDED;
    assert Eligible(ix, PUBLIC_MODEL, []) == [];
  }

  lemma MixedRows(ix: Index)
    requires ix.house.None? && forall p :: ix.ConnectionsOf(p) == []
    ensures AddRows(MIXED_WORKER, ix, EMPTY, PUBLIC_MODEL, [FUNDED_ROW, UNFUNDED_ROW]) == (MIXED_ROW_ADDED, MIXED_CHAIN)
  {
    MixedFirstRow(ix);
    MixedSecondRow(ix);
    hide AddRow;
    AddRowsSnoc(MIXED_WORKER, ix, EMPTY, PUBLIC_MODEL, [], FUNDED_ROW);
    AddRowsSnoc(MIXED_WORKER, ix, EMPTY, PUBLIC_MODEL, [] + [FUNDED_ROW], UNFUNDED_ROW);
    assert [FUNDED_ROW, UNFUNDED_ROW] == [] + [FUNDED_ROW] + [UNFUNDED_ROW];
    assert MIXED_CHAIN == [] + [Canonical(1)] + [Canonical(2)];
  }

  lemma AddRowsSnoc(w: Worker, ix: Index, cat: Catalog, model: ModelRow, rows: seq<ProviderRow>, row: ProviderRow)
    ensures var (before, ids) := AddRows(w, ix, cat, model, rows);
            var (after, id) := AddRow(w, ix, before, model, row);
            AddRows(w, ix, cat, model, rows + [row]) == (after, if id.Some? then ids + [id.value] else ids)
  {
    hide AddRow;
    assert (rows + [row])[..|rows|] == rows;
  }

  lemma MixedServing()
    ensures Serving(MIXED_ROW_ADDED, [FIRST_RUNG, SECOND_RUNG], None, MIXED_CHAIN) == MIXED_CHAIN
  {
    var chain := [FIRST_RUNG, SECOND_RUNG];
    assert chain[..1] == [FIRST_RUNG] && chain[..1][..0] == [];
    assert Routable(chain[..1], MIXED_CHAIN) == [Canonical(1)];
    assert Routable(chain, MIXED_CHAIN) == MIXED_CHAIN;
    assert MIXED_CHAIN[1] in MIXED_CHAIN && !MIXED_ROW_ADDED.models[Canonical(2)].hostManaged;
  }

  const MIXED_PLAN := Plan(1, 0, None, ToPool(Wf(1, None)), MIXED_CHAIN, {}, Some([FIRST_RUNG, SECOND_RUNG]))

  lemma MixedBuild()
    ensures BuildCatalog(MIXED_WORKER, MIXED_ROWS) == Build(MIXED_CATALOG, [MIXED_PLAN])
  {
    var ix, w := IndexOf(MIXED_ROWS), MIXED_WORKER;
    MixedIndex();
    hide IndexOf, Sort, FinalizePlans, Index.ProvidersOf, Index.Chain, Index.ConnectionsOf;
    var draft := Draft(PUBLIC_MODEL, ToPool(Wf(1, None)), MIXED_CHAIN, Some([FIRST_RUNG, SECOND_RUNG]));
    MixedModel(ix, draft);
    MixedModels(ix, draft);
    hide AssembleModels;
    MixedPlans(draft);
    SortOne(MIXED_PLAN, PlanBefore);
  }

  lemma MixedModel(ix: Index, draft: Draft)
    requires ix.ProvidersOf(1) == [FUNDED_ROW, UNFUNDED_ROW] && ix.Chain((1, None)) == [FIRST_RUNG, SECOND_RUNG]
    requires ix.house.None? && forall p :: ix.ConnectionsOf(p) == []
    requires draft == Draft(PUBLIC_MODEL, ToPool(Wf(1, None)), MIXED_CHAIN, Some([FIRST_RUNG, SECOND_RUNG]))
    ensures AssembleModel(MIXED_WORKER, ix, EMPTY, PUBLIC_MODEL) == (MIXED_CATALOG, Some(draft))
  {
    MixedRows(ix);
    MixedServing();
    hide AddRows, Serving, Index.ProvidersOf, Index.Chain, Index.ConnectionsOf;
  }

  lemma MixedModels(ix: Index, draft: Draft)
    requires AssembleModel(MIXED_WORKER, ix, EMPTY, PUBLIC_MODEL) == (MIXED_CATALOG, Some(draft))
    ensures AssembleModels(MIXED_WORKER, ix, [PUBLIC_MODEL]) == (MIXED_CATALOG, [draft])
  {
    hide AssembleModel;
    assert [PUBLIC_MODEL][..0] == [];
    assert [] + [draft] == [draft];
  }

  lemma MixedPlans(draft: Draft)
    requires draft == Draft(PUBLIC_MODEL, ToPool(Wf(1, None)), MIXED_CHAIN, Some([FIRST_RUNG, SECOND_RUNG]))
    ensures FinalizePlans(MIXED_CATALOG, [draft]) == [MIXED_PLAN]
  {
    assert [draft][..0] == [];
    assert Revisions(MIXED_CATALOG, MIXED_CHAIN) == {};
  }

  const MIXED_ROUTE := Route(
    Snapshot(0, "", "", MIXED_CHAIN), Deployment(Canonical(1), OpenAIFamily), [Deployment(Canonical(2), AnthropicFamily)], "", "")

  /** The plan's own route, for a caller without connections or policy, is accepted
      whole: the fallback lane reads a placeholder credential. */
  lemma PlaceholderIsServed(org: Org)
    ensures BuildCatalog(MIXED_WORKER, MIXED_ROWS) == Build(MIXED_CATALOG, [MIXED_PLAN])
    ensures MIXED_ROUTE.Consistent() && MIXED_ROUTE.snapshot.deploymentIds == MIXED_PLAN.deployments
    ensures AreServed(MIXED_CATALOG, MIXED_ROUTE.Deployments())
    ensures var lanes := Lanes(KeyStateOf(MIXED_CATALOG), Governance(map[], map[]), org, MIXED_ROUTE.Deployments());
            && lanes == MIXED_ROUTE.Deployments() && !AllRequireOwnKey(lanes, MIXED_CATALOG.ownKeyRequired)
            && lanes[1].id in MIXED_CATALOG.ownKeyRequired
            && var config := MIXED_CATALOG.connections[MIXED_CATALOG.models[lanes[1].id].connection];
               MIXED_CATALOG.refs[config.keyEnv.value].kind == Placeholder
  {
    hide *;
    MixedBuild();
    MixedRoute();
    MixedLanes(org);
  }

  lemma MixedRoute()
    ensures MIXED_ROUTE.Consistent() && MIXED_ROUTE.snapshot.deploymentIds == MIXED_PLAN.deployments
    ensures MIXED_ROUTE.Deployments() == [Deployment(Canonical(1), OpenAIFamily), Deployment(Canonical(2), AnthropicFamily)]
    ensures AreServed(MIXED_CATALOG, MIXED_ROUTE.Deployments())
  {
    var cat := MIXED_CATALOG;
    assert cat.models[Canonical(1)].connection in cat.connections && cat.models[Canonical(2)].connection in cat.connections;
  }

  lemma MixedLanes(org: Org)
    ensures var lanes := Lanes(KeyStateOf(MIXED_CATALOG), Governance(map[], map[]), org, MIXED_ROUTE.Deployments());
            && lanes == MIXED_ROUTE.Deployments() && !AllRequireOwnKey(lanes, MIXED_CATALOG.ownKeyRequired)
            && lanes[1].id in MIXED_CATALOG.ownKeyRequired
            && var config := MIXED_CATALOG.connections[MIXED_CATALOG.models[lanes[1].id].connection];
               MIXED_CATALOG.refs[config.keyEnv.value].kind == Placeholder
  {
    MixedRoute();
    hide Served, OwnAll, Permitted, Route.Deployments, Ids;
    var ds := MIXED_ROUTE.Deployments();
    NothingOwned(Served(MIXED_CATALOG), ds);
    AllPermitted(None, map[], ds);
    assert ds[0] in ds;
  }
}

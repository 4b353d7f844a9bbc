/** What every alias plan of a build is to be, told from the platform rows alone: which
    chain it serves, in what order, and what it falls back on. */
module CatalogPlans {
  import opened Prelude
  import opened Sorting
  import opened Grouping
  import opened CatalogRows
  import opened CatalogAssembly
  import opened CatalogClosed
  import opened CatalogReference

  // Chains -------------------------------------------------------------------

  /** Whose chain serves a model: its owner's if it has an owner who stored rungs for
      it, else the platform's. */
  ghost function ChainOrg(rows: Rows, m: ModelRow): Option<Org> {
    if m.owner.Some? && exists r :: r in rows.waterfalls && r.modelId == m.id && r.org == m.owner then m.owner else None
  }

  ghost predicate IsServed(rows: Rows, w: Worker, m: ModelRow, row: RowId) {
    exists p :: RowOf(rows, m, p) && p.id == row && ServedAs(rows, w, m, p).Some?
  }

  ghost predicate PlatformPays(rows: Rows, w: Worker, m: ModelRow, row: RowId) {
    exists p :: RowOf(rows, m, p) && p.id == row && ServedAs(rows, w, m, p).Some? && ServedAs(rows, w, m, p).value.hostManaged
  }

  /** The deployments a chain reaches: those of the served rows its rungs name. */
  ghost function Reached(rows: Rows, w: Worker, m: ModelRow, chain: seq<WaterfallRow>): (r: seq<DeploymentId>)
    ensures forall id :: id in r ==> id.Canonical? && IsServed(rows, w, m, id.row)
  {
    if chain == [] then []
    else
      var n := |chain| - 1;
      Reached(rows, w, m, chain[..n])
      + if IsServed(rows, w, m, chain[n].providerRow) then [Canonical(chain[n].providerRow)] else []
  }

  /** The house's preference: its own cloud, Azure, Bedrock, the first-party APIs,
      Fireworks, and then the rest. */
  ghost function Tier(provider: Provider): nat {
    if provider == ExperientialCloud then 0
    else if provider == AzureOpenAI then 1
    else if provider == Bedrock then 2
    else if provider in {OpenAI, Anthropic, Gemini} then 3
    else if provider == Fireworks then 4
    else 5
  }

  ghost function TierOf(rows: Rows, id: DeploymentId): nat {
    if RowNamed(rows, id.row).None? then 5 else Tier(RowNamed(rows, id.row).value.provider)
  }

  ghost function AtTier(rows: Rows, ids: seq<DeploymentId>, tier: nat): seq<DeploymentId> {
    if ids == [] then []
    else (if TierOf(rows, ids[0]) == tier then [ids[0]] else []) + AtTier(rows, ids[1..], tier)
  }

  /** The same deployments by tier, and within a tier in the order they had. */
  ghost predicate Preferred(rows: Rows, ids: seq<DeploymentId>, order: seq<DeploymentId>) {
    && multiset(order) == multiset(ids)
    && (forall i, j :: 0 <= i < j < |order| ==> TierOf(rows, order[i]) <= TierOf(rows, order[j]))
    && (forall tier :: AtTier(rows, order, tier) == AtTier(rows, ids, tier))
  }

  /** The order a chain is served in: the house's preference on a platform chain the
      platform alone pays for, and otherwise the order stored. */
  ghost predicate ServedOrder(rows: Rows, w: Worker, m: ModelRow, reached: seq<DeploymentId>, order: seq<DeploymentId>) {
    if ChainOrg(rows, m).None? && forall id :: id in reached ==> PlatformPays(rows, w, m, id.row)
    then Preferred(rows, reached, order) else order == reached
  }

  /** The model's oldest served row, the smaller id first among equals. */
  ghost predicate IsOldest(rows: Rows, w: Worker, m: ModelRow, id: DeploymentId) {
    exists p :: RowOf(rows, m, p) && ServedAs(rows, w, m, p).Some? && id == Canonical(p.id)
      && forall q :: RowOf(rows, m, q) && ServedAs(rows, w, m, q).Some? ==>
           p.createdAt < q.createdAt || (p.createdAt == q.createdAt && p.id <= q.id)
  }

  /** Two or more reached deployments are one certified pool of that chain; a single
      one, or with none the oldest served row, is served alone and uncertified. */
  ghost predicate Chooses(rows: Rows, w: Worker, m: ModelRow, chain: seq<WaterfallRow>, order: seq<DeploymentId>,
                          target: Target, deployments: seq<DeploymentId>, certified: Option<seq<WaterfallRow>>)
  {
    if |order| >= 2 then
      target == ToPool(Wf(m.id, ChainOrg(rows, m))) && deployments == order && certified == Some(chain)
    else
      && target.ToDeployment? && deployments == [target.deployment] && certified.None?
      && if order == [] then IsOldest(rows, w, m, target.deployment) else target.deployment == order[0]
  }

  ghost predicate Follows(rows: Rows, w: Worker, m: ModelRow, target: Target, deployments: seq<DeploymentId>,
                          certified: Option<seq<WaterfallRow>>)
  {
    exists chain, order ::
      && IsChain(rows, m.id, ChainOrg(rows, m), chain) && ServedOrder(rows, w, m, Reached(rows, w, m, chain), order)
      && Chooses(rows, w, m, chain, order, target, deployments, certified)
  }

  lemma ChainIs(rows: Rows, m: ModelRow)
    ensures var (chain, org) := ModelChain(IndexOf(rows), m);
            org == ChainOrg(rows, m) && IsChain(rows, m.id, ChainOrg(rows, m), chain)
  {
    ChainRead(rows, m.id, m.owner);
    ChainRead(rows, m.id, None);
    hide IndexOf, Index.Chain;
    var own := IndexOf(rows).Chain((m.id, m.owner));
    assert own == [] || own[0] in own;
  }

  lemma {:induction false} RoutableIs(rows: Rows, w: Worker, m: ModelRow, chain: seq<WaterfallRow>, ordered: seq<DeploymentId>)
    requires forall row: RowId :: Canonical(row) in ordered <==> IsServed(rows, w, m, row)
    ensures Routable(chain, ordered) == Reached(rows, w, m, chain)
  {
    hide IsServed;
    if chain != [] {
      RoutableIs(rows, w, m, chain[..|chain| - 1], ordered);
    }
  }

  // The preference, read off the tables --------------------------------------

  lemma CanonicalIs(rows: Rows, w: Worker, cat: Catalog, m: ModelRow, p: ProviderRow)
    requires Keyed(rows) && Faithful(rows, w, cat) && RowOf(rows, m, p) && RowDone(rows, w, cat, m, p)
    requires ServedAs(rows, w, m, p).Some?
    ensures Canonical(p.id) in cat.models && Canonical(p.id) in cat.providers
    ensures CanonicalFaithful(rows, w, cat, Canonical(p.id), m, p)
  {
    var id := Canonical(p.id);
    hide ServedAs, GivesVariant, Configured, Keyed, VariantsFaithful;
    assert EntryFaithful(rows, w, cat, id);
    var n, q :| CanonicalFaithful(rows, w, cat, id, n, q);
    SameRowAndModel(rows, m, p, n, q);
  }

  lemma ServedRow(rows: Rows, w: Worker, m: ModelRow, row: RowId) returns (p: ProviderRow)
    requires IsServed(rows, w, m, row)
    ensures RowOf(rows, m, p) && p.id == row && ServedAs(rows, w, m, p).Some?
  {
    hide ServedAs, RowOf;
    p :| RowOf(rows, m, p) && p.id == row && ServedAs(rows, w, m, p).Some?;
  }

  lemma PaysIs(rows: Rows, w: Worker, m: ModelRow, p: ProviderRow)
    requires Keyed(rows) && RowOf(rows, m, p) && ServedAs(rows, w, m, p).Some?
    ensures PlatformPays(rows, w, m, p.id) <==> ServedAs(rows, w, m, p).value.hostManaged
  {
    hide ServedAs, Keyed, RowOf;
    if PlatformPays(rows, w, m, p.id) {
      var q :| RowOf(rows, m, q) && q.id == p.id && ServedAs(rows, w, m, q).Some? && ServedAs(rows, w, m, q).value.hostManaged;
      SameRowAndModel(rows, m, p, m, q);
    }
  }

  lemma RankAt(rows: Rows, w: Worker, cat: Catalog, m: ModelRow, p: ProviderRow)
    requires Keyed(rows) && Canonical(p.id) in cat.models && Canonical(p.id) in cat.providers
    requires CanonicalFaithful(rows, w, cat, Canonical(p.id), m, p)
    ensures RankOf(cat, Canonical(p.id)) == TierOf(rows, Canonical(p.id))
    ensures ServedAs(rows, w, m, p).Some? && cat.models[Canonical(p.id)].hostManaged == ServedAs(rows, w, m, p).value.hostManaged
  {
    RowNamedIs(rows, p);
    hide ServedAs, Keyed, RowNamed;
  }

  lemma RankIs(rows: Rows, w: Worker, cat: Catalog, m: ModelRow, id: DeploymentId)
    requires Keyed(rows) && Faithful(rows, w, cat) && ModelDone(rows, w, cat, m)
    requires id.Canonical? && IsServed(rows, w, m, id.row)
    ensures id in cat.models && RankOf(cat, id) == TierOf(rows, id)
    ensures cat.models[id].hostManaged <==> PlatformPays(rows, w, m, id.row)
  {
    hide ServedAs, Faithful, Keyed, RowDone, RowOf, CanonicalFaithful, PlatformPays, RankOf, TierOf, IsServed;
    var p := ServedRow(rows, w, m, id.row);
    CanonicalIs(rows, w, cat, m, p);
    PaysIs(rows, w, m, p);
    RankAt(rows, w, cat, m, p);
  }

  lemma {:induction false} TierIs(rows: Rows, cat: Catalog, ids: seq<DeploymentId>, tier: nat)
    requires forall id :: id in ids ==> RankOf(cat, id) == TierOf(rows, id)
    ensures WithRank(cat, ids, tier) == AtTier(rows, ids, tier)
  {
    hide RankOf, TierOf;
    if ids != [] {
      assert ids[0] in ids;
      TierIs(rows, cat, ids[1..], tier);
    }
  }

  lemma PreferenceIs(rows: Rows, cat: Catalog, ids: seq<DeploymentId>)
    requires forall id :: id in ids ==> RankOf(cat, id) == TierOf(rows, id)
    ensures Preferred(rows, ids, HouseOrdered(cat, ids))
  {
    HouseOrderIsPreference(cat, ids);
    SortKeepsAll(ids, HouseBefore(cat));
    var order := HouseOrdered(cat, ids);
    assert forall id :: id in order <==> id in ids;
    hide RankOf, TierOf, HouseOrdered, WithRank, AtTier;
    forall tier: nat ensures AtTier(rows, order, tier) == AtTier(rows, ids, tier) {
      TierIs(rows, cat, ids, tier);
      TierIs(rows, cat, order, tier);
    }
    forall i, j | 0 <= i < j < |order| ensures TierOf(rows, order[i]) <= TierOf(rows, order[j]) {
      assert order[i] in order && order[j] in order;
    }
  }

  lemma ServingIs(rows: Rows, w: Worker, cat: Catalog, m: ModelRow, chain: seq<WaterfallRow>, ordered: seq<DeploymentId>)
    requires Keyed(rows) && Faithful(rows, w, cat) && ModelDone(rows, w, cat, m)
    requires forall row: RowId :: Canonical(row) in ordered <==> IsServed(rows, w, m, row)
    ensures ServedOrder(rows, w, m, Reached(rows, w, m, chain), Serving(cat, chain, ChainOrg(rows, m), ordered))
  {
    RoutableIs(rows, w, m, chain, ordered);
    var reached := Reached(rows, w, m, chain);
    hide IsServed, PlatformPays, Faithful, ModelDone, Keyed, RankOf, TierOf, HouseOrdered, Routable, Reached, ChainOrg, Preferred;
    forall id | id in reached
      ensures id in cat.models && RankOf(cat, id) == TierOf(rows, id)
      ensures cat.models[id].hostManaged <==> PlatformPays(rows, w, m, id.row)
    {
      RankIs(rows, w, cat, m, id);
    }
    PreferenceIs(rows, cat, reached);
  }

  // Drafts -------------------------------------------------------------------

  lemma {:induction false} HavingOrdered<T(!new), K>(s: seq<T>, key: T -> K, k: K, leq: (T, T) -> bool)
    requires Ordered(s, leq)
    ensures Ordered(Having(s, key, k), leq)
  {
    if s != [] {
      var n := |s| - 1;
      HavingOrdered(s[..n], key, k, leq);
      var front := Having(s[..n], key, k);
      forall i | 0 <= i < |front| ensures leq(front[i], s[n]) {
        assert front[i] in s[..n];
      }
    }
  }

  lemma ProvidersOrdered(rows: Rows, m: RowId)
    ensures Ordered(IndexOf(rows).ProvidersOf(m), ProviderBefore)
  {
    Orders();
    SortSorts(rows.providers, ProviderBefore);
    HavingOrdered(Sort(rows.providers, ProviderBefore), ModelOf, m, ProviderBefore);
    hide Sort, Having, KeysOf, LastBy, Ordered, Preorder;
    assert Ordered<ProviderRow>([], ProviderBefore) by {
      NothingOrdered();
    }
  }

  lemma NothingOrdered()
    ensures Ordered<ProviderRow>([], ProviderBefore)
  {
  }

  lemma FirstIsOldest(rows: Rows, w: Worker, m: ModelRow, some: seq<ProviderRow>, ids: seq<DeploymentId>)
    requires (forall p :: p in some <==> RowOf(rows, m, p)) && Ordered(some, ProviderBefore)
    requires ServedIds(rows, w, m, some, ids) && ids != []
    ensures IsOldest(rows, w, m, ids[0])
  {
    hide ServedAs, RowOf;
    var k :| 0 <= k < |some| && ids[0] == Canonical(some[k].id) && ServedAs(rows, w, m, some[k]).Some?
             && forall j :: 0 <= j < k ==> ServedAs(rows, w, m, some[j]).None?;
    var p := some[k];
    assert p in some;
    forall q | RowOf(rows, m, q) && ServedAs(rows, w, m, q).Some?
      ensures p.createdAt < q.createdAt || (p.createdAt == q.createdAt && p.id <= q.id)
    {
      var i :| 0 <= i < |some| && some[i] == q;
      assert i > k ==> ProviderBefore(p, q);
    }
  }

  lemma ServedIdsAre(rows: Rows, w: Worker, m: ModelRow, some: seq<ProviderRow>, ids: seq<DeploymentId>)
    requires (forall p :: p in some <==> RowOf(rows, m, p)) && ServedIds(rows, w, m, some, ids)
    ensures forall row: RowId :: Canonical(row) in ids <==> IsServed(rows, w, m, row)
    ensures ids == [] <==> forall row: RowId :: !IsServed(rows, w, m, row)
  {
    hide ServedAs, RowOf;
    forall row: RowId ensures Canonical(row) in ids <==> IsServed(rows, w, m, row) {
      if IsServed(rows, w, m, row) {
        var p :| RowOf(rows, m, p) && p.id == row && ServedAs(rows, w, m, p).Some?;
        assert p in some;
      }
    }
    if ids != [] {
      assert ids[0] in ids;
      var p :| p in some && ServedAs(rows, w, m, p).Some? && ids[0] == Canonical(p.id);
      assert IsServed(rows, w, m, p.id);
    }
  }

  lemma DraftIs(rows: Rows, w: Worker, cat: Catalog, m: ModelRow, some: seq<ProviderRow>, ids: seq<DeploymentId>)
    requires Keyed(rows) && Faithful(rows, w, cat) && ModelDone(rows, w, cat, m)
    requires (forall p :: p in some <==> RowOf(rows, m, p)) && Ordered(some, ProviderBefore)
    requires ServedIds(rows, w, m, some, ids) && ids != []
    ensures var draft := DraftPlan(IndexOf(rows), cat, m, ids).1;
            draft.model == m && Follows(rows, w, m, draft.target, draft.deployments, draft.certified)
  {
    FirstIsOldest(rows, w, m, some, ids);
    ServedIdsAre(rows, w, m, some, ids);
    ChainIs(rows, m);
    var (chain, org) := ModelChain(IndexOf(rows), m);
    ServingIs(rows, w, cat, m, chain, ids);
    hide IndexOf, ModelChain, Serving, Faithful, ModelDone, Keyed, Ordered, ServedIds, IsServed, IsOldest, IsChain, ServedOrder, Reached,
      ChainOrg, RowOf;
    DraftChooses(rows, w, cat, m, ids);
  }

  lemma DraftChooses(rows: Rows, w: Worker, cat: Catalog, m: ModelRow, ids: seq<DeploymentId>)
    requires ids != [] && IsOldest(rows, w, m, ids[0])
    requires ModelChain(IndexOf(rows), m).1 == ChainOrg(rows, m)
    ensures var (chain, org), draft := ModelChain(IndexOf(rows), m), DraftPlan(IndexOf(rows), cat, m, ids).1;
            && draft.model == m
            && Chooses(rows, w, m, chain, Serving(cat, chain, org, ids), draft.target, draft.deployments, draft.certified)
  {
    hide IndexOf, ModelChain, Serving, IsOldest, ChainOrg;
  }

  /** The tables hold what the rows say of a model, and these are the canonicals of its
      served rows in row order. */
  ghost predicate ReadyFor(rows: Rows, w: Worker, cat: Catalog, m: ModelRow, ids: seq<DeploymentId>) {
    && Keyed(rows) && Faithful(rows, w, cat) && ModelDone(rows, w, cat, m) && m in rows.models
    && ServedIds(rows, w, m, IndexOf(rows).ProvidersOf(m.id), ids)
  }

  lemma ReadyDraftIs(rows: Rows, w: Worker, cat: Catalog, m: ModelRow, ids: seq<DeploymentId>)
    requires ReadyFor(rows, w, cat, m, ids) && ids != []
    ensures var draft := DraftPlan(IndexOf(rows), cat, m, ids).1;
            draft.model == m && Follows(rows, w, m, draft.target, draft.deployments, draft.certified)
  {
    var some := IndexOf(rows).ProvidersOf(m.id);
    forall p ensures p in some <==> RowOf(rows, m, p) {
      ProvidersRead(rows, m.id, p);
    }
    ProvidersOrdered(rows, m.id);
    hide IndexOf, Index.ProvidersOf, DraftPlan, Faithful, ModelDone, Keyed, Ordered, ServedIds, Follows, RowOf;
    DraftIs(rows, w, cat, m, some, ids);
  }

  ghost predicate HasServed(rows: Rows, w: Worker, m: ModelRow) {
    exists row: RowId :: IsServed(rows, w, m, row)
  }

  ghost predicate DraftFollows(rows: Rows, w: Worker, d: Draft) {
    Follows(rows, w, d.model, d.target, d.deployments, d.certified)
  }

  lemma ModelDraftIs(rows: Rows, w: Worker, cat: Catalog, m: ModelRow)
    requires Keyed(rows) && Faithful(rows, w, cat) && m in rows.models
    ensures var draft := AssembleModel(w, IndexOf(rows), cat, m).1;
            && (draft.Some? <==> HasServed(rows, w, m))
            && (draft.Some? ==> draft.value.model == m && DraftFollows(rows, w, draft.value))
  {
    var some := IndexOf(rows).ProvidersOf(m.id);
    ModelRowsIs(rows, w, cat, m);
    forall p ensures p in some <==> RowOf(rows, m, p) {
      ProvidersRead(rows, m.id, p);
    }
    var (next, ids) := AddRows(w, IndexOf(rows), cat, m, some);
    ServedIdsAre(rows, w, m, some, ids);
    hide IndexOf, Index.ProvidersOf, AddRows, DraftPlan, Faithful, ModelDone, Keyed, ServedIds, IsServed, Follows, RowOf, Extends;
    if ids != [] {
      ReadyDraftIs(rows, w, next, m, ids);
    }
  }

  /** One draft for each model with a served row, in the models' order. */
  ghost predicate Drafted(rows: Rows, w: Worker, models: seq<ModelRow>, drafts: seq<Draft>)
    decreases |models|
  {
    if models == [] then drafts == []
    else
      var n := |models| - 1;
      if HasServed(rows, w, models[n]) then
        && drafts != [] && drafts[|drafts| - 1].model == models[n] && DraftFollows(rows, w, drafts[|drafts| - 1])
        && Drafted(rows, w, models[..n], drafts[..|drafts| - 1])
      else Drafted(rows, w, models[..n], drafts)
  }

  lemma {:induction false} DraftsAre(rows: Rows, w: Worker, models: seq<ModelRow>)
    requires Keyed(rows) && forall m :: m in models ==> m in rows.models
    ensures Drafted(rows, w, models, AssembleModels(w, IndexOf(rows), models).1)
  {
    if models != [] {
      hide IndexOf, AssembleModel, Faithful, Keyed, HasServed, DraftFollows, ModelDone;
      var n := |models| - 1;
      assert models[n] in models && forall m :: m in models[..n] ==> m in models;
      AssembledIs(rows, w, models[..n]);
      DraftsAre(rows, w, models[..n]);
      var (before, drafts) := AssembleModels(w, IndexOf(rows), models[..n]);
      ModelDraftIs(rows, w, before, models[n]);
      var draft := AssembleModel(w, IndexOf(rows), before, models[n]).1;
      if draft.Some? {
        assert (drafts + [draft.value])[..|drafts|] == drafts;
      }
    }
  }

  // Frozen revisions ---------------------------------------------------------

  /** A row's traffic may ride on a connection: its own lane's, or one that gives it a
      variant. */
  ghost predicate RidesOn(rows: Rows, w: Worker, m: ModelRow, p: ProviderRow, c: ConnectionRow) {
    && ServedAs(rows, w, m, p).Some?
    && (ServedAs(rows, w, m, p).value.bound == Some(c) || GivesVariant(rows, w, m, p, c))
  }

  ghost predicate Ridden(rows: Rows, w: Worker, m: ModelRow, deployments: seq<DeploymentId>, at: (RowId, nat)) {
    exists p, c :: RowOf(rows, m, p) && Canonical(p.id) in deployments && RidesOn(rows, w, m, p, c) && at == (c.id, c.revision)
  }

  /** A plan freezes the connections its deployments may ride on, at their revisions. */
  ghost predicate Freezes(rows: Rows, w: Worker, m: ModelRow, deployments: seq<DeploymentId>, revisions: set<(RowId, nat)>) {
    forall at :: at in revisions <==> Ridden(rows, w, m, deployments, at)
  }

  ghost predicate AllServed(rows: Rows, w: Worker, m: ModelRow, deployments: seq<DeploymentId>) {
    forall d :: d in deployments ==> d.Canonical? && IsServed(rows, w, m, d.row)
  }

  lemma FollowersServed(rows: Rows, w: Worker, d: Draft)
    requires DraftFollows(rows, w, d)
    ensures AllServed(rows, w, d.model, d.deployments)
  {
    var m := d.model;
    hide ServedAs, RowOf, IsChain;
    var chain, order :|
      && IsChain(rows, m.id, ChainOrg(rows, m), chain) && ServedOrder(rows, w, m, Reached(rows, w, m, chain), order)
      && Chooses(rows, w, m, chain, order, d.target, d.deployments, d.certified);
    var reached := Reached(rows, w, m, chain);
    hide Reached, PlatformPays, AtTier, TierOf, ChainOrg;
    assert multiset(order) == multiset(reached);
    forall id | id in order ensures id in reached {
      assert id in multiset(order);
    }
  }

  /** The connection a deployment is bound to, read off the tables, is its row's. */
  lemma BoundIs(rows: Rows, w: Worker, cat: Catalog, m: ModelRow, p: ProviderRow, c: ConnectionRow)
    requires Keyed(rows) && Faithful(rows, w, cat) && RowOf(rows, m, p) && RowDone(rows, w, cat, m, p)
    requires ServedAs(rows, w, m, p).Some?
    ensures Canonical(p.id) in cat.boundTo && cat.boundTo[Canonical(p.id)] == c <==> ServedAs(rows, w, m, p).value.bound == Some(c)
  {
    CanonicalIs(rows, w, cat, m, p);
    hide ServedAs, Keyed, Faithful, RowDone, RowOf, RecordOf;
  }

  /** The connection of an organisation's variant, read off the tables, is one that
      gives it. */
  lemma VariantBoundIs(rows: Rows, w: Worker, cat: Catalog, m: ModelRow, p: ProviderRow, org: Org) returns (c: ConnectionRow)
    requires Keyed(rows) && Faithful(rows, w, cat) && RowOf(rows, m, p)
    requires org in cat.variants && Canonical(p.id) in cat.variants[org]
    ensures GivesVariant(rows, w, m, p, c) && c.org == org
    ensures cat.variants[org][Canonical(p.id)] in cat.boundTo && cat.boundTo[cat.variants[org][Canonical(p.id)]] == c
  {
    var id := Canonical(p.id);
    assert StoredFaithful(rows, w, cat, org, id);
    hide ServedAs, Keyed, Configured, EntriesFaithful, GivesVariant;
    var n, q, d :| RowOf(rows, n, q) && GivesVariant(rows, w, n, q, d) && d.org == org && id == Canonical(q.id)
                   && cat.variants[org][id] == Variant(q.id, d.id) && Variant(q.id, d.id) in cat.models;
    SameRowAndModel(rows, m, p, n, q);
    GivesIsRow(rows, w, n, q, d);
    OwnLaneIs(rows, w, cat, m, p, d);
    c := d;
  }

  lemma HeldVariant(rows: Rows, w: Worker, cat: Catalog, m: ModelRow, p: ProviderRow, c: ConnectionRow)
    requires Keyed(rows) && Faithful(rows, w, cat) && RowOf(rows, m, p) && RowDone(rows, w, cat, m, p)
    requires GivesVariant(rows, w, m, p, c)
    ensures c.org in cat.variants && Canonical(p.id) in cat.variants[c.org]
    ensures cat.variants[c.org][Canonical(p.id)] in cat.boundTo && cat.boundTo[cat.variants[c.org][Canonical(p.id)]] == c
  {
    assert HasVariant(cat, p, c);
    hide ServedAs, Keyed, Faithful, RowDone, GivesVariant, RowOf;
    var d := VariantBoundIs(rows, w, cat, m, p, c.org);
    GivesIsRow(rows, w, m, p, c);
    GivesIsRow(rows, w, m, p, d);
    OneConnection(rows, c, d);
  }

  lemma InRevisions(cat: Catalog, deployments: seq<DeploymentId>, at: (RowId, nat))
    ensures at in Revisions(cat, deployments) <==>
      || (exists d :: d in deployments && d in cat.boundTo && at == (cat.boundTo[d].id, cat.boundTo[d].revision))
      || (exists d, org :: d in deployments && org in cat.variants && d in cat.variants[org] && cat.variants[org][d] in cat.boundTo
            && at == (cat.boundTo[cat.variants[org][d]].id, cat.boundTo[cat.variants[org][d]].revision))
  {
  }

  lemma FrozenIsRidden(rows: Rows, w: Worker, cat: Catalog, m: ModelRow, deployments: seq<DeploymentId>, at: (RowId, nat))
    requires Keyed(rows) && Faithful(rows, w, cat) && ModelDone(rows, w, cat, m) && AllServed(rows, w, m, deployments)
    requires at in Revisions(cat, deployments)
    ensures Ridden(rows, w, m, deployments, at)
  {
    InRevisions(cat, deployments, at);
    hide ServedAs, Keyed, Faithful, RowDone, GivesVariant, RowOf, Revisions, IsServed;
    if d :| d in deployments && d in cat.boundTo && at == (cat.boundTo[d].id, cat.boundTo[d].revision) {
      var p := ServedRow(rows, w, m, d.row);
      BoundIs(rows, w, cat, m, p, cat.boundTo[d]);
      assert RidesOn(rows, w, m, p, cat.boundTo[d]);
    } else {
      var d, org :| d in deployments && org in cat.variants && d in cat.variants[org] && cat.variants[org][d] in cat.boundTo
                    && at == (cat.boundTo[cat.variants[org][d]].id, cat.boundTo[cat.variants[org][d]].revision);
      var p := ServedRow(rows, w, m, d.row);
      var c := VariantBoundIs(rows, w, cat, m, p, org);
      assert RidesOn(rows, w, m, p, c);
    }
  }

  lemma RiddenIsFrozen(rows: Rows, w: Worker, cat: Catalog, m: ModelRow, deployments: seq<DeploymentId>, at: (RowId, nat))
    requires Keyed(rows) && Faithful(rows, w, cat) && ModelDone(rows, w, cat, m) && Ridden(rows, w, m, deployments, at)
    ensures at in Revisions(cat, deployments)
  {
    InRevisions(cat, deployments, at);
    hide ServedAs, Keyed, Faithful, RowDone, GivesVariant, RowOf, Revisions;
    var p, c :| RowOf(rows, m, p) && Canonical(p.id) in deployments && RidesOn(rows, w, m, p, c) && at == (c.id, c.revision);
    if GivesVariant(rows, w, m, p, c) {
      HeldVariant(rows, w, cat, m, p, c);
    } else {
      BoundIs(rows, w, cat, m, p, c);
    }
  }

  lemma FreezesExactly(rows: Rows, w: Worker, cat: Catalog, d: Draft)
    requires Keyed(rows) && Faithful(rows, w, cat) && ModelDone(rows, w, cat, d.model) && DraftFollows(rows, w, d)
    ensures Freezes(rows, w, d.model, d.deployments, Revisions(cat, d.deployments))
  {
    FollowersServed(rows, w, d);
    hide Keyed, Faithful, ModelDone, DraftFollows, Revisions, Ridden, AllServed;
    forall at ensures at in Revisions(cat, d.deployments) <==> Ridden(rows, w, d.model, d.deployments, at) {
      if at in Revisions(cat, d.deployments) {
        FrozenIsRidden(rows, w, cat, d.model, d.deployments, at);
      }
      if Ridden(rows, w, d.model, d.deployments, at) {
        RiddenIsFrozen(rows, w, cat, d.model, d.deployments, at);
      }
    }
  }

  // Finished plans -----------------------------------------------------------

  /** A plan is its model's: names, owner, chain, order, fallback and revisions. */
  ghost predicate PlanOf(rows: Rows, w: Worker, m: ModelRow, plan: Plan) {
    && plan.aliasId == m.id && plan.name == m.slug && plan.org == m.owner
    && Follows(rows, w, m, plan.target, plan.deployments, plan.certified)
    && Freezes(rows, w, m, plan.deployments, plan.revisions)
  }

  lemma PlanIs(rows: Rows, w: Worker, cat: Catalog, d: Draft)
    requires Keyed(rows) && Faithful(rows, w, cat) && ModelDone(rows, w, cat, d.model) && DraftFollows(rows, w, d)
    ensures PlanOf(rows, w, d.model, FinalizePlan(cat, d))
  {
    FreezesExactly(rows, w, cat, d);
    hide Keyed, Faithful, ModelDone, Revisions, Follows, Freezes;
  }

  ghost predicate IsPlanned(rows: Rows, w: Worker, models: seq<ModelRow>, plan: Plan) {
    exists m :: m in models && HasServed(rows, w, m) && PlanOf(rows, w, m, plan)
  }

  ghost predicate HasPlan(plans: seq<Plan>, m: ModelRow) {
    exists plan :: plan in plans && plan.aliasId == m.id
  }

  ghost predicate NamesApart(plans: seq<Plan>) {
    forall i, j :: 0 <= i < j < |plans| ==> plans[i].aliasId != plans[j].aliasId
  }

  /** One plan for each model with a served row, before they are put in alias order. */
  ghost predicate Planned(rows: Rows, w: Worker, models: seq<ModelRow>, plans: seq<Plan>) {
    && (forall plan :: plan in plans ==> IsPlanned(rows, w, models, plan))
    && (forall m :: m in models && HasServed(rows, w, m) ==> HasPlan(plans, m))
    && (NoDuplicates(models) ==> NamesApart(plans))
  }

  lemma {:induction false} PlansAre(rows: Rows, w: Worker, cat: Catalog, models: seq<ModelRow>, drafts: seq<Draft>)
    requires Keyed(rows) && Faithful(rows, w, cat) && Drafted(rows, w, models, drafts)
    requires forall m :: m in models ==> m in rows.models && ModelDone(rows, w, cat, m)
    ensures Planned(rows, w, models, FinalizePlans(cat, drafts))
    decreases |models|
  {
    if models == [] {
      hide HasServed;
    } else {
      hide Keyed, Faithful, ModelDone, HasServed, DraftFollows, PlanOf, Planned, FinalizePlan;
      var n := |models| - 1;
      assert models[n] in models && models == models[..n] + [models[n]];
      if HasServed(rows, w, models[n]) {
        var k := |drafts| - 1;
        PlansAre(rows, w, cat, models[..n], drafts[..k]);
        PlanIs(rows, w, cat, drafts[k]);
        OneMore(rows, w, models[..n], models[n], FinalizePlans(cat, drafts[..k]), FinalizePlan(cat, drafts[k]));
      } else {
        PlansAre(rows, w, cat, models[..n], drafts);
        NoneMore(rows, w, models[..n], models[n], FinalizePlans(cat, drafts));
      }
    }
  }

  lemma PlannedStays(rows: Rows, w: Worker, models: seq<ModelRow>, m: ModelRow, plan: Plan)
    requires IsPlanned(rows, w, models, plan)
    ensures IsPlanned(rows, w, models + [m], plan)
  {
    hide HasServed, PlanOf;
  }

  lemma NoneMore(rows: Rows, w: Worker, models: seq<ModelRow>, m: ModelRow, plans: seq<Plan>)
    requires Planned(rows, w, models, plans) && !HasServed(rows, w, m)
    ensures Planned(rows, w, models + [m], plans)
  {
    hide HasServed, IsPlanned, HasPlan, NamesApart;
    forall plan | plan in plans ensures IsPlanned(rows, w, models + [m], plan) {
      PlannedStays(rows, w, models, m, plan);
    }
    assert forall i :: 0 <= i < |models| ==> (models + [m])[i] == models[i];
  }

  lemma OneMore(rows: Rows, w: Worker, models: seq<ModelRow>, m: ModelRow, plans: seq<Plan>, plan: Plan)
    requires Keyed(rows) && Planned(rows, w, models, plans) && m in rows.models && forall n :: n in models ==> n in rows.models
    requires HasServed(rows, w, m) && PlanOf(rows, w, m, plan)
    ensures Planned(rows, w, models + [m], plans + [plan])
  {
    OnePlanned(rows, w, models, m, plans, plan);
    OneHas(rows, w, models, m, plans, plan);
    if NoDuplicates(models + [m]) {
      ApartFrom(rows, w, models, m, plans);
      PlanIsNamed(rows, w, m, plan);
      NamesSnoc(plans, plan);
    }
    hide HasServed, PlanOf, Keyed, IsPlanned, HasPlan, NamesApart;
  }

  lemma OnePlanned(rows: Rows, w: Worker, models: seq<ModelRow>, m: ModelRow, plans: seq<Plan>, plan: Plan)
    requires Planned(rows, w, models, plans) && HasServed(rows, w, m) && PlanOf(rows, w, m, plan)
    ensures forall p :: p in plans + [plan] ==> IsPlanned(rows, w, models + [m], p)
  {
    hide HasServed, PlanOf, HasPlan, NamesApart;
    assert m in models + [m];
    assert IsPlanned(rows, w, models + [m], plan);
    hide IsPlanned;
    forall p | p in plans ensures IsPlanned(rows, w, models + [m], p) {
      PlannedStays(rows, w, models, m, p);
    }
  }

  lemma OneHas(rows: Rows, w: Worker, models: seq<ModelRow>, m: ModelRow, plans: seq<Plan>, plan: Plan)
    requires Planned(rows, w, models, plans) && PlanOf(rows, w, m, plan)
    ensures forall n :: n in models + [m] && HasServed(rows, w, n) ==> HasPlan(plans + [plan], n)
  {
    PlanIsNamed(rows, w, m, plan);
    hide HasServed, PlanOf, IsPlanned, NamesApart;
    assert plan in plans + [plan];
    forall n | n in models && HasPlan(plans, n) ensures HasPlan(plans + [plan], n) {
      var p :| p in plans && p.aliasId == n.id;
      assert p in plans + [plan];
    }
  }

  lemma PlannedForgets(rows: Rows, w: Worker, a: seq<ModelRow>, b: seq<ModelRow>, plans: seq<Plan>)
    requires Planned(rows, w, a, plans) && (forall m :: m in a <==> m in b) && (NoDuplicates(b) ==> NoDuplicates(a))
    ensures Planned(rows, w, b, plans)
  {
    hide HasServed, PlanOf, NoDuplicates, HasPlan, NamesApart;
  }

  lemma NamesSnoc(plans: seq<Plan>, plan: Plan)
    requires NamesApart(plans) && forall p :: p in plans ==> p.aliasId != plan.aliasId
    ensures NamesApart(plans + [plan])
  {
  }

  lemma ApartFrom(rows: Rows, w: Worker, models: seq<ModelRow>, m: ModelRow, plans: seq<Plan>)
    requires Keyed(rows) && Planned(rows, w, models, plans) && m in rows.models && forall n :: n in models ==> n in rows.models
    requires NoDuplicates(models + [m])
    ensures NoDuplicates(models) && NamesApart(plans) && forall p :: p in plans ==> p.aliasId != m.id
  {
    var all := models + [m];
    assert (forall i :: 0 <= i < |models| ==> all[i] == models[i]) && all[|models|] == m;
    hide HasServed, PlanOf, Keyed;
    forall p | p in plans ensures p.aliasId != m.id {
      var n :| n in models && HasServed(rows, w, n) && PlanOf(rows, w, n, p);
      PlanIsNamed(rows, w, n, p);
      if n.id == m.id {
        SameModel(rows, n, m);
      }
    }
  }

  lemma PlanIsNamed(rows: Rows, w: Worker, m: ModelRow, plan: Plan)
    requires PlanOf(rows, w, m, plan)
    ensures plan.aliasId == m.id
  {
  }

  lemma SameModel(rows: Rows, m: ModelRow, n: ModelRow)
    requires Keyed(rows) && m in rows.models && n in rows.models && m.id == n.id
    ensures m == n
  {
  }

  ghost predicate InAliasOrder(plans: seq<Plan>) {
    forall i, j :: 0 <= i < j < |plans| ==> plans[i].aliasId < plans[j].aliasId
  }

  lemma SortedPlans(plans: seq<Plan>)
    ensures var sorted := Sort(plans, PlanBefore);
      && (forall p :: p in sorted <==> p in plans)
      && (NamesApart(plans) ==> InAliasOrder(sorted))
  {
    var sorted := Sort(plans, PlanBefore);
    assert Preorder(PlanBefore);
    SortSorts(plans, PlanBefore);
    SortKeepsAll(plans, PlanBefore);
    hide Sort, Preorder;
    if NamesApart(plans) {
      SameMultisetOnce(plans, sorted);
      forall i, j | 0 <= i < j < |sorted| ensures sorted[i].aliasId < sorted[j].aliasId {
        assert PlanBefore(sorted[i], sorted[j]);
        assert sorted[i] in plans && sorted[j] in plans && sorted[i] != sorted[j];
      }
    }
  }

  lemma ServedIsThere(rows: Rows, w: Worker, cat: Catalog, m: ModelRow)
    requires ModelDone(rows, w, cat, m) && HasServed(rows, w, m)
    ensures cat.models != map[]
  {
    hide ServedAs, GivesVariant, RowOf;
    var row: RowId :| IsServed(rows, w, m, row);
    var p := ServedRow(rows, w, m, row);
    assert RowDone(rows, w, cat, m, p);
  }

  /** Every plan of a build is that of a model with a served row, every such model has
      one, and they stand in alias order: each serves its owner's chain if there is one,
      else the platform's, in the order that chain is served, or falls back on the
      oldest served row. */
  lemma PlansFollowRows(rows: Rows, w: Worker)
    requires Keyed(rows)
    ensures var plans := BuildCatalog(w, rows).plans;
      && (forall plan :: plan in plans ==> exists m :: m in rows.models && HasServed(rows, w, m) && PlanOf(rows, w, m, plan))
      && (forall m :: m in rows.models && HasServed(rows, w, m) ==> exists plan :: plan in plans && plan.aliasId == m.id)
      && (NoDuplicates(rows.models) ==> forall i, j :: 0 <= i < j < |plans| ==> plans[i].aliasId < plans[j].aliasId)
  {
    var plans := BuildCatalog(w, rows).plans;
    PlansPlanned(rows, w);
    hide BuildCatalog, HasServed, PlanOf, Keyed, NoDuplicates;
    forall plan | plan in plans ensures exists m :: m in rows.models && HasServed(rows, w, m) && PlanOf(rows, w, m, plan) {
      assert IsPlanned(rows, w, rows.models, plan);
    }
    forall m | m in rows.models && HasServed(rows, w, m) ensures exists plan :: plan in plans && plan.aliasId == m.id {
      assert HasPlan(plans, m);
    }
  }

  /** The drafts of the whole build, finished but not yet in alias order. */
  lemma AllPlanned(rows: Rows, w: Worker)
    requires Keyed(rows)
    ensures var (cat, drafts) := AssembleModels(w, IndexOf(rows), IndexOf(rows).models);
            && Planned(rows, w, rows.models, FinalizePlans(cat, drafts))
            && (cat.models == map[] ==> forall m :: m in rows.models ==> !HasServed(rows, w, m))
  {
    var ix := IndexOf(rows);
    forall m ensures m in ix.models <==> m in rows.models {
      ModelIsRow(rows, m);
    }
    if NoDuplicates(rows.models) {
      ModelsOnce(rows);
    }
    hide IndexOf, AssembleModels, Faithful, Keyed, ModelDone, HasServed, Planned, FinalizePlans, Drafted, NoDuplicates;
    AssembledIs(rows, w, ix.models);
    DraftsAre(rows, w, ix.models);
    var (cat, drafts) := AssembleModels(w, ix, ix.models);
    PlansAre(rows, w, cat, ix.models, drafts);
    PlannedForgets(rows, w, ix.models, rows.models, FinalizePlans(cat, drafts));
    if cat.models == map[] {
      forall m | m in rows.models ensures !HasServed(rows, w, m) {
        if HasServed(rows, w, m) {
          ServedIsThere(rows, w, cat, m);
        }
      }
    }
  }

  lemma PlansPlanned(rows: Rows, w: Worker)
    requires Keyed(rows)
    ensures var plans := BuildCatalog(w, rows).plans;
      && (forall plan :: plan in plans ==> IsPlanned(rows, w, rows.models, plan))
      && (forall m :: m in rows.models && HasServed(rows, w, m) ==> HasPlan(plans, m))
      && (NoDuplicates(rows.models) ==> InAliasOrder(plans))
  {
    AllPlanned(rows, w);
    hide IndexOf, AssembleModels, Keyed, HasServed, FinalizePlans, Sort, NoDuplicates, NamesApart, IsPlanned, HasPlan;
    var (cat, drafts) := AssembleModels(w, IndexOf(rows), IndexOf(rows).models);
    var plans := FinalizePlans(cat, drafts);
    SortedPlans(plans);
    PlansStay(plans, Sort(plans, PlanBefore));
  }

  lemma PlansStay(plans: seq<Plan>, sorted: seq<Plan>)
    requires forall p :: p in sorted <==> p in plans
    ensures forall m :: HasPlan(plans, m) ==> HasPlan(sorted, m)
  {
  }
}

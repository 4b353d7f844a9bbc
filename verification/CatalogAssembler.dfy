/** The single-use assembler: tables filled in place, row by row, model by model. */
module CatalogAssembler {
  import opened Prelude
  import opened Sorting
  import opened Grouping
  import opened CatalogRows
  import opened CatalogAssembly
  import opened CatalogClosed
  import opened CatalogReference
  import opened CatalogPlans

  /** Indexes the input rows. */
  method IndexRows(rows: Rows) returns (index: Index)
    ensures index == IndexOf(rows)
  {
    hide Sort, Having, GroupMap, LastBy, KeysOf;
    var byModel := GroupInto(Sort(rows.providers, ProviderBefore), ModelOf);
    var chains := SortedChains(rows.waterfalls);
    var byId := IndexBy(rows.connections, ConnectionId);
    var byOrgProvider := IndexBy(rows.connections, OrgProvider);
    var byProvider := GroupInto(Sort(rows.connections, ConnectionBefore), ProviderOf);
    index := Index(Sort(rows.models, ModelBefore), byModel, chains, byId, byOrgProvider, byProvider, rows.house);
  }

  /** Groups the rungs, then sorts every chain by position. */
  method SortedChains(waterfalls: seq<WaterfallRow>) returns (chains: map<ChainKey, seq<WaterfallRow>>)
    ensures chains == map k | k in KeysOf(waterfalls, ChainOf) :: Sort(Having(waterfalls, ChainOf, k), RungBefore)
  {
    chains := GroupInto(waterfalls, ChainOf);
    GroupKeys(waterfalls, ChainOf);
    hide Sort, Having, KeysOf;
    ghost var groups := chains;
    var rest := chains.Keys;
    while rest != {}
      invariant rest <= groups.Keys && chains.Keys == groups.Keys
      invariant forall k :: k in groups ==> chains[k] == if k in rest then groups[k] else Sort(groups[k], RungBefore)
      decreases |rest|
    {
      var k :| k in rest;
      rest := rest - {k};
      chains := chains[k := Sort(chains[k], RungBefore)];
    }
  }

  class CatalogAssembler {
    const worker: Worker
    const index: Index
    var connections: map<ConnectionName, ConnectionConfig>
    var refs: map<EnvName, CredentialRef>
    var models: map<DeploymentId, Record>
    var pools: map<PoolId, Pool>
    var boundTo: map<DeploymentId, ConnectionRow>
    var providers: map<DeploymentId, Provider>
    var variants: map<Org, map<DeploymentId, DeploymentId>>
    var ownKeyRequired: set<DeploymentId>

    constructor (worker: Worker, index: Index)
      ensures this.worker == worker && this.index == index && Tables() == EMPTY
    {
      this.worker, this.index := worker, index;
      connections, refs, models, pools := map[], map[], map[], map[];
      boundTo, providers, variants, ownKeyRequired := map[], map[], map[], {};
    }

    ghost function Tables(): Catalog
      reads this
    {
      Catalog(connections, refs, models, pools, boundTo, providers, variants, ownKeyRequired)
    }

    // Connections ------------------------------------------------------------

    method WriteConnection(name: ConnectionName, config: ConnectionConfig, kind: RefKind)
      modifies this`connections, this`refs
      ensures Tables() == PutConnection(old(Tables()), name, config, kind)
    {
      connections := connections[name := config];
      if config.keyEnv.Some? {
        refs := refs[config.keyEnv.value := CredentialRef(config.keyEnv.value, kind)];
      }
    }

    method RegisterByokConnection(conn: ConnectionRow) returns (name: Option<ConnectionName>)
      modifies this`connections, this`refs
      ensures (Tables(), name) == RegisterByok(worker, old(Tables()), conn)
    {
      hide PutConnection, ByokConfig;
      if Conn(conn.id) in connections {
        return Some(Conn(conn.id));
      }
      if !worker.releasable(conn.id) {
        return None;
      }
      var config := ByokConfig(conn);
      if config.None? {
        return None;
      }
      WriteConnection(Conn(conn.id), config.value, FromVault(conn.id));
      return Some(Conn(conn.id));
    }

    method RegisterPlatformConnection(provider: Provider) returns (name: Option<ConnectionName>)
      modifies this`connections, this`refs
      ensures (Tables(), name) == RegisterPlatform(worker, old(Tables()), provider)
    {
      hide PutConnection, FamilyOf;
      if provider !in PLATFORM_KEYED || provider !in worker.keys {
        return None;
      }
      if Platform(provider) !in connections {
        WriteConnection(Platform(provider),
          ConnectionConfig(FamilyOf(provider), None, None, Some(PlatformKey(provider)), None), FromPlatform);
      }
      return Some(Platform(provider));
    }

    method RegisterBedrockConnection(region: Option<string>) returns (name: ConnectionName)
      modifies this`connections, this`refs
      ensures (Tables(), name) == RegisterBedrock(old(Tables()), region)
    {
      hide PutConnection;
      name := PlatformBedrock(region);
      if name !in connections {
        WriteConnection(name, ConnectionConfig(BedrockFamily, None, None, None, region), Placeholder);
      }
    }

    method RegisterOwnKeyConnection(row: ProviderRow) returns (name: Option<ConnectionName>)
      modifies this`connections, this`refs
      ensures (Tables(), name) == RegisterOwnKey(old(Tables()), row)
    {
      hide PutConnection, OwnKeyConfig;
      if OwnKey(row.id) in connections {
        return Some(OwnKey(row.id));
      }
      var config := OwnKeyConfig(row);
      if config.None? {
        return None;
      }
      WriteConnection(OwnKey(row.id), config.value, Placeholder);
      return Some(OwnKey(row.id));
    }

    // Platform-funded lanes --------------------------------------------------

    method FixedOriginHost(row: ProviderRow) returns (lane: Option<Lane>)
      modifies this`connections, this`refs
      ensures (Tables(), lane) == FixedOriginLane(worker, index, old(Tables()), row)
    {
      hide RegisterByok, RegisterPlatform;
      var house := index.HouseConnection(row.provider);
      if house.Some? {
        var own := RegisterByokConnection(house.value);
        if own.Some? {
          return Some(Lane(own.value, row.wireModel, house));
        }
      }
      var name := RegisterPlatformConnection(row.provider);
      if name.None? {
        return None;
      }
      return Some(Lane(name.value, row.wireModel, None));
    }

    method AzureHost(row: ProviderRow) returns (lane: Option<Lane>)
      modifies this`connections, this`refs
      ensures (Tables(), lane) == AzureLane(worker, index, old(Tables()), row)
    {
      hide RegisterByok, WireModel;
      var house := index.HouseConnection(AzureOpenAI);
      if house.None? {
        return None;
      }
      var wire := WireModel(row, house.value);
      if wire.None? {
        return None;
      }
      var name := RegisterByokConnection(house.value);
      if name.None? {
        return None;
      }
      return Some(Lane(name.value, wire.value, house));
    }

    method CloudHost(row: ProviderRow) returns (lane: Option<Lane>)
      modifies this`connections, this`refs
      ensures (Tables(), lane) == CloudLane(worker, old(Tables()), row)
    {
      hide PutConnection;
      var url := Or(row.baseUrl, worker.cloudUrl);
      if url.None? || !worker.acceptable(url.value) {
        return None;
      }
      if worker.cloudKey {
        WriteConnection(Host(row.id),
          ConnectionConfig(Compatible, url, None, Some(PlatformKey(ExperientialCloud)), None), FromPlatform);
      } else {
        WriteConnection(Host(row.id),
          ConnectionConfig(Compatible, url, None, Some(CloudPlaceholder(row.id)), None), Placeholder);
      }
      return Some(Lane(Host(row.id), row.wireModel, None));
    }

    method CompatibleHost(row: ProviderRow) returns (lane: Option<Lane>)
      modifies this`connections, this`refs
      ensures (Tables(), lane) == CompatibleLane(worker, index, old(Tables()), row)
    {
      hide PutConnection, CloudLane, Or, DefaultUrl;
      if row.provider.ExperientialCloud? {
        lane := CloudHost(row);
        return;
      }
      var url := Or(row.baseUrl, DefaultUrl(row.provider));
      if url.None? {
        return None;
      }
      var house := index.HouseConnection(row.provider);
      if house.Some? && !worker.releasable(house.value.id) {
        house := None;
      }
      var key, kind;
      if house.Some? {
        key, kind := VaultKey(house.value.id), FromVault(house.value.id);
      } else if row.provider in PLATFORM_KEYED && row.provider in worker.keys {
        key, kind := PlatformKey(row.provider), FromPlatform;
      } else {
        return None;
      }
      WriteConnection(Host(row.id), ConnectionConfig(Compatible, url, None, Some(key), None), kind);
      return Some(Lane(Host(row.id), row.wireModel, house));
    }

    method PlatformLane(row: ProviderRow) returns (lane: Option<Lane>)
      modifies this`connections, this`refs
      ensures (Tables(), lane) == HostLane(worker, index, old(Tables()), row)
    {
      hide RegisterBedrock, CompatibleLane, AzureLane, FixedOriginLane;
      if row.provider.Bedrock? {
        var name := RegisterBedrockConnection(row.region);
        lane := Some(Lane(name, row.wireModel, None));
      } else if row.provider in COMPATIBLE_HOSTS {
        lane := CompatibleHost(row);
      } else if row.provider.AzureOpenAI? {
        lane := AzureHost(row);
      } else {
        lane := FixedOriginHost(row);
      }
    }

    // Deployments ------------------------------------------------------------

    method WriteRecord(id: DeploymentId, name: ConnectionName, wire: string, host: bool, model: ModelRow, row: ProviderRow,
                       bound: Option<ConnectionRow>)
      modifies this`models, this`boundTo
      ensures Tables() == AddRecord(old(Tables()), id, name, wire, host, model, row, bound)
    {
      models := models[id := Record(name, wire, host, model.id, model.parameters, row)];
      if bound.Some? {
        boundTo := boundTo[id := bound.value];
      }
    }

    method HostManaged(model: ModelRow, row: ProviderRow) returns (id: Option<DeploymentId>)
      modifies this`connections, this`refs, this`models, this`boundTo
      ensures (Tables(), id) == HostDeployment(worker, index, old(Tables()), model, row)
    {
      hide HostLane, AddRecord;
      var lane := PlatformLane(row);
      if lane.None? {
        return None;
      }
      WriteRecord(Canonical(row.id), lane.value.name, lane.value.wireModel, true, model, row, lane.value.house);
      return Some(Canonical(row.id));
    }

    method Byok(model: ModelRow, row: ProviderRow, conn: ConnectionRow, alias: DeploymentId) returns (id: Option<DeploymentId>)
      modifies this`connections, this`refs, this`models, this`boundTo
      ensures (Tables(), id) == ByokDeployment(worker, old(Tables()), model, row, conn, alias)
    {
      hide RegisterByok, AddRecord, WireModel;
      if conn.provider !in BYOK_ROUTABLE {
        return None;
      }
      var wire := WireModel(row, conn);
      if wire.None? {
        return None;
      }
      var name := RegisterByokConnection(conn);
      if name.None? {
        return None;
      }
      WriteRecord(alias, name.value, wire.value, false, model, row, Some(conn));
      return Some(alias);
    }

    method Pinned(model: ModelRow, row: ProviderRow) returns (id: Option<DeploymentId>)
      requires row.pinned.Some?
      modifies this`connections, this`refs, this`models, this`boundTo
      ensures (Tables(), id) == PinnedDeployment(worker, index, old(Tables()), model, row)
    {
      hide ByokDeployment;
      var conn := index.Connection(row.pinned.value);
      if conn.None? || OwnerOf(model, row) != Some(conn.value.org) || conn.value.provider != row.provider {
        return None;
      }
      id := Byok(model, row, conn.value, Canonical(row.id));
    }

    method LocalServer(model: ModelRow, row: ProviderRow) returns (id: Option<DeploymentId>)
      modifies this`connections, this`refs, this`models, this`boundTo
      ensures (Tables(), id) == LocalDeployment(worker, old(Tables()), model, row)
    {
      hide PutConnection, AddRecord;
      if OwnerOf(model, row).None? || row.baseUrl.None? || !worker.acceptable(row.baseUrl.value) {
        return None;
      }
      WriteConnection(LocalRow(row.id),
        ConnectionConfig(Compatible, row.baseUrl, None, Some(LocalPlaceholder(row.id)), None), Placeholder);
      WriteRecord(Canonical(row.id), LocalRow(row.id), row.wireModel, false, model, row, None);
      return Some(Canonical(row.id));
    }

    method PublicByok(model: ModelRow, row: ProviderRow) returns (id: Option<DeploymentId>)
      modifies this`connections, this`refs, this`models, this`boundTo, this`ownKeyRequired
      ensures (Tables(), id) == PublicByokCanonical(old(Tables()), model, row)
    {
      hide RegisterOwnKey, AddRecord;
      if row.provider !in BYOK_ROUTABLE {
        return None;
      }
      var name := RegisterOwnKeyConnection(row);
      if name.None? {
        return None;
      }
      WriteRecord(Canonical(row.id), name.value, row.wireModel, false, model, row, None);
      ownKeyRequired := ownKeyRequired + {Canonical(row.id)};
      return Some(Canonical(row.id));
    }

    method Unpinned(model: ModelRow, row: ProviderRow) returns (id: Option<DeploymentId>)
      modifies this`connections, this`refs, this`models, this`boundTo, this`ownKeyRequired
      ensures (Tables(), id) == UnpinnedDeployment(worker, index, old(Tables()), model, row)
    {
      hide ByokDeployment, PublicByokCanonical;
      var owner := OwnerOf(model, row);
      if owner.None? {
        id := PublicByok(model, row);
        return;
      }
      var conn := index.ConnectionFor(owner.value, row.provider);
      if conn.None? || row.provider !in BYOK_ROUTABLE {
        return None;
      }
      id := Byok(model, row, conn.value, Canonical(row.id));
    }

    method RegisterCanonical(model: ModelRow, row: ProviderRow) returns (id: Option<DeploymentId>)
      modifies this`connections, this`refs, this`models, this`boundTo, this`ownKeyRequired
      ensures (Tables(), id) == CanonicalDeployment(worker, index, old(Tables()), model, row)
    {
      hide Admissible, PinnedDeployment, LocalDeployment, HostDeployment, UnpinnedDeployment;
      if !Admissible(model, row) {
        return None;
      }
      if row.pinned.Some? {
        id := Pinned(model, row);
      } else if row.provider.Local? {
        id := LocalServer(model, row);
      } else if row.hostManaged {
        id := HostManaged(model, row);
      } else {
        id := Unpinned(model, row);
      }
    }

    // Variants ---------------------------------------------------------------

    method RegisterVariants(model: ModelRow, row: ProviderRow)
      requires Canonical(row.id) in models
      modifies this`connections, this`refs, this`models, this`boundTo, this`variants
      ensures Tables() == AddVariants(worker, index, old(Tables()), model, row)
    {
      hide ByokDeployment, AddVariant, WithVariants, WithVariant, Eligible;
      if !models[Canonical(row.id)].hostManaged && Canonical(row.id) !in ownKeyRequired {
        return;
      }
      if row.provider !in BYOK_ROUTABLE {
        return;
      }
      var candidates := Eligible(index, model, index.ConnectionsOf(row.provider));
      ghost var before := Tables();
      NoVariants(before, model, row);
      var i := 0;
      while i < |candidates|
        invariant i <= |candidates|
        invariant Tables() == WithVariants(worker, before, model, row, candidates[..i])
      {
        var conn := candidates[i];
        OneVariant(before, model, row, candidates, i);
        var id := Byok(model, row, conn, Variant(row.id, conn.id));
        ByokNames(worker, WithVariants(worker, before, model, row, candidates[..i]), model, row, conn);
        if id.Some? {
          var mine := if conn.org in variants then variants[conn.org] else map[];
          VariantWritten(Tables(), conn.org, Canonical(row.id), id.value);
          variants := variants[conn.org := mine[Canonical(row.id) := id.value]];
        }
        i := i + 1;
      }
      assert candidates[..i] == candidates;
    }

    lemma NoVariants(cat: Catalog, model: ModelRow, row: ProviderRow)
      ensures WithVariants(worker, cat, model, row, []) == cat
      ensures forall s: seq<ConnectionRow> :: s[..0] == []
    {
    }

    lemma OneVariant(cat: Catalog, model: ModelRow, row: ProviderRow, conns: seq<ConnectionRow>, i: nat)
      requires i < |conns|
      ensures WithVariants(worker, cat, model, row, conns[..i + 1])
           == WithVariant(worker, WithVariants(worker, cat, model, row, conns[..i]), model, row, conns[i])
    {
      assert conns[..i + 1][..i] == conns[..i];
    }

    // One model --------------------------------------------------------------

    method RegisterRow(model: ModelRow, row: ProviderRow) returns (id: Option<DeploymentId>)
      modifies this`connections, this`refs, this`models, this`boundTo, this`ownKeyRequired, this`providers, this`variants
      ensures (Tables(), id) == AddRow(worker, index, old(Tables()), model, row)
    {
      hide CanonicalDeployment, AddVariants;
      if row.disabled {
        return None;
      }
      id := RegisterCanonical(model, row);
      if id.None? {
        return None;
      }
      providers := providers[Canonical(row.id) := row.provider];
      RegisterVariants(model, row);
    }

    method RegisterRows(model: ModelRow) returns (ordered: seq<DeploymentId>)
      modifies this`connections, this`refs, this`models, this`boundTo, this`ownKeyRequired, this`providers, this`variants
      ensures (Tables(), ordered) == AddRows(worker, index, old(Tables()), model, index.ProvidersOf(model.id))
    {
      hide AddRow;
      var rows := index.ProvidersOf(model.id);
      ghost var before := Tables();
      ordered := [];
      var i := 0;
      while i < |rows|
        invariant i <= |rows|
        invariant (Tables(), ordered) == AddRows(worker, index, before, model, rows[..i])
      {
        assert rows[..i + 1][..i] == rows[..i] && rows[..i + 1][i] == rows[i];
        var id := RegisterRow(model, rows[i]);
        if id.Some? {
          ordered := ordered + [id.value];
        }
        i := i + 1;
      }
      assert rows[..i] == rows;
    }

    /** Chooses the alias target: a certified pool, or one deployment. */
    method ChooseTarget(model: ModelRow, ordered: seq<DeploymentId>) returns (draft: Draft)
      requires ordered != []
      modifies this`pools
      ensures (Tables(), draft) == DraftPlan(index, old(Tables()), model, ordered)
      ensures forall rows :: index == IndexOf(rows) && ReadyFor(rows, worker, old(Tables()), model, ordered) ==>
                draft.model == model && Follows(rows, worker, model, draft.target, draft.deployments, draft.certified)
    {
      forall rows | index == IndexOf(rows) && ReadyFor(rows, worker, Tables(), model, ordered)
        ensures var made := DraftPlan(index, Tables(), model, ordered).1;
                made.model == model && Follows(rows, worker, model, made.target, made.deployments, made.certified)
      {
        ReadyDraftIs(rows, worker, Tables(), model, ordered);
      }
      hide ModelChain, Routable, HouseOrdered, HouseOrderingApplies, ReadyFor, Follows, IndexOf;
      var (chain, chainOrg) := ModelChain(index, model);
      var cat := Catalog(connections, refs, models, pools, boundTo, providers, variants, ownKeyRequired);
      var serving := Routable(chain, ordered);
      if HouseOrderingApplies(cat, serving, chainOrg) {
        serving := HouseOrdered(cat, serving);
      }
      if |serving| >= 2 {
        pools := pools[Wf(model.id, chainOrg) := Pool(model.id, serving, chain)];
        return Draft(model, ToPool(Wf(model.id, chainOrg)), serving, Some(chain));
      }
      var only := if serving != [] then serving[0] else ordered[0];
      return Draft(model, ToDeployment(only), [only], None);
    }

    method Assemble(model: ModelRow) returns (draft: Option<Draft>)
      modifies this
      ensures (Tables(), draft) == AssembleModel(worker, index, old(Tables()), model)
    {
      hide AddRows, DraftPlan;
      var ordered := RegisterRows(model);
      if ordered == [] {
        return None;
      }
      var chosen := ChooseTarget(model, ordered);
      return Some(chosen);
    }

    /** All models in order, then the plans. */
    method BuildAll() returns (build: Build)
      requires Tables() == EMPTY
      modifies this
      ensures var (cat, drafts) := AssembleModels(worker, index, index.models);
              build == if cat.models == map[] then Build(EMPTY, []) else Build(cat, Sort(FinalizePlans(cat, drafts), PlanBefore))
    {
      hide AssembleModel, FinalizePlan, Sort;
      var drafts: seq<Draft> := [];
      var i := 0;
      while i < |index.models|
        invariant i <= |index.models|
        invariant (Tables(), drafts) == AssembleModels(worker, index, index.models[..i])
      {
        assert index.models[..i + 1][..i] == index.models[..i] && index.models[..i + 1][i] == index.models[i];
        var draft := Assemble(index.models[i]);
        if draft.Some? {
          drafts := drafts + [draft.value];
        }
        i := i + 1;
      }
      assert index.models[..i] == index.models;
      if models == map[] {
        return Build(EMPTY, []);
      }
      var cat := Catalog(connections, refs, models, pools, boundTo, providers, variants, ownKeyRequired);
      var plans: seq<Plan> := [];
      i := 0;
      while i < |drafts|
        invariant i <= |drafts| && plans == FinalizePlans(cat, drafts[..i])
      {
        assert drafts[..i + 1][..i] == drafts[..i];
        plans := plans + [FinalizePlan(cat, drafts[i])];
        i := i + 1;
      }
      assert drafts[..i] == drafts;
      return Build(cat, Sort(plans, PlanBefore));
    }
  }

  lemma ByokNames(w: Worker, cat: Catalog, model: ModelRow, row: ProviderRow, conn: ConnectionRow)
    ensures WithVariant(w, cat, model, row, conn)
         == (var (next, id) := ByokDeployment(w, cat, model, row, conn, Variant(row.id, conn.id));
             if id.Some? then AddVariant(next, conn.org, Canonical(row.id), id.value) else next)
  {
    hide ByokDeployment, AddVariant;
  }

  lemma VariantWritten(cat: Catalog, org: Org, canonical: DeploymentId, variant: DeploymentId)
    ensures AddVariant(cat, org, canonical, variant)
         == cat.(variants := cat.variants[org := (if org in cat.variants then cat.variants[org] else map[])[canonical := variant]])
  {
  }

  /** Assembles platform rows into one catalog: a row has its deployment exactly when
      it is served, and every plan follows its model's rows. */
  method BuildGatewayCatalog(worker: Worker, rows: Rows) returns (build: Build)
    ensures build == BuildCatalog(worker, rows)
    ensures Keyed(rows) ==>
              && (forall m, p :: RowOf(rows, m, p) ==> (Canonical(p.id) in build.catalog.models <==> ServedAs(rows, worker, m, p).Some?))
              && (forall plan :: plan in build.plans ==> exists m :: m in rows.models && PlanOf(rows, worker, m, plan))
              && (forall m :: m in rows.models && HasServed(rows, worker, m) ==> exists plan :: plan in build.plans && plan.aliasId == m.id)
  {
    hide IndexOf, AssembleModels, FinalizePlans, Sort, Keyed, RowOf, ServedAs, PlanOf, HasServed;
    var index := IndexRows(rows);
    var assembler := new CatalogAssembler(worker, index);
    build := assembler.BuildAll();
    assert build == BuildCatalog(worker, rows);
    if Keyed(rows) {
      PlansFollowRows(rows, worker);
      forall m, p | RowOf(rows, m, p) ensures Canonical(p.id) in build.catalog.models <==> ServedAs(rows, worker, m, p).Some? {
        LanesExactly(rows, worker, m, p);
      }
    }
  }
}

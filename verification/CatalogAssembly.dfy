/** What one catalog build computes: platform rows, read through their indexes, into
    connections, deployments, per-org variants, pools and alias plans. */
module CatalogAssembly {
  import opened Prelude
  import opened Sorting
  import opened CatalogRows

  // Constants ----------------------------------------------------------------

  datatype Family = OpenAIFamily | AnthropicFamily | GeminiFamily | AzureFamily | OpenRouterFamily | BedrockFamily | Compatible

  function FamilyOf(provider: Provider): Family {
    match provider
    case OpenAI => OpenAIFamily
    case Anthropic => AnthropicFamily
    case Gemini => GeminiFamily
    case AzureOpenAI => AzureFamily
    case OpenRouter => OpenRouterFamily
    case Bedrock => BedrockFamily
    case _ => Compatible
  }

  const BYOK_ROUTABLE: set<Provider> := {OpenAI, Anthropic, Gemini, OpenRouter, AzureOpenAI, Fireworks}

  const COMPATIBLE_HOSTS: set<Provider> := {Fireworks, Modal, ExperientialCloud}

  /** Providers with a platform credential variable. */
  const PLATFORM_KEYED: set<Provider> := {OpenAI, Anthropic, Gemini, Fireworks, Modal, ExperientialCloud}

  const FIREWORKS_URL := "https://api.fireworks.ai/inference/v1"

  const AZURE_PLACEHOLDER_URL := "https://byok-placeholder.openai.azure.com/"

  function DefaultUrl(provider: Provider): Option<string> {
    if provider.Fireworks? then Some(FIREWORKS_URL) else None
  }

  function HouseRank(provider: Provider): nat {
    match provider
    case ExperientialCloud => 0
    case AzureOpenAI => 1
    case Bedrock => 2
    case OpenAI => 3
    case Anthropic => 3
    case Gemini => 3
    case Fireworks => 4
    case _ => 5
  }

  // Inputs -------------------------------------------------------------------

  datatype EnvName =
    | PlatformKey(provider: Provider)
    | VaultKey(connection: RowId)
    | CloudPlaceholder(row: RowId)
    | LocalPlaceholder(row: RowId)
    | OwnKeyPlaceholder(row: RowId)

  /** The worker: which platform keys its environment holds, its cloud origin and
      bearer, which vault secrets release, and which endpoints are acceptable. */
  datatype Worker = Worker(
    keys: set<Provider>, cloudUrl: Option<string>, cloudKey: bool,
    releasable: RowId -> bool, acceptable: string -> bool)

  /** `value or other`: an empty string counts as absent. */
  function Or(value: Option<string>, other: Option<string>): Option<string> {
    if value.Some? && value.value != "" then value else other
  }

  // Outputs ------------------------------------------------------------------

  datatype ConnectionName =
    | Platform(provider: Provider)
    | PlatformBedrock(region: Option<string>)
    | Conn(id: RowId)
    | Host(row: RowId)
    | LocalRow(row: RowId)
    | OwnKey(row: RowId)

  datatype ConnectionConfig = ConnectionConfig(
    family: Family, baseUrl: Option<string>, apiVersion: Option<string>, keyEnv: Option<EnvName>, region: Option<string>)

  datatype RefKind = FromPlatform | FromVault(connection: RowId) | Placeholder

  datatype CredentialRef = CredentialRef(env: EnvName, kind: RefKind)

  datatype Record = Record(
    connection: ConnectionName, wireModel: string, hostManaged: bool, exactModel: RowId, parameters: nat, row: ProviderRow)

  datatype PoolId = Wf(model: RowId, org: Option<Org>)

  /** A certified pool; its certification is addressed to the chain rows. */
  datatype Pool = Pool(exactModel: RowId, members: seq<DeploymentId>, chain: seq<WaterfallRow>)

  datatype Target = ToPool(pool: PoolId) | ToDeployment(deployment: DeploymentId)

  datatype Draft = Draft(
    model: ModelRow, target: Target, deployments: seq<DeploymentId>, certified: Option<seq<WaterfallRow>>)

  /** The tables being filled. */
  datatype Catalog = Catalog(
    connections: map<ConnectionName, ConnectionConfig>,
    refs: map<EnvName, CredentialRef>,
    models: map<DeploymentId, Record>,
    pools: map<PoolId, Pool>,
    boundTo: map<DeploymentId, ConnectionRow>,
    providers: map<DeploymentId, Provider>,
    variants: map<Org, map<DeploymentId, DeploymentId>>,
    ownKeyRequired: set<DeploymentId>)

  const EMPTY := Catalog(map[], map[], map[], map[], map[], map[], map[], {})

  // Connections --------------------------------------------------------------

  function PutConnection(cat: Catalog, name: ConnectionName, config: ConnectionConfig, kind: RefKind): Catalog {
    cat.(connections := cat.connections[name := config],
         refs := if config.keyEnv.None? then cat.refs
                 else cat.refs[config.keyEnv.value := CredentialRef(config.keyEnv.value, kind)])
  }

  function ByokConfig(conn: ConnectionRow): Option<ConnectionConfig> {
    var key := Some(VaultKey(conn.id));
    if conn.provider.AzureOpenAI? then
      if conn.azure.None? then None
      else Some(ConnectionConfig(AzureFamily, Some(conn.azure.value.endpoint), Or(conn.azure.value.apiVersion, Some("v1")), key, None))
    else if conn.provider in COMPATIBLE_HOSTS then
      if DefaultUrl(conn.provider).None? then None
      else Some(ConnectionConfig(Compatible, DefaultUrl(conn.provider), None, key, None))
    else Some(ConnectionConfig(FamilyOf(conn.provider), None, None, key, None))
  }

  /** One organisation's connection, registered once. */
  function RegisterByok(w: Worker, cat: Catalog, conn: ConnectionRow): (Catalog, Option<ConnectionName>) {
    var name := Conn(conn.id);
    if name in cat.connections then (cat, Some(name))
    else if !w.releasable(conn.id) || ByokConfig(conn).None? then (cat, None)
    else (PutConnection(cat, name, ByokConfig(conn).value, FromVault(conn.id)), Some(name))
  }

  function RegisterPlatform(w: Worker, cat: Catalog, provider: Provider): (Catalog, Option<ConnectionName>) {
    var name := Platform(provider);
    if provider !in PLATFORM_KEYED || provider !in w.keys then (cat, None)
    else if name in cat.connections then (cat, Some(name))
    else
      (PutConnection(cat, name, ConnectionConfig(FamilyOf(provider), None, None, Some(PlatformKey(provider)), None), FromPlatform),
       Some(name))
  }

  function RegisterBedrock(cat: Catalog, region: Option<string>): (Catalog, ConnectionName) {
    var name := PlatformBedrock(region);
    if name in cat.connections then (cat, name)
    else (PutConnection(cat, name, ConnectionConfig(BedrockFamily, None, None, None, region), Placeholder), name)
  }

  function OwnKeyConfig(row: ProviderRow): Option<ConnectionConfig> {
    var key := Some(OwnKeyPlaceholder(row.id));
    if row.provider in COMPATIBLE_HOSTS then
      var url := Or(row.baseUrl, DefaultUrl(row.provider));
      if url.None? then None else Some(ConnectionConfig(Compatible, url, None, key, None))
    else if row.provider.AzureOpenAI? then
      Some(ConnectionConfig(FamilyOf(row.provider), Or(row.baseUrl, Some(AZURE_PLACEHOLDER_URL)), Some("v1"), key, None))
    else Some(ConnectionConfig(FamilyOf(row.provider), None, None, key, None))
  }

  /** A placeholder connection for a public row every caller must bring a key for. */
  function RegisterOwnKey(cat: Catalog, row: ProviderRow): (Catalog, Option<ConnectionName>) {
    var name := OwnKey(row.id);
    if name in cat.connections then (cat, Some(name))
    else if OwnKeyConfig(row).None? then (cat, None)
    else (PutConnection(cat, name, OwnKeyConfig(row).value, Placeholder), Some(name))
  }

  /** A platform-funded lane: its connection, wire model, and the house row behind it. */
  datatype Lane = Lane(name: ConnectionName, wireModel: string, house: Option<ConnectionRow>)

  function FixedOriginLane(w: Worker, ix: Index, cat: Catalog, row: ProviderRow): (Catalog, Option<Lane>) {
    var house := ix.HouseConnection(row.provider);
    var (first, own) := if house.Some? then RegisterByok(w, cat, house.value) else (cat, None);
    if own.Some? then (first, Some(Lane(own.value, row.wireModel, house)))
    else
      var (second, name) := RegisterPlatform(w, first, row.provider);
      (second, if name.Some? then Some(Lane(name.value, row.wireModel, None)) else None)
  }

  function AzureLane(w: Worker, ix: Index, cat: Catalog, row: ProviderRow): (Catalog, Option<Lane>) {
    var house := ix.HouseConnection(AzureOpenAI);
    if house.None? then (cat, None)
    else
      var wire := WireModel(row, house.value);
      if wire.None? then (cat, None)
      else
        var (next, name) := RegisterByok(w, cat, house.value);
        (next, if name.Some? then Some(Lane(name.value, wire.value, house)) else None)
  }

  function CloudLane(w: Worker, cat: Catalog, row: ProviderRow): (Catalog, Option<Lane>) {
    var url := Or(row.baseUrl, w.cloudUrl);
    if url.None? || !w.acceptable(url.value) then (cat, None)
    else
      var (key, kind) := if w.cloudKey then (PlatformKey(ExperientialCloud), FromPlatform) else (CloudPlaceholder(row.id), Placeholder);
      (PutConnection(cat, Host(row.id), ConnectionConfig(Compatible, url, None, Some(key), None), kind),
       Some(Lane(Host(row.id), row.wireModel, None)))
  }

  /** The house's vault key if its secret releases, else the worker's own key. */
  function CompatibleKey(w: Worker, provider: Provider, house: Option<ConnectionRow>): Option<(EnvName, RefKind)> {
    if house.Some? then Some((VaultKey(house.value.id), FromVault(house.value.id)))
    else if provider in PLATFORM_KEYED && provider in w.keys then Some((PlatformKey(provider), FromPlatform))
    else None
  }

  function ReleasableHouse(w: Worker, ix: Index, provider: Provider): Option<ConnectionRow> {
    var seeded := ix.HouseConnection(provider);
    if seeded.Some? && w.releasable(seeded.value.id) then seeded else None
  }

  function CompatibleLane(w: Worker, ix: Index, cat: Catalog, row: ProviderRow): (Catalog, Option<Lane>) {
    if row.provider.ExperientialCloud? then CloudLane(w, cat, row)
    else
      var url := Or(row.baseUrl, DefaultUrl(row.provider));
      var house := ReleasableHouse(w, ix, row.provider);
      var key := CompatibleKey(w, row.provider, house);
      if url.None? || key.None? then (cat, None)
      else
        (PutConnection(cat, Host(row.id), ConnectionConfig(Compatible, url, None, Some(key.value.0), None), key.value.1),
         Some(Lane(Host(row.id), row.wireModel, house)))
  }

  function HostLane(w: Worker, ix: Index, cat: Catalog, row: ProviderRow): (Catalog, Option<Lane>) {
    if row.provider.Bedrock? then
      var (next, name) := RegisterBedrock(cat, row.region);
      (next, Some(Lane(name, row.wireModel, None)))
    else if row.provider in COMPATIBLE_HOSTS then CompatibleLane(w, ix, cat, row)
    else if row.provider.AzureOpenAI? then AzureLane(w, ix, cat, row)
    else FixedOriginLane(w, ix, cat, row)
  }

  // Deployments --------------------------------------------------------------

  /** The provider's own spelling; Azure spells a model by its deployment's name. */
  function WireModel(row: ProviderRow, conn: ConnectionRow): Option<string> {
    if !conn.provider.AzureOpenAI? then Some(row.wireModel)
    else if conn.azure.None? || row.wireModel !in conn.azure.value.deployments then None
    else Some(conn.azure.value.deployments[row.wireModel])
  }

  function AddRecord(cat: Catalog, id: DeploymentId, name: ConnectionName, wire: string, hostManaged: bool,
                     model: ModelRow, row: ProviderRow, bound: Option<ConnectionRow>): (r: Catalog)
    ensures id in r.models
  {
    cat.(models := cat.models[id := Record(name, wire, hostManaged, model.id, model.parameters, row)],
         boundTo := if bound.Some? then cat.boundTo[id := bound.value] else cat.boundTo)
  }

  function HostDeployment(w: Worker, ix: Index, cat: Catalog, model: ModelRow, row: ProviderRow): (r: (Catalog, Option<DeploymentId>))
    ensures r.1.Some? ==> r.1.value == Canonical(row.id) && Canonical(row.id) in r.0.models
  {
    var (next, lane) := HostLane(w, ix, cat, row);
    if lane.None? then (next, None)
    else
      (AddRecord(next, Canonical(row.id), lane.value.name, lane.value.wireModel, true, model, row, lane.value.house),
       Some(Canonical(row.id)))
  }

  function ByokDeployment(w: Worker, cat: Catalog, model: ModelRow, row: ProviderRow, conn: ConnectionRow, id: DeploymentId)
    : (r: (Catalog, Option<DeploymentId>))
    ensures r.1.Some? ==> r.1.value == id && id in r.0.models
  {
    if conn.provider !in BYOK_ROUTABLE || WireModel(row, conn).None? then (cat, None)
    else
      var (next, name) := RegisterByok(w, cat, conn);
      if name.None? then (next, None)
      else (AddRecord(next, id, name.value, WireModel(row, conn).value, false, model, row, Some(conn)), Some(id))
  }

  function OwnerOf(model: ModelRow, row: ProviderRow): Option<Org> {
    if row.owner.Some? then row.owner else model.owner
  }

  function PinnedDeployment(w: Worker, ix: Index, cat: Catalog, model: ModelRow, row: ProviderRow)
    : (r: (Catalog, Option<DeploymentId>))
    requires row.pinned.Some?
    ensures r.1.Some? ==> r.1.value == Canonical(row.id) && Canonical(row.id) in r.0.models
  {
    var conn := ix.Connection(row.pinned.value);
    if conn.None? || OwnerOf(model, row) != Some(conn.value.org) || conn.value.provider != row.provider then (cat, None)
    else ByokDeployment(w, cat, model, row, conn.value, Canonical(row.id))
  }

  function LocalDeployment(w: Worker, cat: Catalog, model: ModelRow, row: ProviderRow): (r: (Catalog, Option<DeploymentId>))
    ensures r.1.Some? ==> r.1.value == Canonical(row.id) && Canonical(row.id) in r.0.models
  {
    if OwnerOf(model, row).None? || row.baseUrl.None? || !w.acceptable(row.baseUrl.value) then (cat, None)
    else
      var name := LocalRow(row.id);
      var next := PutConnection(cat, name, ConnectionConfig(Compatible, row.baseUrl, None, Some(LocalPlaceholder(row.id)), None), Placeholder);
      (AddRecord(next, Canonical(row.id), name, row.wireModel, false, model, row, None), Some(Canonical(row.id)))
  }

  function PublicByokCanonical(cat: Catalog, model: ModelRow, row: ProviderRow): (r: (Catalog, Option<DeploymentId>))
    ensures r.1.Some? ==> r.1.value == Canonical(row.id) && Canonical(row.id) in r.0.models
  {
    if row.provider !in BYOK_ROUTABLE then (cat, None)
    else
      var (next, name) := RegisterOwnKey(cat, row);
      if name.None? then (next, None)
      else
        var added := AddRecord(next, Canonical(row.id), name.value, row.wireModel, false, model, row, None);
        (added.(ownKeyRequired := added.ownKeyRequired + {Canonical(row.id)}), Some(Canonical(row.id)))
  }

  function UnpinnedDeployment(w: Worker, ix: Index, cat: Catalog, model: ModelRow, row: ProviderRow)
    : (r: (Catalog, Option<DeploymentId>))
    ensures r.1.Some? ==> r.1.value == Canonical(row.id) && Canonical(row.id) in r.0.models
  {
    var owner := OwnerOf(model, row);
    if owner.None? then PublicByokCanonical(cat, model, row)
    else
      var conn := ix.ConnectionFor(owner.value, row.provider);
      if conn.None? || row.provider !in BYOK_ROUTABLE then (cat, None)
      else ByokDeployment(w, cat, model, row, conn.value, Canonical(row.id))
  }

  /** No lane can carry an unknown provider, a URL outside the compatible family, or
      one org's row under a public model. */
  predicate Admissible(model: ModelRow, row: ProviderRow) {
    && !row.provider.Other?
    && (FamilyOf(row.provider) != Compatible ==> row.baseUrl.None?)
    && (model.owner.None? ==> row.owner.None?)
  }

  function CanonicalDeployment(w: Worker, ix: Index, cat: Catalog, model: ModelRow, row: ProviderRow)
    : (r: (Catalog, Option<DeploymentId>))
    ensures r.1.Some? ==> r.1.value == Canonical(row.id) && Canonical(row.id) in r.0.models
  {
    if !Admissible(model, row) then (cat, None)
    else if row.pinned.Some? then PinnedDeployment(w, ix, cat, model, row)
    else if row.provider.Local? then LocalDeployment(w, cat, model, row)
    else if row.hostManaged then HostDeployment(w, ix, cat, model, row)
    else UnpinnedDeployment(w, ix, cat, model, row)
  }

  // Variants -----------------------------------------------------------------

  function Eligible(ix: Index, model: ModelRow, conns: seq<ConnectionRow>): (r: seq<ConnectionRow>)
    ensures forall c :: c in r ==> c in conns
  {
    if conns == [] then []
    else
      var n := |conns| - 1;
      var keep := if model.owner.Some? then Some(conns[n].org) == model.owner else Some(conns[n].org) != ix.house;
      Eligible(ix, model, conns[..n]) + if keep then [conns[n]] else []
  }

  function AddVariant(cat: Catalog, org: Org, canonical: DeploymentId, variant: DeploymentId): Catalog {
    var mine := if org in cat.variants then cat.variants[org] else map[];
    cat.(variants := cat.variants[org := mine[canonical := variant]])
  }

  /** One more connection's variant, when it can carry the row. */
  function WithVariant(w: Worker, cat: Catalog, model: ModelRow, row: ProviderRow, conn: ConnectionRow): Catalog {
    var (next, id) := ByokDeployment(w, cat, model, row, conn, Variant(row.id, conn.id));
    if id.Some? then AddVariant(next, conn.org, Canonical(row.id), id.value) else next
  }

  function WithVariants(w: Worker, cat: Catalog, model: ModelRow, row: ProviderRow, conns: seq<ConnectionRow>): Catalog {
    if conns == [] then cat
    else WithVariant(w, WithVariants(w, cat, model, row, conns[..|conns| - 1]), model, row, conns[|conns| - 1])
  }

  /** Variants attach to platform-funded and to bring-your-own-key canonicals only. */
  function AddVariants(w: Worker, ix: Index, cat: Catalog, model: ModelRow, row: ProviderRow): Catalog
    requires Canonical(row.id) in cat.models
  {
    if !cat.models[Canonical(row.id)].hostManaged && Canonical(row.id) !in cat.ownKeyRequired then cat
    else if row.provider !in BYOK_ROUTABLE then cat
    else WithVariants(w, cat, model, row, Eligible(ix, model, ix.ConnectionsOf(row.provider)))
  }

  // One model ----------------------------------------------------------------

  function AddRow(w: Worker, ix: Index, cat: Catalog, model: ModelRow, row: ProviderRow): (r: (Catalog, Option<DeploymentId>))
    ensures r.1.Some? ==> r.1.value == Canonical(row.id)
  {
    if row.disabled then (cat, None)
    else
      var (next, id) := CanonicalDeployment(w, ix, cat, model, row);
      if id.None? then (next, None)
      else (AddVariants(w, ix, next.(providers := next.providers[Canonical(row.id) := row.provider]), model, row), Some(Canonical(row.id)))
  }

  /** The model's routable canonicals, in row order. */
  function AddRows(w: Worker, ix: Index, cat: Catalog, model: ModelRow, rows: seq<ProviderRow>): (Catalog, seq<DeploymentId>) {
    if rows == [] then (cat, [])
    else
      var n := |rows| - 1;
      var (before, ids) := AddRows(w, ix, cat, model, rows[..n]);
      var (after, id) := AddRow(w, ix, before, model, rows[n]);
      (after, if id.Some? then ids + [id.value] else ids)
  }

  function RankOf(cat: Catalog, id: DeploymentId): nat {
    if id in cat.providers then HouseRank(cat.providers[id]) else 5
  }

  function HouseBefore(cat: Catalog): (DeploymentId, DeploymentId) -> bool {
    (a, b) => RankOf(cat, a) <= RankOf(cat, b)
  }

  function HouseOrdered(cat: Catalog, ids: seq<DeploymentId>): seq<DeploymentId> {
    Sort(ids, HouseBefore(cat))
  }

  /** The preference orders only what the platform alone pays for, on its own chain. */
  predicate HouseOrderingApplies(cat: Catalog, routable: seq<DeploymentId>, chainOrg: Option<Org>) {
    chainOrg.None? && forall id :: id in routable ==> id in cat.models && cat.models[id].hostManaged
  }

  function ModelChain(ix: Index, model: ModelRow): (seq<WaterfallRow>, Option<Org>) {
    var override := if model.owner.Some? then ix.Chain((model.id, model.owner)) else [];
    if override != [] then (override, model.owner) else (ix.Chain((model.id, None)), None)
  }

  function Routable(chain: seq<WaterfallRow>, ordered: seq<DeploymentId>): (r: seq<DeploymentId>)
    ensures forall id :: id in r ==> id in ordered
  {
    if chain == [] then []
    else
      var n := |chain| - 1;
      Routable(chain[..n], ordered)
      + if Canonical(chain[n].providerRow) in ordered then [Canonical(chain[n].providerRow)] else []
  }

  /** The served order of a model's certified chain. */
  function Serving(cat: Catalog, chain: seq<WaterfallRow>, chainOrg: Option<Org>, ordered: seq<DeploymentId>): seq<DeploymentId> {
    var routable := Routable(chain, ordered);
    if HouseOrderingApplies(cat, routable, chainOrg) then HouseOrdered(cat, routable) else routable
  }

  function DraftPlan(ix: Index, cat: Catalog, model: ModelRow, ordered: seq<DeploymentId>): (Catalog, Draft)
    requires ordered != []
  {
    var (chain, chainOrg) := ModelChain(ix, model);
    var serving := Serving(cat, chain, chainOrg, ordered);
    if |serving| >= 2 then
      var pool := Wf(model.id, chainOrg);
      (cat.(pools := cat.pools[pool := Pool(model.id, serving, chain)]), Draft(model, ToPool(pool), serving, Some(chain)))
    else
      var only := if serving != [] then serving[0] else ordered[0];
      (cat, Draft(model, ToDeployment(only), [only], None))
  }

  function AssembleModel(w: Worker, ix: Index, cat: Catalog, model: ModelRow): (Catalog, Option<Draft>) {
    var (next, ordered) := AddRows(w, ix, cat, model, ix.ProvidersOf(model.id));
    if ordered == [] then (next, None)
    else
      var (drafted, draft) := DraftPlan(ix, next, model, ordered);
      (drafted, Some(draft))
  }

  // The whole build ----------------------------------------------------------

  function AssembleModels(w: Worker, ix: Index, models: seq<ModelRow>): (Catalog, seq<Draft>) {
    if models == [] then (EMPTY, [])
    else
      var n := |models| - 1;
      var (before, drafts) := AssembleModels(w, ix, models[..n]);
      var (after, draft) := AssembleModel(w, ix, before, models[n]);
      (after, if draft.Some? then drafts + [draft.value] else drafts)
  }

  /** The connections a plan's deployments and their variants ride on, with the
      revision each is frozen at. */
  function Revisions(cat: Catalog, deployments: seq<DeploymentId>): set<(RowId, nat)> {
    (set d | d in deployments && d in cat.boundTo :: (cat.boundTo[d].id, cat.boundTo[d].revision))
    + (set d, org | d in deployments && org in cat.variants && d in cat.variants[org] && cat.variants[org][d] in cat.boundTo
       :: (cat.boundTo[cat.variants[org][d]].id, cat.boundTo[cat.variants[org][d]].revision))
  }

  /** A finalised alias plan. Its digest and revision id are functions of the build
      and of these fields. */
  datatype Plan = Plan(
    aliasId: RowId, name: nat, org: Option<Org>, target: Target, deployments: seq<DeploymentId>,
    revisions: set<(RowId, nat)>, certified: Option<seq<WaterfallRow>>)

  function FinalizePlan(cat: Catalog, draft: Draft): Plan {
    Plan(draft.model.id, draft.model.slug, draft.model.owner, draft.target, draft.deployments,
         Revisions(cat, draft.deployments), draft.certified)
  }

  function FinalizePlans(cat: Catalog, drafts: seq<Draft>): seq<Plan> {
    if drafts == [] then []
    else FinalizePlans(cat, drafts[..|drafts| - 1]) + [FinalizePlan(cat, drafts[|drafts| - 1])]
  }

  predicate PlanBefore(a: Plan, b: Plan) {
    a.aliasId <= b.aliasId
  }

  datatype Build = Build(catalog: Catalog, plans: seq<Plan>)

  /** An empty build serves nothing. */
  function BuildCatalog(w: Worker, rows: Rows): Build {
    var ix := IndexOf(rows);
    var (cat, drafts) := AssembleModels(w, ix, ix.models);
    if cat.models == map[] then Build(EMPTY, []) else Build(cat, Sort(FinalizePlans(cat, drafts), PlanBefore))
  }

  /** The build does not depend on the order the rows came in. */
  lemma BuildForgetsOrder(w: Worker, a: Rows, b: Rows)
    requires Keyed(a) && Reordered(a, b)
    ensures BuildCatalog(w, a) == BuildCatalog(w, b)
  {
    IndexForgetsOrder(a, b);
    hide IndexOf, AssembleModels, FinalizePlans, Sort, Keyed, Reordered;
  }

  // The house preference -----------------------------------------------------

  /** The deployments of one rank, in the order given. */
  function WithRank(cat: Catalog, ids: seq<DeploymentId>, rank: nat): (r: seq<DeploymentId>)
    ensures forall id :: id in r ==> RankOf(cat, id) == rank
  {
    if ids == [] then []
    else (if RankOf(cat, ids[0]) == rank then [ids[0]] else []) + WithRank(cat, ids[1..], rank)
  }

  lemma HouseIsPreorder(cat: Catalog)
    ensures Preorder(HouseBefore(cat))
  {
    hide RankOf;
  }

  lemma {:induction false} InsertKeepsRanks(cat: Catalog, id: DeploymentId, ids: seq<DeploymentId>, rank: nat)
    ensures WithRank(cat, Insert(id, ids, HouseBefore(cat)), rank)
            == (if RankOf(cat, id) == rank then [id] else []) + WithRank(cat, ids, rank)
  {
    hide RankOf;
    var out := Insert(id, ids, HouseBefore(cat));
    if ids != [] && !HouseBefore(cat)(id, ids[0]) {
      InsertKeepsRanks(cat, id, ids[1..], rank);
      assert out[1..] == Insert(id, ids[1..], HouseBefore(cat));
    } else {
      assert out[1..] == ids;
    }
  }

  lemma {:induction false} HouseKeepsRanks(cat: Catalog, ids: seq<DeploymentId>, rank: nat)
    ensures WithRank(cat, HouseOrdered(cat, ids), rank) == WithRank(cat, ids, rank)
  {
    if ids != [] {
      HouseKeepsRanks(cat, ids[1..], rank);
      InsertKeepsRanks(cat, ids[0], HouseOrdered(cat, ids[1..]), rank);
    }
  }

  /** The preference only reorders: the same deployments, by provider rank, and those
      of one rank in the operator's own order. */
  lemma HouseOrderIsPreference(cat: Catalog, ids: seq<DeploymentId>)
    ensures multiset(HouseOrdered(cat, ids)) == multiset(ids)
    ensures forall i, j :: 0 <= i < j < |HouseOrdered(cat, ids)| ==>
              RankOf(cat, HouseOrdered(cat, ids)[i]) <= RankOf(cat, HouseOrdered(cat, ids)[j])
    ensures forall rank :: WithRank(cat, HouseOrdered(cat, ids), rank) == WithRank(cat, ids, rank)
  {
    HouseIsPreorder(cat);
    SortKeepsAll(ids, HouseBefore(cat));
    SortSorts(ids, HouseBefore(cat));
    hide Sort, RankOf, WithRank;
    forall i, j | 0 <= i < j < |HouseOrdered(cat, ids)|
      ensures RankOf(cat, HouseOrdered(cat, ids)[i]) <= RankOf(cat, HouseOrdered(cat, ids)[j])
    {
      assert HouseBefore(cat)(HouseOrdered(cat, ids)[i], HouseOrdered(cat, ids)[j]);
    }
    forall rank ensures WithRank(cat, HouseOrdered(cat, ids), rank) == WithRank(cat, ids, rank) {
      HouseKeepsRanks(cat, ids, rank);
    }
  }

  /** A tenant's own chain, and any chain with a rung it pays for, is served in the
      order it was stored. */
  lemma TenantOrderStands(cat: Catalog, chain: seq<WaterfallRow>, chainOrg: Option<Org>, ordered: seq<DeploymentId>)
    ensures multiset(Serving(cat, chain, chainOrg, ordered)) == multiset(Routable(chain, ordered))
    ensures chainOrg.Some?
            || (exists id :: id in Routable(chain, ordered) && id in cat.models && !cat.models[id].hostManaged) ==>
              Serving(cat, chain, chainOrg, ordered) == Routable(chain, ordered)
  {
    SortKeepsAll(Routable(chain, ordered), HouseBefore(cat));
    hide Sort, Routable;
  }
}

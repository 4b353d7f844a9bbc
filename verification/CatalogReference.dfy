/** What a catalog build is to be, told from the platform rows alone: which rows are
    served and how, whose keys they read, which variants an organisation gets, and in
    what order a model's deployments are tried. The assembler's build is that one. */
module CatalogReference {
  import opened Prelude
  import opened Sorting
  import opened Grouping
  import opened CatalogRows
  import opened CatalogAssembly
  import opened CatalogClosed

  // Rows ---------------------------------------------------------------------

  ghost function ConnectionWith(rows: Rows, org: Org, provider: Provider): Option<ConnectionRow> {
    if exists c :: c in rows.connections && c.org == org && c.provider == provider then
      var c :| c in rows.connections && c.org == org && c.provider == provider;
      Some(c)
    else None
  }

  ghost function ConnectionNamed(rows: Rows, id: RowId): Option<ConnectionRow> {
    if exists c :: c in rows.connections && c.id == id then
      var c :| c in rows.connections && c.id == id;
      Some(c)
    else None
  }

  ghost function House(rows: Rows, provider: Provider): Option<ConnectionRow> {
    if rows.house.None? then None else ConnectionWith(rows, rows.house.value, provider)
  }

  ghost function RowNamed(rows: Rows, id: RowId): Option<ProviderRow> {
    if exists p :: p in rows.providers && p.id == id then
      var p :| p in rows.providers && p.id == id;
      Some(p)
    else None
  }

  // Connections --------------------------------------------------------------

  /** An organisation's own connection is usable: its secret releases, Azure knows its
      endpoint, and of the compatible hosts only Fireworks has an origin. */
  ghost predicate Usable(w: Worker, c: ConnectionRow) {
    && w.releasable(c.id)
    && (c.provider.AzureOpenAI? ==> c.azure.Some?)
    && !c.provider.Modal? && !c.provider.ExperientialCloud?
  }

  ghost function NonEmpty(url: Option<string>): bool {
    url.Some? && url.value != ""
  }

  /** Where a compatible row is served: its own origin, or Fireworks' public one. */
  ghost function OriginOf(p: ProviderRow): Option<string> {
    if NonEmpty(p.baseUrl) then p.baseUrl
    else if p.provider.Fireworks? then Some("https://api.fireworks.ai/inference/v1")
    else None
  }

  ghost function CloudOrigin(w: Worker, p: ProviderRow): Option<string> {
    if NonEmpty(p.baseUrl) then p.baseUrl else w.cloudUrl
  }

  ghost function TheirFamily(provider: Provider): Family {
    if provider.OpenAI? then OpenAIFamily
    else if provider.Anthropic? then AnthropicFamily
    else if provider.Gemini? then GeminiFamily
    else if provider.AzureOpenAI? then AzureFamily
    else if provider.OpenRouter? then OpenRouterFamily
    else if provider.Bedrock? then BedrockFamily
    else Compatible
  }

  /** The house's connection of a provider, if its secret releases. */
  ghost function ReleasableHouseOf(rows: Rows, w: Worker, provider: Provider): Option<ConnectionRow> {
    if House(rows, provider).Some? && w.releasable(House(rows, provider).value.id) then House(rows, provider) else None
  }

  /** The key a self-hosted or Fireworks row reads: the house's, else the worker's. */
  ghost function HostKey(rows: Rows, w: Worker, provider: Provider): Option<EnvName> {
    if ReleasableHouseOf(rows, w, provider).Some? then Some(VaultKey(ReleasableHouseOf(rows, w, provider).value.id))
    else if provider in w.keys then Some(PlatformKey(provider))
    else None
  }

  /** The one configuration a connection name can have. */
  ghost function ConfigOf(rows: Rows, w: Worker, name: ConnectionName): Option<ConnectionConfig> {
    match name
    case Conn(id) =>
      var c := ConnectionNamed(rows, id);
      if c.None? || !Usable(w, c.value) then None
      else if c.value.provider.AzureOpenAI? then
        var azure := c.value.azure.value;
        Some(ConnectionConfig(AzureFamily, Some(azure.endpoint), if NonEmpty(azure.apiVersion) then azure.apiVersion else Some("v1"),
                              Some(VaultKey(id)), None))
      else if c.value.provider.Fireworks? then
        Some(ConnectionConfig(Compatible, Some("https://api.fireworks.ai/inference/v1"), None, Some(VaultKey(id)), None))
      else Some(ConnectionConfig(TheirFamily(c.value.provider), None, None, Some(VaultKey(id)), None))
    case Platform(provider) =>
      Some(ConnectionConfig(TheirFamily(provider), None, None, Some(PlatformKey(provider)), None))
    case PlatformBedrock(region) =>
      Some(ConnectionConfig(BedrockFamily, None, None, None, region))
    case LocalRow(row) =>
      var p := RowNamed(rows, row);
      if p.None? then None
      else Some(ConnectionConfig(Compatible, p.value.baseUrl, None, Some(LocalPlaceholder(row)), None))
    case OwnKey(row) =>
      var p := RowNamed(rows, row);
      if p.None? then None
      else if p.value.provider.AzureOpenAI? then
        Some(ConnectionConfig(AzureFamily,
                              if NonEmpty(p.value.baseUrl) then p.value.baseUrl else Some("https://byok-placeholder.openai.azure.com/"),
                              Some("v1"), Some(OwnKeyPlaceholder(row)), None))
      else if p.value.provider.Fireworks? then
        Some(ConnectionConfig(Compatible, OriginOf(p.value), None, Some(OwnKeyPlaceholder(row)), None))
      else Some(ConnectionConfig(TheirFamily(p.value.provider), None, None, Some(OwnKeyPlaceholder(row)), None))
    case Host(row) =>
      var p := RowNamed(rows, row);
      if p.None? then None
      else if p.value.provider.ExperientialCloud? then
        Some(ConnectionConfig(Compatible, CloudOrigin(w, p.value), None,
                              Some(if w.cloudKey then PlatformKey(ExperientialCloud) else CloudPlaceholder(row)), None))
      else Some(ConnectionConfig(Compatible, OriginOf(p.value), None, HostKey(rows, w, p.value.provider), None))
  }

  ghost function KindOf(env: EnvName): RefKind {
    match env
    case PlatformKey(_) => FromPlatform
    case VaultKey(connection) => FromVault(connection)
    case _ => Placeholder
  }

  // Deployments --------------------------------------------------------------

  /** How a row is served: over which connection, under which name, at whose cost, and
      whether every caller must bring a key. */
  datatype Served = Served(name: ConnectionName, wire: string, hostManaged: bool, bound: Option<ConnectionRow>, ownKey: bool)

  ghost predicate TakesOwnKeys(provider: Provider) {
    provider in {OpenAI, Anthropic, Gemini, OpenRouter, AzureOpenAI, Fireworks}
  }

  ghost function Spelling(p: ProviderRow, c: ConnectionRow): Option<string> {
    if !c.provider.AzureOpenAI? then Some(p.wireModel)
    else if c.azure.Some? && p.wireModel in c.azure.value.deployments then Some(c.azure.value.deployments[p.wireModel])
    else None
  }

  /** Served over an organisation's own connection. */
  ghost function OverOwn(w: Worker, p: ProviderRow, c: ConnectionRow): Option<Served> {
    if TakesOwnKeys(c.provider) && Usable(w, c) && Spelling(p, c).Some?
    then Some(Served(Conn(c.id), Spelling(p, c).value, false, Some(c), false)) else None
  }

  ghost function Owner(m: ModelRow, p: ProviderRow): Option<Org> {
    if p.owner.Some? then p.owner else m.owner
  }

  /** Platform-funded: Bedrock needs nothing, the cloud and the other hosts an origin
      and a key, Azure the house's connection, and the rest that or the worker's key. */
  ghost function ByPlatform(rows: Rows, w: Worker, p: ProviderRow): Option<Served> {
    var house := House(rows, p.provider);
    match p.provider
    case Bedrock => Some(Served(PlatformBedrock(p.region), p.wireModel, true, None, false))
    case ExperientialCloud =>
      if CloudOrigin(w, p).Some? && w.acceptable(CloudOrigin(w, p).value)
      then Some(Served(Host(p.id), p.wireModel, true, None, false)) else None
    case AzureOpenAI =>
      if house.Some? && Usable(w, house.value) && Spelling(p, house.value).Some?
      then Some(Served(Conn(house.value.id), Spelling(p, house.value).value, true, house, false)) else None
    case _ =>
      if p.provider.Fireworks? || p.provider.Modal? then
        if OriginOf(p).Some? && HostKey(rows, w, p.provider).Some?
        then Some(Served(Host(p.id), p.wireModel, true, ReleasableHouseOf(rows, w, p.provider), false)) else None
      else if house.Some? && Usable(w, house.value) then Some(Served(Conn(house.value.id), p.wireModel, true, house, false))
      else if p.provider in {OpenAI, Anthropic, Gemini} && p.provider in w.keys
      then Some(Served(Platform(p.provider), p.wireModel, true, None, false))
      else None
  }

  /** Whether and how a model's provider row is served. */
  ghost function ServedAs(rows: Rows, w: Worker, m: ModelRow, p: ProviderRow): Option<Served> {
    if p.disabled || p.provider.Other? then None
    else if p.baseUrl.Some? && p.provider !in {Fireworks, Modal, ExperientialCloud, Local} then None
    else if m.owner.None? && p.owner.Some? then None
    else if p.pinned.Some? then
      var c := ConnectionNamed(rows, p.pinned.value);
      if c.Some? && Owner(m, p) == Some(c.value.org) && c.value.provider == p.provider then OverOwn(w, p, c.value) else None
    else if p.provider.Local? then
      if Owner(m, p).Some? && p.baseUrl.Some? && w.acceptable(p.baseUrl.value)
      then Some(Served(LocalRow(p.id), p.wireModel, false, None, false)) else None
    else if p.hostManaged then ByPlatform(rows, w, p)
    else if Owner(m, p).Some? then
      var c := ConnectionWith(rows, Owner(m, p).value, p.provider);
      if c.Some? then OverOwn(w, p, c.value) else None
    else if TakesOwnKeys(p.provider) then Some(Served(OwnKey(p.id), p.wireModel, false, None, true))
    else None
  }

  /** Whether an organisation's connection gives it a lane of its own: platform-funded
      and bring-your-own-key rows only; for an owned model its owner's connections,
      for a public one everybody's but the house's. */
  ghost predicate GivesVariant(rows: Rows, w: Worker, m: ModelRow, p: ProviderRow, c: ConnectionRow) {
    var s := ServedAs(rows, w, m, p);
    && s.Some? && (s.value.hostManaged || s.value.ownKey)
    && c in rows.connections && c.provider == p.provider
    && (if m.owner.Some? then m.owner == Some(c.org) else rows.house != Some(c.org))
    && OverOwn(w, p, c).Some?
  }

  // What the indexes read ------------------------------------------------------

  lemma IndexReads(rows: Rows)
    requires Keyed(rows)
    ensures forall id: RowId :: IndexOf(rows).Connection(id) == ConnectionNamed(rows, id)
    ensures forall org: Org, provider :: IndexOf(rows).ConnectionFor(org, provider) == ConnectionWith(rows, org, provider)
    ensures forall provider :: IndexOf(rows).HouseConnection(provider) == House(rows, provider)
  {
    LastByHolds(rows.connections, ConnectionId);
    LastByHolds(rows.connections, OrgProvider);
    IndexTables(rows);
    hide Sort, LastBy, GroupMap, Having, KeysOf, IndexOf;
    forall id: RowId ensures IndexOf(rows).Connection(id) == ConnectionNamed(rows, id) {
      var c := ConnectionNamed(rows, id);
      assert c.Some? ==> ConnectionId(c.value) == id;
    }
    forall org: Org, provider ensures IndexOf(rows).ConnectionFor(org, provider) == ConnectionWith(rows, org, provider) {
      var c := ConnectionWith(rows, org, provider);
      assert c.Some? ==> OrgProvider(c.value) == (org, provider);
      var found := IndexOf(rows).ConnectionFor(org, provider);
      assert found.Some? ==> OrgProvider(found.value) == (org, provider) && found.value in rows.connections;
    }
  }

  lemma IndexTables(rows: Rows)
    ensures IndexOf(rows).connectionById == LastBy(rows.connections, ConnectionId)
    ensures IndexOf(rows).connectionsByOrgProvider == LastBy(rows.connections, OrgProvider)
    ensures IndexOf(rows).house == rows.house
  {
    hide Sort, LastBy, GroupMap, Having, KeysOf;
  }

  lemma ConnectionsRead(rows: Rows, provider: Provider, c: ConnectionRow)
    ensures c in IndexOf(rows).ConnectionsOf(provider) <==> c in rows.connections && c.provider == provider
  {
    GroupRead(rows.connections, ConnectionBefore, ProviderOf, provider, c);
    hide Sort, LastBy, Having, KeysOf;
  }

  lemma ProvidersRead(rows: Rows, m: RowId, p: ProviderRow)
    ensures p in IndexOf(rows).ProvidersOf(m) <==> p in rows.providers && p.modelId == m
  {
    GroupRead(rows.providers, ProviderBefore, ModelOf, m, p);
    hide Sort, LastBy, Having, KeysOf;
  }

  lemma GroupRead<T(!new), K>(s: seq<T>, leq: (T, T) -> bool, key: T -> K, k: K, x: T)
    ensures var groups := GroupMap(Sort(s, leq), key);
            (k in groups && x in groups[k]) <==> x in s && key(x) == k
  {
    SortKeepsAll(s, leq);
    var sorted := Sort(s, leq);
    if x in s && key(x) == k {
      var i :| 0 <= i < |sorted| && sorted[i] == x;
      assert key(sorted[i]) in KeysOf(sorted, key);
    }
    hide Sort;
  }

  /** A model's chain of an organisation: exactly its rungs, by position. */
  ghost predicate IsChain(rows: Rows, model: RowId, org: Option<Org>, chain: seq<WaterfallRow>) {
    && (forall r :: r in chain <==> r in rows.waterfalls && r.modelId == model && r.org == org)
    && (forall i, j :: 0 <= i < j < |chain| ==> chain[i].position <= chain[j].position)
    && (NoDuplicates(rows.waterfalls) ==> NoDuplicates(chain))
  }

  lemma ChainRead(rows: Rows, model: RowId, org: Option<Org>)
    ensures IsChain(rows, model, org, IndexOf(rows).Chain((model, org)))
  {
    var k: ChainKey := (model, org);
    ChainTable(rows, k);
    hide IndexOf, Index.Chain, Sort, Having, KeysOf;
    if k in KeysOf(rows.waterfalls, ChainOf) {
      SortedRungs(rows, model, org);
    } else {
      NoRungs(rows, model, org);
    }
  }

  lemma ChainTable(rows: Rows, k: ChainKey)
    ensures IndexOf(rows).Chain(k)
         == if k in KeysOf(rows.waterfalls, ChainOf) then Sort(Having(rows.waterfalls, ChainOf, k), RungBefore) else []
  {
    hide Sort, Having, LastBy, GroupMap, KeysOf;
  }

  lemma SortedRungs(rows: Rows, model: RowId, org: Option<Org>)
    ensures IsChain(rows, model, org, Sort(Having(rows.waterfalls, ChainOf, (model, org)), RungBefore))
  {
    var mine := Having(rows.waterfalls, ChainOf, (model, org));
    var chain := Sort(mine, RungBefore);
    hide Sort, Having, NoDuplicates, Ordered, Preorder;
    Orders();
    SortSorts(mine, RungBefore);
    SortKeepsAll(mine, RungBefore);
    if NoDuplicates(mine) {
      SameMultisetOnce(mine, chain);
    }
    OrderedRungs(chain);
  }

  lemma OrderedRungs(chain: seq<WaterfallRow>)
    requires Ordered(chain, RungBefore)
    ensures forall i, j :: 0 <= i < j < |chain| ==> chain[i].position <= chain[j].position
  {
    assert forall i, j :: 0 <= i < j < |chain| ==> RungBefore(chain[i], chain[j]);
  }

  lemma NoRungs(rows: Rows, model: RowId, org: Option<Org>)
    requires (model, org) !in KeysOf(rows.waterfalls, ChainOf)
    ensures IsChain(rows, model, org, [])
  {
    forall r | r in rows.waterfalls ensures ChainOf(r) != (model, org) {
      var i :| 0 <= i < |rows.waterfalls| && rows.waterfalls[i] == r;
    }
  }

  // Connections are registered as the rows say -----------------------------------

  ghost predicate Configured(rows: Rows, w: Worker, cat: Catalog) {
    && (forall name :: name in cat.connections ==> ConfigOf(rows, w, name) == Some(cat.connections[name]))
    && (forall env :: env in cat.refs ==> cat.refs[env] == CredentialRef(env, KindOf(env)))
  }

  /** Only connections and their references were written, and all as they should be. */
  ghost predicate Registers(rows: Rows, w: Worker, cat: Catalog, next: Catalog) {
    && next == cat.(connections := next.connections, refs := next.refs) && Configured(rows, w, next)
    && cat.connections.Keys <= next.connections.Keys
  }

  lemma PutRegisters(rows: Rows, w: Worker, cat: Catalog, name: ConnectionName, config: ConnectionConfig, kind: RefKind)
    requires Configured(rows, w, cat) && ConfigOf(rows, w, name) == Some(config)
    requires config.keyEnv.Some? ==> kind == KindOf(config.keyEnv.value)
    ensures Registers(rows, w, cat, PutConnection(cat, name, config, kind))
    ensures name in PutConnection(cat, name, config, kind).connections
  {
    hide ConfigOf;
  }

  lemma NamedIs(rows: Rows, c: ConnectionRow)
    requires Keyed(rows) && c in rows.connections
    ensures ConnectionNamed(rows, c.id) == Some(c)
  {
  }

  lemma RowNamedIs(rows: Rows, p: ProviderRow)
    requires Keyed(rows) && p in rows.providers
    ensures RowNamed(rows, p.id) == Some(p)
  {
  }

  lemma ByokConfigIs(rows: Rows, w: Worker, c: ConnectionRow)
    requires Keyed(rows) && c in rows.connections
    ensures Usable(w, c) <==> w.releasable(c.id) && ByokConfig(c).Some?
    ensures Usable(w, c) ==> ConfigOf(rows, w, Conn(c.id)) == ByokConfig(c)
    ensures ByokConfig(c).Some? ==> ByokConfig(c).value.keyEnv == Some(VaultKey(c.id))
    ensures !Usable(w, c) ==> ConfigOf(rows, w, Conn(c.id)).None?
  {
    NamedIs(rows, c);
    hide ConnectionNamed, Keyed;
  }

  lemma ByokRegisters(rows: Rows, w: Worker, cat: Catalog, c: ConnectionRow)
    requires Keyed(rows) && Configured(rows, w, cat) && c in rows.connections
    ensures var (next, name) := RegisterByok(w, cat, c);
            && Registers(rows, w, cat, next)
            && name == (if Usable(w, c) then Some(Conn(c.id)) else None)
            && (name.Some? ==> name.value in next.connections)
  {
    ByokConfigIs(rows, w, c);
    hide ByokConfig, Usable, ConfigOf, Keyed;
    if Conn(c.id) in cat.connections {
      assert ConfigOf(rows, w, Conn(c.id)).Some?;
    } else if Usable(w, c) {
      PutRegisters(rows, w, cat, Conn(c.id), ByokConfig(c).value, FromVault(c.id));
    }
  }

  lemma PlatformRegisters(rows: Rows, w: Worker, cat: Catalog, provider: Provider)
    requires Configured(rows, w, cat) && provider in {OpenAI, Anthropic, Gemini, OpenRouter}
    ensures var (next, name) := RegisterPlatform(w, cat, provider);
            && Registers(rows, w, cat, next)
            && name == (if provider in {OpenAI, Anthropic, Gemini} && provider in w.keys then Some(Platform(provider)) else None)
            && (name.Some? ==> name.value in next.connections)
  {
    var config := ConnectionConfig(FamilyOf(provider), None, None, Some(PlatformKey(provider)), None);
    assert ConfigOf(rows, w, Platform(provider)) == Some(config);
    hide ConfigOf, Configured;
    if provider in PLATFORM_KEYED && provider in w.keys && Platform(provider) !in cat.connections {
      PutRegisters(rows, w, cat, Platform(provider), config, FromPlatform);
    } else {
      StillConfigured(rows, w, cat);
    }
  }

  lemma StillConfigured(rows: Rows, w: Worker, cat: Catalog)
    requires Configured(rows, w, cat)
    ensures Registers(rows, w, cat, cat)
  {
  }

  lemma RegistersTwice(rows: Rows, w: Worker, cat: Catalog, middle: Catalog, next: Catalog)
    requires Registers(rows, w, cat, middle) && Registers(rows, w, middle, next)
    ensures Registers(rows, w, cat, next)
  {
    hide Configured;
  }

  // Lanes --------------------------------------------------------------------

  ghost predicate LaneIs(next: Catalog, lane: Option<Lane>, s: Option<Served>) {
    && (lane.Some? <==> s.Some?)
    && (lane.Some? ==> lane.value.name == s.value.name && lane.value.wireModel == s.value.wire && lane.value.house == s.value.bound
                       && s.value.name in next.connections && s.value.hostManaged && !s.value.ownKey)
  }

  lemma WireIs(p: ProviderRow, c: ConnectionRow)
    ensures WireModel(p, c) == Spelling(p, c)
  {
  }

  lemma HouseIsRow(rows: Rows, provider: Provider)
    ensures House(rows, provider).Some? ==> House(rows, provider).value in rows.connections && House(rows, provider).value.provider == provider
  {
  }

  lemma FixedIs(rows: Rows, w: Worker, p: ProviderRow)
    requires p.provider in {OpenAI, Anthropic, Gemini, OpenRouter}
    ensures var house := House(rows, p.provider);
            ByPlatform(rows, w, p) ==
              if house.Some? && Usable(w, house.value) then Some(Served(Conn(house.value.id), p.wireModel, true, house, false))
              else if p.provider in {OpenAI, Anthropic, Gemini} && p.provider in w.keys
              then Some(Served(Platform(p.provider), p.wireModel, true, None, false))
              else None
  {
    hide Usable, House;
  }

  lemma FixedLaneIs(rows: Rows, w: Worker, cat: Catalog, p: ProviderRow)
    requires Keyed(rows) && Configured(rows, w, cat) && p.provider in {OpenAI, Anthropic, Gemini, OpenRouter}
    ensures var (next, lane) := FixedOriginLane(w, IndexOf(rows), cat, p);
            Registers(rows, w, cat, next) && LaneIs(next, lane, ByPlatform(rows, w, p))
  {
    IndexReads(rows);
    HouseIsRow(rows, p.provider);
    FixedIs(rows, w, p);
    StillConfigured(rows, w, cat);
    hide IndexOf, Index.HouseConnection, House, RegisterByok, RegisterPlatform, Keyed, Configured, ByPlatform, Registers, Usable;
    var house := House(rows, p.provider);
    if house.Some? {
      ByokRegisters(rows, w, cat, house.value);
    }
    if house.None? || !Usable(w, house.value) {
      var first := if house.Some? then RegisterByok(w, cat, house.value).0 else cat;
      RegistersKeeps(rows, w, cat, first);
      PlatformRegisters(rows, w, first, p.provider);
      RegistersTwice(rows, w, cat, first, RegisterPlatform(w, first, p.provider).0);
    }
  }

  lemma RegistersKeeps(rows: Rows, w: Worker, cat: Catalog, next: Catalog)
    requires Registers(rows, w, cat, next)
    ensures Configured(rows, w, next)
  {
  }

  lemma AzureLaneIs(rows: Rows, w: Worker, cat: Catalog, p: ProviderRow)
    requires Keyed(rows) && Configured(rows, w, cat) && p.provider.AzureOpenAI?
    ensures var (next, lane) := AzureLane(w, IndexOf(rows), cat, p);
            Registers(rows, w, cat, next) && LaneIs(next, lane, ByPlatform(rows, w, p))
  {
    IndexReads(rows);
    HouseIsRow(rows, p.provider);
    StillConfigured(rows, w, cat);
    hide IndexOf, Index.HouseConnection, House, RegisterByok, Keyed, Configured;
    var house := House(rows, p.provider);
    if house.Some? {
      ByokRegisters(rows, w, cat, house.value);
      WireIs(p, house.value);
    }
    hide WireModel, Usable, Spelling;
  }

  lemma CloudLaneIs(rows: Rows, w: Worker, cat: Catalog, p: ProviderRow)
    requires Keyed(rows) && Configured(rows, w, cat) && p in rows.providers && p.provider.ExperientialCloud?
    ensures var (next, lane) := CloudLane(w, cat, p);
            Registers(rows, w, cat, next) && LaneIs(next, lane, ByPlatform(rows, w, p))
  {
    RowNamedIs(rows, p);
    StillConfigured(rows, w, cat);
    hide RowNamed, Keyed, House;
    var url := Or(p.baseUrl, w.cloudUrl);
    var (key, kind) := if w.cloudKey then (PlatformKey(ExperientialCloud), FromPlatform) else (CloudPlaceholder(p.id), Placeholder);
    assert url == CloudOrigin(w, p);
    assert ConfigOf(rows, w, Host(p.id)) == Some(ConnectionConfig(Compatible, url, None, Some(key), None));
    hide Configured, ConfigOf;
    PutRegisters(rows, w, cat, Host(p.id), ConnectionConfig(Compatible, url, None, Some(key), None), kind);
  }

  lemma CompatibleLaneIs(rows: Rows, w: Worker, cat: Catalog, p: ProviderRow)
    requires Keyed(rows) && Configured(rows, w, cat) && p in rows.providers && (p.provider.Fireworks? || p.provider.Modal?)
    ensures var (next, lane) := CompatibleLane(w, IndexOf(rows), cat, p);
            Registers(rows, w, cat, next) && LaneIs(next, lane, ByPlatform(rows, w, p))
  {
    RowNamedIs(rows, p);
    IndexReads(rows);
    StillConfigured(rows, w, cat);
    hide RowNamed, Keyed, House, IndexOf, Index.HouseConnection;
    var url := Or(p.baseUrl, DefaultUrl(p.provider));
    var house := ReleasableHouse(w, IndexOf(rows), p.provider);
    assert url == OriginOf(p) && house == ReleasableHouseOf(rows, w, p.provider);
    var key := CompatibleKey(w, p.provider, house);
    assert (key.Some? <==> HostKey(rows, w, p.provider).Some?)
           && (key.Some? ==> key.value.0 == HostKey(rows, w, p.provider).value && key.value.1 == KindOf(key.value.0));
    if url.Some? && key.Some? {
      var config := ConnectionConfig(Compatible, url, None, Some(key.value.0), None);
      assert ConfigOf(rows, w, Host(p.id)) == Some(config);
      hide Configured, ConfigOf;
      PutRegisters(rows, w, cat, Host(p.id), config, key.value.1);
    }
    hide Configured, ConfigOf, HostKey, CompatibleKey, ReleasableHouse, ReleasableHouseOf, OriginOf;
  }

  lemma BedrockLaneIs(rows: Rows, w: Worker, cat: Catalog, p: ProviderRow)
    requires Configured(rows, w, cat) && p.provider.Bedrock?
    ensures var (next, name) := RegisterBedrock(cat, p.region);
            Registers(rows, w, cat, next) && LaneIs(next, Some(Lane(name, p.wireModel, None)), ByPlatform(rows, w, p))
  {
    StillConfigured(rows, w, cat);
    var config := ConnectionConfig(BedrockFamily, None, None, None, p.region);
    assert ConfigOf(rows, w, PlatformBedrock(p.region)) == Some(config);
    hide Configured, ConfigOf;
    PutRegisters(rows, w, cat, PlatformBedrock(p.region), config, Placeholder);
  }

  lemma HostLaneIs(rows: Rows, w: Worker, cat: Catalog, p: ProviderRow)
    requires Keyed(rows) && Configured(rows, w, cat) && p in rows.providers && !p.provider.Other? && !p.provider.Local?
    ensures var (next, lane) := HostLane(w, IndexOf(rows), cat, p);
            Registers(rows, w, cat, next) && LaneIs(next, lane, ByPlatform(rows, w, p))
  {
    hide IndexOf, ByPlatform, LaneIs, Registers, Keyed, Configured, CloudLane, AzureLane, FixedOriginLane, RegisterBedrock;
    match p.provider {
      case Bedrock => BedrockLaneIs(rows, w, cat, p);
      case ExperientialCloud => CloudLaneIs(rows, w, cat, p);
      case Fireworks => CompatibleLaneIs(rows, w, cat, p);
      case Modal => CompatibleLaneIs(rows, w, cat, p);
      case AzureOpenAI => AzureLaneIs(rows, w, cat, p);
      case _ => FixedLaneIs(rows, w, cat, p);
    }
  }

  // Deployments are registered as the rows say ------------------------------------

  ghost function RecordOf(m: ModelRow, p: ProviderRow, s: Served): Record {
    Record(s.name, s.wire, s.hostManaged, m.id, m.parameters, p)
  }

  /** Only connections and this deployment were written. */
  ghost predicate Deploys(rows: Rows, w: Worker, cat: Catalog, next: Catalog, m: ModelRow, p: ProviderRow,
                          id: DeploymentId, s: Option<Served>)
  {
    && Configured(rows, w, next) && next.pools == cat.pools && next.variants == cat.variants && next.providers == cat.providers
    && cat.connections.Keys <= next.connections.Keys
    && if s.None? then
         next.models == cat.models && next.boundTo == cat.boundTo && next.ownKeyRequired == cat.ownKeyRequired
       else
         && next.models == cat.models[id := RecordOf(m, p, s.value)] && s.value.name in next.connections
         && next.boundTo == (if s.value.bound.Some? then cat.boundTo[id := s.value.bound.value] else cat.boundTo)
         && next.ownKeyRequired == cat.ownKeyRequired + if s.value.ownKey then {id} else {}
  }

  lemma RecordDeploys(rows: Rows, w: Worker, cat: Catalog, mid: Catalog, m: ModelRow, p: ProviderRow, id: DeploymentId, s: Served)
    requires Registers(rows, w, cat, mid) && s.name in mid.connections
    ensures var added := AddRecord(mid, id, s.name, s.wire, s.hostManaged, m, p, s.bound);
            Deploys(rows, w, cat, if s.ownKey then added.(ownKeyRequired := added.ownKeyRequired + {id}) else added, m, p, id, Some(s))
  {
    hide ConfigOf;
  }

  lemma NoneDeploys(rows: Rows, w: Worker, cat: Catalog, mid: Catalog, m: ModelRow, p: ProviderRow, id: DeploymentId)
    requires Registers(rows, w, cat, mid)
    ensures Deploys(rows, w, cat, mid, m, p, id, None)
  {
    hide Configured;
  }

  lemma ByokDeploys(rows: Rows, w: Worker, cat: Catalog, m: ModelRow, p: ProviderRow, c: ConnectionRow, id: DeploymentId)
    requires Keyed(rows) && Configured(rows, w, cat) && c in rows.connections
    ensures var (next, made) := ByokDeployment(w, cat, m, p, c, id);
            && Deploys(rows, w, cat, next, m, p, id, OverOwn(w, p, c))
            && made == (if OverOwn(w, p, c).Some? then Some(id) else None)
  {
    ByokRegisters(rows, w, cat, c);
    WireIs(p, c);
    RoutableIs(c.provider);
    StillConfigured(rows, w, cat);
    NoneDeploys(rows, w, cat, cat, m, p, id);
    hide RegisterByok, Usable, WireModel, Spelling, Keyed, Configured, TakesOwnKeys, BYOK_ROUTABLE, Deploys, AddRecord, Registers;
    var (next, name) := RegisterByok(w, cat, c);
    NoneDeploys(rows, w, cat, next, m, p, id);
    if OverOwn(w, p, c).Some? {
      RecordDeploys(rows, w, cat, next, m, p, id, OverOwn(w, p, c).value);
    }
  }

  lemma RoutableIs(provider: Provider)
    ensures provider in BYOK_ROUTABLE <==> TakesOwnKeys(provider)
  {
  }

  lemma OwnConfigIs(rows: Rows, w: Worker, p: ProviderRow)
    requires Keyed(rows) && p in rows.providers && TakesOwnKeys(p.provider)
    ensures OwnKeyConfig(p).Some? && ConfigOf(rows, w, OwnKey(p.id)) == OwnKeyConfig(p)
    ensures OwnKeyConfig(p).value.keyEnv == Some(OwnKeyPlaceholder(p.id))
  {
    RowNamedIs(rows, p);
    hide RowNamed, Keyed;
  }

  lemma PublicDeploys(rows: Rows, w: Worker, cat: Catalog, m: ModelRow, p: ProviderRow)
    requires Keyed(rows) && Configured(rows, w, cat) && p in rows.providers
    ensures var (next, made) := PublicByokCanonical(cat, m, p);
            var s := if TakesOwnKeys(p.provider) then Some(Served(OwnKey(p.id), p.wireModel, false, None, true)) else None;
            && Deploys(rows, w, cat, next, m, p, Canonical(p.id), s)
            && made == (if s.Some? then Some(Canonical(p.id)) else None)
  {
    RoutableIs(p.provider);
    StillConfigured(rows, w, cat);
    NoneDeploys(rows, w, cat, cat, m, p, Canonical(p.id));
    if TakesOwnKeys(p.provider) {
      OwnKeyRegisters(rows, w, cat, p);
      hide Keyed, Configured, TakesOwnKeys, BYOK_ROUTABLE, Deploys, AddRecord, Registers, RegisterOwnKey;
      var (next, name) := RegisterOwnKey(cat, p);
      RecordDeploys(rows, w, cat, next, m, p, Canonical(p.id), Served(OwnKey(p.id), p.wireModel, false, None, true));
    }
    hide Deploys, AddRecord, RegisterOwnKey;
  }

  lemma OwnKeyRegisters(rows: Rows, w: Worker, cat: Catalog, p: ProviderRow)
    requires Keyed(rows) && Configured(rows, w, cat) && p in rows.providers && TakesOwnKeys(p.provider)
    ensures var (next, name) := RegisterOwnKey(cat, p);
            Registers(rows, w, cat, next) && name == Some(OwnKey(p.id)) && OwnKey(p.id) in next.connections
  {
    OwnConfigIs(rows, w, p);
    hide ConfigOf, Keyed, OwnKeyConfig, Configured;
    StillConfigured(rows, w, cat);
    PutRegisters(rows, w, cat, OwnKey(p.id), OwnKeyConfig(p).value, Placeholder);
  }

  lemma LocalDeploys(rows: Rows, w: Worker, cat: Catalog, m: ModelRow, p: ProviderRow)
    requires Keyed(rows) && Configured(rows, w, cat) && p in rows.providers
    ensures var (next, made) := LocalDeployment(w, cat, m, p);
            var s := if Owner(m, p).Some? && p.baseUrl.Some? && w.acceptable(p.baseUrl.value)
                     then Some(Served(LocalRow(p.id), p.wireModel, false, None, false)) else None;
            && Deploys(rows, w, cat, next, m, p, Canonical(p.id), s)
            && made == (if s.Some? then Some(Canonical(p.id)) else None)
  {
    RowNamedIs(rows, p);
    var config := ConnectionConfig(Compatible, p.baseUrl, None, Some(LocalPlaceholder(p.id)), None);
    assert ConfigOf(rows, w, LocalRow(p.id)) == Some(config);
    hide ConfigOf, Keyed, RowNamed, Configured, Deploys, AddRecord, Registers, PutConnection;
    PutRegisters(rows, w, cat, LocalRow(p.id), config, Placeholder);
    StillConfigured(rows, w, cat);
    NoneDeploys(rows, w, cat, cat, m, p, Canonical(p.id));
    RecordDeploys(rows, w, cat, PutConnection(cat, LocalRow(p.id), config, Placeholder), m, p, Canonical(p.id),
                  Served(LocalRow(p.id), p.wireModel, false, None, false));
  }

  lemma HostDeploys(rows: Rows, w: Worker, cat: Catalog, m: ModelRow, p: ProviderRow)
    requires Keyed(rows) && Configured(rows, w, cat) && p in rows.providers && !p.provider.Other? && !p.provider.Local?
    ensures var (next, made) := HostDeployment(w, IndexOf(rows), cat, m, p);
            && Deploys(rows, w, cat, next, m, p, Canonical(p.id), ByPlatform(rows, w, p))
            && made == (if ByPlatform(rows, w, p).Some? then Some(Canonical(p.id)) else None)
  {
    HostLaneIs(rows, w, cat, p);
    hide HostLane, ByPlatform, IndexOf, Keyed, Configured, Deploys, AddRecord, Registers;
    var (next, lane) := HostLane(w, IndexOf(rows), cat, p);
    NoneDeploys(rows, w, cat, next, m, p, Canonical(p.id));
    if lane.Some? {
      RecordDeploys(rows, w, cat, next, m, p, Canonical(p.id), ByPlatform(rows, w, p).value);
    }
  }

  lemma AdmissibleIs(m: ModelRow, p: ProviderRow)
    ensures Admissible(m, p) <==>
      && !p.provider.Other?
      && !(p.baseUrl.Some? && p.provider !in {Fireworks, Modal, ExperientialCloud, Local})
      && !(m.owner.None? && p.owner.Some?)
  {
  }

  lemma CanonicalDeploys(rows: Rows, w: Worker, cat: Catalog, m: ModelRow, p: ProviderRow)
    requires Keyed(rows) && Configured(rows, w, cat) && RowOf(rows, m, p) && !p.disabled
    ensures var (next, made) := CanonicalDeployment(w, IndexOf(rows), cat, m, p);
            && Deploys(rows, w, cat, next, m, p, Canonical(p.id), ServedAs(rows, w, m, p))
            && made == (if ServedAs(rows, w, m, p).Some? then Some(Canonical(p.id)) else None)
  {
    AdmissibleIs(m, p);
    IndexReads(rows);
    hide Admissible, IndexOf, Index.Connection, Index.ConnectionFor, Keyed, Configured, ByPlatform, OverOwn, Deploys,
      ByokDeployment, HostDeployment, LocalDeployment, PublicByokCanonical, TakesOwnKeys;
    NothingDeploys(rows, w, cat, m, p);
    ConnectionsAreRows(rows);
    if Admissible(m, p) {
      if p.pinned.Some? {
        var c := ConnectionNamed(rows, p.pinned.value);
        if c.Some? {
          ByokDeploys(rows, w, cat, m, p, c.value, Canonical(p.id));
        }
      } else if p.provider.Local? {
        LocalDeploys(rows, w, cat, m, p);
      } else if p.hostManaged {
        HostDeploys(rows, w, cat, m, p);
      } else if Owner(m, p).None? {
        PublicDeploys(rows, w, cat, m, p);
      } else {
        var c := ConnectionWith(rows, Owner(m, p).value, p.provider);
        if c.Some? {
          ByokDeploys(rows, w, cat, m, p, c.value, Canonical(p.id));
          OwnTakes(w, p, c.value);
        }
      }
    }
  }

  /** A row served over its owner's connection is of a provider that takes own keys. */
  lemma OwnTakes(w: Worker, p: ProviderRow, c: ConnectionRow)
    ensures p.provider == c.provider && p.provider !in BYOK_ROUTABLE ==> OverOwn(w, p, c).None?
  {
  }

  lemma NothingDeploys(rows: Rows, w: Worker, cat: Catalog, m: ModelRow, p: ProviderRow)
    requires Configured(rows, w, cat)
    ensures Deploys(rows, w, cat, cat, m, p, Canonical(p.id), None)
  {
    hide Configured;
  }

  lemma ConnectionsAreRows(rows: Rows)
    ensures forall id: RowId :: ConnectionNamed(rows, id).Some? ==> ConnectionNamed(rows, id).value in rows.connections
    ensures forall org: Org, provider :: ConnectionWith(rows, org, provider).Some? ==>
              var c := ConnectionWith(rows, org, provider).value; c in rows.connections && c.org == org && c.provider == provider
  {
  }

  // What the tables hold stays faithful to the rows ---------------------------------

  /** A canonical deployment is that of one row, just as the row is served. */
  ghost predicate CanonicalFaithful(rows: Rows, w: Worker, cat: Catalog, id: DeploymentId, m: ModelRow, p: ProviderRow)
    requires id in cat.models
  {
    && RowOf(rows, m, p) && id == Canonical(p.id) && ServedAs(rows, w, m, p).Some?
    && var s := ServedAs(rows, w, m, p).value;
       && cat.models[id] == RecordOf(m, p, s) && s.name in cat.connections
       && (id in cat.boundTo <==> s.bound.Some?) && (s.bound.Some? ==> cat.boundTo[id] == s.bound.value)
       && (id in cat.ownKeyRequired <==> s.ownKey)
       && (id in cat.providers ==> cat.providers[id] == p.provider)
  }

  /** A variant deployment is that of one row over one organisation's connection. */
  ghost predicate VariantFaithful(rows: Rows, w: Worker, cat: Catalog, id: DeploymentId, m: ModelRow, p: ProviderRow, c: ConnectionRow)
    requires id in cat.models
  {
    && RowOf(rows, m, p) && id == Variant(p.id, c.id) && GivesVariant(rows, w, m, p, c)
    && cat.models[id] == RecordOf(m, p, OverOwn(w, p, c).value)
    && id in cat.boundTo && cat.boundTo[id] == c
  }

  ghost predicate EntryFaithful(rows: Rows, w: Worker, cat: Catalog, id: DeploymentId)
    requires id in cat.models
  {
    if id.Canonical? then exists m, p :: CanonicalFaithful(rows, w, cat, id, m, p)
    else exists m, p, c :: VariantFaithful(rows, w, cat, id, m, p, c)
  }

  /** A stored variant is the one its row gives that organisation. */
  ghost predicate StoredFaithful(rows: Rows, w: Worker, cat: Catalog, org: Org, id: DeploymentId)
    requires org in cat.variants && id in cat.variants[org]
  {
    exists m, p, c :: RowOf(rows, m, p) && GivesVariant(rows, w, m, p, c) && c.org == org && id == Canonical(p.id)
      && cat.variants[org][id] == Variant(p.id, c.id) && Variant(p.id, c.id) in cat.models
  }

  ghost predicate EntriesFaithful(rows: Rows, w: Worker, cat: Catalog) {
    forall id :: id in cat.models ==> EntryFaithful(rows, w, cat, id)
  }

  ghost predicate VariantsFaithful(rows: Rows, w: Worker, cat: Catalog) {
    forall org, id :: org in cat.variants && id in cat.variants[org] ==> StoredFaithful(rows, w, cat, org, id)
  }

  ghost predicate MarksFit(cat: Catalog) {
    && cat.ownKeyRequired <= cat.models.Keys && cat.boundTo.Keys <= cat.models.Keys && cat.providers.Keys <= cat.models.Keys
    && (forall id :: id in cat.ownKeyRequired ==> id.Canonical?) && (forall id :: id in cat.providers ==> id.Canonical?)
  }

  ghost predicate Faithful(rows: Rows, w: Worker, cat: Catalog) {
    Configured(rows, w, cat) && EntriesFaithful(rows, w, cat) && VariantsFaithful(rows, w, cat) && MarksFit(cat)
  }

  lemma StoredStay(rows: Rows, w: Worker, cat: Catalog, next: Catalog)
    requires VariantsFaithful(rows, w, cat) && next.variants == cat.variants && cat.models.Keys <= next.models.Keys
    ensures VariantsFaithful(rows, w, next)
  {
    forall org, id | org in next.variants && id in next.variants[org] ensures StoredFaithful(rows, w, next, org, id) {
      assert StoredFaithful(rows, w, cat, org, id);
    }
    hide StoredFaithful;
  }

  /** Nothing is taken back. */
  ghost predicate Extends(cat: Catalog, next: Catalog) {
    && cat.connections.Keys <= next.connections.Keys
    && cat.models.Keys <= next.models.Keys && cat.providers.Keys <= next.providers.Keys
    && forall org :: org in cat.variants ==> org in next.variants && cat.variants[org].Keys <= next.variants[org].Keys
  }

  lemma SameRowAndModel(rows: Rows, m: ModelRow, p: ProviderRow, n: ModelRow, q: ProviderRow)
    requires Keyed(rows) && RowOf(rows, m, p) && RowOf(rows, n, q) && p.id == q.id
    ensures p == q && m == n
  {
  }

  /** A deployment written as its row is served leaves every entry faithful. */
  lemma CanonicalStaysFaithful(rows: Rows, w: Worker, cat: Catalog, next: Catalog, m: ModelRow, p: ProviderRow)
    requires Keyed(rows) && Faithful(rows, w, cat) && RowOf(rows, m, p)
    requires Deploys(rows, w, cat, next, m, p, Canonical(p.id), ServedAs(rows, w, m, p))
    ensures Faithful(rows, w, next) && Extends(cat, next)
  {
    hide ServedAs, Configured, Keyed, RowOf, EntryFaithful, VariantsFaithful;
    StoredStay(rows, w, cat, next);
    forall id | id in next.models ensures EntryFaithful(rows, w, next, id) {
      EntryAfterCanonical(rows, w, cat, next, m, p, id);
    }
  }

  lemma EntryAfterCanonical(rows: Rows, w: Worker, cat: Catalog, next: Catalog, m: ModelRow, p: ProviderRow, id: DeploymentId)
    requires Keyed(rows) && Faithful(rows, w, cat) && RowOf(rows, m, p)
    requires Deploys(rows, w, cat, next, m, p, Canonical(p.id), ServedAs(rows, w, m, p))
    requires id in next.models
    ensures EntryFaithful(rows, w, next, id)
    ensures id == Canonical(p.id) && ServedAs(rows, w, m, p).Some? ==> CanonicalFaithful(rows, w, next, id, m, p)
  {
    hide ServedAs, Configured, GivesVariant, OverOwn, Keyed, VariantsFaithful;
    if id == Canonical(p.id) {
      if id in cat.models {
        assert EntryFaithful(rows, w, cat, id);
        var n, q :| CanonicalFaithful(rows, w, cat, id, n, q);
        SameRowAndModel(rows, m, p, n, q);
      }
      assert ServedAs(rows, w, m, p).Some? ==> CanonicalFaithful(rows, w, next, id, m, p);
    } else {
      assert EntryFaithful(rows, w, cat, id);
      if id.Canonical? {
        var n, q :| CanonicalFaithful(rows, w, cat, id, n, q);
        assert CanonicalFaithful(rows, w, next, id, n, q);
      } else {
        var n, q, c :| VariantFaithful(rows, w, cat, id, n, q, c);
        assert VariantFaithful(rows, w, next, id, n, q, c);
      }
    }
  }

  // Variants ------------------------------------------------------------------

  /** The row's canonical is in place, as the row is served. */
  ghost predicate InPlace(rows: Rows, w: Worker, cat: Catalog, m: ModelRow, p: ProviderRow) {
    Canonical(p.id) in cat.models && CanonicalFaithful(rows, w, cat, Canonical(p.id), m, p)
  }

  ghost predicate MayVary(rows: Rows, w: Worker, m: ModelRow, p: ProviderRow, c: ConnectionRow) {
    && RowOf(rows, m, p) && c in rows.connections && c.provider == p.provider
    && (if m.owner.Some? then m.owner == Some(c.org) else rows.house != Some(c.org))
    && var s := ServedAs(rows, w, m, p); s.Some? && (s.value.hostManaged || s.value.ownKey)
  }

  ghost predicate HasVariant(cat: Catalog, p: ProviderRow, c: ConnectionRow) {
    c.org in cat.variants && Canonical(p.id) in cat.variants[c.org]
  }

  ghost function Added(next: Catalog, p: ProviderRow, c: ConnectionRow, s: Option<Served>): Catalog {
    if s.Some? then AddVariant(next, c.org, Canonical(p.id), Variant(p.id, c.id)) else next
  }

  /** What an added variant leaves of the tables around it. */
  lemma AddedTables(rows: Rows, w: Worker, cat: Catalog, next: Catalog, m: ModelRow, p: ProviderRow, c: ConnectionRow)
    requires Deploys(rows, w, cat, next, m, p, Variant(p.id, c.id), OverOwn(w, p, c))
    ensures var added := Added(next, p, c, OverOwn(w, p, c));
            && Extends(cat, added) && Configured(rows, w, added) && added.pools == cat.pools
            && added.ownKeyRequired == cat.ownKeyRequired && added.providers == cat.providers
            && added.boundTo.Keys <= cat.boundTo.Keys + added.models.Keys
            && (OverOwn(w, p, c).Some? ==> HasVariant(added, p, c))
  {
    OwnIs(w, p, c);
    hide ConfigOf, OverOwn;
  }

  lemma InPlaceAfterVariant(rows: Rows, w: Worker, cat: Catalog, next: Catalog, m: ModelRow, p: ProviderRow, c: ConnectionRow)
    requires InPlace(rows, w, cat, m, p)
    requires Deploys(rows, w, cat, next, m, p, Variant(p.id, c.id), OverOwn(w, p, c))
    ensures InPlace(rows, w, Added(next, p, c, OverOwn(w, p, c)), m, p)
  {
    OwnIs(w, p, c);
    hide ServedAs, Configured, OverOwn, RowOf;
  }

  lemma VariantStaysFaithful(rows: Rows, w: Worker, cat: Catalog, next: Catalog, m: ModelRow, p: ProviderRow, c: ConnectionRow)
    requires Keyed(rows) && Faithful(rows, w, cat) && InPlace(rows, w, cat, m, p) && MayVary(rows, w, m, p, c)
    requires Deploys(rows, w, cat, next, m, p, Variant(p.id, c.id), OverOwn(w, p, c))
    ensures Faithful(rows, w, Added(next, p, c, OverOwn(w, p, c)))
  {
    var added := Added(next, p, c, OverOwn(w, p, c));
    AddedTables(rows, w, cat, next, m, p, c);
    EntriesAfterVariant(rows, w, cat, next, m, p, c);
    StoredsAfterVariant(rows, w, cat, next, m, p, c);
    hide Configured, Keyed, OverOwn, InPlace, MayVary, Deploys, EntriesFaithful, VariantsFaithful, Added, HasVariant;
  }

  lemma EntriesAfterVariant(rows: Rows, w: Worker, cat: Catalog, next: Catalog, m: ModelRow, p: ProviderRow, c: ConnectionRow)
    requires Faithful(rows, w, cat) && MayVary(rows, w, m, p, c)
    requires Deploys(rows, w, cat, next, m, p, Variant(p.id, c.id), OverOwn(w, p, c))
    ensures EntriesFaithful(rows, w, Added(next, p, c, OverOwn(w, p, c)))
  {
    var added := Added(next, p, c, OverOwn(w, p, c));
    hide Faithful, MayVary, Deploys, EntryFaithful, OverOwn, Added;
    forall id | id in added.models ensures EntryFaithful(rows, w, added, id) {
      EntryAfterVariant(rows, w, cat, next, added, m, p, c, id);
    }
  }

  lemma StoredsAfterVariant(rows: Rows, w: Worker, cat: Catalog, next: Catalog, m: ModelRow, p: ProviderRow, c: ConnectionRow)
    requires Faithful(rows, w, cat) && MayVary(rows, w, m, p, c)
    requires Deploys(rows, w, cat, next, m, p, Variant(p.id, c.id), OverOwn(w, p, c))
    ensures VariantsFaithful(rows, w, Added(next, p, c, OverOwn(w, p, c)))
  {
    var added := Added(next, p, c, OverOwn(w, p, c));
    hide Faithful, MayVary, Deploys, StoredFaithful, OverOwn, Added;
    forall org, id | org in added.variants && id in added.variants[org] ensures StoredFaithful(rows, w, added, org, id) {
      StoredAfterVariant(rows, w, cat, next, added, m, p, c, org, id);
    }
  }

  lemma EntryAfterVariant(rows: Rows, w: Worker, cat: Catalog, next: Catalog, added: Catalog, m: ModelRow, p: ProviderRow,
                          c: ConnectionRow, id: DeploymentId)
    requires Faithful(rows, w, cat) && MayVary(rows, w, m, p, c)
    requires Deploys(rows, w, cat, next, m, p, Variant(p.id, c.id), OverOwn(w, p, c))
    requires added == Added(next, p, c, OverOwn(w, p, c))
    requires id in added.models
    ensures EntryFaithful(rows, w, added, id)
  {
    OwnIs(w, p, c);
    hide ServedAs, Configured, VariantsFaithful, OverOwn, RowOf;
    if id == Variant(p.id, c.id) && OverOwn(w, p, c).Some? {
      assert VariantFaithful(rows, w, added, id, m, p, c);
    } else {
      assert EntryFaithful(rows, w, cat, id);
      if id.Canonical? {
        var n, q :| CanonicalFaithful(rows, w, cat, id, n, q);
        assert CanonicalFaithful(rows, w, added, id, n, q);
      } else {
        var n, q, d :| VariantFaithful(rows, w, cat, id, n, q, d);
        assert VariantFaithful(rows, w, added, id, n, q, d);
      }
    }
  }

  lemma OwnIs(w: Worker, p: ProviderRow, c: ConnectionRow)
    ensures OverOwn(w, p, c).Some? ==>
              OverOwn(w, p, c).value.name == Conn(c.id) && OverOwn(w, p, c).value.bound == Some(c) && !OverOwn(w, p, c).value.ownKey
  {
  }

  lemma StoredAfterVariant(rows: Rows, w: Worker, cat: Catalog, next: Catalog, added: Catalog, m: ModelRow, p: ProviderRow,
                           c: ConnectionRow, org: Org, id: DeploymentId)
    requires Faithful(rows, w, cat) && MayVary(rows, w, m, p, c)
    requires Deploys(rows, w, cat, next, m, p, Variant(p.id, c.id), OverOwn(w, p, c))
    requires added == Added(next, p, c, OverOwn(w, p, c))
    requires org in added.variants && id in added.variants[org]
    ensures StoredFaithful(rows, w, added, org, id)
  {
    OwnIs(w, p, c);
    hide ServedAs, Configured, EntriesFaithful, OverOwn, RowOf;
    if OverOwn(w, p, c).Some? && org == c.org && id == Canonical(p.id) {
      assert GivesVariant(rows, w, m, p, c);
    } else {
      assert StoredFaithful(rows, w, cat, org, id);
    }
  }

  lemma WithVariantIs(rows: Rows, w: Worker, cat: Catalog, m: ModelRow, p: ProviderRow, c: ConnectionRow)
    requires Keyed(rows) && Faithful(rows, w, cat) && InPlace(rows, w, cat, m, p) && MayVary(rows, w, m, p, c)
    ensures var next := WithVariant(w, cat, m, p, c);
            && Faithful(rows, w, next) && InPlace(rows, w, next, m, p) && Extends(cat, next) && next.pools == cat.pools
            && (OverOwn(w, p, c).Some? ==> HasVariant(next, p, c))
  {
    FaithfulIsConfigured(rows, w, cat);
    MayVaryIsRow(rows, w, m, p, c);
    ByokDeploys(rows, w, cat, m, p, c, Variant(p.id, c.id));
    hide Faithful, InPlace, MayVary, OverOwn, ByokDeployment, Keyed, HasVariant, Extends, Deploys;
    var (next, made) := ByokDeployment(w, cat, m, p, c, Variant(p.id, c.id));
    AddedTables(rows, w, cat, next, m, p, c);
    InPlaceAfterVariant(rows, w, cat, next, m, p, c);
    VariantStaysFaithful(rows, w, cat, next, m, p, c);
  }

  lemma MayVaryIsRow(rows: Rows, w: Worker, m: ModelRow, p: ProviderRow, c: ConnectionRow)
    requires MayVary(rows, w, m, p, c)
    ensures c in rows.connections
  {
  }

  lemma FaithfulIsConfigured(rows: Rows, w: Worker, cat: Catalog)
    requires Faithful(rows, w, cat)
    ensures Configured(rows, w, cat)
  {
  }

  lemma {:induction false} WithVariantsIs(rows: Rows, w: Worker, cat: Catalog, m: ModelRow, p: ProviderRow, conns: seq<ConnectionRow>)
    requires Keyed(rows) && Faithful(rows, w, cat) && InPlace(rows, w, cat, m, p)
    requires forall c :: c in conns ==> MayVary(rows, w, m, p, c)
    ensures var next := WithVariants(w, cat, m, p, conns);
            && Faithful(rows, w, next) && InPlace(rows, w, next, m, p) && Extends(cat, next) && next.pools == cat.pools
            && forall c :: c in conns && OverOwn(w, p, c).Some? ==> HasVariant(next, p, c)
  {
    hide Faithful, InPlace, MayVary, OverOwn, Keyed, HasVariant, Extends, WithVariant;
    ExtendsItself(cat);
    if conns != [] {
      var n := |conns| - 1;
      var middle := WithVariants(w, cat, m, p, conns[..n]);
      assert conns == conns[..n] + [conns[n]] && conns[n] in conns;
      WithVariantsIs(rows, w, cat, m, p, conns[..n]);
      WithVariantIs(rows, w, middle, m, p, conns[n]);
      var next := WithVariant(w, middle, m, p, conns[n]);
      ExtendsChain(cat, middle, next);
      forall c | c in conns[..n] && OverOwn(w, p, c).Some? ensures HasVariant(next, p, c) {
        VariantStays(middle, next, p, c);
      }
    }
  }

  lemma ExtendsItself(cat: Catalog)
    ensures Extends(cat, cat)
  {
  }

  lemma ExtendsChain(a: Catalog, b: Catalog, c: Catalog)
    requires Extends(a, b) && Extends(b, c)
    ensures Extends(a, c)
  {
  }

  lemma VariantStays(cat: Catalog, next: Catalog, p: ProviderRow, c: ConnectionRow)
    requires Extends(cat, next) && HasVariant(cat, p, c)
    ensures HasVariant(next, p, c)
  {
  }

  // Rows and models -------------------------------------------------------------

  /** A row has been taken: its canonical and every variant it gives are there. */
  ghost predicate RowDone(rows: Rows, w: Worker, cat: Catalog, m: ModelRow, p: ProviderRow) {
    && (ServedAs(rows, w, m, p).Some? ==> Canonical(p.id) in cat.models && Canonical(p.id) in cat.providers)
    && forall c :: GivesVariant(rows, w, m, p, c) ==> HasVariant(cat, p, c)
  }

  lemma RowStaysDone(rows: Rows, w: Worker, cat: Catalog, next: Catalog, m: ModelRow, p: ProviderRow)
    requires RowDone(rows, w, cat, m, p) && Extends(cat, next)
    ensures RowDone(rows, w, next, m, p)
  {
    hide ServedAs, GivesVariant;
  }

  lemma {:induction false} EligibleAre(ix: Index, m: ModelRow, conns: seq<ConnectionRow>)
    ensures forall c :: c in Eligible(ix, m, conns) <==>
              c in conns && if m.owner.Some? then Some(c.org) == m.owner else Some(c.org) != ix.house
  {
    if conns != [] {
      var n := |conns| - 1;
      EligibleAre(ix, m, conns[..n]);
      assert conns == conns[..n] + [conns[n]];
    }
  }

  lemma EligibleMayVary(rows: Rows, w: Worker, m: ModelRow, p: ProviderRow)
    requires RowOf(rows, m, p) && ServedAs(rows, w, m, p).Some?
    requires ServedAs(rows, w, m, p).value.hostManaged || ServedAs(rows, w, m, p).value.ownKey
    ensures var ix := IndexOf(rows);
            forall c :: c in Eligible(ix, m, ix.ConnectionsOf(p.provider)) <==> MayVary(rows, w, m, p, c)
  {
    var ix := IndexOf(rows);
    EligibleAre(ix, m, ix.ConnectionsOf(p.provider));
    IndexTables(rows);
    hide IndexOf, ServedAs, Eligible, Index.ConnectionsOf;
    forall c ensures c in ix.ConnectionsOf(p.provider) <==> c in rows.connections && c.provider == p.provider {
      ConnectionsRead(rows, p.provider, c);
    }
  }

  lemma GivesIs(rows: Rows, w: Worker, m: ModelRow, p: ProviderRow, c: ConnectionRow)
    requires RowOf(rows, m, p)
    ensures GivesVariant(rows, w, m, p, c) <==> MayVary(rows, w, m, p, c) && OverOwn(w, p, c).Some?
    ensures GivesVariant(rows, w, m, p, c) ==> p.provider in BYOK_ROUTABLE
  {
    hide ServedAs, Usable, Spelling;
  }

  lemma AddVariantsIs(rows: Rows, w: Worker, cat: Catalog, m: ModelRow, p: ProviderRow)
    requires Keyed(rows) && Faithful(rows, w, cat) && InPlace(rows, w, cat, m, p) && Canonical(p.id) in cat.models
    ensures var next := AddVariants(w, IndexOf(rows), cat, m, p);
            && Faithful(rows, w, next) && Extends(cat, next) && next.pools == cat.pools
            && forall c :: GivesVariant(rows, w, m, p, c) ==> HasVariant(next, p, c)
  {
    var ix := IndexOf(rows);
    InPlaceIs(rows, w, cat, m, p);
    forall c ensures GivesVariant(rows, w, m, p, c) <==> MayVary(rows, w, m, p, c) && OverOwn(w, p, c).Some? {
      GivesIs(rows, w, m, p, c);
    }
    forall c | GivesVariant(rows, w, m, p, c) ensures p.provider in BYOK_ROUTABLE {
      GivesIs(rows, w, m, p, c);
    }
    ExtendsItself(cat);
    NoneVary(rows, w, m, p);
    hide IndexOf, Index.ConnectionsOf, Faithful, InPlace, MayVary, OverOwn, Keyed, HasVariant, Extends, WithVariants, Eligible,
      GivesVariant, ServedAs, BYOK_ROUTABLE;
    if cat.models[Canonical(p.id)].hostManaged || Canonical(p.id) in cat.ownKeyRequired {
      EligibleMayVary(rows, w, m, p);
      WithVariantsIs(rows, w, cat, m, p, Eligible(ix, m, ix.ConnectionsOf(p.provider)));
    }
  }

  lemma InPlaceIs(rows: Rows, w: Worker, cat: Catalog, m: ModelRow, p: ProviderRow)
    requires InPlace(rows, w, cat, m, p)
    ensures RowOf(rows, m, p) && Canonical(p.id) in cat.models && ServedAs(rows, w, m, p).Some?
    ensures var s := ServedAs(rows, w, m, p).value;
            cat.models[Canonical(p.id)].hostManaged == s.hostManaged && (Canonical(p.id) in cat.ownKeyRequired <==> s.ownKey)
  {
    hide ServedAs;
  }

  lemma NoneVary(rows: Rows, w: Worker, m: ModelRow, p: ProviderRow)
    ensures ServedAs(rows, w, m, p).Some? && !ServedAs(rows, w, m, p).value.hostManaged && !ServedAs(rows, w, m, p).value.ownKey ==>
              forall c :: !MayVary(rows, w, m, p, c)
  {
    hide ServedAs;
  }

  lemma DeploysInPlace(rows: Rows, w: Worker, cat: Catalog, next: Catalog, m: ModelRow, p: ProviderRow)
    requires Keyed(rows) && Faithful(rows, w, cat) && RowOf(rows, m, p) && ServedAs(rows, w, m, p).Some?
    requires Deploys(rows, w, cat, next, m, p, Canonical(p.id), ServedAs(rows, w, m, p))
    ensures InPlace(rows, w, next, m, p)
  {
    EntryAfterCanonical(rows, w, cat, next, m, p, Canonical(p.id));
    hide Faithful, CanonicalFaithful, EntryFaithful, Configured, ServedAs, Keyed, RowOf;
  }

  ghost function Marked(cat: Catalog, p: ProviderRow): Catalog {
    cat.(providers := cat.providers[Canonical(p.id) := p.provider])
  }

  /** Noting the row's provider beside its canonical. */
  lemma MarkedStaysFaithful(rows: Rows, w: Worker, cat: Catalog, m: ModelRow, p: ProviderRow)
    requires Keyed(rows) && Faithful(rows, w, cat) && InPlace(rows, w, cat, m, p)
    ensures Faithful(rows, w, Marked(cat, p)) && InPlace(rows, w, Marked(cat, p), m, p) && Extends(cat, Marked(cat, p))
  {
    InPlaceMarked(rows, w, cat, m, p);
    MarkedRow(rows, w, cat, m, p);
    ConfiguredMarked(rows, w, cat, p);
    EntriesMarked(rows, w, cat, m, p);
    MarkedTables(rows, w, cat, p);
    hide Configured, InPlace, EntriesFaithful, VariantsFaithful, Keyed, MarksFit, Extends, Marked;
  }

  lemma MarkedTables(rows: Rows, w: Worker, cat: Catalog, p: ProviderRow)
    requires VariantsFaithful(rows, w, cat) && MarksFit(cat) && Canonical(p.id) in cat.models
    ensures VariantsFaithful(rows, w, Marked(cat, p)) && MarksFit(Marked(cat, p)) && Extends(cat, Marked(cat, p))
  {
    hide VariantsFaithful;
    StoredStay(rows, w, cat, Marked(cat, p));
  }

  lemma EntriesMarked(rows: Rows, w: Worker, cat: Catalog, m: ModelRow, p: ProviderRow)
    requires Keyed(rows) && Faithful(rows, w, cat) && InPlace(rows, w, cat, m, p)
    ensures EntriesFaithful(rows, w, Marked(cat, p))
  {
    hide Faithful, InPlace, EntryFaithful, Keyed;
    var marked := Marked(cat, p);
    forall id | id in marked.models ensures EntryFaithful(rows, w, marked, id) {
      EntryMarked(rows, w, cat, m, p, id);
    }
  }

  lemma InPlaceMarked(rows: Rows, w: Worker, cat: Catalog, m: ModelRow, p: ProviderRow)
    requires InPlace(rows, w, cat, m, p)
    ensures InPlace(rows, w, Marked(cat, p), m, p)
  {
    hide ServedAs, RowOf;
  }

  lemma ConfiguredMarked(rows: Rows, w: Worker, cat: Catalog, p: ProviderRow)
    requires Configured(rows, w, cat)
    ensures Configured(rows, w, Marked(cat, p))
  {
    hide ConfigOf;
  }

  lemma EntryMarked(rows: Rows, w: Worker, cat: Catalog, m: ModelRow, p: ProviderRow, id: DeploymentId)
    requires Keyed(rows) && Faithful(rows, w, cat) && InPlace(rows, w, cat, m, p) && id in cat.models
    ensures EntryFaithful(rows, w, Marked(cat, p), id)
  {
    hide ServedAs, Configured, GivesVariant, OverOwn, Keyed, VariantsFaithful, MarksFit, RowOf, RecordOf;
    assert EntryFaithful(rows, w, cat, id);
    if id == Canonical(p.id) {
      assert CanonicalFaithful(rows, w, Marked(cat, p), id, m, p);
    } else if id.Canonical? {
      var n, q :| CanonicalFaithful(rows, w, cat, id, n, q);
      assert CanonicalFaithful(rows, w, Marked(cat, p), id, n, q);
    } else {
      var n, q, c :| VariantFaithful(rows, w, cat, id, n, q, c);
      assert VariantFaithful(rows, w, Marked(cat, p), id, n, q, c);
    }
  }

  lemma UnservedGivesNone(rows: Rows, w: Worker, m: ModelRow, p: ProviderRow)
    requires ServedAs(rows, w, m, p).None?
    ensures forall c :: !GivesVariant(rows, w, m, p, c)
  {
    hide ServedAs, OverOwn;
  }

  /** A row is taken if and only if it is served. */
  lemma AddRowIs(rows: Rows, w: Worker, cat: Catalog, m: ModelRow, p: ProviderRow)
    requires Keyed(rows) && Faithful(rows, w, cat) && RowOf(rows, m, p)
    ensures var (next, id) := AddRow(w, IndexOf(rows), cat, m, p);
            && Faithful(rows, w, next) && Extends(cat, next) && next.pools == cat.pools && RowDone(rows, w, next, m, p)
            && id == (if ServedAs(rows, w, m, p).Some? then Some(Canonical(p.id)) else None)
  {
    FaithfulIsConfigured(rows, w, cat);
    ExtendsItself(cat);
    DisabledIsUnserved(rows, w, m, p);
    hide IndexOf, CanonicalDeployment, AddVariants, ServedAs, Faithful, InPlace, Keyed, RowOf, GivesVariant, Configured, HasVariant,
      Deploys, Extends;
    if ServedAs(rows, w, m, p).None? {
      UnservedGivesNone(rows, w, m, p);
    }
    if !p.disabled {
      CanonicalDeploys(rows, w, cat, m, p);
      var (next, id) := CanonicalDeployment(w, IndexOf(rows), cat, m, p);
      CanonicalStaysFaithful(rows, w, cat, next, m, p);
      DeploysPools(rows, w, cat, next, m, p);
      if id.Some? {
        DeploysInPlace(rows, w, cat, next, m, p);
        MarkedStaysFaithful(rows, w, next, m, p);
        MarkedRow(rows, w, next, m, p);
        var marked := Marked(next, p);
        AddVariantsIs(rows, w, marked, m, p);
        var last := AddVariants(w, IndexOf(rows), marked, m, p);
        ExtendsChain(cat, next, marked);
        ExtendsChain(cat, marked, last);
        MarkStays(marked, last, p);
      }
    }
  }

  lemma DisabledIsUnserved(rows: Rows, w: Worker, m: ModelRow, p: ProviderRow)
    ensures p.disabled ==> ServedAs(rows, w, m, p).None?
  {
  }

  lemma DeploysPools(rows: Rows, w: Worker, cat: Catalog, next: Catalog, m: ModelRow, p: ProviderRow)
    requires Deploys(rows, w, cat, next, m, p, Canonical(p.id), ServedAs(rows, w, m, p))
    ensures next.pools == cat.pools
  {
    hide ServedAs, Configured;
  }

  lemma MarkedRow(rows: Rows, w: Worker, cat: Catalog, m: ModelRow, p: ProviderRow)
    requires InPlace(rows, w, cat, m, p)
    ensures Canonical(p.id) in Marked(cat, p).models && Canonical(p.id) in Marked(cat, p).providers && Marked(cat, p).pools == cat.pools
    ensures Marked(cat, p) == cat.(providers := cat.providers[Canonical(p.id) := p.provider])
  {
    hide CanonicalFaithful;
  }

  lemma MarkStays(cat: Catalog, next: Catalog, p: ProviderRow)
    requires Extends(cat, next) && Canonical(p.id) in cat.models && Canonical(p.id) in cat.providers
    ensures Canonical(p.id) in next.models && Canonical(p.id) in next.providers
  {
  }

  /** The canonicals of the served rows among some, the first for the first of them. */
  ghost predicate ServedIds(rows: Rows, w: Worker, m: ModelRow, some: seq<ProviderRow>, ids: seq<DeploymentId>) {
    && (forall id :: id in ids <==> exists p :: p in some && ServedAs(rows, w, m, p).Some? && id == Canonical(p.id))
    && (ids != [] ==> exists k :: 0 <= k < |some| && ids[0] == Canonical(some[k].id) && ServedAs(rows, w, m, some[k]).Some?
                                  && forall j :: 0 <= j < k ==> ServedAs(rows, w, m, some[j]).None?)
  }

  lemma ServedIdsSnoc(rows: Rows, w: Worker, m: ModelRow, some: seq<ProviderRow>, p: ProviderRow, ids: seq<DeploymentId>)
    requires ServedIds(rows, w, m, some, ids)
    ensures ServedIds(rows, w, m, some + [p], if ServedAs(rows, w, m, p).Some? then ids + [Canonical(p.id)] else ids)
  {
    hide ServedAs;
    var all := some + [p];
    var more := if ServedAs(rows, w, m, p).Some? then ids + [Canonical(p.id)] else ids;
    assert all[|some|] == p && forall j :: 0 <= j < |some| ==> all[j] == some[j];
    if ids != [] {
      var k :| 0 <= k < |some| && ids[0] == Canonical(some[k].id) && ServedAs(rows, w, m, some[k]).Some?
               && forall j :: 0 <= j < k ==> ServedAs(rows, w, m, some[j]).None?;
      assert more[0] == Canonical(all[k].id);
    } else if more != [] {
      assert more[0] == Canonical(all[|some|].id);
      forall j | 0 <= j < |some| ensures ServedAs(rows, w, m, some[j]).None? {
        assert ServedAs(rows, w, m, some[j]).Some? ==> some[j] in some && Canonical(some[j].id) in ids;
      }
    }
    forall id ensures id in more <==> exists q :: q in all && ServedAs(rows, w, m, q).Some? && id == Canonical(q.id) {
      if id in ids {
        var q :| q in some && ServedAs(rows, w, m, q).Some? && id == Canonical(q.id);
        assert q in all;
      }
      assert p in all;
    }
  }

  lemma {:induction false} AddRowsIs(rows: Rows, w: Worker, cat: Catalog, m: ModelRow, some: seq<ProviderRow>)
    requires Keyed(rows) && Faithful(rows, w, cat) && forall p :: p in some ==> RowOf(rows, m, p)
    ensures var (next, ids) := AddRows(w, IndexOf(rows), cat, m, some);
            && Faithful(rows, w, next) && Extends(cat, next) && next.pools == cat.pools
            && (forall p :: p in some ==> RowDone(rows, w, next, m, p)) && ServedIds(rows, w, m, some, ids)
  {
    hide IndexOf, AddRow, Faithful, Keyed, RowOf, RowDone, Extends, ServedIds, ServedAs;
    if some == [] {
      ExtendsItself(cat);
      NoServedIds(rows, w, m);
    } else {
      var n := |some| - 1;
      assert some == some[..n] + [some[n]] && some[n] in some;
      AddRowsIs(rows, w, cat, m, some[..n]);
      var (before, ids) := AddRows(w, IndexOf(rows), cat, m, some[..n]);
      AddRowIs(rows, w, before, m, some[n]);
      var (after, id) := AddRow(w, IndexOf(rows), before, m, some[n]);
      ExtendsChain(cat, before, after);
      forall p | p in some[..n] ensures RowDone(rows, w, after, m, p) {
        RowStaysDone(rows, w, before, after, m, p);
      }
      ServedIdsSnoc(rows, w, m, some[..n], some[n], ids);
    }
  }

  lemma NoServedIds(rows: Rows, w: Worker, m: ModelRow)
    ensures ServedIds(rows, w, m, [], [])
  {
  }

  /** All of a model's rows have been taken. */
  ghost predicate ModelDone(rows: Rows, w: Worker, cat: Catalog, m: ModelRow) {
    forall p :: RowOf(rows, m, p) ==> RowDone(rows, w, cat, m, p)
  }

  lemma ModelRowsIs(rows: Rows, w: Worker, cat: Catalog, m: ModelRow)
    requires Keyed(rows) && Faithful(rows, w, cat) && m in rows.models
    ensures var (next, ids) := AddRows(w, IndexOf(rows), cat, m, IndexOf(rows).ProvidersOf(m.id));
            && Faithful(rows, w, next) && Extends(cat, next) && next.pools == cat.pools && ModelDone(rows, w, next, m)
            && ServedIds(rows, w, m, IndexOf(rows).ProvidersOf(m.id), ids)
  {
    var some := IndexOf(rows).ProvidersOf(m.id);
    forall p ensures p in some <==> RowOf(rows, m, p) {
      ProvidersRead(rows, m.id, p);
    }
    hide IndexOf, Index.ProvidersOf, Faithful, Keyed, RowOf, RowDone, Extends, ServedIds, AddRows;
    AddRowsIs(rows, w, cat, m, some);
  }

  lemma PoolsApart(rows: Rows, w: Worker, cat: Catalog, next: Catalog)
    requires Faithful(rows, w, cat) && next == cat.(pools := next.pools)
    ensures Faithful(rows, w, next) && Extends(cat, next)
  {
    hide ServedAs, GivesVariant, OverOwn, ConfigOf, RowOf, VariantsFaithful;
    StoredStay(rows, w, cat, next);
    forall id | id in next.models ensures EntryFaithful(rows, w, next, id) {
      assert EntryFaithful(rows, w, cat, id);
      if id.Canonical? {
        var n, q :| CanonicalFaithful(rows, w, cat, id, n, q);
        assert CanonicalFaithful(rows, w, next, id, n, q);
      } else {
        var n, q, c :| VariantFaithful(rows, w, cat, id, n, q, c);
        assert VariantFaithful(rows, w, next, id, n, q, c);
      }
    }
    hide EntryFaithful;
  }

  lemma AssembleIs(rows: Rows, w: Worker, cat: Catalog, m: ModelRow)
    requires Keyed(rows) && Faithful(rows, w, cat) && m in rows.models
    ensures var (next, _) := AssembleModel(w, IndexOf(rows), cat, m);
            Faithful(rows, w, next) && Extends(cat, next) && ModelDone(rows, w, next, m)
  {
    ModelRowsIs(rows, w, cat, m);
    var (rowed, ids) := AddRows(w, IndexOf(rows), cat, m, IndexOf(rows).ProvidersOf(m.id));
    var (next, _) := AssembleModel(w, IndexOf(rows), cat, m);
    hide IndexOf, Index.ProvidersOf, Faithful, Keyed, RowDone, RowOf, Extends, ServedIds, AddRows, ModelChain, Serving;
    PoolsApart(rows, w, rowed, next);
    ExtendsChain(cat, rowed, next);
    forall p | RowOf(rows, m, p) ensures RowDone(rows, w, next, m, p) {
      RowStaysDone(rows, w, rowed, next, m, p);
    }
  }

  lemma EmptyIsFaithful(rows: Rows, w: Worker)
    ensures Faithful(rows, w, EMPTY)
  {
  }

  lemma {:induction false} AssembledIs(rows: Rows, w: Worker, models: seq<ModelRow>)
    requires Keyed(rows) && forall m :: m in models ==> m in rows.models
    ensures var (cat, _) := AssembleModels(w, IndexOf(rows), models);
            Faithful(rows, w, cat) && forall m :: m in models ==> ModelDone(rows, w, cat, m)
  {
    if models == [] {
      EmptyIsFaithful(rows, w);
    } else {
      hide IndexOf, Faithful, Keyed, RowDone, Extends, AssembleModel;
      var n := |models| - 1;
      assert models == models[..n] + [models[n]] && models[n] in models;
      AssembledIs(rows, w, models[..n]);
      var (before, _) := AssembleModels(w, IndexOf(rows), models[..n]);
      AssembleIs(rows, w, before, models[n]);
      var (after, _) := AssembleModel(w, IndexOf(rows), before, models[n]);
      forall m, p | m in models[..n] && RowOf(rows, m, p) ensures RowDone(rows, w, after, m, p) {
        RowStaysDone(rows, w, before, after, m, p);
      }
    }
  }

  // What a finished build holds ------------------------------------------------

  lemma BuiltIs(rows: Rows, w: Worker)
    requires Keyed(rows)
    ensures var cat := BuildCatalog(w, rows).catalog;
            Faithful(rows, w, cat) && forall m :: m in rows.models ==> ModelDone(rows, w, cat, m)
  {
    var ix := IndexOf(rows);
    forall m ensures m in ix.models <==> m in rows.models {
      ModelIsRow(rows, m);
    }
    hide IndexOf, AssembleModels, Faithful, Keyed, RowDone, FinalizePlans, Sort, RowOf;
    AssembledIs(rows, w, ix.models);
    EmptyIsFaithful(rows, w);
    var (cat, _) := AssembleModels(w, ix, ix.models);
    if cat.models == map[] {
      forall m, p | m in rows.models && RowOf(rows, m, p) ensures RowDone(rows, w, EMPTY, m, p) {
        NothingServed(rows, w, cat, m, p);
      }
    }
  }

  lemma NothingServed(rows: Rows, w: Worker, cat: Catalog, m: ModelRow, p: ProviderRow)
    requires RowDone(rows, w, cat, m, p) && cat.models == map[]
    ensures RowDone(rows, w, EMPTY, m, p)
  {
    hide ServedAs;
    assert ServedAs(rows, w, m, p).None?;
    UnservedGivesNone(rows, w, m, p);
  }

  /** A row has its canonical deployment if and only if it is served, and then just as
      the platform rows say: its connection and credential, spelling, cost and binding. */
  lemma LanesExactly(rows: Rows, w: Worker, m: ModelRow, p: ProviderRow)
    requires Keyed(rows) && RowOf(rows, m, p)
    ensures var cat, id, s := BuildCatalog(w, rows).catalog, Canonical(p.id), ServedAs(rows, w, m, p);
            && (id in cat.models <==> s.Some?)
            && (s.Some? ==>
                  && cat.models[id] == Record(s.value.name, s.value.wire, s.value.hostManaged, m.id, m.parameters, p)
                  && s.value.name in cat.connections && Some(cat.connections[s.value.name]) == ConfigOf(rows, w, s.value.name)
                  && (s.value.bound.Some? <==> id in cat.boundTo) && (s.value.bound.Some? ==> cat.boundTo[id] == s.value.bound.value)
                  && (s.value.ownKey <==> id in cat.ownKeyRequired)
                  && id in cat.providers && cat.providers[id] == p.provider)
  {
    BuiltIs(rows, w);
    var cat, id := BuildCatalog(w, rows).catalog, Canonical(p.id);
    assert RowDone(rows, w, cat, m, p);
    hide BuildCatalog, ServedAs, GivesVariant, ConfigOf, OverOwn, Keyed, HasVariant, StoredFaithful;
    if id in cat.models {
      assert EntryFaithful(rows, w, cat, id);
      var n, q :| CanonicalFaithful(rows, w, cat, id, n, q);
      SameRowAndModel(rows, m, p, n, q);
    }
  }

  lemma OneConnection(rows: Rows, c: ConnectionRow, d: ConnectionRow)
    requires Keyed(rows) && c in rows.connections && d in rows.connections && c.org == d.org && c.provider == d.provider
    ensures c == d
  {
    assert OrgProvider(c) == OrgProvider(d);
  }

  lemma GivesIsRow(rows: Rows, w: Worker, m: ModelRow, p: ProviderRow, c: ConnectionRow)
    requires GivesVariant(rows, w, m, p, c)
    ensures c in rows.connections && c.provider == p.provider
  {
  }

  /** An organisation has a lane of its own for a row if and only if its connection
      gives one, and that lane runs over that connection at its own cost. */
  lemma VariantsExactly(rows: Rows, w: Worker, m: ModelRow, p: ProviderRow, c: ConnectionRow)
    requires Keyed(rows) && RowOf(rows, m, p) && c in rows.connections && c.provider == p.provider
    ensures var cat, id, own := BuildCatalog(w, rows).catalog, Canonical(p.id), Variant(p.id, c.id);
            && (c.org in cat.variants && id in cat.variants[c.org] <==> GivesVariant(rows, w, m, p, c))
            && (GivesVariant(rows, w, m, p, c) ==>
                  && cat.variants[c.org][id] == own && own in cat.models
                  && OverOwn(w, p, c).Some?
                  && cat.models[own] == Record(Conn(c.id), OverOwn(w, p, c).value.wire, false, m.id, m.parameters, p)
                  && own in cat.boundTo && cat.boundTo[own] == c)
  {
    BuiltIs(rows, w);
    var cat, id, own := BuildCatalog(w, rows).catalog, Canonical(p.id), Variant(p.id, c.id);
    assert RowDone(rows, w, cat, m, p);
    hide BuildCatalog, ServedAs, ConfigOf, Usable, Spelling, Keyed, GivesVariant;
    if HasVariant(cat, p, c) {
      assert StoredFaithful(rows, w, cat, c.org, id);
      var n, q, d :| RowOf(rows, n, q) && GivesVariant(rows, w, n, q, d) && d.org == c.org && id == Canonical(q.id)
                     && cat.variants[c.org][id] == Variant(q.id, d.id) && Variant(q.id, d.id) in cat.models;
      SameRowAndModel(rows, m, p, n, q);
      GivesIsRow(rows, w, n, q, d);
      OneConnection(rows, c, d);
      OwnLaneIs(rows, w, cat, m, p, c);
    }
  }

  lemma OwnLaneIs(rows: Rows, w: Worker, cat: Catalog, m: ModelRow, p: ProviderRow, c: ConnectionRow)
    requires Keyed(rows) && Faithful(rows, w, cat) && RowOf(rows, m, p) && c in rows.connections && Variant(p.id, c.id) in cat.models
    ensures var own := Variant(p.id, c.id);
            && OverOwn(w, p, c).Some?
            && cat.models[own] == Record(Conn(c.id), OverOwn(w, p, c).value.wire, false, m.id, m.parameters, p)
            && own in cat.boundTo && cat.boundTo[own] == c
  {
    hide ServedAs, ConfigOf, Usable, Spelling, Keyed, StoredFaithful;
    assert EntryFaithful(rows, w, cat, Variant(p.id, c.id));
    var n, q, d :| VariantFaithful(rows, w, cat, Variant(p.id, c.id), n, q, d);
    SameRowAndModel(rows, m, p, n, q);
    GivesIsRow(rows, w, n, q, d);
    SameConnection(rows, c, d);
  }

  lemma SameConnection(rows: Rows, c: ConnectionRow, d: ConnectionRow)
    requires Keyed(rows) && c in rows.connections && d in rows.connections && c.id == d.id
    ensures c == d
  {
  }

  /** There is no other deployment: each is some row's canonical or some connection's
      variant of one; and every reference says where its key comes from. */
  lemma NothingElse(rows: Rows, w: Worker)
    requires Keyed(rows)
    ensures var cat := BuildCatalog(w, rows).catalog;
            && (forall id :: id in cat.models ==>
                  exists m, p :: RowOf(rows, m, p)
                    && (id == Canonical(p.id) || exists c: ConnectionRow :: id == Variant(p.id, c.id) && GivesVariant(rows, w, m, p, c)))
            && (forall name :: name in cat.connections ==> ConfigOf(rows, w, name) == Some(cat.connections[name]))
            && (forall env :: env in cat.refs ==> cat.refs[env] == CredentialRef(env, KindOf(env)))
  {
    BuiltIs(rows, w);
    var cat := BuildCatalog(w, rows).catalog;
    hide BuildCatalog, ServedAs, ConfigOf, OverOwn, Keyed, StoredFaithful, GivesVariant, RowOf, KindOf;
    forall id | id in cat.models
      ensures exists m, p :: RowOf(rows, m, p)
                && (id == Canonical(p.id) || exists c: ConnectionRow :: id == Variant(p.id, c.id) && GivesVariant(rows, w, m, p, c))
    {
      assert EntryFaithful(rows, w, cat, id);
    }
  }
}

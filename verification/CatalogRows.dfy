/** The platform rows a catalog is assembled from, the names it mints, and the
    indexes it reads them through. Uuids and slugs are naturals: they are compared
    and ordered, never taken apart. */
module CatalogRows {
  import opened Prelude
  import opened Sorting
  import opened Grouping

  type Org = nat
  type RowId = nat

  /** `mp-<row>` and `mp-<row>-c-<connection>`. */
  datatype DeploymentId = Canonical(row: RowId) | Variant(row: RowId, connection: RowId)

  datatype Provider =
    | OpenAI | Anthropic | Gemini | OpenRouter | AzureOpenAI | Bedrock | Fireworks | Modal | ExperientialCloud | Local
    | Other(name: string)

  datatype ModelRow = ModelRow(id: RowId, slug: nat, owner: Option<Org>, parameters: nat)

  /** `terms` stands for the row's frozen prices and capabilities. */
  datatype ProviderRow = ProviderRow(
    id: RowId, modelId: RowId, provider: Provider, wireModel: string, baseUrl: Option<string>, region: Option<string>,
    owner: Option<Org>, pinned: Option<RowId>, hostManaged: bool, disabled: bool, createdAt: int, terms: nat)

  datatype WaterfallRow = WaterfallRow(
    id: RowId, modelId: RowId, org: Option<Org>, position: int, providerRow: RowId, updatedAt: int)

  datatype AzureConfig = AzureConfig(endpoint: string, apiVersion: Option<string>, deployments: map<string, string>)

  /** `azure` is None when the stored config is not a valid Azure one. */
  datatype ConnectionRow = ConnectionRow(id: RowId, org: Org, provider: Provider, azure: Option<AzureConfig>, revision: nat)

  datatype Rows = Rows(
    models: seq<ModelRow>, providers: seq<ProviderRow>, waterfalls: seq<WaterfallRow>, connections: seq<ConnectionRow>,
    house: Option<Org>)

  // Orders and keys ----------------------------------------------------------

  predicate ModelBefore(a: ModelRow, b: ModelRow) {
    a.slug < b.slug || (a.slug == b.slug && a.id <= b.id)
  }

  predicate ProviderBefore(a: ProviderRow, b: ProviderRow) {
    a.createdAt < b.createdAt || (a.createdAt == b.createdAt && a.id <= b.id)
  }

  predicate RungBefore(a: WaterfallRow, b: WaterfallRow) {
    a.position <= b.position
  }

  predicate ConnectionBefore(a: ConnectionRow, b: ConnectionRow) {
    a.id <= b.id
  }

  function ModelOf(row: ProviderRow): RowId {
    row.modelId
  }

  type ChainKey = (RowId, Option<Org>)

  function ChainOf(rung: WaterfallRow): ChainKey {
    (rung.modelId, rung.org)
  }

  function ProviderOf(row: ConnectionRow): Provider {
    row.provider
  }

  // Indexes ------------------------------------------------------------------

  datatype Index = Index(
    models: seq<ModelRow>,
    providersByModel: map<RowId, seq<ProviderRow>>,
    chains: map<ChainKey, seq<WaterfallRow>>,
    connectionById: map<RowId, ConnectionRow>,
    connectionsByOrgProvider: map<(Org, Provider), ConnectionRow>,
    connectionsByProvider: map<Provider, seq<ConnectionRow>>,
    house: Option<Org>)
  {
    function ProvidersOf(model: RowId): seq<ProviderRow> {
      if model in providersByModel then providersByModel[model] else []
    }

    function Chain(key: ChainKey): seq<WaterfallRow> {
      if key in chains then chains[key] else []
    }

    function Connection(id: RowId): Option<ConnectionRow> {
      if id in connectionById then Some(connectionById[id]) else None
    }

    function ConnectionFor(org: Org, provider: Provider): Option<ConnectionRow> {
      if (org, provider) in connectionsByOrgProvider then Some(connectionsByOrgProvider[(org, provider)]) else None
    }

    function HouseConnection(provider: Provider): Option<ConnectionRow> {
      if house.None? then None else ConnectionFor(house.value, provider)
    }

    function ConnectionsOf(provider: Provider): seq<ConnectionRow> {
      if provider in connectionsByProvider then connectionsByProvider[provider] else []
    }
  }

  /** `{key(x): x for x in s}`: the last one wins. */
  function LastBy<T, K(==)>(s: seq<T>, key: T -> K): map<K, T> {
    if s == [] then map[] else LastBy(s[..|s| - 1], key)[key(s[|s| - 1]) := s[|s| - 1]]
  }

  function GroupMap<T(==,!new), K(==)>(s: seq<T>, key: T -> K): map<K, seq<T>> {
    map k | k in KeysOf(s, key) :: Having(s, key, k)
  }

  function KeysOf<T, K(==)>(s: seq<T>, key: T -> K): set<K> {
    set i | 0 <= i < |s| :: key(s[i])
  }

  function OrgProvider(row: ConnectionRow): (Org, Provider) {
    (row.org, row.provider)
  }

  function ConnectionId(row: ConnectionRow): RowId {
    row.id
  }

  function IndexOf(rows: Rows): Index {
    Index(
      Sort(rows.models, ModelBefore),
      GroupMap(Sort(rows.providers, ProviderBefore), ModelOf),
      map k | k in KeysOf(rows.waterfalls, ChainOf) :: Sort(Having(rows.waterfalls, ChainOf, k), RungBefore),
      LastBy(rows.connections, ConnectionId),
      LastBy(rows.connections, OrgProvider),
      GroupMap(Sort(rows.connections, ConnectionBefore), ProviderOf),
      rows.house)
  }

  /** What the tables' own keys guarantee. */
  ghost predicate Keyed(rows: Rows) {
    && (forall a, b :: a in rows.models && b in rows.models && a.id == b.id ==> a == b)
    && (forall a, b :: a in rows.providers && b in rows.providers && a.id == b.id ==> a == b)
    && (forall a, b :: a in rows.connections && b in rows.connections && a.id == b.id ==> a == b)
    && (forall a, b :: a in rows.connections && b in rows.connections && OrgProvider(a) == OrgProvider(b) ==> a == b)
    && (forall a, b :: a in rows.waterfalls && b in rows.waterfalls && ChainOf(a) == ChainOf(b) && a.position == b.position
          ==> a == b)
  }

  /** The same rows in another order. */
  ghost predicate Reordered(a: Rows, b: Rows) {
    && multiset(a.models) == multiset(b.models) && multiset(a.providers) == multiset(b.providers)
    && multiset(a.waterfalls) == multiset(b.waterfalls) && multiset(a.connections) == multiset(b.connections)
    && a.house == b.house
  }

  // The index forgets row order ----------------------------------------------

  lemma SameMembers<T>(a: seq<T>, b: seq<T>)
    requires multiset(a) == multiset(b)
    ensures forall x :: x in a <==> x in b
  {
    forall x ensures x in a <==> x in b {
      assert x in a <==> x in multiset(a);
      assert x in b <==> x in multiset(b);
    }
  }

  lemma {:induction false} HavingMultiset<T(!new), K>(s: seq<T>, key: T -> K, k: K, x: T)
    ensures multiset(Having(s, key, k))[x] == if key(x) == k then multiset(s)[x] else 0
  {
    if s != [] {
      var n := |s| - 1;
      var front, last := s[..n], s[n];
      HavingMultiset(front, key, k, x);
      assert s == front + [last];
      assert multiset(s) == multiset(front) + multiset{last};
      HavingSnoc(front, key, last, k);
      hide Having;
    }
  }

  lemma HavingReordered<T(!new), K>(a: seq<T>, b: seq<T>, key: T -> K, k: K)
    requires multiset(a) == multiset(b)
    ensures multiset(Having(a, key, k)) == multiset(Having(b, key, k))
  {
    var x, y := multiset(Having(a, key, k)), multiset(Having(b, key, k));
    forall e: T ensures x[e] == y[e] {
      HavingMultiset(a, key, k, e);
      HavingMultiset(b, key, k, e);
    }
  }

  lemma KeysSubset<T(!new), K>(a: seq<T>, b: seq<T>, key: T -> K)
    requires forall x :: x in a ==> x in b
    ensures KeysOf(a, key) <= KeysOf(b, key)
  {
    forall i | 0 <= i < |a| ensures key(a[i]) in KeysOf(b, key) {
      assert a[i] in a && a[i] in b;
      var j :| 0 <= j < |b| && b[j] == a[i];
    }
  }

  lemma KeysReordered<T(!new), K>(a: seq<T>, b: seq<T>, key: T -> K)
    requires multiset(a) == multiset(b)
    ensures KeysOf(a, key) == KeysOf(b, key)
  {
    SameMembers(a, b);
    KeysSubset(a, b, key);
    KeysSubset(b, a, key);
  }

  lemma {:induction false} LastByHolds<T(!new), K>(s: seq<T>, key: T -> K)
    requires forall a, b :: a in s && b in s && key(a) == key(b) ==> a == b
    ensures forall k :: k in LastBy(s, key) ==> LastBy(s, key)[k] in s && key(LastBy(s, key)[k]) == k
    ensures forall x :: x in s ==> key(x) in LastBy(s, key) && LastBy(s, key)[key(x)] == x
  {
    if s != [] {
      var n := |s| - 1;
      assert s == s[..n] + [s[n]];
      LastByHolds(s[..n], key);
    }
  }

  lemma LastByReordered<T(!new), K>(a: seq<T>, b: seq<T>, key: T -> K)
    requires multiset(a) == multiset(b)
    requires forall x, y :: x in a && y in a && key(x) == key(y) ==> x == y
    ensures LastBy(a, key) == LastBy(b, key)
  {
    SameMembers(a, b);
    LastByHolds(a, key);
    LastByHolds(b, key);
    var m, n := LastBy(a, key), LastBy(b, key);
    forall k | k in m ensures k in n && n[k] == m[k] {
    }
    forall k | k in n ensures k in m {
    }
  }

  lemma Orders()
    ensures Preorder(ModelBefore) && Preorder(ProviderBefore) && Preorder(RungBefore) && Preorder(ConnectionBefore)
  {
  }

  lemma ModelsReordered(a: Rows, b: Rows)
    requires Keyed(a) && Reordered(a, b)
    ensures Sort(a.models, ModelBefore) == Sort(b.models, ModelBefore)
  {
    Orders();
    assert NoTies(a.models, ModelBefore);
    SortForgetsOrder(a.models, b.models, ModelBefore);
  }

  lemma ProvidersReordered(a: Rows, b: Rows)
    requires Keyed(a) && Reordered(a, b)
    ensures Sort(a.providers, ProviderBefore) == Sort(b.providers, ProviderBefore)
  {
    Orders();
    assert NoTies(a.providers, ProviderBefore);
    SortForgetsOrder(a.providers, b.providers, ProviderBefore);
  }

  lemma ConnectionsReordered(a: Rows, b: Rows)
    requires Keyed(a) && Reordered(a, b)
    ensures Sort(a.connections, ConnectionBefore) == Sort(b.connections, ConnectionBefore)
    ensures LastBy(a.connections, ConnectionId) == LastBy(b.connections, ConnectionId)
    ensures LastBy(a.connections, OrgProvider) == LastBy(b.connections, OrgProvider)
  {
    Orders();
    assert NoTies(a.connections, ConnectionBefore);
    SortForgetsOrder(a.connections, b.connections, ConnectionBefore);
    LastByReordered(a.connections, b.connections, ConnectionId);
    LastByReordered(a.connections, b.connections, OrgProvider);
  }

  lemma ChainReordered(a: Rows, b: Rows, k: ChainKey)
    requires Keyed(a) && Reordered(a, b)
    ensures Sort(Having(a.waterfalls, ChainOf, k), RungBefore) == Sort(Having(b.waterfalls, ChainOf, k), RungBefore)
  {
    Orders();
    HavingReordered(a.waterfalls, b.waterfalls, ChainOf, k);
    assert NoTies(Having(a.waterfalls, ChainOf, k), RungBefore);
    SortForgetsOrder(Having(a.waterfalls, ChainOf, k), Having(b.waterfalls, ChainOf, k), RungBefore);
  }

  lemma ChainsReordered(a: Rows, b: Rows)
    requires Keyed(a) && Reordered(a, b)
    ensures IndexOf(a).chains == IndexOf(b).chains
  {
    KeysReordered(a.waterfalls, b.waterfalls, ChainOf);
    hide KeysOf;
    forall k ensures Sort(Having(a.waterfalls, ChainOf, k), RungBefore) == Sort(Having(b.waterfalls, ChainOf, k), RungBefore) {
      ChainReordered(a, b, k);
    }
    hide Sort, Having, Keyed, Reordered, LastBy, GroupMap;
  }

  /** The indexes do not depend on the order the rows came in. */
  lemma IndexForgetsOrder(a: Rows, b: Rows)
    requires Keyed(a) && Reordered(a, b)
    ensures IndexOf(a) == IndexOf(b)
  {
    ModelsReordered(a, b);
    ProvidersReordered(a, b);
    ConnectionsReordered(a, b);
    ChainsReordered(a, b);
    assert a.house == b.house;
    hide Sort, Having, Keyed, Reordered, LastBy, GroupMap, KeysOf;
  }

  // What the indexes hold ----------------------------------------------------

  lemma GroupMapHolds<T(!new), K>(s: seq<T>, key: T -> K, k: K, x: T)
    requires k in GroupMap(s, key) && x in GroupMap(s, key)[k]
    ensures x in s && key(x) == k
  {
  }

  lemma ModelIsRow(rows: Rows, m: ModelRow)
    ensures m in IndexOf(rows).models <==> m in rows.models
  {
    SortKeepsAll(rows.models, ModelBefore);
    hide Sort, LastBy, GroupMap, Having, KeysOf;
  }

  lemma ProviderIsRow(rows: Rows, m: RowId, p: ProviderRow)
    requires p in IndexOf(rows).ProvidersOf(m)
    ensures p in rows.providers && p.modelId == m
  {
    SortKeepsAll(rows.providers, ProviderBefore);
    GroupMapHolds(Sort(rows.providers, ProviderBefore), ModelOf, m, p);
    hide Sort, LastBy, GroupMap, Having, KeysOf;
  }

  lemma ConnectionIsRow(rows: Rows, id: RowId)
    requires Keyed(rows) && IndexOf(rows).Connection(id).Some?
    ensures var c := IndexOf(rows).Connection(id).value; c in rows.connections && c.id == id
  {
    LastByHolds(rows.connections, ConnectionId);
    hide Sort, LastBy, GroupMap, Having, KeysOf, Keyed;
  }

  lemma ConnectionForIsRow(rows: Rows, org: Org, provider: Provider)
    requires Keyed(rows) && IndexOf(rows).ConnectionFor(org, provider).Some?
    ensures var c := IndexOf(rows).ConnectionFor(org, provider).value;
            c in rows.connections && c.org == org && c.provider == provider
  {
    LastByHolds(rows.connections, OrgProvider);
    hide Sort, LastBy, GroupMap, Having, KeysOf, Keyed;
  }

  lemma ConnectionOfIsRow(rows: Rows, provider: Provider, c: ConnectionRow)
    requires c in IndexOf(rows).ConnectionsOf(provider)
    ensures c in rows.connections && c.provider == provider
  {
    SortKeepsAll(rows.connections, ConnectionBefore);
    GroupMapHolds(Sort(rows.connections, ConnectionBefore), ProviderOf, provider, c);
    hide Sort, LastBy, GroupMap, Having, KeysOf;
  }

  // Filling the indexes row by row -------------------------------------------

  lemma GroupMapSnoc<T(!new), K>(s: seq<T>, key: T -> K, x: T)
    ensures var m := GroupMap(s, key);
            GroupMap(s + [x], key) == m[key(x) := (if key(x) in m then m[key(x)] else []) + [x]]
  {
    var m, all := GroupMap(s, key), s + [x];
    var next := m[key(x) := (if key(x) in m then m[key(x)] else []) + [x]];
    KeysSnoc(s, key, x);
    GroupKeys(s, key);
    GroupKeys(all, key);
    forall k | k in GroupMap(all, key) ensures k in next && next[k] == GroupMap(all, key)[k] {
      GroupMapAt(s, key, x, k);
    }
    hide GroupMap, KeysOf, Having;
    assert GroupMap(all, key).Keys == next.Keys;
  }

  lemma GroupKeys<T(!new), K>(s: seq<T>, key: T -> K)
    ensures GroupMap(s, key).Keys == KeysOf(s, key)
  {
    hide Having, KeysOf;
  }

  lemma GroupMapAt<T(!new), K>(s: seq<T>, key: T -> K, x: T, k: K)
    requires k in GroupMap(s + [x], key)
    ensures var m := GroupMap(s, key);
            GroupMap(s + [x], key)[k] == (if k in m then m[k] else []) + if k == key(x) then [x] else []
  {
    HavingSnoc(s, key, x, k);
    if k !in KeysOf(s, key) {
      NoneHaving(s, key, k);
    }
    hide KeysOf;
    var was := Having(s, key, k);
    hide Having;
    assert was + [] == was;
  }

  lemma HavingSnoc<T(!new), K>(s: seq<T>, key: T -> K, x: T, k: K)
    ensures Having(s + [x], key, k) == Having(s, key, k) + if key(x) == k then [x] else []
  {
    assert (s + [x])[..|s|] == s;
  }

  lemma KeysSnoc<T, K>(s: seq<T>, key: T -> K, x: T)
    ensures KeysOf(s + [x], key) == KeysOf(s, key) + {key(x)}
  {
    var all := s + [x];
    assert forall i :: 0 <= i < |s| ==> all[i] == s[i];
    assert all[|s|] == x;
  }

  lemma {:induction false} NoneHaving<T(!new), K>(s: seq<T>, key: T -> K, k: K)
    requires k !in KeysOf(s, key)
    ensures Having(s, key, k) == []
  {
    if s != [] {
      var n := |s| - 1;
      KeysSnoc(s[..n], key, s[n]);
      assert s == s[..n] + [s[n]];
      hide KeysOf;
      NoneHaving(s[..n], key, k);
    }
  }

  /** `d.setdefault(key(x), []).append(x)` over a list. */
  method GroupInto<T(==,!new), K(==)>(s: seq<T>, key: T -> K) returns (groups: map<K, seq<T>>)
    ensures groups == GroupMap(s, key)
  {
    groups := map[];
    var i := 0;
    while i < |s|
      invariant i <= |s| && groups == GroupMap(s[..i], key)
    {
      hide GroupMap;
      assert s[..i + 1] == s[..i] + [s[i]];
      GroupMapSnoc(s[..i], key, s[i]);
      var k := key(s[i]);
      groups := groups[k := (if k in groups then groups[k] else []) + [s[i]]];
      i := i + 1;
    }
    assert s[..i] == s;
  }

  /** `{key(x): x for x in s}`. */
  method IndexBy<T, K(==)>(s: seq<T>, key: T -> K) returns (index: map<K, T>)
    ensures index == LastBy(s, key)
  {
    index := map[];
    var i := 0;
    while i < |s|
      invariant i <= |s| && index == LastBy(s[..i], key)
    {
      assert s[..i + 1][..i] == s[..i];
      index := index[key(s[i]) := s[i]];
      i := i + 1;
    }
    assert s[..i] == s;
  }
}

/** The assembled catalog is closed: nothing in it names anything that is not there,
    and what is bound to an organisation is bound to that organisation's own row. */
module CatalogClosed {
  import opened Prelude
  import opened Sorting
  import opened CatalogRows
  import opened CatalogAssembly

  // Invariants, entity by entity ---------------------------------------------

  /** A vault key is carried by the connection it belongs to, or by a platform lane
      of the house organisation. */
  ghost predicate KeyFits(rows: Rows, name: ConnectionName, key: Option<EnvName>) {
    key.Some? && key.value.VaultKey? ==>
      name == Conn(key.value.connection) || (name.Host? && IsHouse(rows, key.value.connection))
  }

  ghost predicate IsHouse(rows: Rows, connection: RowId) {
    exists c :: c in rows.connections && c.id == connection && Some(c.org) == rows.house
  }

  /** A config a connection name may carry. */
  ghost predicate ConfigFits(rows: Rows, name: ConnectionName, family: Family) {
    && (name.Conn? ==> forall c :: c in rows.connections && c.id == name.id ==> family == FamilyOf(c.provider))
    && (name.OwnKey? ==> forall p :: p in rows.providers && p.id == name.row ==> family == FamilyOf(p.provider))
    && (name.Platform? ==> family == FamilyOf(name.provider))
    && (name.PlatformBedrock? ==> family == BedrockFamily)
    && (name.Host? || name.LocalRow? ==> family == Compatible)
  }

  ghost predicate ConnectionOk(rows: Rows, cat: Catalog, name: ConnectionName)
    requires name in cat.connections
  {
    var config := cat.connections[name];
    && ConfigFits(rows, name, config.family) && KeyFits(rows, name, config.keyEnv)
    && (config.keyEnv.Some? ==> config.keyEnv.value in cat.refs && cat.refs[config.keyEnv.value].env == config.keyEnv.value)
  }

  /** The organisations whose connection a canonical of `row` may ride on: the house,
      or the owner of the row or of its model. */
  ghost predicate Home(rows: Rows, row: ProviderRow, org: Org) {
    || Some(org) == rows.house
    || exists m :: m in rows.models && m.id == row.modelId && Admissible(m, row) && OwnerOf(m, row) == Some(org)
  }

  ghost predicate BoundOk(rows: Rows, cat: Catalog, id: DeploymentId)
    requires id in cat.models
  {
    && (cat.models[id].connection.Conn? ==> id in cat.boundTo && cat.boundTo[id].id == cat.models[id].connection.id)
    && (id.Canonical? && id in cat.boundTo ==> Home(rows, cat.models[id].row, cat.boundTo[id].org))
    && (id.Variant? ==> id in cat.boundTo && cat.boundTo[id].id == id.connection
                        && cat.models[id].connection == Conn(id.connection))
    && (id in cat.boundTo ==> cat.boundTo[id] in rows.connections && cat.boundTo[id].provider == cat.models[id].row.provider)
  }

  ghost predicate RecordOk(rows: Rows, cat: Catalog, id: DeploymentId)
    requires id in cat.models
  {
    var r := cat.models[id];
    && r.row in rows.providers && r.row.id == id.row && r.exactModel == r.row.modelId
    && r.connection in cat.connections && cat.connections[r.connection].family == FamilyOf(r.row.provider)
    && BoundOk(rows, cat, id)
  }

  predicate VariantOk(cat: Catalog, org: Org, canonical: DeploymentId)
    requires org in cat.variants && canonical in cat.variants[org]
  {
    var v := cat.variants[org][canonical];
    && canonical.Canonical? && canonical in cat.models
    && v.Variant? && v.row == canonical.row && v in cat.models
    && v in cat.boundTo && cat.boundTo[v].org == org
  }

  predicate PoolOk(cat: Catalog, pool: PoolId)
    requires pool in cat.pools
  {
    var p := cat.pools[pool];
    |p.members| >= 2 && forall id :: id in p.members ==> id in cat.models && cat.models[id].exactModel == p.exactModel
  }

  ghost predicate ConnectionsOk(rows: Rows, cat: Catalog) {
    forall name :: name in cat.connections ==> ConnectionOk(rows, cat, name)
  }

  ghost predicate RecordsOk(rows: Rows, cat: Catalog) {
    && (forall id :: id in cat.models ==> RecordOk(rows, cat, id))
    && cat.boundTo.Keys <= cat.models.Keys
  }

  ghost predicate VariantsOk(cat: Catalog) {
    forall org, c :: org in cat.variants && c in cat.variants[org] ==> VariantOk(cat, org, c)
  }

  ghost predicate PoolsOk(cat: Catalog) {
    forall p :: p in cat.pools ==> PoolOk(cat, p)
  }

  predicate MarksOk(cat: Catalog) {
    && cat.ownKeyRequired <= cat.models.Keys && (forall id :: id in cat.ownKeyRequired ==> id.Canonical?)
    && cat.providers.Keys <= cat.models.Keys
  }

  /** The catalog's whole invariant. */
  ghost predicate Closed(rows: Rows, cat: Catalog) {
    ConnectionsOk(rows, cat) && RecordsOk(rows, cat) && VariantsOk(cat) && PoolsOk(cat) && MarksOk(cat)
  }

  /** No deployment already there is lost, and no pool is touched. */
  predicate Grows(cat: Catalog, next: Catalog) {
    cat.models.Keys <= next.models.Keys && cat.pools == next.pools
  }

  /** Assembling one model loses nothing, and writes no pool but its own. */
  ghost predicate GrowsBy(cat: Catalog, next: Catalog, model: RowId) {
    && cat.models.Keys <= next.models.Keys && cat.pools.Keys <= next.pools.Keys
    && forall p :: p in cat.pools && p.model != model ==> next.pools[p] == cat.pools[p]
  }

  // The writers --------------------------------------------------------------

  /** A connection written under a new name, or under one whose family it keeps. */
  predicate KeepsFamily(cat: Catalog, name: ConnectionName, config: ConnectionConfig) {
    name in cat.connections ==> cat.connections[name].family == config.family
  }

  lemma PutKeepsConnections(rows: Rows, cat: Catalog, name: ConnectionName, config: ConnectionConfig, kind: RefKind)
    requires ConnectionsOk(rows, cat) && ConfigFits(rows, name, config.family) && KeyFits(rows, name, config.keyEnv)
    ensures ConnectionsOk(rows, PutConnection(cat, name, config, kind))
  {
    hide ConfigFits;
    var next := PutConnection(cat, name, config, kind);
    forall n | n in next.connections ensures ConnectionOk(rows, next, n) {
      if n != name {
        assert ConnectionOk(rows, cat, n);
      }
    }
  }

  lemma PutKeepsRecords(rows: Rows, cat: Catalog, name: ConnectionName, config: ConnectionConfig, kind: RefKind)
    requires RecordsOk(rows, cat) && KeepsFamily(cat, name, config)
    ensures RecordsOk(rows, PutConnection(cat, name, config, kind))
  {
    var next := PutConnection(cat, name, config, kind);
    forall id | id in next.models ensures RecordOk(rows, next, id) {
      assert RecordOk(rows, cat, id);
    }
  }

  lemma SameTables(cat: Catalog, next: Catalog)
    requires VariantsOk(cat) && PoolsOk(cat) && MarksOk(cat)
    requires cat.models == next.models && cat.variants == next.variants && cat.pools == next.pools
    requires cat.boundTo == next.boundTo && cat.ownKeyRequired == next.ownKeyRequired && cat.providers == next.providers
    ensures VariantsOk(next) && PoolsOk(next) && MarksOk(next)
  {
    forall org, c | org in next.variants && c in next.variants[org] ensures VariantOk(next, org, c) {
      assert VariantOk(cat, org, c);
    }
    forall p | p in next.pools ensures PoolOk(next, p) {
      assert PoolOk(cat, p);
    }
  }

  lemma PutKeepsClosed(rows: Rows, cat: Catalog, name: ConnectionName, config: ConnectionConfig, kind: RefKind)
    requires Closed(rows, cat) && ConfigFits(rows, name, config.family) && KeyFits(rows, name, config.keyEnv)
    requires KeepsFamily(cat, name, config)
    ensures var next := PutConnection(cat, name, config, kind);
            Closed(rows, next) && Grows(cat, next) && next.models == cat.models
            && name in next.connections && next.connections[name] == config
  {
    PutKeepsConnections(rows, cat, name, config, kind);
    PutKeepsRecords(rows, cat, name, config, kind);
    SameTables(cat, PutConnection(cat, name, config, kind));
    hide ConnectionsOk, RecordsOk, VariantsOk, PoolsOk, MarksOk;
  }

  /** What a new record must come with. */
  ghost predicate RecordFits(rows: Rows, cat: Catalog, id: DeploymentId, name: ConnectionName, model: ModelRow, row: ProviderRow,
                       bound: Option<ConnectionRow>) {
    && row in rows.providers && row.id == id.row && row.modelId == model.id
    && name in cat.connections && cat.connections[name].family == FamilyOf(row.provider)
    && (id.Variant? ==> bound.Some? && bound.value.id == id.connection && name == Conn(id.connection))
    && (name.Conn? ==> bound.Some? && bound.value.id == name.id)
    && (bound.Some? ==> bound.value in rows.connections && bound.value.provider == row.provider)
    && (bound.Some? && id.Canonical? ==> Home(rows, row, bound.value.org))
  }

  /** A record's row is a function of its name. */
  lemma SameRow(rows: Rows, cat: Catalog, id: DeploymentId, row: ProviderRow)
    requires Keyed(rows) && id in cat.models && RecordOk(rows, cat, id) && row in rows.providers && row.id == id.row
    ensures cat.models[id].row == row
  {
  }

  lemma NewRecordOk(rows: Rows, cat: Catalog, id: DeploymentId, name: ConnectionName, wire: string, host: bool,
                    model: ModelRow, row: ProviderRow, bound: Option<ConnectionRow>)
    requires RecordFits(rows, cat, id, name, model, row, bound)
    requires id in cat.boundTo ==> id in cat.models && RecordOk(rows, cat, id) && cat.models[id].row == row
    ensures RecordOk(rows, AddRecord(cat, id, name, wire, host, model, row, bound), id)
  {
  }

  lemma OtherRecordOk(rows: Rows, cat: Catalog, next: Catalog, id: DeploymentId)
    requires id in cat.models && RecordOk(rows, cat, id)
    requires id in next.models && next.models[id] == cat.models[id] && next.connections == cat.connections
    requires (id in next.boundTo <==> id in cat.boundTo) && (id in cat.boundTo ==> next.boundTo[id] == cat.boundTo[id])
    ensures RecordOk(rows, next, id)
  {
  }

  lemma AddKeepsRecords(rows: Rows, cat: Catalog, id: DeploymentId, name: ConnectionName, wire: string, host: bool,
                        model: ModelRow, row: ProviderRow, bound: Option<ConnectionRow>)
    requires Keyed(rows) && RecordsOk(rows, cat) && RecordFits(rows, cat, id, name, model, row, bound)
    ensures RecordsOk(rows, AddRecord(cat, id, name, wire, host, model, row, bound))
  {
    var next := AddRecord(cat, id, name, wire, host, model, row, bound);
    if id in cat.models {
      SameRow(rows, cat, id, row);
    }
    NewRecordOk(rows, cat, id, name, wire, host, model, row, bound);
    hide Keyed, RecordOk, RecordFits;
    forall d | d in next.models && d != id ensures RecordOk(rows, next, d) {
      OtherRecordOk(rows, cat, next, d);
    }
  }

  /** A variant's organisation is the owner of the connection in its name. */
  lemma BoundStays(rows: Rows, cat: Catalog, id: DeploymentId, name: ConnectionName, wire: string, host: bool,
                   model: ModelRow, row: ProviderRow, bound: Option<ConnectionRow>, v: DeploymentId)
    requires Keyed(rows) && RecordFits(rows, cat, id, name, model, row, bound)
    requires v.Variant? && v in cat.models && RecordOk(rows, cat, v)
    ensures var next := AddRecord(cat, id, name, wire, host, model, row, bound);
            v in next.models && v in next.boundTo && next.boundTo[v] == cat.boundTo[v]
  {
  }

  lemma AddKeepsVariants(rows: Rows, cat: Catalog, id: DeploymentId, name: ConnectionName, wire: string, host: bool,
                         model: ModelRow, row: ProviderRow, bound: Option<ConnectionRow>)
    requires Keyed(rows) && RecordsOk(rows, cat) && VariantsOk(cat) && RecordFits(rows, cat, id, name, model, row, bound)
    ensures VariantsOk(AddRecord(cat, id, name, wire, host, model, row, bound))
  {
    hide Keyed, RecordFits, RecordOk;
    var next := AddRecord(cat, id, name, wire, host, model, row, bound);
    forall org, c | org in next.variants && c in next.variants[org] ensures VariantOk(next, org, c) {
      assert VariantOk(cat, org, c);
      BoundStays(rows, cat, id, name, wire, host, model, row, bound, cat.variants[org][c]);
    }
  }

  lemma AddKeepsPools(rows: Rows, cat: Catalog, id: DeploymentId, name: ConnectionName, wire: string, host: bool,
                      model: ModelRow, row: ProviderRow, bound: Option<ConnectionRow>)
    requires Keyed(rows) && RecordsOk(rows, cat) && PoolsOk(cat) && RecordFits(rows, cat, id, name, model, row, bound)
    ensures PoolsOk(AddRecord(cat, id, name, wire, host, model, row, bound))
  {
    var next := AddRecord(cat, id, name, wire, host, model, row, bound);
    if id in cat.models {
      assert RecordOk(rows, cat, id);
      SameRow(rows, cat, id, row);
    }
    hide Keyed, RecordOk;
    forall p | p in next.pools ensures PoolOk(next, p) {
      assert PoolOk(cat, p);
    }
  }

  lemma AddKeepsConnections(rows: Rows, cat: Catalog, id: DeploymentId, name: ConnectionName, wire: string, host: bool,
                            model: ModelRow, row: ProviderRow, bound: Option<ConnectionRow>)
    requires ConnectionsOk(rows, cat)
    ensures ConnectionsOk(rows, AddRecord(cat, id, name, wire, host, model, row, bound))
  {
    hide ConfigFits;
    var next := AddRecord(cat, id, name, wire, host, model, row, bound);
    forall n | n in next.connections ensures ConnectionOk(rows, next, n) {
      assert ConnectionOk(rows, cat, n);
    }
  }

  lemma AddKeepsClosed(rows: Rows, cat: Catalog, id: DeploymentId, name: ConnectionName, wire: string, host: bool,
                       model: ModelRow, row: ProviderRow, bound: Option<ConnectionRow>)
    requires Keyed(rows) && Closed(rows, cat) && RecordFits(rows, cat, id, name, model, row, bound)
    ensures var next := AddRecord(cat, id, name, wire, host, model, row, bound);
            Closed(rows, next) && Grows(cat, next) && id in next.models && next.models[id].row == row
  {
    hide Keyed, ConnectionsOk, RecordsOk, VariantsOk, PoolsOk, RecordFits;
    AddKeepsConnections(rows, cat, id, name, wire, host, model, row, bound);
    AddKeepsRecords(rows, cat, id, name, wire, host, model, row, bound);
    AddKeepsVariants(rows, cat, id, name, wire, host, model, row, bound);
    AddKeepsPools(rows, cat, id, name, wire, host, model, row, bound);
  }

  /** One organisation's variant of a canonical that is there. */
  predicate VariantFits(cat: Catalog, org: Org, canonical: DeploymentId, variant: DeploymentId) {
    && canonical.Canonical? && canonical in cat.models
    && variant.Variant? && variant.row == canonical.row && variant in cat.models
    && variant in cat.boundTo && cat.boundTo[variant].org == org
  }

  lemma VariantKeepsVariants(cat: Catalog, org: Org, canonical: DeploymentId, variant: DeploymentId)
    requires VariantsOk(cat) && VariantFits(cat, org, canonical, variant)
    ensures VariantsOk(AddVariant(cat, org, canonical, variant))
  {
    var next := AddVariant(cat, org, canonical, variant);
    forall o, c | o in next.variants && c in next.variants[o] ensures VariantOk(next, o, c) {
      if o != org || c != canonical {
        assert VariantOk(cat, o, c);
      }
    }
  }

  /** Tables a step leaves alone keep what was said of them. */
  lemma SameRecords(rows: Rows, cat: Catalog, next: Catalog)
    requires ConnectionsOk(rows, cat) && RecordsOk(rows, cat)
    requires cat.connections == next.connections && cat.refs == next.refs
    requires cat.models == next.models && cat.boundTo == next.boundTo
    ensures ConnectionsOk(rows, next) && RecordsOk(rows, next)
    ensures VariantsOk(cat) && cat.variants == next.variants ==> VariantsOk(next)
    ensures PoolsOk(cat) && cat.pools == next.pools ==> PoolsOk(next)
  {
    hide ConfigFits;
    forall n | n in next.connections ensures ConnectionOk(rows, next, n) {
      assert ConnectionOk(rows, cat, n);
    }
    forall id | id in next.models ensures RecordOk(rows, next, id) {
      OtherRecordOk(rows, cat, next, id);
    }
    if VariantsOk(cat) && cat.variants == next.variants {
      forall org, c | org in next.variants && c in next.variants[org] ensures VariantOk(next, org, c) {
        assert VariantOk(cat, org, c);
      }
    }
    if PoolsOk(cat) && cat.pools == next.pools {
      forall p | p in next.pools ensures PoolOk(next, p) {
        assert PoolOk(cat, p);
      }
    }
  }

  lemma VariantKeepsClosed(rows: Rows, cat: Catalog, org: Org, canonical: DeploymentId, variant: DeploymentId)
    requires Closed(rows, cat) && VariantFits(cat, org, canonical, variant)
    ensures Closed(rows, AddVariant(cat, org, canonical, variant)) && Grows(cat, AddVariant(cat, org, canonical, variant))
  {
    hide ConnectionsOk, RecordsOk, VariantsOk, PoolsOk, VariantFits;
    VariantKeepsVariants(cat, org, canonical, variant);
    SameRecords(rows, cat, AddVariant(cat, org, canonical, variant));
  }

  lemma MarkKeepsClosed(rows: Rows, cat: Catalog, next: Catalog)
    requires Closed(rows, cat) && MarksOk(next)
    requires cat.(providers := next.providers, ownKeyRequired := next.ownKeyRequired) == next
    ensures Closed(rows, next) && Grows(cat, next)
  {
    hide ConnectionsOk, RecordsOk, VariantsOk, PoolsOk;
    SameRecords(rows, cat, next);
  }

  lemma PoolKeepsClosed(rows: Rows, cat: Catalog, pool: PoolId, p: Pool)
    requires Closed(rows, cat)
    requires |p.members| >= 2 && forall id :: id in p.members ==> id in cat.models && cat.models[id].exactModel == p.exactModel
    ensures var next := cat.(pools := cat.pools[pool := p]); Closed(rows, next) && GrowsBy(cat, next, pool.model)
  {
    var next := cat.(pools := cat.pools[pool := p]);
    SameRecords(rows, cat, next);
    hide ConnectionsOk, RecordsOk, VariantsOk;
    forall q | q in next.pools ensures PoolOk(next, q) {
      if q != pool {
        assert PoolOk(cat, q);
      }
    }
  }

  // The registrations --------------------------------------------------------

  /** A registered connection: there, and of its provider's family. */
  predicate Registered(cat: Catalog, name: ConnectionName, provider: Provider) {
    name in cat.connections && cat.connections[name].family == FamilyOf(provider)
  }

  lemma ByokFamily(conn: ConnectionRow)
    ensures ByokConfig(conn).Some? ==>
              ByokConfig(conn).value.family == FamilyOf(conn.provider) && ByokConfig(conn).value.keyEnv == Some(VaultKey(conn.id))
  {
  }

  lemma ByokKeepsClosed(rows: Rows, w: Worker, cat: Catalog, conn: ConnectionRow)
    requires Keyed(rows) && Closed(rows, cat) && conn in rows.connections
    ensures var (next, name) := RegisterByok(w, cat, conn);
            && Closed(rows, next) && Grows(cat, next) && next.models == cat.models
            && (name.Some? ==> name.value == Conn(conn.id) && Registered(next, Conn(conn.id), conn.provider))
  {
    var name := Conn(conn.id);
    ByokFamily(conn);
    assert ConfigFits(rows, name, FamilyOf(conn.provider));
    if name in cat.connections {
      assert ConnectionOk(rows, cat, name);
    } else if w.releasable(conn.id) && ByokConfig(conn).Some? {
      hide Closed, ByokConfig, ConfigFits, FamilyOf;
      PutKeepsClosed(rows, cat, name, ByokConfig(conn).value, FromVault(conn.id));
    }
    hide ByokConfig, Closed;
  }

  lemma PlatformKeepsClosed(rows: Rows, w: Worker, cat: Catalog, provider: Provider)
    requires Closed(rows, cat)
    ensures var (next, name) := RegisterPlatform(w, cat, provider);
            && Closed(rows, next) && Grows(cat, next) && next.models == cat.models
            && (name.Some? ==> Registered(next, name.value, provider) && !name.value.Conn?)
  {
    var name := Platform(provider);
    var config := ConnectionConfig(FamilyOf(provider), None, None, Some(PlatformKey(provider)), None);
    assert ConfigFits(rows, name, config.family);
    hide FamilyOf, PutConnection;
    if name in cat.connections {
      assert ConnectionOk(rows, cat, name);
    } else {
      hide Closed, ConfigFits;
      PutKeepsClosed(rows, cat, name, config, FromPlatform);
    }
    hide Closed;
  }

  lemma BedrockKeepsClosed(rows: Rows, cat: Catalog, region: Option<string>)
    requires Closed(rows, cat)
    ensures var (next, name) := RegisterBedrock(cat, region);
            && Closed(rows, next) && Grows(cat, next) && next.models == cat.models && Registered(next, name, Bedrock) && !name.Conn?
  {
    var name := PlatformBedrock(region);
    var config := ConnectionConfig(BedrockFamily, None, None, None, region);
    assert ConfigFits(rows, name, config.family);
    if name in cat.connections {
      assert ConnectionOk(rows, cat, name);
    } else {
      hide Closed, ConfigFits, PutConnection;
      PutKeepsClosed(rows, cat, name, config, Placeholder);
    }
    hide Closed, PutConnection;
  }

  lemma OwnKeyFamily(row: ProviderRow)
    ensures OwnKeyConfig(row).Some? ==>
              OwnKeyConfig(row).value.family == FamilyOf(row.provider)
              && OwnKeyConfig(row).value.keyEnv == Some(OwnKeyPlaceholder(row.id))
  {
  }

  lemma OwnKeyKeepsClosed(rows: Rows, cat: Catalog, row: ProviderRow)
    requires Keyed(rows) && Closed(rows, cat) && row in rows.providers
    ensures var (next, name) := RegisterOwnKey(cat, row);
            && Closed(rows, next) && Grows(cat, next) && next.models == cat.models
            && (name.Some? ==> Registered(next, name.value, row.provider) && !name.value.Conn?)
  {
    var name := OwnKey(row.id);
    OwnKeyFamily(row);
    assert ConfigFits(rows, name, FamilyOf(row.provider));
    if name in cat.connections {
      assert ConnectionOk(rows, cat, name);
    } else if OwnKeyConfig(row).Some? {
      hide Closed, ConfigFits, FamilyOf, PutConnection, OwnKeyConfig;
      PutKeepsClosed(rows, cat, name, OwnKeyConfig(row).value, Placeholder);
    }
    hide Closed, FamilyOf, PutConnection, OwnKeyConfig;
  }

  /** A lane a row may be served through. */
  predicate LaneFits(rows: Rows, cat: Catalog, row: ProviderRow, lane: Lane) {
    && Registered(cat, lane.name, row.provider)
    && (lane.name.Conn? ==> lane.house.Some? && lane.house.value.id == lane.name.id)
    && (lane.house.Some? ==> lane.house.value in rows.connections && lane.house.value.provider == row.provider
                             && Some(lane.house.value.org) == rows.house)
  }

  lemma HouseOf(rows: Rows)
    ensures IndexOf(rows).house == rows.house
  {
  }

  lemma HouseIsRow(rows: Rows, provider: Provider)
    requires Keyed(rows) && IndexOf(rows).HouseConnection(provider).Some?
    ensures var c := IndexOf(rows).HouseConnection(provider).value;
            c in rows.connections && c.provider == provider && Some(c.org) == rows.house
  {
    HouseOf(rows);
    hide IndexOf, Keyed;
    ConnectionForIsRow(rows, IndexOf(rows).house.value, provider);
  }

  lemma FixedLaneKeepsClosed(rows: Rows, w: Worker, cat: Catalog, row: ProviderRow)
    requires Keyed(rows) && Closed(rows, cat)
    ensures var (next, lane) := FixedOriginLane(w, IndexOf(rows), cat, row);
            && Closed(rows, next) && Grows(cat, next) && next.models == cat.models
            && (lane.Some? ==> LaneFits(rows, next, row, lane.value))
  {
    hide Closed, RegisterByok, RegisterPlatform, IndexOf, Keyed, Index.HouseConnection, FamilyOf;
    var house := IndexOf(rows).HouseConnection(row.provider);
    if house.Some? {
      HouseIsRow(rows, row.provider);
      ByokKeepsClosed(rows, w, cat, house.value);
      var (first, own) := RegisterByok(w, cat, house.value);
      PlatformKeepsClosed(rows, w, first, row.provider);
    } else {
      PlatformKeepsClosed(rows, w, cat, row.provider);
    }
  }

  lemma AzureLaneKeepsClosed(rows: Rows, w: Worker, cat: Catalog, row: ProviderRow)
    requires Keyed(rows) && Closed(rows, cat) && row.provider == AzureOpenAI
    ensures var (next, lane) := AzureLane(w, IndexOf(rows), cat, row);
            && Closed(rows, next) && Grows(cat, next) && next.models == cat.models
            && (lane.Some? ==> LaneFits(rows, next, row, lane.value))
  {
    hide Closed, RegisterByok, IndexOf, Keyed, Index.HouseConnection, FamilyOf, WireModel;
    var house := IndexOf(rows).HouseConnection(AzureOpenAI);
    if house.Some? {
      HouseIsRow(rows, AzureOpenAI);
      ByokKeepsClosed(rows, w, cat, house.value);
    }
  }

  lemma HostPutKeepsClosed(rows: Rows, cat: Catalog, name: ConnectionName, config: ConnectionConfig, kind: RefKind)
    requires Closed(rows, cat) && (name.Host? || name.LocalRow?) && config.family == Compatible
    requires KeyFits(rows, name, config.keyEnv)
    ensures var next := PutConnection(cat, name, config, kind);
            && Closed(rows, next) && Grows(cat, next) && next.models == cat.models
            && name in next.connections && next.connections[name] == config
  {
    if name in cat.connections {
      assert ConnectionOk(rows, cat, name);
    }
    assert ConfigFits(rows, name, config.family);
    hide Closed, ConfigFits;
    PutKeepsClosed(rows, cat, name, config, kind);
  }

  lemma CloudLaneKeepsClosed(rows: Rows, w: Worker, cat: Catalog, row: ProviderRow)
    requires Closed(rows, cat) && row.provider == ExperientialCloud
    ensures var (next, lane) := CloudLane(w, cat, row);
            && Closed(rows, next) && Grows(cat, next) && next.models == cat.models
            && (lane.Some? ==> LaneFits(rows, next, row, lane.value))
  {
    hide Closed, PutConnection;
    var url := Or(row.baseUrl, w.cloudUrl);
    if url.Some? && w.acceptable(url.value) {
      var (key, kind) := if w.cloudKey then (PlatformKey(ExperientialCloud), FromPlatform) else (CloudPlaceholder(row.id), Placeholder);
      HostPutKeepsClosed(rows, cat, Host(row.id), ConnectionConfig(Compatible, url, None, Some(key), None), kind);
    }
  }

  lemma CompatibleLaneKeepsClosed(rows: Rows, w: Worker, cat: Catalog, row: ProviderRow)
    requires Keyed(rows) && Closed(rows, cat) && row.provider in COMPATIBLE_HOSTS
    ensures var (next, lane) := CompatibleLane(w, IndexOf(rows), cat, row);
            && Closed(rows, next) && Grows(cat, next) && next.models == cat.models
            && (lane.Some? ==> LaneFits(rows, next, row, lane.value))
  {
    assert FamilyOf(row.provider) == Compatible;
    hide Closed, PutConnection, CloudLane, IndexOf, Keyed, Index.HouseConnection, FamilyOf, Or, DefaultUrl, CompatibleKey;
    if row.provider.ExperientialCloud? {
      CloudLaneKeepsClosed(rows, w, cat, row);
    } else {
      var url := Or(row.baseUrl, DefaultUrl(row.provider));
      var key := CompatibleKey(w, row.provider, ReleasableHouse(w, IndexOf(rows), row.provider));
      if IndexOf(rows).HouseConnection(row.provider).Some? {
        HouseIsRow(rows, row.provider);
      }
      if key.Some? {
        HostPutKeepsClosed(rows, cat, Host(row.id), ConnectionConfig(Compatible, url, None, Some(key.value.0), None), key.value.1);
      }
    }
  }

  lemma HostLaneKeepsClosed(rows: Rows, w: Worker, cat: Catalog, row: ProviderRow)
    requires Keyed(rows) && Closed(rows, cat)
    ensures var (next, lane) := HostLane(w, IndexOf(rows), cat, row);
            && Closed(rows, next) && Grows(cat, next) && next.models == cat.models
            && (lane.Some? ==> LaneFits(rows, next, row, lane.value))
  {
    hide Closed, IndexOf, Keyed, CompatibleLane, AzureLane, FixedOriginLane, RegisterBedrock, FamilyOf;
    if row.provider.Bedrock? {
      BedrockKeepsClosed(rows, cat, row.region);
    } else if row.provider in COMPATIBLE_HOSTS {
      CompatibleLaneKeepsClosed(rows, w, cat, row);
    } else if row.provider.AzureOpenAI? {
      AzureLaneKeepsClosed(rows, w, cat, row);
    } else {
      FixedLaneKeepsClosed(rows, w, cat, row);
    }
  }

  // Deployments --------------------------------------------------------------

  /** A row under the model that asks for it. */
  predicate RowOf(rows: Rows, model: ModelRow, row: ProviderRow) {
    row in rows.providers && row.modelId == model.id && model in rows.models
  }

  lemma HostKeepsClosed(rows: Rows, w: Worker, cat: Catalog, model: ModelRow, row: ProviderRow)
    requires Keyed(rows) && Closed(rows, cat) && RowOf(rows, model, row)
    ensures var (next, id) := HostDeployment(w, IndexOf(rows), cat, model, row);
            Closed(rows, next) && Grows(cat, next)
  {
    hide Closed, IndexOf, Keyed, HostLane, AddRecord, FamilyOf;
    HostLaneKeepsClosed(rows, w, cat, row);
    var (next, lane) := HostLane(w, IndexOf(rows), cat, row);
    if lane.Some? {
      AddKeepsClosed(rows, next, Canonical(row.id), lane.value.name, lane.value.wireModel, true, model, row, lane.value.house);
    }
  }

  lemma ByokDeploymentKeepsClosed(rows: Rows, w: Worker, cat: Catalog, model: ModelRow, row: ProviderRow, conn: ConnectionRow,
                                  id: DeploymentId)
    requires Keyed(rows) && Closed(rows, cat) && RowOf(rows, model, row)
    requires conn in rows.connections && conn.provider == row.provider
    requires id == Variant(row.id, conn.id) || (id == Canonical(row.id) && Home(rows, row, conn.org))
    ensures var (next, made) := ByokDeployment(w, cat, model, row, conn, id);
            && Closed(rows, next) && Grows(cat, next)
            && (made.Some? ==> id in next.models && id in next.boundTo && next.boundTo[id] == conn)
  {
    hide Closed, Keyed, RegisterByok, WireModel, FamilyOf, BYOK_ROUTABLE;
    ByokKeepsClosed(rows, w, cat, conn);
    var (next, name) := RegisterByok(w, cat, conn);
    if name.Some? && WireModel(row, conn).Some? {
      AddKeepsClosed(rows, next, id, name.value, WireModel(row, conn).value, false, model, row, Some(conn));
    }
  }

  lemma OwnerIsHome(rows: Rows, model: ModelRow, row: ProviderRow, org: Org)
    requires RowOf(rows, model, row) && Admissible(model, row) && OwnerOf(model, row) == Some(org)
    ensures Home(rows, row, org)
  {
  }

  lemma PinnedKeepsClosed(rows: Rows, w: Worker, cat: Catalog, model: ModelRow, row: ProviderRow)
    requires Keyed(rows) && Closed(rows, cat) && RowOf(rows, model, row) && row.pinned.Some?
    requires Admissible(model, row)
    ensures var (next, id) := PinnedDeployment(w, IndexOf(rows), cat, model, row); Closed(rows, next) && Grows(cat, next)
  {
    hide Closed, Keyed, IndexOf, ByokDeployment, Index.Connection;
    var conn := IndexOf(rows).Connection(row.pinned.value);
    if conn.Some? {
      ConnectionIsRow(rows, row.pinned.value);
      if conn.value.provider == row.provider && OwnerOf(model, row) == Some(conn.value.org) {
        OwnerIsHome(rows, model, row, conn.value.org);
        ByokDeploymentKeepsClosed(rows, w, cat, model, row, conn.value, Canonical(row.id));
      }
    }
  }

  lemma LocalKeepsClosed(rows: Rows, w: Worker, cat: Catalog, model: ModelRow, row: ProviderRow)
    requires Keyed(rows) && Closed(rows, cat) && RowOf(rows, model, row) && row.provider.Local?
    ensures var (next, id) := LocalDeployment(w, cat, model, row); Closed(rows, next) && Grows(cat, next)
  {
    hide Closed, Keyed, PutConnection, AddRecord;
    var name := LocalRow(row.id);
    var config := ConnectionConfig(Compatible, row.baseUrl, None, Some(LocalPlaceholder(row.id)), None);
    HostPutKeepsClosed(rows, cat, name, config, Placeholder);
    AddKeepsClosed(rows, PutConnection(cat, name, config, Placeholder), Canonical(row.id), name, row.wireModel, false, model, row, None);
  }

  lemma PublicKeepsClosed(rows: Rows, w: Worker, cat: Catalog, model: ModelRow, row: ProviderRow)
    requires Keyed(rows) && Closed(rows, cat) && RowOf(rows, model, row)
    ensures var (next, id) := PublicByokCanonical(cat, model, row); Closed(rows, next) && Grows(cat, next)
  {
    hide Keyed, RegisterOwnKey, AddRecord, FamilyOf, BYOK_ROUTABLE, ConnectionsOk, RecordsOk, VariantsOk, PoolsOk;
    OwnKeyKeepsClosed(rows, cat, row);
    var (next, name) := RegisterOwnKey(cat, row);
    if name.Some? {
      AddKeepsClosed(rows, next, Canonical(row.id), name.value, row.wireModel, false, model, row, None);
      var added := AddRecord(next, Canonical(row.id), name.value, row.wireModel, false, model, row, None);
      MarkKeepsClosed(rows, added, added.(ownKeyRequired := added.ownKeyRequired + {Canonical(row.id)}));
    }
  }

  lemma UnpinnedKeepsClosed(rows: Rows, w: Worker, cat: Catalog, model: ModelRow, row: ProviderRow)
    requires Keyed(rows) && Closed(rows, cat) && RowOf(rows, model, row)
    requires Admissible(model, row)
    ensures var (next, id) := UnpinnedDeployment(w, IndexOf(rows), cat, model, row); Closed(rows, next) && Grows(cat, next)
  {
    hide Closed, Keyed, IndexOf, ByokDeployment, PublicByokCanonical, Index.ConnectionFor, BYOK_ROUTABLE;
    var owner := OwnerOf(model, row);
    if owner.None? {
      PublicKeepsClosed(rows, w, cat, model, row);
    } else if IndexOf(rows).ConnectionFor(owner.value, row.provider).Some? {
      ConnectionForIsRow(rows, owner.value, row.provider);
      OwnerIsHome(rows, model, row, owner.value);
      ByokDeploymentKeepsClosed(rows, w, cat, model, row, IndexOf(rows).ConnectionFor(owner.value, row.provider).value,
                                Canonical(row.id));
    }
  }

  lemma CanonicalKeepsClosed(rows: Rows, w: Worker, cat: Catalog, model: ModelRow, row: ProviderRow)
    requires Keyed(rows) && Closed(rows, cat) && RowOf(rows, model, row)
    ensures var (next, id) := CanonicalDeployment(w, IndexOf(rows), cat, model, row); Closed(rows, next) && Grows(cat, next)
  {
    hide Closed, Keyed, IndexOf, Admissible, PinnedDeployment, LocalDeployment, HostDeployment, UnpinnedDeployment, RowOf;
    if !Admissible(model, row) {
    } else if row.pinned.Some? {
      PinnedKeepsClosed(rows, w, cat, model, row);
    } else if row.provider.Local? {
      LocalKeepsClosed(rows, w, cat, model, row);
    } else if row.hostManaged {
      HostKeepsClosed(rows, w, cat, model, row);
    } else {
      UnpinnedKeepsClosed(rows, w, cat, model, row);
    }
  }

  // Variants -----------------------------------------------------------------

  lemma WithVariantKeepsClosed(rows: Rows, w: Worker, cat: Catalog, model: ModelRow, row: ProviderRow, conn: ConnectionRow)
    requires Keyed(rows) && Closed(rows, cat) && RowOf(rows, model, row) && Canonical(row.id) in cat.models
    requires conn in rows.connections && conn.provider == row.provider
    ensures Closed(rows, WithVariant(w, cat, model, row, conn)) && Grows(cat, WithVariant(w, cat, model, row, conn))
  {
    hide Closed, Keyed, ByokDeployment, AddVariant, RowOf;
    var v := Variant(row.id, conn.id);
    ByokDeploymentKeepsClosed(rows, w, cat, model, row, conn, v);
    var (next, id) := ByokDeployment(w, cat, model, row, conn, v);
    if id.Some? {
      VariantKeepsClosed(rows, next, conn.org, Canonical(row.id), v);
    }
  }

  lemma {:induction false} WithVariantsKeepsClosed(rows: Rows, w: Worker, cat: Catalog, model: ModelRow, row: ProviderRow,
                                                   conns: seq<ConnectionRow>)
    requires Keyed(rows) && Closed(rows, cat) && RowOf(rows, model, row) && Canonical(row.id) in cat.models
    requires forall c :: c in conns ==> c in rows.connections && c.provider == row.provider
    ensures var next := WithVariants(w, cat, model, row, conns); Closed(rows, next) && Grows(cat, next)
  {
    hide Closed, Keyed, WithVariant, RowOf;
    if conns != [] {
      var n := |conns| - 1;
      WithVariantsKeepsClosed(rows, w, cat, model, row, conns[..n]);
      assert conns[n] in conns;
      WithVariantKeepsClosed(rows, w, WithVariants(w, cat, model, row, conns[..n]), model, row, conns[n]);
    }
  }

  lemma AddVariantsKeepsClosed(rows: Rows, w: Worker, cat: Catalog, model: ModelRow, row: ProviderRow)
    requires Keyed(rows) && Closed(rows, cat) && RowOf(rows, model, row) && Canonical(row.id) in cat.models
    ensures var next := AddVariants(w, IndexOf(rows), cat, model, row); Closed(rows, next) && Grows(cat, next)
  {
    hide Closed, Keyed, WithVariants, RowOf, IndexOf, Index.ConnectionsOf, Eligible, BYOK_ROUTABLE;
    var conns := Eligible(IndexOf(rows), model, IndexOf(rows).ConnectionsOf(row.provider));
    forall c | c in conns ensures c in rows.connections && c.provider == row.provider {
      ConnectionOfIsRow(rows, row.provider, c);
    }
    WithVariantsKeepsClosed(rows, w, cat, model, row, conns);
  }

  // Rows, models, builds -----------------------------------------------------

  lemma AddRowKeepsClosed(rows: Rows, w: Worker, cat: Catalog, model: ModelRow, row: ProviderRow)
    requires Keyed(rows) && Closed(rows, cat) && RowOf(rows, model, row)
    ensures var (next, id) := AddRow(w, IndexOf(rows), cat, model, row);
            Closed(rows, next) && Grows(cat, next) && (id.Some? ==> id.value in next.models)
  {
    hide Keyed, IndexOf, CanonicalDeployment, AddVariants, RowOf, ConnectionsOk, RecordsOk, VariantsOk, PoolsOk;
    CanonicalKeepsClosed(rows, w, cat, model, row);
    var (next, id) := CanonicalDeployment(w, IndexOf(rows), cat, model, row);
    if id.Some? {
      var named := next.(providers := next.providers[Canonical(row.id) := row.provider]);
      MarkKeepsClosed(rows, next, named);
      AddVariantsKeepsClosed(rows, w, named, model, row);
    }
  }

  /** The canonical of one of the model's own provider rows. */
  ghost predicate CanonicalOf(rows: Rows, model: ModelRow, id: DeploymentId) {
    exists p :: RowOf(rows, model, p) && id == Canonical(p.id)
  }

  /** The canonicals of a model: registered, and its own. */
  ghost predicate CanonicalsOk(rows: Rows, model: ModelRow, cat: Catalog, ids: seq<DeploymentId>) {
    forall id :: id in ids ==> id in cat.models && CanonicalOf(rows, model, id)
  }

  lemma {:induction false} AddRowsKeepsClosed(rows: Rows, w: Worker, cat: Catalog, model: ModelRow, some: seq<ProviderRow>)
    requires Keyed(rows) && Closed(rows, cat) && forall p :: p in some ==> RowOf(rows, model, p)
    ensures var (next, ids) := AddRows(w, IndexOf(rows), cat, model, some);
            Closed(rows, next) && Grows(cat, next) && CanonicalsOk(rows, model, next, ids)
  {
    hide Closed, Keyed, IndexOf, AddRow, RowOf;
    if some != [] {
      var n := |some| - 1;
      AddRowsKeepsClosed(rows, w, cat, model, some[..n]);
      assert some[n] in some;
      var (before, ids) := AddRows(w, IndexOf(rows), cat, model, some[..n]);
      AddRowKeepsClosed(rows, w, before, model, some[n]);
      assert CanonicalOf(rows, model, Canonical(some[n].id));
    }
  }

  lemma CanonicalsModel(rows: Rows, model: ModelRow, cat: Catalog, id: DeploymentId)
    requires Keyed(rows) && RecordsOk(rows, cat) && id in cat.models && CanonicalOf(rows, model, id)
    ensures cat.models[id].exactModel == model.id
  {
    assert RecordOk(rows, cat, id);
    var p :| RowOf(rows, model, p) && id == Canonical(p.id);
    SameRow(rows, cat, id, p);
  }

  /** A draft's deployments are its model's own registered canonicals, and its target
      is there. */
  ghost predicate DraftOk(rows: Rows, cat: Catalog, draft: Draft) {
    && draft.deployments != [] && CanonicalsOk(rows, draft.model, cat, draft.deployments)
    && match draft.target {
         case ToPool(p) => p in cat.pools && |draft.deployments| >= 2
         case ToDeployment(d) => draft.deployments == [d]
       }
  }

  /** A draft that targets a pool finds there its own model, deployments and chain. */
  ghost predicate InItsPool(cat: Catalog, draft: Draft) {
    draft.target.ToPool? ==>
      && draft.target.pool.model == draft.model.id && draft.target.pool in cat.pools && draft.certified.Some?
      && cat.pools[draft.target.pool] == Pool(draft.model.id, draft.deployments, draft.certified.value)
  }

  lemma ServingOf(cat: Catalog, chain: seq<WaterfallRow>, chainOrg: Option<Org>, ordered: seq<DeploymentId>)
    ensures forall id :: id in Serving(cat, chain, chainOrg, ordered) ==> id in ordered
    ensures |Serving(cat, chain, chainOrg, ordered)| == |Routable(chain, ordered)|
  {
    SortKeepsAll(Routable(chain, ordered), HouseBefore(cat));
    hide Sort, Routable, HouseOrderingApplies;
  }

  lemma DraftKeepsClosed(rows: Rows, cat: Catalog, model: ModelRow, ordered: seq<DeploymentId>)
    requires Keyed(rows) && Closed(rows, cat) && ordered != [] && CanonicalsOk(rows, model, cat, ordered)
    ensures var (next, draft) := DraftPlan(IndexOf(rows), cat, model, ordered);
            && Closed(rows, next) && GrowsBy(cat, next, model.id) && DraftOk(rows, next, draft) && draft.model == model
            && InItsPool(next, draft)
            && (draft.target.ToPool? ==> draft.certified == Some(ModelChain(IndexOf(rows), model).0))
  {
    hide Keyed, IndexOf, Serving, ModelChain, ConnectionsOk, RecordsOk, VariantsOk, PoolsOk, CanonicalOf;
    var (chain, chainOrg) := ModelChain(IndexOf(rows), model);
    var serving := Serving(cat, chain, chainOrg, ordered);
    ServingOf(cat, chain, chainOrg, ordered);
    forall id | id in serving ensures id in cat.models && cat.models[id].exactModel == model.id {
      CanonicalsModel(rows, model, cat, id);
    }
    if |serving| >= 2 {
      PoolKeepsClosed(rows, cat, Wf(model.id, chainOrg), Pool(model.id, serving, chain));
    }
  }

  lemma ModelKeepsClosed(rows: Rows, w: Worker, cat: Catalog, model: ModelRow)
    requires Keyed(rows) && Closed(rows, cat) && model in rows.models
    ensures var (next, draft) := AssembleModel(w, IndexOf(rows), cat, model);
            && Closed(rows, next) && GrowsBy(cat, next, model.id)
            && (draft.Some? ==> DraftOk(rows, next, draft.value) && draft.value.model == model && InItsPool(next, draft.value))
  {
    hide Closed, Keyed, IndexOf, AddRows, DraftPlan, DraftOk, CanonicalsOk, Index.ProvidersOf;
    var some := IndexOf(rows).ProvidersOf(model.id);
    forall p | p in some ensures RowOf(rows, model, p) {
      ProviderIsRow(rows, model.id, p);
    }
    AddRowsKeepsClosed(rows, w, cat, model, some);
    var (next, ordered) := AddRows(w, IndexOf(rows), cat, model, some);
    if ordered != [] {
      DraftKeepsClosed(rows, next, model, ordered);
    }
  }

  lemma DraftStays(rows: Rows, cat: Catalog, next: Catalog, draft: Draft, model: RowId)
    requires DraftOk(rows, cat, draft) && GrowsBy(cat, next, model)
    ensures DraftOk(rows, next, draft)
    ensures InItsPool(cat, draft) && draft.model.id != model ==> InItsPool(next, draft)
  {
  }

  lemma {:induction false} ModelsKeepClosed(rows: Rows, w: Worker, models: seq<ModelRow>)
    requires Keyed(rows) && forall m :: m in models ==> m in rows.models
    ensures var (cat, drafts) := AssembleModels(w, IndexOf(rows), models);
            Closed(rows, cat) && forall d :: d in drafts ==> DraftOk(rows, cat, d)
  {
    if models == [] {
      EmptyIsClosed(rows);
    } else {
      hide Closed, Keyed, IndexOf, AssembleModel, DraftOk, GrowsBy, InItsPool;
      var n := |models| - 1;
      assert models[n] in models;
      ModelsKeepClosed(rows, w, models[..n]);
      var (before, drafts) := AssembleModels(w, IndexOf(rows), models[..n]);
      ModelKeepsClosed(rows, w, before, models[n]);
      var (after, draft) := AssembleModel(w, IndexOf(rows), before, models[n]);
      forall d | d in drafts ensures DraftOk(rows, after, d) {
        DraftStays(rows, before, after, d, models[n].id);
      }
    }
  }

  /** When no model comes twice, no later model writes an earlier model's pool. */
  lemma {:induction false} PoolsAreKept(rows: Rows, w: Worker, models: seq<ModelRow>)
    requires Keyed(rows) && NoDuplicates(models) && forall m :: m in models ==> m in rows.models
    ensures var (cat, drafts) := AssembleModels(w, IndexOf(rows), models);
            forall d :: d in drafts ==> d.model in models && InItsPool(cat, d)
  {
    if models != [] {
      var n := |models| - 1;
      assert models[n] in models && forall m :: m in models[..n] ==> m in models && m.id != models[n].id;
      hide Closed, IndexOf, AssembleModel, DraftOk, GrowsBy, InItsPool;
      PoolsAreKept(rows, w, models[..n]);
      ModelsKeepClosed(rows, w, models[..n]);
      var (before, drafts) := AssembleModels(w, IndexOf(rows), models[..n]);
      ModelKeepsClosed(rows, w, before, models[n]);
      var (after, draft) := AssembleModel(w, IndexOf(rows), before, models[n]);
      forall d | d in drafts ensures InItsPool(after, d) {
        DraftStays(rows, before, after, d, models[n].id);
      }
    }
  }

  lemma EmptyIsClosed(rows: Rows)
    ensures Closed(rows, EMPTY)
  {
  }

  // What a finished build guarantees -----------------------------------------

  ghost predicate PlanOk(rows: Rows, cat: Catalog, plan: Plan) {
    && plan.deployments != []
    && (forall id :: id in plan.deployments ==> id in cat.models && cat.models[id].exactModel == plan.aliasId)
    && match plan.target {
         case ToPool(p) => p in cat.pools
         case ToDeployment(d) => plan.deployments == [d]
       }
  }

  lemma DraftToPlan(rows: Rows, cat: Catalog, draft: Draft)
    requires Keyed(rows) && Closed(rows, cat) && DraftOk(rows, cat, draft)
    ensures PlanOk(rows, cat, FinalizePlan(cat, draft))
  {
    hide Keyed, Revisions, CanonicalOf, RecordsOk, ConnectionsOk, VariantsOk, PoolsOk;
    forall id | id in draft.deployments ensures id in cat.models && cat.models[id].exactModel == draft.model.id {
      CanonicalsModel(rows, draft.model, cat, id);
    }
  }

  lemma {:induction false} PlansOk(rows: Rows, cat: Catalog, drafts: seq<Draft>)
    requires Keyed(rows) && Closed(rows, cat) && forall d :: d in drafts ==> DraftOk(rows, cat, d)
    ensures forall p :: p in FinalizePlans(cat, drafts) ==> PlanOk(rows, cat, p)
  {
    hide Keyed, Closed, DraftOk, PlanOk, FinalizePlan;
    if drafts != [] {
      var n := |drafts| - 1;
      PlansOk(rows, cat, drafts[..n]);
      assert drafts[n] in drafts;
      DraftToPlan(rows, cat, drafts[n]);
    }
  }

  /** Every build is closed: each plan names registered deployments of its own exact
      model, and a pool that is there. */
  lemma BuildIsClosed(rows: Rows, w: Worker)
    requires Keyed(rows)
    ensures var b := BuildCatalog(w, rows);
            Closed(rows, b.catalog) && forall p :: p in b.plans ==> PlanOk(rows, b.catalog, p)
  {
    hide Keyed, IndexOf, AssembleModels, Closed, DraftOk, PlanOk, FinalizePlans, Sort;
    var ix := IndexOf(rows);
    forall m | m in ix.models ensures m in rows.models {
      ModelIsRow(rows, m);
    }
    ModelsKeepClosed(rows, w, ix.models);
    var (cat, drafts) := AssembleModels(w, ix, ix.models);
    PlansOk(rows, cat, drafts);
    SortKeepsAll(FinalizePlans(cat, drafts), PlanBefore);
    EmptyIsClosed(rows);
  }

  /** In a finished build a plan that targets a pool lists exactly the pool's
      members, in their order, and the pool is certified by the plan's whole chain. */
  ghost predicate PlanIsItsPool(cat: Catalog, plan: Plan) {
    plan.target.ToPool? ==>
      && plan.target.pool in cat.pools && plan.certified.Some?
      && cat.pools[plan.target.pool] == Pool(plan.aliasId, plan.deployments, plan.certified.value)
  }

  lemma {:induction false} FinalizedIsItsPool(cat: Catalog, drafts: seq<Draft>)
    requires forall d :: d in drafts ==> InItsPool(cat, d)
    ensures forall p :: p in FinalizePlans(cat, drafts) ==> PlanIsItsPool(cat, p)
  {
    hide Revisions;
    if drafts != [] {
      var n := |drafts| - 1;
      FinalizedIsItsPool(cat, drafts[..n]);
      assert drafts[n] in drafts;
    }
  }

  lemma PlansAreTheirPools(rows: Rows, w: Worker, plan: Plan)
    requires Keyed(rows) && NoDuplicates(rows.models) && plan in BuildCatalog(w, rows).plans
    ensures PlanIsItsPool(BuildCatalog(w, rows).catalog, plan)
  {
    var ix := IndexOf(rows);
    ModelsOnce(rows);
    hide Keyed, IndexOf, AssembleModels, InItsPool, PlanIsItsPool, FinalizePlans, Sort, NoDuplicates;
    forall m | m in ix.models ensures m in rows.models {
      ModelIsRow(rows, m);
    }
    PoolsAreKept(rows, w, ix.models);
    var (cat, drafts) := AssembleModels(w, ix, ix.models);
    FinalizedIsItsPool(cat, drafts);
    SortKeepsAll(FinalizePlans(cat, drafts), PlanBefore);
  }

  lemma ModelsOnce(rows: Rows)
    requires NoDuplicates(rows.models)
    ensures NoDuplicates(IndexOf(rows).models)
  {
    SortKeepsAll(rows.models, ModelBefore);
    SameMultisetOnce(rows.models, Sort(rows.models, ModelBefore));
    hide Sort;
  }

  /** A deployment's connection is registered, and so is the credential it names. */
  lemma DeploymentsResolve(rows: Rows, w: Worker, id: DeploymentId)
    requires Keyed(rows) && id in BuildCatalog(w, rows).catalog.models
    ensures var cat := BuildCatalog(w, rows).catalog;
            var r := cat.models[id];
            && r.row in rows.providers && r.exactModel == r.row.modelId
            && r.connection in cat.connections
            && (var key := cat.connections[r.connection].keyEnv;
                key.Some? ==> key.value in cat.refs && cat.refs[key.value].env == key.value)
  {
    hide BuildCatalog, Keyed;
    BuildIsClosed(rows, w);
    var cat := BuildCatalog(w, rows).catalog;
    assert RecordOk(rows, cat, id);
    assert ConnectionOk(rows, cat, cat.models[id].connection);
  }

  /** Pool members are registered and share the pool's exact model. */
  lemma PoolsShareModel(rows: Rows, w: Worker, pool: PoolId, id: DeploymentId)
    requires Keyed(rows) && pool in BuildCatalog(w, rows).catalog.pools
    requires id in BuildCatalog(w, rows).catalog.pools[pool].members
    ensures var cat := BuildCatalog(w, rows).catalog;
            id in cat.models && cat.models[id].exactModel == cat.pools[pool].exactModel
  {
    hide BuildCatalog, Keyed;
    BuildIsClosed(rows, w);
    assert PoolOk(BuildCatalog(w, rows).catalog, pool);
  }

  /** What is stored for an organisation is bound to a connection of that very
      organisation, of the canonical's provider, and shares the canonical's provider
      row, exact model and connection family. */
  lemma VariantsStayHome(rows: Rows, w: Worker, org: Org, canonical: DeploymentId)
    requires Keyed(rows) && org in BuildCatalog(w, rows).catalog.variants
    requires canonical in BuildCatalog(w, rows).catalog.variants[org]
    ensures var cat := BuildCatalog(w, rows).catalog;
            var v := cat.variants[org][canonical];
            && canonical in cat.models && v in cat.models && v in cat.boundTo
            && cat.boundTo[v] in rows.connections && cat.boundTo[v].org == org
            && cat.models[v].connection == Conn(cat.boundTo[v].id)
            && cat.models[v].row == cat.models[canonical].row && cat.models[v].exactModel == cat.models[canonical].exactModel
            && cat.boundTo[v].provider == cat.models[canonical].row.provider
            && cat.models[v].connection in cat.connections && cat.models[canonical].connection in cat.connections
            && cat.connections[cat.models[v].connection].family == cat.connections[cat.models[canonical].connection].family
  {
    hide BuildCatalog, ConnectionsOk, PoolsOk, MarksOk, FamilyOf;
    BuildIsClosed(rows, w);
    var cat := BuildCatalog(w, rows).catalog;
    assert VariantOk(cat, org, canonical);
    var v := cat.variants[org][canonical];
    assert RecordOk(rows, cat, v) && RecordOk(rows, cat, canonical);
    SameRow(rows, cat, v, cat.models[canonical].row);
  }

  /** Every connection that reads a key has its credential reference. */
  lemma KeysAreReferenced(rows: Rows, w: Worker, name: ConnectionName)
    requires Keyed(rows) && name in BuildCatalog(w, rows).catalog.connections
    ensures var cat := BuildCatalog(w, rows).catalog;
            var key := cat.connections[name].keyEnv;
            key.Some? ==> key.value in cat.refs && cat.refs[key.value].env == key.value
  {
    hide BuildCatalog, Keyed, ConfigFits, KeyFits, RecordsOk, VariantsOk, PoolsOk, MarksOk;
    BuildIsClosed(rows, w);
    assert ConnectionOk(rows, BuildCatalog(w, rows).catalog, name);
  }

  /** No organisation's key serves a shared alias: a public model's canonical that
      reads a vault key reads the house organisation's. */
  lemma SharedAliasesUseHouseKeys(rows: Rows, w: Worker, model: ModelRow, id: DeploymentId)
    requires Keyed(rows) && model in rows.models && model.owner.None?
    requires id in BuildCatalog(w, rows).catalog.models && id.Canonical?
    requires BuildCatalog(w, rows).catalog.models[id].exactModel == model.id
    ensures var cat := BuildCatalog(w, rows).catalog;
            && (id in cat.boundTo ==> Some(cat.boundTo[id].org) == rows.house)
            && cat.models[id].connection in cat.connections
            && (var key := cat.connections[cat.models[id].connection].keyEnv;
                key.Some? && key.value.VaultKey? ==> IsHouse(rows, key.value.connection))
  {
    hide BuildCatalog, ConfigFits, VariantsOk, PoolsOk, MarksOk, FamilyOf;
    BuildIsClosed(rows, w);
    var cat := BuildCatalog(w, rows).catalog;
    assert RecordOk(rows, cat, id);
    assert ConnectionOk(rows, cat, cat.models[id].connection);
  }
}

/** The two reuse windows in front of live authorization, as a state machine over
    their locked sections: any number of requests interleave, and the database may
    have changed at every query. */
module Authorization {
  import opened Prelude
  import opened AliasAuthority

  // One reuse cache ----------------------------------------------------------

  datatype Stored<V> = Stored(value: V, expires: int)

  function ReadEntry<K(==), V>(entries: map<K, Stored<V>>, key: K, now: int): Option<V> {
    if key in entries && now < entries[key].expires then Some(entries[key].value) else None
  }

  /** A read drops the entry it finds expired. */
  function AfterRead<K(==), V>(entries: map<K, Stored<V>>, key: K, now: int): map<K, Stored<V>> {
    if key in entries && now >= entries[key].expires then entries - {key} else entries
  }

  function Unexpired<K, V>(entries: map<K, Stored<V>>, now: int): map<K, Stored<V>> {
    map k | k in entries && entries[k].expires > now :: entries[k]
  }

  /** A full cache first drops what expired, or everything if that is not enough. */
  function AfterPut<K(==), V>(entries: map<K, Stored<V>>, key: K, value: V, at: int, ttl: nat, bound: nat): map<K, Stored<V>> {
    var kept :=
      if |entries| < bound then entries
      else
        var live := Unexpired(entries, at);
        if |live| < bound then live else map[];
    kept[key := Stored(value, at + ttl)]
  }

  lemma PutStaysBounded<K, V>(entries: map<K, Stored<V>>, key: K, value: V, at: int, ttl: nat, bound: nat)
    requires bound > 0
    ensures |AfterPut(entries, key, value, at, ttl, bound)| <= bound
  {
    var kept := if |entries| < bound then entries
                else if |Unexpired(entries, at)| < bound then Unexpired(entries, at) else map[];
    assert kept[key := Stored(value, at + ttl)].Keys == kept.Keys + {key};
  }

  /** Nothing appears in a cache but what is put there. */
  lemma PutEntries<K, V>(entries: map<K, Stored<V>>, key: K, value: V, at: int, ttl: nat, bound: nat, k: K)
    ensures var after := AfterPut(entries, key, value, at, ttl, bound);
            k in after ==> if k == key then after[k] == Stored(value, at + ttl) else k in entries && after[k] == entries[k]
  {
  }

  /** What a store leaves: below the bound everything; at the bound what has not
      expired, if that makes room; else only the new entry. */
  ghost predicate Survives<K(!new), V>(entries: map<K, Stored<V>>, k: K, at: int, bound: nat) {
    k in entries && (|entries| < bound || (entries[k].expires > at && |set x | x in entries && entries[x].expires > at| < bound))
  }

  lemma PutLeaves<K(!new), V>(entries: map<K, Stored<V>>, key: K, value: V, at: int, ttl: nat, bound: nat)
    ensures var after := AfterPut(entries, key, value, at, ttl, bound);
            && key in after && after[key] == Stored(value, at + ttl)
            && forall k :: k != key ==> (k in after <==> Survives(entries, k, at, bound)) && (k in after ==> after[k] == entries[k])
  {
    assert Unexpired(entries, at).Keys == set x | x in entries && entries[x].expires > at;
  }

  class ReuseCache<K(==,!new), V> {
    const ttl: nat
    const bound: nat
    var entries: map<K, Stored<V>>

    constructor (ttl: nat, bound: nat)
      ensures this.ttl == ttl && this.bound == bound && entries == map[]
    {
      this.ttl, this.bound, entries := ttl, bound, map[];
    }

    method Get(key: K, now: int) returns (hit: Option<V>)
      modifies this
      ensures hit == ReadEntry(old(entries), key, now)
      ensures hit.Some? <==> key in old(entries) && now < old(entries)[key].expires
      ensures hit.Some? ==> hit.value == old(entries)[key].value
      ensures entries == AfterRead(old(entries), key, now)
      ensures key in entries <==> key in old(entries) && now < old(entries)[key].expires
      ensures forall k :: k in entries ==> k in old(entries) && entries[k] == old(entries)[k]
      ensures forall k :: k in old(entries) && k != key ==> k in entries
    {
      if key !in entries {
        return None;
      }
      var entry := entries[key];
      if now >= entry.expires {
        entries := entries - {key};
        return None;
      }
      return Some(entry.value);
    }

    method Put(key: K, value: V, at: int)
      modifies this
      ensures entries == AfterPut(old(entries), key, value, at, ttl, bound)
      ensures key in entries && entries[key] == Stored(value, at + ttl)
      ensures forall k :: k != key ==>
                (k in entries <==> Survives(old(entries), k, at, bound)) && (k in entries ==> entries[k] == old(entries)[k])
    {
      PutLeaves(entries, key, value, at, ttl, bound);
      hide Survives;
      if |entries| >= bound {
        var live := Unexpired(entries, at);
        entries := if |live| < bound then live else map[];
      }
      entries := entries[key := Stored(value, at + ttl)];
    }
  }

  // The machine --------------------------------------------------------------

  datatype Config = Config(authorityTtl: nat, authorityBound: nat, grantTtl: nat, grantBound: nat)

  const MILLISECONDS := 1000

  const DEFAULT_CONFIG := Config(2 * MILLISECONDS, 4096, 2 * MILLISECONDS, 8192)

  datatype Scope = Scope(org: Org, identity: Identity, name: string)

  /** A request under way: what it read from the authority window; whether the
      grant window has missed; or the answer it got from the database. */
  datatype Flight =
    | Opened(key: KeyHash, name: string, authority: Option<Authority>, readAt: int, missed: bool)
    | Found(key: KeyHash, scope: Scope, answer: Answer, askedAt: int, db: Db)

  /** An authority row read from the database and stored. */
  datatype Load = Load(key: KeyHash, authority: Authority, db: Db, wall: int, at: int)

  /** A resolution stored after the database gave it. */
  datatype Keep = Keep(scope: Scope, resolution: Resolution, db: Db, askedAt: int, at: int)

  datatype Served = Served(key: KeyHash, scope: Scope, resolution: Resolution, fast: bool, readAt: int, at: int)

  datatype World = World(
    authorities: map<KeyHash, Stored<Authority>>,
    resolutions: map<Scope, Stored<Resolution>>,
    flights: map<nat, Flight>,
    loads: set<Load>, kept: set<Keep>, served: set<Served>)

  const START := World(map[], map[], map[], {}, {}, {})

  datatype Step =
    /** `authenticate_key`, both halves. */
    | Authenticated(key: KeyHash, now: int)
    | Loaded(key: KeyHash, db: Db, wall: int, now: int)
    /** `authorize_request`: authority window, grant window, live query, store. */
    | Open(id: nat, key: KeyHash, name: string, now: int)
    | ReadGrant(id: nat, now: int)
    | Ask(id: nat, db: Db, wall: int, loadedAt: int, now: int)
    | Store(id: nat, now: int)

  /** A request reads the grant window only with an authority that has an identity. */
  predicate MayReadGrant(f: Flight) {
    f.Opened? && !f.missed && f.authority.Some? && f.authority.value.identity.Some?
  }

  ghost predicate Enabled(w: World, step: Step) {
    match step
    case Authenticated(_, _) => true
    case Loaded(key, db, wall, _) => db.Valid() && Authenticate(db, key, wall).Some?
    case Open(id, _, name, _) => id !in w.flights && WellFormed(name)
    case ReadGrant(id, _) => id in w.flights && MayReadGrant(w.flights[id])
    case Ask(id, db, _, _, now) => id in w.flights && w.flights[id].Opened? && !MayReadGrant(w.flights[id]) && db.Valid()
    case Store(id, now) => id in w.flights && w.flights[id].Found? && now >= w.flights[id].askedAt
  }

  function LoadInto(c: Config, w: World, load: Load): World {
    w.(authorities := AfterPut(w.authorities, load.key, load.authority, load.at, c.authorityTtl, c.authorityBound),
       loads := w.loads + {load})
  }

  /** The live path after authentication: no identity and no answer both end it. */
  ghost function AskWith(w: World, id: nat, key: KeyHash, name: string, authority: Authority, db: Db, now: int): World {
    if authority.identity.None? then w.(flights := w.flights - {id})
    else
      var scope := Scope(authority.org, authority.identity.value, name);
      var answer := Resolve(db, scope.org, scope.identity, name);
      if answer.None? then w.(flights := w.flights - {id})
      else w.(flights := w.flights[id := Found(key, scope, answer.value, now, db)])
  }

  ghost function Next(c: Config, w: World, step: Step): World
    requires Enabled(w, step)
  {
    match step
    case Authenticated(key, now) => w.(authorities := AfterRead(w.authorities, key, now))
    case Loaded(key, db, wall, now) => LoadInto(c, w, Load(key, Authenticate(db, key, wall).value, db, wall, now))
    case Open(id, key, name, now) =>
      w.(flights := w.flights[id := Opened(key, name, ReadEntry(w.authorities, key, now), now, false)],
         authorities := AfterRead(w.authorities, key, now))
    case ReadGrant(id, now) =>
      var f := w.flights[id];
      var scope := Scope(f.authority.value.org, f.authority.value.identity.value, f.name);
      var hit := ReadEntry(w.resolutions, scope, now);
      var read := w.(resolutions := AfterRead(w.resolutions, scope, now));
      if hit.Some? then
        read.(flights := w.flights - {id},
              served := w.served + {Served(f.key, scope, hit.value, true, f.readAt, now)})
      else read.(flights := w.flights[id := f.(missed := true)])
    case Ask(id, db, wall, loadedAt, now) =>
      var f := w.flights[id];
      if f.authority.Some? then AskWith(w, id, f.key, f.name, f.authority.value, db, now)
      else
        var authority := Authenticate(db, f.key, wall);
        if authority.None? then w.(flights := w.flights - {id})
        else AskWith(LoadInto(c, w, Load(f.key, authority.value, db, wall, loadedAt)), id, f.key, f.name, authority.value, db, now)
    case Store(id, now) =>
      var f := w.flights[id];
      var done := w.(flights := w.flights - {id},
                     served := w.served + {Served(f.key, f.scope, f.answer.resolution, false, f.askedAt, now)});
      if f.answer.isPublic then
        done.(resolutions := AfterPut(w.resolutions, f.scope, f.answer.resolution, now, c.grantTtl, c.grantBound),
              kept := w.kept + {Keep(f.scope, f.answer.resolution, f.db, f.askedAt, now)})
      else done
  }

  ghost predicate Runs(c: Config, w: World, steps: seq<Step>)
    decreases |steps|
  {
    steps == [] || (Enabled(w, steps[0]) && Runs(c, Next(c, w, steps[0]), steps[1..]))
  }

  ghost function Run(c: Config, w: World, steps: seq<Step>): World
    requires Runs(c, w, steps)
    decreases |steps|
  {
    if steps == [] then w else Run(c, Next(c, w, steps[0]), steps[1..])
  }

  // What every run keeps -----------------------------------------------------

  /** A load is what the database said about the key. */
  predicate GenuineLoad(load: Load) {
    Authenticate(load.db, load.key, load.wall) == Some(load.authority)
  }

  /** A stored resolution is what the database gave for the scope, then public. */
  ghost predicate GenuineKeep(keep: Keep) {
    && WellFormed(keep.scope.name) && keep.askedAt <= keep.at
    && Resolve(keep.db, keep.scope.org, keep.scope.identity, keep.scope.name) == Some(Answer(keep.resolution, true))
  }

  ghost predicate LoadedAt(loads: set<Load>, key: KeyHash, authority: Authority, at: int) {
    exists l :: l in loads && l.key == key && l.authority == authority && l.at == at
  }

  ghost predicate KeptAt(kept: set<Keep>, scope: Scope, resolution: Resolution, at: int) {
    exists k :: k in kept && k.scope == scope && k.resolution == resolution && k.at == at
  }

  /** An authority read at `now` was loaded for the key less than one TTL before. */
  ghost predicate FreshAuthority(c: Config, loads: set<Load>, key: KeyHash, authority: Authority, now: int) {
    exists l :: l in loads && l.key == key && l.authority == authority && now - l.at < c.authorityTtl
  }

  ghost predicate FreshResolution(c: Config, kept: set<Keep>, scope: Scope, resolution: Resolution, now: int) {
    exists k :: k in kept && k.scope == scope && k.resolution == resolution && now - k.at < c.grantTtl
  }

  ghost predicate AuthoritiesBacked(authorities: map<KeyHash, Stored<Authority>>, loads: set<Load>, ttl: nat) {
    forall k :: k in authorities ==> LoadedAt(loads, k, authorities[k].value, authorities[k].expires - ttl)
  }

  ghost predicate ResolutionsBacked(resolutions: map<Scope, Stored<Resolution>>, kept: set<Keep>, ttl: nat) {
    forall s :: s in resolutions ==> KeptAt(kept, s, resolutions[s].value, resolutions[s].expires - ttl)
  }

  /** The caches: every entry comes from a store one TTL before its expiry. */
  ghost predicate CachesSafe(c: Config, w: World) {
    && AuthoritiesBacked(w.authorities, w.loads, c.authorityTtl)
    && ResolutionsBacked(w.resolutions, w.kept, c.grantTtl)
    && |w.authorities| <= c.authorityBound && |w.resolutions| <= c.grantBound
    && (forall l :: l in w.loads ==> GenuineLoad(l))
    && (forall k :: k in w.kept ==> GenuineKeep(k))
  }

  ghost predicate FlightSafe(c: Config, loads: set<Load>, f: Flight) {
    match f
    case Opened(key, name, authority, readAt, _) =>
      WellFormed(name) && (authority.Some? ==> FreshAuthority(c, loads, key, authority.value, readAt))
    case Found(key, scope, answer, askedAt, db) =>
      WellFormed(scope.name) && Resolve(db, scope.org, scope.identity, scope.name) == Some(answer)
  }

  /** A request answered from the windows alone. */
  ghost predicate FastSafe(c: Config, loads: set<Load>, kept: set<Keep>, s: Served) {
    s.fast ==>
      && FreshResolution(c, kept, s.scope, s.resolution, s.at)
      && exists a :: FreshAuthority(c, loads, s.key, a, s.readAt)
                     && a.org == s.scope.org && a.identity == Some(s.scope.identity)
  }

  ghost predicate FlightsSafe(c: Config, w: World) {
    forall id :: id in w.flights ==> FlightSafe(c, w.loads, w.flights[id])
  }

  ghost predicate ServedSafe(c: Config, w: World) {
    forall s :: s in w.served ==> FastSafe(c, w.loads, w.kept, s)
  }

  ghost predicate Safe(c: Config, w: World) {
    CachesSafe(c, w) && FlightsSafe(c, w) && ServedSafe(c, w)
  }

  // The caches, operation by operation ---------------------------------------

  lemma ReadHitsFresh(c: Config, w: World, key: KeyHash, now: int)
    requires AuthoritiesBacked(w.authorities, w.loads, c.authorityTtl)
    ensures ReadEntry(w.authorities, key, now).Some? ==>
              FreshAuthority(c, w.loads, key, ReadEntry(w.authorities, key, now).value, now)
  {
  }

  lemma ReadHitsFreshGrant(c: Config, w: World, scope: Scope, now: int)
    requires ResolutionsBacked(w.resolutions, w.kept, c.grantTtl)
    ensures ReadEntry(w.resolutions, scope, now).Some? ==>
              FreshResolution(c, w.kept, scope, ReadEntry(w.resolutions, scope, now).value, now)
  {
  }

  lemma ReadShrinks<K, V>(entries: map<K, Stored<V>>, key: K, now: int)
    ensures |AfterRead(entries, key, now)| <= |entries|
    ensures forall k :: k in AfterRead(entries, key, now) ==> k in entries && AfterRead(entries, key, now)[k] == entries[k]
  {
    SubsetSize(AfterRead(entries, key, now).Keys, entries.Keys);
  }

  lemma AuthorityReadKeeps(c: Config, w: World, key: KeyHash, now: int)
    requires CachesSafe(c, w)
    ensures CachesSafe(c, w.(authorities := AfterRead(w.authorities, key, now)))
  {
    ReadShrinks(w.authorities, key, now);
    hide AfterRead, LoadedAt, GenuineLoad, GenuineKeep, KeptAt;
  }

  lemma GrantReadKeeps(c: Config, w: World, scope: Scope, now: int)
    requires CachesSafe(c, w)
    ensures CachesSafe(c, w.(resolutions := AfterRead(w.resolutions, scope, now)))
  {
    ReadShrinks(w.resolutions, scope, now);
    hide AfterRead, LoadedAt, GenuineLoad, GenuineKeep, KeptAt;
  }

  lemma PutBacksAuthority(c: Config, authorities: map<KeyHash, Stored<Authority>>, loads: set<Load>, load: Load)
    requires AuthoritiesBacked(authorities, loads, c.authorityTtl)
    ensures AuthoritiesBacked(AfterPut(authorities, load.key, load.authority, load.at, c.authorityTtl, c.authorityBound),
                              loads + {load}, c.authorityTtl)
  {
    var after := AfterPut(authorities, load.key, load.authority, load.at, c.authorityTtl, c.authorityBound);
    forall k | k in after ensures LoadedAt(loads + {load}, k, after[k].value, after[k].expires - c.authorityTtl) {
      PutEntries(authorities, load.key, load.authority, load.at, c.authorityTtl, c.authorityBound, k);
      hide AfterPut;
      if k == load.key {
        assert load in loads + {load};
      } else {
        assert LoadedAt(loads, k, authorities[k].value, authorities[k].expires - c.authorityTtl);
      }
    }
  }

  lemma PutBacksResolution(c: Config, resolutions: map<Scope, Stored<Resolution>>, kept: set<Keep>, keep: Keep)
    requires ResolutionsBacked(resolutions, kept, c.grantTtl)
    ensures ResolutionsBacked(AfterPut(resolutions, keep.scope, keep.resolution, keep.at, c.grantTtl, c.grantBound),
                              kept + {keep}, c.grantTtl)
  {
    var after := AfterPut(resolutions, keep.scope, keep.resolution, keep.at, c.grantTtl, c.grantBound);
    forall s | s in after ensures KeptAt(kept + {keep}, s, after[s].value, after[s].expires - c.grantTtl) {
      PutEntries(resolutions, keep.scope, keep.resolution, keep.at, c.grantTtl, c.grantBound, s);
      hide AfterPut;
      if s == keep.scope {
        assert keep in kept + {keep};
      } else {
        assert KeptAt(kept, s, resolutions[s].value, resolutions[s].expires - c.grantTtl);
      }
    }
  }

  lemma LoadKeeps(c: Config, w: World, load: Load)
    requires CachesSafe(c, w) && GenuineLoad(load) && c.authorityBound > 0
    ensures CachesSafe(c, LoadInto(c, w, load))
  {
    hide AfterPut, AuthoritiesBacked, ResolutionsBacked, GenuineLoad, GenuineKeep;
    PutStaysBounded(w.authorities, load.key, load.authority, load.at, c.authorityTtl, c.authorityBound);
    PutBacksAuthority(c, w.authorities, w.loads, load);
  }

  lemma KeepKeeps(c: Config, w: World, keep: Keep)
    requires CachesSafe(c, w) && GenuineKeep(keep) && c.grantBound > 0
    ensures CachesSafe(c, w.(resolutions := AfterPut(w.resolutions, keep.scope, keep.resolution, keep.at, c.grantTtl, c.grantBound),
                             kept := w.kept + {keep}))
  {
    hide AfterPut, AuthoritiesBacked, ResolutionsBacked, GenuineLoad, GenuineKeep;
    PutStaysBounded(w.resolutions, keep.scope, keep.resolution, keep.at, c.grantTtl, c.grantBound);
    PutBacksResolution(c, w.resolutions, w.kept, keep);
  }

  /** Safety only looks backwards: more history keeps it. */
  lemma HistoryGrows(c: Config, w: World, loads: set<Load>, kept: set<Keep>)
    requires FlightsSafe(c, w) && ServedSafe(c, w) && w.loads <= loads && w.kept <= kept
    ensures FlightsSafe(c, w.(loads := loads, kept := kept)) && ServedSafe(c, w.(loads := loads, kept := kept))
  {
    var t := w.(loads := loads, kept := kept);
    forall id | id in t.flights ensures FlightSafe(c, t.loads, t.flights[id]) {
      assert FlightSafe(c, w.loads, w.flights[id]);
    }
    forall s | s in t.served ensures FastSafe(c, t.loads, t.kept, s) {
      assert FastSafe(c, w.loads, w.kept, s);
      if s.fast {
        var a :| FreshAuthority(c, w.loads, s.key, a, s.readAt) && a.org == s.scope.org && a.identity == Some(s.scope.identity);
        assert FreshAuthority(c, t.loads, s.key, a, s.readAt);
      }
    }
  }

  // One step -----------------------------------------------------------------

  lemma AskKeeps(c: Config, w: World, id: nat, key: KeyHash, name: string, authority: Authority, db: Db, now: int)
    requires Safe(c, w) && WellFormed(name)
    ensures Safe(c, AskWith(w, id, key, name, authority, db, now))
  {
    hide FreshAuthority, FastSafe, Resolve, WellFormed, AuthoritiesBacked, ResolutionsBacked, GenuineLoad, GenuineKeep;
  }

  lemma LoadedKeeps(c: Config, w: World, load: Load)
    requires Safe(c, w) && GenuineLoad(load) && c.authorityBound > 0
    ensures Safe(c, LoadInto(c, w, load))
  {
    hide AfterPut, CachesSafe, FlightsSafe, ServedSafe, GenuineLoad;
    LoadKeeps(c, w, load);
    HistoryGrows(c, w, w.loads + {load}, w.kept);
    SameFlights(c, w.(loads := w.loads + {load}, kept := w.kept), LoadInto(c, w, load));
  }

  lemma SameFlights(c: Config, w: World, t: World)
    requires FlightsSafe(c, w) && ServedSafe(c, w)
    requires w.flights == t.flights && w.loads == t.loads && w.served == t.served && w.kept == t.kept
    ensures FlightsSafe(c, t) && ServedSafe(c, t)
  {
    hide FlightSafe, FastSafe;
  }

  lemma OpenKeeps(c: Config, w: World, id: nat, key: KeyHash, name: string, now: int)
    requires Safe(c, w) && Enabled(w, Open(id, key, name, now))
    ensures Safe(c, Next(c, w, Open(id, key, name, now)))
  {
    hide FastSafe, FreshAuthority, WellFormed, AuthoritiesBacked, ResolutionsBacked, AfterRead, ReadEntry, GenuineLoad, GenuineKeep;
    AuthorityReadKeeps(c, w, key, now);
    ReadHitsFresh(c, w, key, now);
  }

  lemma AskStepKeeps(c: Config, w: World, id: nat, db: Db, wall: int, loadedAt: int, now: int)
    requires c.authorityBound > 0 && Safe(c, w) && Enabled(w, Ask(id, db, wall, loadedAt, now))
    ensures Safe(c, Next(c, w, Ask(id, db, wall, loadedAt, now)))
  {
    hide AskWith, LoadInto, Authenticate, WellFormed, CachesSafe, ServedSafe, FreshAuthority;
    var f := w.flights[id];
    assert FlightSafe(c, w.loads, f);
    if f.authority.Some? {
      AskKeeps(c, w, id, f.key, f.name, f.authority.value, db, now);
    } else {
      var authority := Authenticate(db, f.key, wall);
      if authority.Some? {
        var load := Load(f.key, authority.value, db, wall, loadedAt);
        LoadedKeeps(c, w, load);
        AskKeeps(c, LoadInto(c, w, load), id, f.key, f.name, authority.value, db, now);
      } else {
        DropFlight(c, w, id);
      }
    }
  }

  lemma DropFlight(c: Config, w: World, id: nat)
    requires Safe(c, w)
    ensures Safe(c, w.(flights := w.flights - {id}))
  {
    hide FlightSafe, FastSafe, AuthoritiesBacked, ResolutionsBacked, GenuineLoad, GenuineKeep;
  }

  lemma StepKeepsSafe(c: Config, w: World, step: Step)
    requires c.authorityBound > 0 && c.grantBound > 0
    requires Safe(c, w) && Enabled(w, step)
    ensures Safe(c, Next(c, w, step))
  {
    match step {
      case Authenticated(key, now) =>
        hide FlightSafe, FastSafe, CachesSafe, AfterRead;
        assert CachesSafe(c, w);
        AuthorityReadKeeps(c, w, key, now);
      case Loaded(key, db, wall, now) =>
        hide Safe, LoadInto, Authenticate;
        LoadedKeeps(c, w, Load(key, Authenticate(db, key, wall).value, db, wall, now));
      case Open(id, key, name, now) =>
        hide Safe, Next, Enabled;
        OpenKeeps(c, w, id, key, name, now);
      case ReadGrant(id, now) =>
        hide Safe, Next, Enabled;
        ReadGrantKeeps(c, w, id, now);
      case Ask(id, db, wall, loadedAt, now) =>
        hide Safe, Next, Enabled;
        AskStepKeeps(c, w, id, db, wall, loadedAt, now);
      case Store(id, now) =>
        hide Safe, Next, Enabled;
        StoreKeeps(c, w, id, now);
    }
  }

  lemma ReadGrantKeeps(c: Config, w: World, id: nat, now: int)
    requires Safe(c, w) && Enabled(w, ReadGrant(id, now))
    ensures Safe(c, Next(c, w, ReadGrant(id, now)))
  {
    hide WellFormed, AuthoritiesBacked, ResolutionsBacked, AfterRead, ReadEntry, FreshResolution, FreshAuthority,
      GenuineLoad, GenuineKeep;
    var f := w.flights[id];
    var authority := f.authority.value;
    var scope := Scope(authority.org, authority.identity.value, f.name);
    GrantReadKeeps(c, w, scope, now);
    ReadHitsFreshGrant(c, w, scope, now);
    assert FlightSafe(c, w.loads, f);
    assert FreshAuthority(c, w.loads, f.key, authority, f.readAt);
  }

  lemma StoreKeeps(c: Config, w: World, id: nat, now: int)
    requires Safe(c, w) && Enabled(w, Store(id, now)) && c.grantBound > 0
    ensures Safe(c, Next(c, w, Store(id, now)))
  {
    hide WellFormed, AuthoritiesBacked, ResolutionsBacked, AfterPut, FreshResolution, FreshAuthority, Resolve, GenuineLoad;
    var f := w.flights[id];
    assert FlightSafe(c, w.loads, f);
    if f.answer.isPublic {
      var keep := Keep(f.scope, f.answer.resolution, f.db, f.askedAt, now);
      KeepKeeps(c, w, keep);
      HistoryGrows(c, w, w.loads, w.kept + {keep});
    }
  }

  lemma {:induction false} RunKeepsSafe(c: Config, w: World, steps: seq<Step>)
    requires c.authorityBound > 0 && c.grantBound > 0
    requires Safe(c, w) && Runs(c, w, steps)
    ensures Safe(c, Run(c, w, steps))
    decreases |steps|
  {
    hide Safe, Next, Enabled;
    if steps != [] {
      StepKeepsSafe(c, w, steps[0]);
      RunKeepsSafe(c, Next(c, w, steps[0]), steps[1..]);
    }
  }

  // Results over whole runs --------------------------------------------------

  /** Every answer given from the windows alone carries a resolution the database
      gave for that organisation, identity and name, which was public and was stored
      less than one TTL before; and the key itself was loaded, with that
      organisation and identity, less than one TTL before its window was read. */
  lemma FastAnswersAreFresh(c: Config, steps: seq<Step>, s: Served)
    requires c.authorityBound > 0 && c.grantBound > 0
    requires Runs(c, START, steps) && s in Run(c, START, steps).served && s.fast
    ensures exists k: Keep ::
              && k in Run(c, START, steps).kept && k.scope == s.scope && k.resolution == s.resolution
              && s.at - k.at < c.grantTtl && k.askedAt <= k.at
              && Resolve(k.db, s.scope.org, s.scope.identity, s.scope.name) == Some(Answer(s.resolution, true))
    ensures exists l: Load ::
              && l in Run(c, START, steps).loads && l.key == s.key
              && s.readAt - l.at < c.authorityTtl
              && Authenticate(l.db, s.key, l.wall) == Some(l.authority)
              && l.authority.org == s.scope.org && l.authority.identity == Some(s.scope.identity)
  {
    StartIsSafe(c);
    RunKeepsSafe(c, START, steps);
    var w := Run(c, START, steps);
    hide Run, Runs, Resolve, Authenticate, WellFormed;
    assert FastSafe(c, w.loads, w.kept, s);
    var k :| k in w.kept && k.scope == s.scope && k.resolution == s.resolution && s.at - k.at < c.grantTtl;
    assert GenuineKeep(k);
    var a :| FreshAuthority(c, w.loads, s.key, a, s.readAt) && a.org == s.scope.org && a.identity == Some(s.scope.identity);
    var l :| l in w.loads && l.key == s.key && l.authority == a && s.readAt - l.at < c.authorityTtl;
    assert GenuineLoad(l);
  }

  /** Every authority in the window is the row of a key that was neither unknown,
      revoked nor expired when it was loaded, one TTL before the entry's expiry. */
  lemma WindowKeysWereUsable(c: Config, steps: seq<Step>, key: KeyHash)
    requires c.authorityBound > 0 && c.grantBound > 0
    requires Runs(c, START, steps) && key in Run(c, START, steps).authorities
    ensures exists l: Load ::
              && l in Run(c, START, steps).loads && l.key == key && !Refused(l.db, key, l.wall)
              && Run(c, START, steps).authorities[key].expires == l.at + c.authorityTtl
              && var a := Run(c, START, steps).authorities[key].value;
                 && a.apiKey == l.db.keys[key].id && a.org == l.db.keys[key].org
                 && a.identity == l.db.keys[key].identity && a.captures == l.db.keys[key].captures
  {
    StartIsSafe(c);
    RunKeepsSafe(c, START, steps);
    var w := Run(c, START, steps);
    hide Run, Runs, Authenticate, Refused;
    var entry := w.authorities[key];
    var l :| l in w.loads && l.key == key && l.authority == entry.value && l.at == entry.expires - c.authorityTtl;
    assert GenuineLoad(l);
    AuthorityIsRow(l.db, key, l.wall);
  }

  lemma StartIsSafe(c: Config)
    ensures Safe(c, START)
  {
  }

  /** A scope for which no public answer was stored within the last TTL is decided
      live: reading the grant window answers nothing. */
  lemma OtherwiseDecidedLive(c: Config, steps: seq<Step>, id: nat, now: int)
    requires c.authorityBound > 0 && c.grantBound > 0
    requires Runs(c, START, steps) && Enabled(Run(c, START, steps), ReadGrant(id, now))
    requires var w := Run(c, START, steps);
             var f := w.flights[id];
             forall k :: k in w.kept && k.at > now - c.grantTtl ==>
               k.scope != Scope(f.authority.value.org, f.authority.value.identity.value, f.name)
    ensures var w := Run(c, START, steps);
            && Next(c, w, ReadGrant(id, now)).served == w.served
            && id in Next(c, w, ReadGrant(id, now)).flights
            && Next(c, w, ReadGrant(id, now)).flights[id].missed
  {
    StartIsSafe(c);
    RunKeepsSafe(c, START, steps);
    var w := Run(c, START, steps);
    hide Run, Runs, WellFormed;
    var f := w.flights[id];
    var scope := Scope(f.authority.value.org, f.authority.value.identity.value, f.name);
    ReadHitsFreshGrant(c, w, scope, now);
  }

  /** The scope a request asks the grant window for. */
  function ScopeOf(f: Flight): Scope
    requires MayReadGrant(f)
  {
    Scope(f.authority.value.org, f.authority.value.identity.value, f.name)
  }

  /** Reading the window answers a request if and only if its scope has an entry
      that has not expired, and what it serves is that entry. */
  lemma WindowServesExactly(c: Config, w: World, id: nat, now: int)
    requires Enabled(w, ReadGrant(id, now))
    ensures var scope, t := ScopeOf(w.flights[id]), Next(c, w, ReadGrant(id, now));
            && (id !in t.flights <==> scope in w.resolutions && now < w.resolutions[scope].expires)
            && t.served == if id in t.flights then w.served
                           else w.served + {Served(w.flights[id].key, scope, w.resolutions[scope].value, true, w.flights[id].readAt, now)}
  {
  }

  // Refusals -------------------------------------------------------------------

  predicate StoresPublicly(w: World, step: Step, scope: Scope) {
    step.Store? && step.id in w.flights && w.flights[step.id].Found?
    && w.flights[step.id].scope == scope && w.flights[step.id].answer.isPublic
  }

  ghost predicate NeverStores(c: Config, w: World, steps: seq<Step>, scope: Scope)
    requires Runs(c, w, steps)
    decreases |steps|
  {
    steps == [] || (!StoresPublicly(w, steps[0], scope) && NeverStores(c, Next(c, w, steps[0]), steps[1..], scope))
  }

  lemma OnlyStoresEnter(c: Config, w: World, step: Step, scope: Scope)
    requires Enabled(w, step) && !StoresPublicly(w, step, scope)
    ensures var t := Next(c, w, step);
            scope in t.resolutions ==> scope in w.resolutions && t.resolutions[scope] == w.resolutions[scope]
  {
    hide Resolve, WellFormed, Authenticate;
    if step.Store? && w.flights[step.id].answer.isPublic {
      var f := w.flights[step.id];
      PutEntries(w.resolutions, f.scope, f.answer.resolution, step.now, c.grantTtl, c.grantBound, scope);
    }
    hide AfterPut;
  }

  lemma {:induction false} EntriesComeFromStores(c: Config, w: World, steps: seq<Step>, scope: Scope)
    requires Runs(c, w, steps) && NeverStores(c, w, steps, scope)
    ensures var t := Run(c, w, steps);
            scope in t.resolutions ==> scope in w.resolutions && t.resolutions[scope] == w.resolutions[scope]
    decreases |steps|
  {
    hide Next, Enabled, StoresPublicly;
    if steps != [] {
      OnlyStoresEnter(c, w, steps[0], scope);
      EntriesComeFromStores(c, Next(c, w, steps[0]), steps[1..], scope);
    }
  }

  /** However a run goes on after a live refusal, until a public answer for the
      scope is stored the window serves that scope only from an entry that was
      there before the refusal, and only up to that entry's expiry. */
  lemma RefusalsAreNotCached(c: Config, w: World, refusal: Step, steps: seq<Step>, id: nat, now: int)
    requires Enabled(w, refusal) && refusal.Ask? && refusal.id !in Next(c, w, refusal).flights
    requires Runs(c, Next(c, w, refusal), steps)
    requires var t := Run(c, Next(c, w, refusal), steps);
             Enabled(t, ReadGrant(id, now)) && NeverStores(c, Next(c, w, refusal), steps, ScopeOf(t.flights[id]))
    ensures var t := Run(c, Next(c, w, refusal), steps);
            var scope := ScopeOf(t.flights[id]);
            id !in Next(c, t, ReadGrant(id, now)).flights ==>
              && scope in w.resolutions && now < w.resolutions[scope].expires
              && Next(c, t, ReadGrant(id, now)).served
                 == t.served + {Served(t.flights[id].key, scope, w.resolutions[scope].value, true, t.flights[id].readAt, now)}
  {
    var t := Run(c, Next(c, w, refusal), steps);
    var scope := ScopeOf(t.flights[id]);
    OnlyStoresEnter(c, w, refusal, scope);
    EntriesComeFromStores(c, Next(c, w, refusal), steps, scope);
    WindowServesExactly(c, t, id, now);
    hide Next, Run, Runs, Enabled, NeverStores;
  }

  // Shadows --------------------------------------------------------------------

  /** An active row of the org stands before the public row of the name. */
  predicate Shadows(db: Db, scope: Scope) {
    exists a :: a in db.aliases && a.active && a.name == scope.name && a.org == Some(scope.org)
  }

  /** In any reachable state, while an org row shadows a name the live query gives
      it no public answer; yet a request that may read the window is served one
      from there if and only if the scope's entry has not expired, and it is one the
      database gave earlier. */
  lemma ShadowWaitsForExpiry(c: Config, steps: seq<Step>, id: nat, now: int, db: Db)
    requires c.authorityBound > 0 && c.grantBound > 0
    requires Runs(c, START, steps) && Enabled(Run(c, START, steps), ReadGrant(id, now))
    requires db.Valid() && Shadows(db, ScopeOf(Run(c, START, steps).flights[id]))
    ensures var w := Run(c, START, steps);
            var scope, t := ScopeOf(w.flights[id]), Next(c, w, ReadGrant(id, now));
            var live := Resolve(db, scope.org, scope.identity, scope.name);
            && (live.Some? ==> !live.value.isPublic)
            && (id !in t.flights <==> scope in w.resolutions && now < w.resolutions[scope].expires)
            && (id !in t.flights ==>
                  exists k: Keep :: k in w.kept && now - k.at < c.grantTtl && k.scope == scope
                    && t.served == w.served + {Served(w.flights[id].key, scope, k.resolution, true, w.flights[id].readAt, now)}
                    && Resolve(k.db, scope.org, scope.identity, scope.name) == Some(Answer(k.resolution, true)))
  {
    StartIsSafe(c);
    RunKeepsSafe(c, START, steps);
    var w := Run(c, START, steps);
    WindowServesExactly(c, w, id, now);
    var scope := ScopeOf(w.flights[id]);
    ShadowedIsPrivate(db, scope);
    ReadHitsFreshGrant(c, w, scope, now);
    hide Run, Runs, Resolve, WellFormed, Next;
    if scope in w.resolutions && now < w.resolutions[scope].expires {
      var k :| k in w.kept && k.scope == scope && k.resolution == w.resolutions[scope].value && now - k.at < c.grantTtl;
      assert GenuineKeep(k);
    }
  }

  lemma ShadowedIsPrivate(db: Db, scope: Scope)
    requires db.Valid() && Shadows(db, scope)
    ensures var live := Resolve(db, scope.org, scope.identity, scope.name); live.Some? ==> !live.value.isPublic
  {
    var mine :| mine in db.aliases && mine.active && mine.name == scope.name && mine.org == Some(scope.org);
    OrgRowWins(db, scope.org, scope.identity, scope.name, mine);
    hide Resolve;
  }

  // A run in which an org row shadows a public name, and the next request is
  // still served the public answer.

  const PUBLIC_ROW := AliasRow(0, "m", None, true, Some(0))
  const SHADOW_ROW := AliasRow(1, "m", Some(0), true, Some(0))
  const OPEN_DB := Db(map[0 := KeyRow(0, 0, None, None, Some(0), false)], {PUBLIC_ROW},
                      map[0 := Revision(Direct("pool"), "", false)], {})
  const SHADOWED_DB := OPEN_DB.(aliases := {PUBLIC_ROW, SHADOW_ROW})
  const WITNESS_SCOPE := Scope(0, 0, "m")
  const WITNESS_AUTHORITY := Authority(0, 0, Some(0), false)
  const WITNESS_RESOLUTION := Resolution(0, Direct("pool"), "", false)

  lemma PublicBeforeShadow()
    ensures OPEN_DB.Valid() && SHADOWED_DB.Valid() && Shadows(SHADOWED_DB, WITNESS_SCOPE)
    ensures Resolve(OPEN_DB, 0, 0, "m") == Some(Answer(WITNESS_RESOLUTION, true))
    ensures Resolve(SHADOWED_DB, 0, 0, "m").None?
    ensures WellFormed("m") && Authenticate(OPEN_DB, 0, 0) == Some(WITNESS_AUTHORITY)
  {
    assert PUBLIC_ROW in Candidates(OPEN_DB, 0, "m");
    FirstIs(OPEN_DB, 0, "m", Candidates(OPEN_DB, 0, "m"), PUBLIC_ROW);
    assert SHADOW_ROW in Candidates(SHADOWED_DB, 0, "m");
    FirstIs(SHADOWED_DB, 0, "m", Candidates(SHADOWED_DB, 0, "m"), SHADOW_ROW);
  }

  const WITNESS_LOAD := Load(0, WITNESS_AUTHORITY, OPEN_DB, 0, 0)
  const WITNESS_OPENED := START.(flights := map[0 := Opened(0, "m", None, 0, false)])
  const WITNESS_ASKED := World(map[0 := Stored(WITNESS_AUTHORITY, 2000)], map[],
                               map[0 := Found(0, WITNESS_SCOPE, Answer(WITNESS_RESOLUTION, true), 0, OPEN_DB)],
                               {WITNESS_LOAD}, {}, {})
  const WITNESS_STORED := World(map[0 := Stored(WITNESS_AUTHORITY, 2000)],
                                map[WITNESS_SCOPE := Stored(WITNESS_RESOLUTION, 2000)], map[],
                                {WITNESS_LOAD}, {Keep(WITNESS_SCOPE, WITNESS_RESOLUTION, OPEN_DB, 0, 0)},
                                {Served(0, WITNESS_SCOPE, WITNESS_RESOLUTION, false, 0, 0)})
  const WITNESS_READER := WITNESS_STORED.(flights := map[1 := Opened(0, "m", Some(WITNESS_AUTHORITY), 1, false)])

  lemma WitnessAsks()
    ensures Enabled(WITNESS_OPENED, Ask(0, OPEN_DB, 0, 0, 0))
    ensures Next(DEFAULT_CONFIG, WITNESS_OPENED, Ask(0, OPEN_DB, 0, 0, 0)) == WITNESS_ASKED
  {
    PublicBeforeShadow();
    hide Resolve, WellFormed, Authenticate, Shadows;
    LoadedOnce();
  }

  lemma LoadedOnce()
    ensures LoadInto(DEFAULT_CONFIG, WITNESS_OPENED, WITNESS_LOAD)
            == WITNESS_ASKED.(flights := WITNESS_OPENED.flights)
  {
  }

  lemma WitnessStores()
    ensures Enabled(WITNESS_ASKED, Store(0, 0)) && Next(DEFAULT_CONFIG, WITNESS_ASKED, Store(0, 0)) == WITNESS_STORED
  {
    hide Resolve;
    assert AfterPut(map[], WITNESS_SCOPE, WITNESS_RESOLUTION, 0, 2000, 8192) == WITNESS_STORED.resolutions;
  }

  lemma WitnessOpens()
    ensures Enabled(START, Open(0, 0, "m", 0)) && Next(DEFAULT_CONFIG, START, Open(0, 0, "m", 0)) == WITNESS_OPENED
    ensures Enabled(WITNESS_STORED, Open(1, 0, "m", 1))
    ensures Next(DEFAULT_CONFIG, WITNESS_STORED, Open(1, 0, "m", 1)) == WITNESS_READER
  {
    PublicBeforeShadow();
    hide Resolve, WellFormed, Authenticate, Shadows;
  }

  function WitnessSteps(): seq<Step> {
    [Open(0, 0, "m", 0), Ask(0, OPEN_DB, 0, 0, 0), Store(0, 0), Open(1, 0, "m", 1)]
  }

  lemma WitnessRuns()
    ensures Runs(DEFAULT_CONFIG, START, WitnessSteps()) && Run(DEFAULT_CONFIG, START, WitnessSteps()) == WITNESS_READER
  {
    var c, steps := DEFAULT_CONFIG, WitnessSteps();
    WitnessAsks();
    WitnessStores();
    WitnessOpens();
    hide Next, Enabled;
    RunSnoc(c, START, [], steps[0]);
    RunSnoc(c, START, [] + [steps[0]], steps[1]);
    RunSnoc(c, START, [] + [steps[0]] + [steps[1]], steps[2]);
    RunSnoc(c, START, [] + [steps[0]] + [steps[1]] + [steps[2]], steps[3]);
    assert steps == [] + [steps[0]] + [steps[1]] + [steps[2]] + [steps[3]];
  }

  /** One public answer is stored; one millisecond later the shadowed name, which
      the live query now refuses, is still served from the window. */
  lemma ShadowedNameIsServed()
    ensures var c, steps := DEFAULT_CONFIG, WitnessSteps();
            && Runs(c, START, steps) && Enabled(Run(c, START, steps), ReadGrant(1, 1))
            && Shadows(SHADOWED_DB, ScopeOf(Run(c, START, steps).flights[1]))
            && Resolve(SHADOWED_DB, 0, 0, "m").None?
            && Next(c, Run(c, START, steps), ReadGrant(1, 1)).served
               == {Served(0, WITNESS_SCOPE, WITNESS_RESOLUTION, false, 0, 0), Served(0, WITNESS_SCOPE, WITNESS_RESOLUTION, true, 1, 1)}
  {
    PublicBeforeShadow();
    WitnessRuns();
    WindowServesExactly(DEFAULT_CONFIG, WITNESS_READER, 1, 1);
    hide Next, Run, Runs, Resolve, Shadows, WitnessSteps;
  }

  // Age ------------------------------------------------------------------------

  /** Over every run: an answer from the window is at most one TTL and the delay of
      its own store away from the query that gave it. */
  lemma FastAnswersAge(c: Config, steps: seq<Step>, s: Served)
    requires c.authorityBound > 0 && c.grantBound > 0
    requires Runs(c, START, steps) && s in Run(c, START, steps).served && s.fast
    ensures exists k: Keep ::
              && k in Run(c, START, steps).kept && k.scope == s.scope && k.resolution == s.resolution
              && s.at - k.askedAt < c.grantTtl + (k.at - k.askedAt)
              && Resolve(k.db, s.scope.org, s.scope.identity, s.scope.name) == Some(Answer(s.resolution, true))
  {
    FastAnswersAreFresh(c, steps, s);
    hide Run, Runs, Resolve;
  }

  /** A request of the same scope right after a public store: it is opened at
      `readAt` and reads the window at `now`. */
  ghost function Reader(c: Config, w: World, id: nat, at: int, next: nat, key: KeyHash, readAt: int): World
    requires Enabled(w, Store(id, at)) && next !in w.flights && WellFormed(w.flights[id].scope.name)
  {
    Next(c, Next(c, w, Store(id, at)), Open(next, key, w.flights[id].scope.name, readAt))
  }

  lemma ReaderReads(c: Config, w: World, id: nat, at: int, next: nat, key: KeyHash, readAt: int)
    requires Enabled(w, Store(id, at)) && next !in w.flights && WellFormed(w.flights[id].scope.name)
    requires var scope := w.flights[id].scope;
             ReadEntry(w.authorities, key, readAt).Some?
             && ReadEntry(w.authorities, key, readAt).value.org == scope.org
             && ReadEntry(w.authorities, key, readAt).value.identity == Some(scope.identity)
    requires w.flights[id].answer.isPublic
    ensures var f, r := w.flights[id], Reader(c, w, id, at, next, key, readAt);
            && (forall now :: Enabled(r, ReadGrant(next, now)))
            && ScopeOf(r.flights[next]) == f.scope
            && f.scope in r.resolutions && r.resolutions[f.scope] == Stored(f.answer.resolution, at + c.grantTtl)
  {
    hide WellFormed, ReadEntry, AfterRead, Unexpired;
  }

  /** Over every run: let a public answer be stored and another request of its
      scope be opened. That request is served from the window if and only if it
      reads it less than one TTL after the store, so every answer it can get is
      under a TTL old, counted from the query, if and only if the answer was stored
      at the moment it was asked. */
  lemma AgeFromTheQuery(c: Config, steps: seq<Step>, id: nat, at: int, next: nat, key: KeyHash, readAt: int)
    requires c.authorityBound > 0 && c.grantBound > 0 && c.grantTtl > 0
    requires Runs(c, START, steps)
    requires var w := Run(c, START, steps);
             && Enabled(w, Store(id, at)) && w.flights[id].answer.isPublic && next !in w.flights
             && ReadEntry(w.authorities, key, readAt).Some?
             && ReadEntry(w.authorities, key, readAt).value.org == w.flights[id].scope.org
             && ReadEntry(w.authorities, key, readAt).value.identity == Some(w.flights[id].scope.identity)
    ensures var w := Run(c, START, steps);
            && WellFormed(w.flights[id].scope.name)
            && var f, r := w.flights[id], Reader(c, w, id, at, next, key, readAt);
            && Runs(c, START, steps + [Store(id, at)] + [Open(next, key, f.scope.name, readAt)])
            && r == Run(c, START, steps + [Store(id, at)] + [Open(next, key, f.scope.name, readAt)])
            && (forall now :: Enabled(r, ReadGrant(next, now))
                  && (next !in Next(c, r, ReadGrant(next, now)).flights <==> now < at + c.grantTtl))
            && ((forall now :: next !in Next(c, r, ReadGrant(next, now)).flights ==> now - f.askedAt < c.grantTtl)
                <==> f.askedAt == at)
  {
    StartIsSafe(c);
    RunKeepsSafe(c, START, steps);
    var w := Run(c, START, steps);
    assert FlightSafe(c, w.loads, w.flights[id]);
    var f, r := w.flights[id], Reader(c, w, id, at, next, key, readAt);
    RunSnoc(c, START, steps, Store(id, at));
    RunSnoc(c, START, steps + [Store(id, at)], Open(next, key, f.scope.name, readAt));
    ReaderReads(c, w, id, at, next, key, readAt);
    hide Run, Runs, WellFormed, Resolve, FlightSafe, Reader, Safe;
    forall now ensures next !in Next(c, r, ReadGrant(next, now)).flights <==> now < at + c.grantTtl {
      WindowServesExactly(c, r, next, now);
    }
    hide Next, Enabled;
    assert next !in Next(c, r, ReadGrant(next, at + c.grantTtl - 1)).flights;
  }

  lemma {:induction false} RunSnoc(c: Config, w: World, steps: seq<Step>, step: Step)
    requires Runs(c, w, steps) && Enabled(Run(c, w, steps), step)
    ensures Runs(c, w, steps + [step]) && Run(c, w, steps + [step]) == Next(c, Run(c, w, steps), step)
    decreases |steps|
  {
    hide Next, Enabled;
    if steps == [] {
      assert [step][1..] == [];
    } else {
      assert (steps + [step])[1..] == steps[1..] + [step];
      RunSnoc(c, Next(c, w, steps[0]), steps[1..], step);
    }
  }
}

/** The gateway control store as a worker runs it: caches updated in place, one
    transaction per live decision. */
module ControlStore {
  import opened Prelude
  import opened AliasAuthority
  import opened Authorization

  datatype Error = InvalidKey | AliasNotGranted | DeadlineExpired | MalformedTarget | HeaderConflict

  /** The content-free snapshot, without its minted request id and request digests. */
  datatype Snapshot = Snapshot(
    org: Org, identity: Identity, name: string, resolution: Resolution, deadline: int)

  /** Built alike on both paths; it fails on an unreadable target, then on callers'
      conflicting headers. */
  function SnapshotOf(scope: Scope, resolution: Resolution, deadline: int, conflict: bool): (r: Result<Snapshot, Error>)
    ensures r.Err? <==> resolution.target.Unreadable? || conflict
    ensures r.Err? ==> r.error in {MalformedTarget, HeaderConflict}
    ensures r.Ok? ==> r.value.org == scope.org && r.value.identity == scope.identity && r.value.name == scope.name
    ensures r.Ok? ==> r.value.resolution == resolution && r.value.deadline == deadline
  {
    if resolution.target.Unreadable? then Err(MalformedTarget)
    else if conflict then Err(HeaderConflict)
    else Ok(Snapshot(scope.org, scope.identity, scope.name, resolution, deadline))
  }

  /** What a live query decides, by the rows it saw: no authority, no identity or
      no answer refuse; an answer is stored and served. */
  ghost predicate DecidedLive(steps: seq<Step>, key: KeyHash, name: string, cached: Option<Authority>,
                              deadline: int, conflict: bool, result: Result<Snapshot, Error>)
  {
    && steps != [] && steps[0].Ask?
    && var authority := if cached.Some? then cached else Authenticate(steps[0].db, key, steps[0].wall);
    if authority.None? then |steps| == 1 && result == Err(InvalidKey)
    else
      var answer := LiveAnswer(steps[0].db, authority.value, name);
      if answer.None? then |steps| == 1 && result == Err(AliasNotGranted)
      else
        && |steps| == 2 && steps[1].Store?
        && result == SnapshotOf(Scope(authority.value.org, authority.value.identity.value, name), answer.value.resolution, deadline, conflict)
  }

  ghost function LiveAnswer(db: Db, authority: Authority, name: string): (answer: Option<Answer>)
    ensures answer.Some? ==> authority.identity.Some?
  {
    if authority.identity.None? then None else Resolve(db, authority.org, authority.identity.value, name)
  }

  /** What a request decides: from both windows if both hit, live otherwise. */
  ghost predicate Decided(w: World, steps: seq<Step>, key: KeyHash, name: string,
                          deadline: int, conflict: bool, result: Result<Snapshot, Error>)
  {
    && steps != [] && steps[0].Open? && steps[0].key == key && steps[0].name == name
    && var cached := ReadEntry(w.authorities, key, steps[0].now);
    if cached.Some? && cached.value.identity.Some? then
      var scope := Scope(cached.value.org, cached.value.identity.value, name);
      && |steps| > 1 && steps[1].ReadGrant?
      && var hit := ReadEntry(w.resolutions, scope, steps[1].now);
      if hit.Some? then |steps| == 2 && result == SnapshotOf(scope, hit.value, deadline, conflict)
      else DecidedLive(steps[2..], key, name, cached, deadline, conflict, result)
    else DecidedLive(steps[1..], key, name, cached, deadline, conflict, result)
  }

  /** Whether the authority window holds the key at the moment a request reads it. */
  predicate Remembers(w: World, steps: seq<Step>, key: KeyHash)
    requires steps != []
  {
    key in w.authorities && steps[0].now < w.authorities[key].expires
  }

  /** What the answer tells, by the rows alone: a key is invalid exactly when the
      window does not remember it and its row refuses it; a key the window does not
      remember is served as its own row's organisation and identity, and what it is
      served is what the rows give that identity for the name. */
  ghost predicate Honest(w: World, steps: seq<Step>, key: KeyHash, name: string, deadline: int, conflict: bool,
                         rows: Db, wall: int, result: Result<Snapshot, Error>)
  {
    && steps != []
    && (result == Err(InvalidKey) <==> !Remembers(w, steps, key) && Refused(rows, key, wall))
    && (result.Ok? ==> !conflict && result.value.name == name && result.value.deadline == deadline
                       && !result.value.resolution.target.Unreadable?)
    && (result.Ok? && !Remembers(w, steps, key) ==>
          && key in rows.keys && result.value.org == rows.keys[key].org && Some(result.value.identity) == rows.keys[key].identity
          && exists public :: Gives(rows, result.value.org, result.value.identity, name, Answer(result.value.resolution, public)))
    && (result == Err(AliasNotGranted) && !Remembers(w, steps, key) ==>
          && key in rows.keys
          && forall identity, answer :: rows.keys[key].identity == Some(identity) ==>
               !Gives(rows, rows.keys[key].org, identity, name, answer))
  }

  lemma DecidedIsHonest(w: World, steps: seq<Step>, key: KeyHash, name: string, deadline: int, conflict: bool,
                        from: int, to: int, rows: Db, wall: int, result: Result<Snapshot, Error>)
    requires rows.Valid() && Decided(w, steps, key, name, deadline, conflict, result) && Taken(steps, from, to, rows, wall)
    ensures Honest(w, steps, key, name, deadline, conflict, rows, wall, result)
  {
    AuthorityIsRow(rows, key, wall);
    hide Resolve, Authenticate, Gives;
    assert steps[0] in steps && (|steps| > 1 ==> steps[1] in steps) && (|steps| > 2 ==> steps[2] in steps);
    if !Remembers(w, steps, key) && !Refused(rows, key, wall) && key in rows.keys && rows.keys[key].identity.Some? {
      var org, identity := rows.keys[key].org, rows.keys[key].identity.value;
      forall answer ensures Resolve(rows, org, identity, name) == Some(answer) <==> Gives(rows, org, identity, name, answer) {
        ResolveExactly(rows, org, identity, name, answer);
      }
      var live := Resolve(rows, org, identity, name);
      assert live.Some? ==> Gives(rows, org, identity, name, Answer(live.value.resolution, live.value.isPublic));
    }
  }

  /** Every step was taken at a reading between the two, and every live query saw
      these rows at this wall time. */
  ghost predicate Taken(steps: seq<Step>, from: int, to: int, rows: Db, wall: int) {
    forall s :: s in steps ==> from <= s.now <= to && (s.Ask? ==> s.db == rows && s.wall == wall)
  }

  /** Wall and monotonic readings, one independent of the other. */
  class GatewayClock {
    var monotonic: int
    var wall: int

    constructor () {
    }

    method Monotonic() returns (now: int)
      modifies this`monotonic
      ensures now == monotonic >= old(monotonic)
    {
      now :| now >= monotonic;
      monotonic := now;
    }

    method Now() returns (now: int)
      modifies this`wall
      ensures now == wall
    {
      now := *;
      wall := now;
    }
  }

  /** The database; between two transactions its rows may become anything the
      schema allows. */
  class GatewayDatabase {
    var rows: Db

    constructor (rows: Db)
      requires rows.Valid()
      ensures this.rows == rows
    {
      this.rows := rows;
    }

    method Transaction()
      modifies this
      ensures rows.Valid()
    {
      assert Db(map[], {}, map[], {}).Valid();
      var next: Db :| next.Valid();
      rows := next;
    }

    method SelectKey(key: KeyHash, wall: int) returns (authority: Option<Authority>)
      ensures authority == Authenticate(rows, key, wall)
    {
      if key !in rows.keys {
        return None;
      }
      var row := rows.keys[key];
      if row.revokedAt.Some? || (row.expiresAt.Some? && row.expiresAt.value <= wall) {
        return None;
      }
      return Some(Authority(row.id, row.org, row.identity, row.captures));
    }

    /** The effective alias, its revision, and the grant check. */
    method SelectAlias(scope: Scope) returns (answer: Option<Answer>)
      requires rows.Valid()
      ensures answer == Resolve(rows, scope.org, scope.identity, scope.name)
    {
      var candidates := Candidates(rows, scope.org, scope.name);
      if candidates == {} {
        return None;
      }
      var row;
      if exists a :: a in candidates && a.org.Some? {
        row :| row in candidates && row.org.Some?;
      } else {
        row :| row in candidates;
      }
      FirstIs(rows, scope.org, scope.name, candidates, row);
      if row.revision.None? || row.revision.value !in rows.revisions {
        return None;
      }
      if row.org.Some? && (row.aliasId, scope.identity) !in rows.grants {
        return None;
      }
      var revision := rows.revisions[row.revision.value];
      return Some(Answer(
        Resolution(row.revision.value, revision.target, revision.catalogSha256, revision.refusalFailover),
        row.org.None?));
    }
  }

  class PostgresGatewayControlStore {
    const config: Config
    const authorityReuse: ReuseCache<KeyHash, Authority>
    const grantResolution: ReuseCache<Scope, Resolution>
    const clock: GatewayClock
    const db: GatewayDatabase
    /** The protocol's state, history included. */
    ghost var world: World

    constructor (config: Config, clock: GatewayClock, db: GatewayDatabase)
      requires db.rows.Valid()
      ensures this.config == config && this.clock == clock && this.db == db
      ensures Valid() && world == START && fresh(authorityReuse) && fresh(grantResolution)
    {
      this.config, this.clock, this.db := config, clock, db;
      authorityReuse := new ReuseCache(config.authorityTtl, config.authorityBound);
      grantResolution := new ReuseCache(config.grantTtl, config.grantBound);
      world := START;
    }

    ghost predicate Valid()
      reads this, authorityReuse, grantResolution, db
    {
      && db.rows.Valid()
      && authorityReuse as object != grantResolution
      && authorityReuse.ttl == config.authorityTtl && authorityReuse.bound == config.authorityBound
      && grantResolution.ttl == config.grantTtl && grantResolution.bound == config.grantBound
      && authorityReuse.entries == world.authorities && grantResolution.entries == world.resolutions
    }

    /** One request at a time: no other is under way in this worker. */
    ghost predicate Idle()
      reads this
    {
      world.flights == map[]
    }

    method OpenRequest(key: KeyHash, name: string) returns (authority: Option<Authority>, ghost step: Step)
      requires Valid() && Idle() && WellFormed(name)
      modifies this`world, authorityReuse, clock`monotonic
      ensures Valid() && step.Open? && step.id == 0 && Enabled(old(world), step)
      ensures world == Next(config, old(world), step)
      ensures world.flights == map[0 := Opened(key, name, authority, step.now, false)]
      ensures step.key == key && step.name == name && step.now == clock.monotonic >= old(clock.monotonic)
      ensures authority == ReadEntry(old(world.authorities), key, step.now)
      ensures world.served == old(world.served) && world.resolutions == old(world.resolutions)
    {
      hide AfterRead, ReadEntry, WellFormed;
      var now := clock.Monotonic();
      authority := authorityReuse.Get(key, now);
      step := Open(0, key, name, now);
      world := Next(config, world, step);
    }

    /** The fast path, given the authority window's answer. */
    method TryGrantWindow(key: KeyHash, scope: Scope, ghost f: Flight)
      returns (resolution: Option<Resolution>, ghost step: Step)
      requires Valid() && world.flights == map[0 := f] && MayReadGrant(f)
      requires f.key == key && scope == Scope(f.authority.value.org, f.authority.value.identity.value, f.name)
      modifies this`world, grantResolution, clock`monotonic
      ensures Valid() && step.ReadGrant? && Enabled(old(world), step) && world == Next(config, old(world), step)
      ensures step.now == clock.monotonic >= old(clock.monotonic)
      ensures resolution == ReadEntry(old(world.resolutions), scope, step.now)
      ensures resolution.Some? ==>
        Idle() && world.served == old(world.served) + {Served(key, scope, resolution.value, true, f.readAt, step.now)}
      ensures resolution.None? ==> world.served == old(world.served) && world.flights == map[0 := f.(missed := true)]
    {
      var now := clock.Monotonic();
      resolution := grantResolution.Get(scope, now);
      step := ReadGrant(0, now);
      hide AfterRead, ReadEntry;
      world := Next(config, world, step);
    }

    /** The live path: authenticate unless the window did, then decide. */
    method AskDatabase(key: KeyHash, name: string, cached: Option<Authority>, ghost f: Flight)
      returns (found: Result<(Scope, Answer), Error>, ghost authority: Option<Authority>, ghost step: Step)
      requires Valid() && world.flights == map[0 := f] && f.Opened? && !MayReadGrant(f)
      requires f.key == key && f.name == name && f.authority == cached
      modifies this`world, authorityReuse, clock, db
      ensures Valid() && step.Ask? && Enabled(old(world), step) && world == Next(config, old(world), step)
      ensures step.now == clock.monotonic >= old(clock.monotonic)
      ensures step.db == db.rows && step.wall == clock.wall
      ensures world.served == old(world.served)
      ensures authority == (if cached.Some? then cached else Authenticate(step.db, key, step.wall))
      ensures found.Err? ==> found.error == if authority.None? then InvalidKey else AliasNotGranted
      ensures found.Err? <==> authority.None? || LiveAnswer(step.db, authority.value, name).None?
      ensures found.Ok? ==>
        found.value == (Scope(authority.value.org, authority.value.identity.value, name), LiveAnswer(step.db, authority.value, name).value)
      ensures found.Ok? ==>
        && world.flights == map[0 := Found(key, found.value.0, found.value.1, step.now, step.db)]
        && found.value.0.name == name
      ensures found.Err? ==> Idle()
    {
      hide Resolve, AfterPut, WellFormed, Gives, Refused, Survives, Answers, Authenticate;
      db.Transaction();
      var wall := clock.Now();
      var current := cached;
      var loadedAt := 0;
      if cached.None? {
        current := db.SelectKey(key, wall);
        if current.None? {
          authority := None;
          step := Ask(0, db.rows, wall, loadedAt, clock.monotonic);
          world := Next(config, world, step);
          return Err(InvalidKey), authority, step;
        }
        loadedAt := clock.Monotonic();
        authorityReuse.Put(key, current.value, loadedAt);
      }
      authority := current;
      var now := clock.Monotonic();
      step := Ask(0, db.rows, wall, loadedAt, now);
      world := Next(config, world, step);
      if current.value.identity.None? {
        return Err(AliasNotGranted), authority, step;
      }
      var scope := Scope(current.value.org, current.value.identity.value, name);
      var answer := db.SelectAlias(scope);
      if answer.None? {
        return Err(AliasNotGranted), authority, step;
      }
      return Ok((scope, answer.value)), authority, step;
    }

    /** Only public answers are stored. */
    method StoreAnswer(scope: Scope, answer: Answer, ghost f: Flight) returns (ghost step: Step)
      requires Valid() && world.flights == map[0 := f] && f.Found? && f.scope == scope && f.answer == answer
      requires clock.monotonic >= f.askedAt
      modifies this`world, grantResolution, clock`monotonic
      ensures Valid() && Idle() && step.Store? && Enabled(old(world), step) && world == Next(config, old(world), step)
      ensures step.now == clock.monotonic >= old(clock.monotonic)
      ensures world.served == old(world.served) + {Served(f.key, scope, answer.resolution, false, f.askedAt, step.now)}
    {
      hide AfterPut;
      var now := clock.Monotonic();
      if answer.isPublic {
        grantResolution.Put(scope, answer.resolution, now);
      }
      step := Store(0, now);
      world := Next(config, world, step);
    }

    /** The live path, recorded as steps of the run. */
    method DecideLive(key: KeyHash, name: string, cached: Option<Authority>, deadline: int, conflict: bool,
                      ghost f: Flight, ghost start: World, ghost before: seq<Step>)
      returns (result: Result<Snapshot, Error>, ghost more: seq<Step>)
      requires Valid() && world.flights == map[0 := f] && f.Opened? && !MayReadGrant(f)
      requires f.key == key && f.name == name && f.authority == cached
      requires Runs(config, start, before) && world == Run(config, start, before)
      modifies this`world, authorityReuse, grantResolution, clock, db
      ensures Valid() && Idle() && old(clock.monotonic) <= clock.monotonic
      ensures Runs(config, start, before + more) && world == Run(config, start, before + more)
      ensures Taken(more, old(clock.monotonic), clock.monotonic, db.rows, clock.wall)
      ensures DecidedLive(more, key, name, cached, deadline, conflict, result)
    {
      hide *;
      var found;
      ghost var authority, ask;
      found, authority, ask := AskDatabase(key, name, cached, f);
      RunSnoc(config, start, before, ask);
      if found.Err? {
        AskedOnly(ask, key, name, cached, deadline, conflict, found.error);
        TakenSteps([ask], old(clock.monotonic), clock.monotonic, db.rows, clock.wall);
        return Err(found.error), [ask];
      }
      var (scope, answer) := found.value;
      ghost var step := StoreAnswer(scope, answer, Found(key, scope, answer, ask.now, ask.db));
      RunSnoc(config, start, before + [ask], step);
      more := [ask, step];
      assert before + [ask] + [step] == before + more;
      result := SnapshotOf(scope, answer.resolution, deadline, conflict);
      AskedAndStored(ask, step, key, name, cached, deadline, conflict);
      TakenSteps(more, old(clock.monotonic), clock.monotonic, db.rows, clock.wall);
    }

    lemma ValidRows()
      requires Valid()
      ensures db.rows.Valid()
    {
    }

    /** One whole authorization: refused for its deadline, then for its name, before
        anything is read; otherwise its effect is a run of the protocol, and the run
        decides the answer. */
    method AuthorizeRequest(key: KeyHash, name: string, deadline: int, conflict: bool)
      returns (result: Result<Snapshot, Error>, ghost steps: seq<Step>, ghost started: int)
      requires Valid() && Idle()
      modifies this`world, authorityReuse, grantResolution, clock, db
      ensures Valid() && Idle()
      ensures old(clock.monotonic) <= started <= clock.monotonic
      ensures Runs(config, old(world), steps) && world == Run(config, old(world), steps)
      ensures Taken(steps, started, clock.monotonic, db.rows, clock.wall)
      ensures if deadline <= started then steps == [] && result == Err(DeadlineExpired)
              else if !WellFormed(name) then steps == [] && result == Err(AliasNotGranted)
              else && Decided(old(world), steps, key, name, deadline, conflict, result)
                   && Honest(old(world), steps, key, name, deadline, conflict, db.rows, clock.wall, result)
    {
      ghost var start := world;
      ValidRows();
      hide *;
      var now := clock.Monotonic();
      started := now;
      steps := [];
      NoSteps(config, start, now, db.rows, clock.wall);
      if deadline <= now {
        return Err(DeadlineExpired), steps, started;
      }
      if !WellFormed(name) {
        return Err(AliasNotGranted), steps, started;
      }
      var cached;
      ghost var open, read;
      cached, open := OpenRequest(key, name);
      RunSnoc(config, start, [], open);
      assert [] + [open] == [open];
      steps := [open];
      ghost var f, more := Opened(key, name, cached, open.now, false), [];
      ReadsGrant(f);
      if cached.Some? && cached.value.identity.Some? {
        var scope := Scope(cached.value.org, cached.value.identity.value, name);
        var resolution;
        resolution, read := TryGrantWindow(key, scope, f);
        RunSnoc(config, start, steps, read);
        assert steps + [read] == [open, read];
        steps := [open, read];
        if resolution.Some? {
          result := SnapshotOf(scope, resolution.value, deadline, conflict);
          TakenSteps(steps, started, clock.monotonic, db.rows, clock.wall);
          DecidedFast(start, open, read, key, name, deadline, conflict);
          DecidedIsHonest(start, steps, key, name, deadline, conflict, started, clock.monotonic, db.rows, clock.wall, result);
          return;
        }
        f := f.(missed := true);
        ReadsGrant(f);
        ghost var readAt := clock.monotonic;
        result, more := DecideLive(key, name, cached, deadline, conflict, f, start, steps);
        DecidedAfter(start, steps, more, key, name, deadline, conflict, result);
        TakenMore(steps, more, started, readAt, clock.monotonic, db.rows, clock.wall);
      } else {
        ghost var readAt := clock.monotonic;
        result, more := DecideLive(key, name, cached, deadline, conflict, f, start, steps);
        DecidedAfter(start, steps, more, key, name, deadline, conflict, result);
        TakenMore(steps, more, started, readAt, clock.monotonic, db.rows, clock.wall);
      }
      steps := steps + more;
      DecidedIsHonest(start, steps, key, name, deadline, conflict, started, clock.monotonic, db.rows, clock.wall, result);
    }
  }

  // The shapes of a run, one lemma each.

  lemma NoSteps(c: Config, w: World, now: int, rows: Db, wall: int)
    ensures Runs(c, w, []) && Run(c, w, []) == w && Taken([], now, now, rows, wall)
  {
  }

  lemma ReadsGrant(f: Flight)
    ensures f.Opened? ==> (MayReadGrant(f) <==> !f.missed && f.authority.Some? && f.authority.value.identity.Some?)
  {
  }

  lemma TakenSteps(steps: seq<Step>, from: int, to: int, rows: Db, wall: int)
    requires forall s :: s in steps ==> from <= s.now <= to && (s.Ask? ==> s.db == rows && s.wall == wall)
    ensures Taken(steps, from, to, rows, wall)
  {
  }

  lemma TakenMore(steps: seq<Step>, more: seq<Step>, from: int, middle: int, to: int, rows: Db, wall: int)
    requires forall s :: s in steps ==> from <= s.now <= middle && !s.Ask?
    requires Taken(more, middle, to, rows, wall) && from <= middle <= to
    ensures Taken(steps + more, from, to, rows, wall)
  {
  }

  lemma AskedOnly(ask: Step, key: KeyHash, name: string, cached: Option<Authority>, deadline: int, conflict: bool, error: Error)
    requires ask.Ask?
    requires var authority := if cached.Some? then cached else Authenticate(ask.db, key, ask.wall);
             && (authority.None? || LiveAnswer(ask.db, authority.value, name).None?)
             && error == if authority.None? then InvalidKey else AliasNotGranted
    ensures DecidedLive([ask], key, name, cached, deadline, conflict, Err(error))
  {
  }

  lemma AskedAndStored(ask: Step, store: Step, key: KeyHash, name: string, cached: Option<Authority>, deadline: int, conflict: bool)
    requires ask.Ask? && store.Store?
    requires var authority := if cached.Some? then cached else Authenticate(ask.db, key, ask.wall);
             authority.Some? && LiveAnswer(ask.db, authority.value, name).Some?
    ensures var authority := (if cached.Some? then cached else Authenticate(ask.db, key, ask.wall)).value;
            DecidedLive([ask, store], key, name, cached, deadline, conflict,
                        SnapshotOf(Scope(authority.org, authority.identity.value, name),
                                   LiveAnswer(ask.db, authority, name).value.resolution, deadline, conflict))
  {
  }

  lemma DecidedFast(w: World, open: Step, read: Step, key: KeyHash, name: string, deadline: int, conflict: bool)
    requires open.Open? && open.key == key && open.name == name && read.ReadGrant?
    requires var cached := ReadEntry(w.authorities, key, open.now);
             && cached.Some? && cached.value.identity.Some?
             && ReadEntry(w.resolutions, Scope(cached.value.org, cached.value.identity.value, name), read.now).Some?
    ensures var cached := ReadEntry(w.authorities, key, open.now).value;
            var scope := Scope(cached.org, cached.identity.value, name);
            Decided(w, [open, read], key, name, deadline, conflict,
                    SnapshotOf(scope, ReadEntry(w.resolutions, scope, read.now).value, deadline, conflict))
  {
  }

  lemma DecidedAfter(w: World, steps: seq<Step>, more: seq<Step>, key: KeyHash, name: string,
                     deadline: int, conflict: bool, result: Result<Snapshot, Error>)
    requires steps != [] && steps[0].Open? && steps[0].key == key && steps[0].name == name
    requires var cached := ReadEntry(w.authorities, key, steps[0].now);
             && DecidedLive(more, key, name, cached, deadline, conflict, result)
             && if cached.Some? && cached.value.identity.Some?
                then |steps| == 2 && steps[1].ReadGrant?
                     && ReadEntry(w.resolutions, Scope(cached.value.org, cached.value.identity.value, name), steps[1].now).None?
                else |steps| == 1
    ensures Decided(w, steps + more, key, name, deadline, conflict, result)
  {
    hide DecidedLive, ReadEntry;
    if |steps| == 1 {
      assert (steps + more)[1..] == more;
    } else {
      assert (steps + more)[2..] == more;
    }
  }
}

/** The sliding request window of the lease shadow, over whole runs: how many
    admits one API key can collect in any minute. */
module RateWindow {
  import opened Prelude
  import opened LeaseShadow

  /** Admit times of one API key, across all its aliases, providers and models. */
  function Times(admits: seq<AdmitRecord>, apiKey: ApiKey): seq<Time> {
    if admits == [] then []
    else
      var last := admits[|admits| - 1];
      Times(admits[..|admits| - 1], apiKey) + if last.key.apiKey == apiKey then [last.now] else []
  }

  /** How many of the times fall in the half-open window (t - width, t]. */
  function InWindow(times: seq<Time>, t: Time, width: nat): nat {
    if times == [] then 0
    else
      InWindow(times[..|times| - 1], t, width) + if t - width < times[|times| - 1] <= t then 1 else 0
  }

  /** The most admits a minute can hold: the advertised room, but at least one. */
  function Limit(c: Config, rpm: nat): nat
    requires c.Valid()
  {
    var room := c.Room(rpm);
    if room > 1 then room else 1
  }

  /** The step leaves the key's limit at `rpm`, and an install after its first
      admit finds a tracked lease of the key. */
  predicate KeepsKeyOnce(c: Config, w: World, step: Step, apiKey: ApiKey, rpm: nat)
    requires c.Valid() && Enabled(c, w, step)
  {
    step.Installed? ==>
      && (forall k :: k in step.states && k.apiKey == apiKey ==> step.states[k].rpm == Some(rpm))
      && (Times(w.admits, apiKey) != [] ==> apiKey in LiveApiKeys(Next(c, w, step).shadow.leases))
  }

  predicate KeepsKey(c: Config, w: World, steps: seq<Step>, apiKey: ApiKey, rpm: nat)
    requires c.Valid() && Runs(c, w, steps)
    decreases |steps|
  {
    steps == [] ||
    (KeepsKeyOnce(c, w, steps[0], apiKey, rpm) && KeepsKey(c, Next(c, w, steps[0]), steps[1..], apiKey, rpm))
  }

  function Stamps(windows: map<ApiKey, seq<Time>>, apiKey: ApiKey): seq<Time> {
    if apiKey in windows then windows[apiKey] else []
  }

  ghost predicate Sorted(times: seq<Time>) {
    forall i, j :: 0 <= i < j < |times| ==> times[i] <= times[j]
  }

  /** Any limit + 1 consecutive admits span at least a minute. */
  ghost predicate Spaced(times: seq<Time>, limit: nat, width: nat) {
    forall i, j :: 0 <= i && i + limit <= j < |times| ==> times[i] <= times[j] - width
  }

  /** The stored stamps are the tail of the history, and all older admits have
      left the window. */
  ghost predicate Tail(times: seq<Time>, stamps: seq<Time>, now: Time, width: nat) {
    && |stamps| <= |times|
    && stamps == times[|times| - |stamps|..]
    && (forall i :: 0 <= i < |times| - |stamps| ==> times[i] <= now - width)
  }

  ghost predicate History(c: Config, times: seq<Time>, stamps: seq<Time>, now: Time, limit: nat) {
    && Tail(times, stamps, now, c.minute)
    && (forall i :: 0 <= i < |times| ==> times[i] <= now)
    && Sorted(times)
    && Spaced(times, limit, c.minute)
  }

  ghost predicate FixedLimit(leases: map<LeaseKey, Lease>, apiKey: ApiKey, rpm: nat) {
    forall k :: k in leases && k.apiKey == apiKey ==> leases[k].rpm == Some(rpm)
  }

  ghost predicate WindowSafe(c: Config, w: World, apiKey: ApiKey, rpm: nat)
    requires c.Valid()
  {
    && FixedLimit(w.shadow.leases, apiKey, rpm)
    && (apiKey !in w.shadow.windows ==> Times(w.admits, apiKey) == [])
    && History(c, Times(w.admits, apiKey), Stamps(w.shadow.windows, apiKey), w.clock, Limit(c, rpm))
  }

  // One step -----------------------------------------------------------------

  lemma LaterIsStillHistory(c: Config, times: seq<Time>, stamps: seq<Time>, now: Time, later: Time, limit: nat)
    requires History(c, times, stamps, now, limit) && later >= now
    ensures History(c, times, stamps, later, limit)
  {
  }

  lemma PruneKeepsTail(c: Config, times: seq<Time>, stamps: seq<Time>, now: Time)
    requires Tail(times, stamps, now, c.minute)
    ensures Tail(times, Prune(c, stamps, now), now, c.minute)
  {
    var kept := Prune(c, stamps, now);
    var gone := |times| - |stamps|;
    assert kept == times[|times| - |kept|..];
    forall i | 0 <= i < |times| - |kept| ensures times[i] <= now - c.minute {
      if i >= gone {
        assert times[i] == stamps[i - gone];
      }
    }
  }

  /** An admit with fewer than `limit` live stamps keeps the spacing: the admit
      `limit` places back has already left the window. */
  lemma AdmitKeepsHistory(c: Config, times: seq<Time>, stamps: seq<Time>, now: Time, limit: nat)
    requires History(c, times, stamps, now, limit) && limit >= 1
    requires |stamps| < limit
    ensures History(c, times + [now], stamps + [now], now, limit)
  {
    var longer := times + [now];
    forall i, j | 0 <= i && i + limit <= j < |longer| ensures longer[i] <= longer[j] - c.minute {
      if j == |times| {
        assert i < |times| - |stamps|;
      }
    }
  }

  lemma RoomIsFloor(c: Config, rpm: nat, n: nat)
    requires c.Valid()
    ensures n * c.headroomDen <= rpm * c.headroomNum <==> n <= c.Room(rpm)
  {
    FloorBelow(rpm * c.headroomNum, c.headroomDen);
    var room := c.Room(rpm);
    if n <= room {
      MulMono(n, room, c.headroomDen);
    } else {
      MulMono(room + 1, n, c.headroomDen);
    }
  }

  /** How one API key's stamps may change in a decision. */
  predicate StampsChange(c: Config, before: Shadow, after: Shadow, apiKey: ApiKey, admitted: bool, now: Time, rpm: nat)
    requires c.Valid()
  {
    var was, left := Stamps(before.windows, apiKey), Stamps(after.windows, apiKey);
    if admitted then
      && apiKey in after.windows && left == Prune(c, was, now) + [now]
      && (apiKey in before.windows ==> |Prune(c, was, now)| + 1 <= c.Room(rpm))
    else
      (apiKey in after.windows <==> apiKey in before.windows) && (left == was || left == Prune(c, was, now))
  }

  lemma OtherKeysStamps(c: Config, s: Shadow, key: LeaseKey, maxCost: Option<nat>, now: Time, apiKey: ApiKey, rpm: nat)
    requires c.Valid() && key.apiKey != apiKey
    ensures StampsChange(c, s, Decide(c, s, key, maxCost, now).shadow, apiKey, false, now, rpm)
  {
    hide Prune, RateLimited;
  }

  lemma LimitedExactly(c: Config, windows: map<ApiKey, seq<Time>>, apiKey: ApiKey, rpm: nat, now: Time)
    requires c.Valid()
    ensures RateLimited(c, windows, apiKey, Some(rpm), now)
       <==> apiKey in windows && |Prune(c, windows[apiKey], now)| + 1 > c.Room(rpm)
  {
    if apiKey in windows {
      RoomIsFloor(c, rpm, |Prune(c, windows[apiKey], now)| + 1);
    }
    hide Prune, Config.Room;
  }

  lemma AdmitStamps(c: Config, s: Shadow, key: LeaseKey, lease: Lease, maxCost: nat, now: Time, rpm: nat)
    requires c.Valid() && lease.rpm == Some(rpm)
    ensures var d := AdmitAgainst(c, s, key, lease, maxCost, now);
            StampsChange(c, s, d.shadow, key.apiKey, d.verdict.Admit?, now, rpm)
  {
    hide Prune, Config.Room, RateLimited, Config.Valid;
    LimitedExactly(c, s.windows, key.apiKey, rpm, now);
  }

  lemma OwnStamps(c: Config, s: Shadow, key: LeaseKey, maxCost: Option<nat>, now: Time, rpm: nat)
    requires c.Valid() && (key in s.leases ==> s.leases[key].rpm == Some(rpm))
    ensures var d := Decide(c, s, key, maxCost, now);
            StampsChange(c, s, d.shadow, key.apiKey, d.verdict.Admit?, now, rpm)
  {
    hide Prune, Config.Room, Config.Valid, AdmitAgainst;
    if key in s.leases && maxCost.Some? {
      var lease := s.leases[key].(lastUsed := now);
      var after := s.(leases := s.leases[key := lease]);
      AdmitStamps(c, after, key, lease, maxCost.value, now, rpm);
    }
  }

  lemma DecideKeepsFixedLimit(c: Config, s: Shadow, key: LeaseKey, maxCost: Option<nat>, now: Time, apiKey: ApiKey, rpm: nat)
    requires FixedLimit(s.leases, apiKey, rpm)
    ensures FixedLimit(Decide(c, s, key, maxCost, now).shadow.leases, apiKey, rpm)
  {
    DecideEffect(c, s, key, maxCost, now);
    hide Decide;
  }

  lemma TimesAppend(admits: seq<AdmitRecord>, record: AdmitRecord, apiKey: ApiKey)
    ensures Times(admits + [record], apiKey)
         == Times(admits, apiKey) + if record.key.apiKey == apiKey then [record.now] else []
  {
    Snoc(admits, record);
  }

  lemma HistoryAfter(c: Config, times: seq<Time>, before: Shadow, after: Shadow, apiKey: ApiKey, admitted: bool,
                     was: Time, now: Time, rpm: nat)
    requires c.Valid() && now >= was
    requires History(c, times, Stamps(before.windows, apiKey), was, Limit(c, rpm))
    requires apiKey !in before.windows ==> times == []
    requires StampsChange(c, before, after, apiKey, admitted, now, rpm)
    ensures History(c, times + if admitted then [now] else [], Stamps(after.windows, apiKey), now, Limit(c, rpm))
    ensures apiKey !in after.windows ==> times + (if admitted then [now] else []) == []
  {
    var stamps, limit := Stamps(before.windows, apiKey), Limit(c, rpm);
    LaterIsStillHistory(c, times, stamps, was, now, limit);
    PruneKeepsTail(c, times, stamps, now);
    hide Spaced, Tail, Sorted, Config.Room;
    if admitted {
      assert apiKey !in before.windows ==> Prune(c, stamps, now) == [];
      AdmitKeepsHistory(c, times, Prune(c, stamps, now), now, limit);
    } else {
      assert times + [] == times;
    }
  }

  lemma DecideKeepsWindow(c: Config, w: World, step: Step, apiKey: ApiKey, rpm: nat)
    requires c.Valid() && step.Decided? && Enabled(c, w, step) && WindowSafe(c, w, apiKey, rpm)
    ensures WindowSafe(c, Next(c, w, step), apiKey, rpm)
  {
    hide Decide, Prune, History, FixedLimit, StampsChange, Limit, Times, Unused, Config.Room, Config.Valid;
    var key, now := step.key, step.now;
    var d := Decide(c, w.shadow, key, step.maxCost, now);
    var mine := d.verdict.Admit? && key.apiKey == apiKey;
    DecideUses(c, w.shadow, key, step.maxCost, now, key);
    DecideKeepsFixedLimit(c, w.shadow, key, step.maxCost, now, apiKey, rpm);
    if key.apiKey == apiKey {
      FixedAt(w.shadow.leases, key, rpm);
      OwnStamps(c, w.shadow, key, step.maxCost, now, rpm);
    } else {
      OtherKeysStamps(c, w.shadow, key, step.maxCost, now, apiKey, rpm);
    }
    HistoryAfter(c, Times(w.admits, apiKey), w.shadow, d.shadow, apiKey, mine, w.clock, now, rpm);
    if d.verdict.Admit? {
      TimesAppend(w.admits, AdmitRecord(key, step.maxCost.value, now, w.shadow.leases[key]), apiKey);
    } else {
      assert Times(w.admits, apiKey) + [] == Times(w.admits, apiKey);
    }
  }

  lemma FixedAt(leases: map<LeaseKey, Lease>, key: LeaseKey, rpm: nat)
    requires FixedLimit(leases, key.apiKey, rpm)
    ensures key in leases ==> leases[key].rpm == Some(rpm)
  {
  }

  lemma InstallKeepsWindow(c: Config, w: World, step: Step, apiKey: ApiKey, rpm: nat)
    requires c.Valid() && step.Installed? && Enabled(c, w, step) && WindowSafe(c, w, apiKey, rpm)
    requires KeepsKeyOnce(c, w, step, apiKey, rpm)
    ensures WindowSafe(c, Next(c, w, step), apiKey, rpm)
  {
    var times, stamps := Times(w.admits, apiKey), Stamps(w.shadow.windows, apiKey);
    LaterIsStillHistory(c, times, stamps, w.clock, step.now, Limit(c, rpm));
    hide Granted, Spaced, Sorted, Times, Enumerates, GrantsOf;
  }

  lemma StepKeepsWindow(c: Config, w: World, step: Step, apiKey: ApiKey, rpm: nat)
    requires c.Valid() && Enabled(c, w, step) && WindowSafe(c, w, apiKey, rpm)
    requires KeepsKeyOnce(c, w, step, apiKey, rpm)
    ensures WindowSafe(c, Next(c, w, step), apiKey, rpm)
  {
    hide History, Decide, Install, Ranked;
    match step {
      case Decided(_, _, _) => DecideKeepsWindow(c, w, step, apiKey, rpm);
      case Trimmed(_) =>
      case Installed(_, _, _) => InstallKeepsWindow(c, w, step, apiKey, rpm);
    }
  }

  lemma {:induction false} RunKeepsWindow(c: Config, w: World, steps: seq<Step>, apiKey: ApiKey, rpm: nat)
    requires c.Valid() && Runs(c, w, steps) && WindowSafe(c, w, apiKey, rpm) && KeepsKey(c, w, steps, apiKey, rpm)
    ensures WindowSafe(c, Run(c, w, steps), apiKey, rpm)
    decreases |steps|
  {
    hide WindowSafe, Next, Enabled, KeepsKeyOnce;
    if steps != [] {
      StepKeepsWindow(c, w, steps[0], apiKey, rpm);
      RunKeepsWindow(c, Next(c, w, steps[0]), steps[1..], apiKey, rpm);
    }
  }

  // Counting -----------------------------------------------------------------

  lemma {:induction false} CountAtMost(times: seq<Time>, gone: nat, t: Time, width: nat)
    requires gone <= |times|
    requires forall i :: 0 <= i < gone ==> times[i] <= t - width
    ensures InWindow(times, t, width) <= |times| - gone
  {
    if times != [] {
      CountAtMost(times[..|times| - 1], if gone < |times| then gone else gone - 1, t, width);
    }
  }

  lemma {:induction false} SpacedCount(times: seq<Time>, limit: nat, t: Time, width: nat)
    requires limit >= 1 && Spaced(times, limit, width)
    ensures InWindow(times, t, width) <= limit
  {
    if times != [] {
      var n := |times| - 1;
      if t - width < times[n] <= t {
        CountAtMost(times, if |times| > limit then |times| - limit else 0, t, width);
      } else {
        SpacedCount(times[..n], limit, t, width);
      }
    }
  }

  lemma BeginsSafe(c: Config, clock: Time, apiKey: ApiKey, rpm: nat)
    requires c.Valid()
    ensures WindowSafe(c, Begin(clock), apiKey, rpm)
  {
    hide Limit;
  }

  /** Over any run in which the API key's limit is fixed and its lease stays
      tracked, no minute holds more than max(1, floor(headroom * rpm)) admits. */
  lemma AdmitsPerMinute(c: Config, clock: Time, steps: seq<Step>, apiKey: ApiKey, rpm: nat, t: Time)
    requires c.Valid() && Runs(c, Begin(clock), steps) && KeepsKey(c, Begin(clock), steps, apiKey, rpm)
    ensures InWindow(Times(Run(c, Begin(clock), steps).admits, apiKey), t, c.minute) <= Limit(c, rpm)
  {
    BeginsSafe(c, clock, apiKey, rpm);
    RunKeepsWindow(c, Begin(clock), steps, apiKey, rpm);
    hide Next, Enabled, Run, Runs, KeepsKey, Limit, Times, InWindow, Spaced, Sorted, Tail, FixedLimit, Begin;
    SpacedCount(Times(Run(c, Begin(clock), steps).admits, apiKey), Limit(c, rpm), t, c.minute);
  }

  // The advertised bound -----------------------------------------------------

  predicate WithinRoom(c: Config, rpm: nat, clock: Time, steps: seq<Step>, apiKey: ApiKey, t: Time)
    requires c.Valid()
  {
    Runs(c, Begin(clock), steps) && KeepsKey(c, Begin(clock), steps, apiKey, rpm) ==>
      InWindow(Times(Run(c, Begin(clock), steps).admits, apiKey), t, c.minute) <= c.Room(rpm)
  }

  lemma RoomEnough(c: Config, rpm: nat, clock: Time, steps: seq<Step>, apiKey: ApiKey, t: Time)
    requires c.Valid() && c.Room(rpm) >= 1
    ensures WithinRoom(c, rpm, clock, steps, apiKey, t)
  {
    hide Next, Enabled, Run, Runs, KeepsKey, Times, InWindow, Begin, Config.Room;
    if Runs(c, Begin(clock), steps) && KeepsKey(c, Begin(clock), steps, apiKey, rpm) {
      AdmitsPerMinute(c, clock, steps, apiKey, rpm, t);
    }
  }

  /** One step that is enabled and keeps the key. */
  predicate Fits(c: Config, w: World, step: Step, apiKey: ApiKey, rpm: nat)
    requires c.Valid()
  {
    Enabled(c, w, step) && KeepsKeyOnce(c, w, step, apiKey, rpm)
  }

  lemma Prepend(c: Config, w: World, steps: seq<Step>, apiKey: ApiKey, rpm: nat)
    requires c.Valid() && steps != [] && Fits(c, w, steps[0], apiKey, rpm)
    requires var t := Next(c, w, steps[0]);
             Runs(c, t, steps[1..]) && KeepsKey(c, t, steps[1..], apiKey, rpm)
    ensures Runs(c, w, steps) && KeepsKey(c, w, steps, apiKey, rpm)
    ensures Run(c, w, steps) == Run(c, Next(c, w, steps[0]), steps[1..])
  {
    hide Next, Enabled, KeepsKeyOnce;
  }

  /** A run whose one admit exceeds a room of zero: a key without a window entry
      is never rate limited. */
  function FirstAdmit(c: Config, key: LeaseKey, rpm: nat): seq<Step> {
    [Decided(key, Some(0), 0),
     Trimmed({key}),
     Installed(map[key := Unspent(c, rpm)], [key], 0),
     Decided(key, Some(0), 0)]
  }

  function Unspent(c: Config, rpm: nat): SourceState {
    SourceState(if c.floor > 1 then c.floor else 1, [], Some(rpm))
  }

  lemma FirstAdmitRegisters(c: Config, key: LeaseKey)
    requires c.Valid() && c.maxTracked > 0
    ensures Next(c, Begin(0), Decided(key, Some(0), 0)) == World(Shadow(map[], {key}, map[]), {}, 0, [], [])
    ensures Enabled(c, World(Shadow(map[], {key}, map[]), {}, 0, [], []), Trimmed({key}))
  {
    assert {} + {key} == {key};
  }

  lemma FirstAdmitInstalls(c: Config, key: LeaseKey, rpm: nat)
    requires c.Valid() && c.maxTracked > 0
    ensures var w := World(Shadow(map[], {}, map[]), {key}, 0, [], []);
            var step := Installed(map[key := Unspent(c, rpm)], [key], 0);
            && Enabled(c, w, step)
            && key in Next(c, w, step).shadow.leases
            && Next(c, w, step).shadow.leases[key] == Regrant(c, None, Unspent(c, rpm), 0)
            && Next(c, w, step).shadow.windows == map[]
            && Next(c, w, step).admits == [] && Next(c, w, step).clock == 0
  {
    hide Regrant, Granted;
  }

  lemma FirstAdmitAdmits(c: Config, w: World, key: LeaseKey, rpm: nat)
    requires c.Valid() && c.ttl > 0 && w.clock == 0 && key in w.shadow.leases && w.admits == []
    requires w.shadow.leases[key] == Regrant(c, None, Unspent(c, rpm), 0) && w.shadow.windows == map[]
    ensures Next(c, w, Decided(key, Some(0), 0)).admits == [AdmitRecord(key, 0, 0, w.shadow.leases[key])]
  {
    GrantedIsSafe(c, Unspent(c, rpm).remaining);
    hide Granted, Prune;
  }

  lemma FirstAdmitFits(c: Config, key: LeaseKey, rpm: nat)
    requires c.Valid() && c.ttl > 0 && c.maxTracked > 0
    ensures var steps := FirstAdmit(c, key, rpm);
            && Runs(c, Begin(0), steps) && KeepsKey(c, Begin(0), steps, key.apiKey, rpm)
            && exists lease :: Run(c, Begin(0), steps).admits == [AdmitRecord(key, 0, 0, lease)]
  {
    var steps := FirstAdmit(c, key, rpm);
    FirstAdmitRegisters(c, key);
    FirstAdmitInstalls(c, key, rpm);
    var w1 := World(Shadow(map[], {key}, map[]), {}, 0, [], []);
    var w2 := World(Shadow(map[], {}, map[]), {key}, 0, [], []);
    assert Next(c, w1, steps[1]) == w2;
    var w3 := Next(c, w2, steps[2]);
    FirstAdmitAdmits(c, w3, key, rpm);
    assert Times([], key.apiKey) == [];
    assert forall k :: k in steps[2].states ==> steps[2].states[k].rpm == Some(rpm);
    hide Next, Decide, Install, Ranked, Times, LiveApiKeys;
    Prepend(c, w3, steps[3..], key.apiKey, rpm);
    Prepend(c, w2, steps[2..], key.apiKey, rpm);
    Prepend(c, w1, steps[1..], key.apiKey, rpm);
    Prepend(c, Begin(0), steps, key.apiKey, rpm);
  }

  lemma FirstAdmitIgnoresLimit(c: Config, key: LeaseKey, rpm: nat)
    requires c.Valid() && c.ttl > 0 && c.maxTracked > 0
    ensures var steps := FirstAdmit(c, key, rpm);
            && Runs(c, Begin(0), steps) && KeepsKey(c, Begin(0), steps, key.apiKey, rpm)
            && InWindow(Times(Run(c, Begin(0), steps).admits, key.apiKey), 0, c.minute) == 1
  {
    var steps := FirstAdmit(c, key, rpm);
    FirstAdmitFits(c, key, rpm);
    hide Run, Runs, KeepsKey, FirstAdmit;
    var admits := Run(c, Begin(0), steps).admits;
    assert admits[..0] == [];
    assert Times([], key.apiKey) == [];
    assert Times(admits, key.apiKey) == [0];
    assert [0][..0] == [];
    assert InWindow([], 0, c.minute) == 0;
  }

  /** The advertised bound, floor(headroom * rpm) admits a minute, holds on every
      run exactly when it leaves room for at least one. */
  lemma AdvertisedBoundExactly(c: Config, rpm: nat)
    requires c.Valid() && c.ttl > 0 && c.maxTracked > 0
    ensures (forall clock, steps, apiKey, t :: WithinRoom(c, rpm, clock, steps, apiKey, t))
       <==> rpm * c.headroomNum >= c.headroomDen
  {
    hide *;
    RoomForOne(c, rpm);
    if c.Room(rpm) >= 1 {
      forall clock, steps, apiKey, t ensures WithinRoom(c, rpm, clock, steps, apiKey, t) {
        RoomEnough(c, rpm, clock, steps, apiKey, t);
      }
    } else {
      RoomLacking(c, rpm);
    }
  }

  lemma RoomForOne(c: Config, rpm: nat)
    requires c.Valid()
    ensures c.Room(rpm) >= 1 <==> rpm * c.headroomNum >= c.headroomDen
  {
    RoomIsFloor(c, rpm, 1);
    hide Config.Room;
  }

  lemma RoomLacking(c: Config, rpm: nat)
    requires c.Valid() && c.ttl > 0 && c.maxTracked > 0 && c.Room(rpm) == 0
    ensures !WithinRoom(c, rpm, 0, FirstAdmit(c, LeaseKey(0, 0, "", "", ""), rpm), 0, 0)
  {
    FirstAdmitIgnoresLimit(c, LeaseKey(0, 0, "", "", ""), rpm);
    hide Run, Runs, KeepsKey, Times, InWindow, FirstAdmit, Config.Room;
  }
}

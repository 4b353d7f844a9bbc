/** Shadow budget leases: decisions against in-memory lease slices, interleaved
    with one background refresher. */
module LeaseShadow {
  import opened Prelude

  type Time = int   // clock ticks
  type ApiKey = nat

  datatype LeaseKey = LeaseKey(org: nat, apiKey: ApiKey, alias: string, provider: string, model: string)

  /** Tunables; fractions are numerator over denominator. */
  datatype Config = Config(
    fractionNum: nat, fractionDen: nat,
    cap: nat,
    floor: int,
    ttl: nat,
    headroomNum: nat, headroomDen: nat,
    maxTracked: nat,
    minute: nat)
  {
    predicate Valid() {
      fractionDen > 0 && headroomDen > 0 && minute > 0
    }

    /** `n > rpm * headroom`. */
    predicate OverHeadroom(n: nat, rpm: nat) {
      n * headroomDen > rpm * headroomNum
    }

    /** The most requests a limit leaves room for: floor(headroom * rpm). */
    function Room(rpm: nat): nat
      requires Valid()
    {
      rpm * headroomNum / headroomDen
    }
  }

  const TICKS_PER_SECOND := 1000

  const DEFAULT_CONFIG :=
    Config(1, 10, 2_000_000, 10_000_000, 6 * TICKS_PER_SECOND, 9, 10, 1024, 60 * TICKS_PER_SECOND)

  /** One refresh read of the truth governing a key. */
  datatype SourceState = SourceState(remaining: int, exclusions: seq<string>, rpm: Option<nat>)

  datatype Lease = Lease(
    granted: int, consumed: int, remaining: int, exclusions: seq<string>, rpm: Option<nat>, expires: Time, lastUsed: Time)

  datatype Verdict = Admit | Deny | SyncFallback

  datatype Reason =
    | PriceUnknown | NoLease | LeaseExpired | Excluded(reasons: seq<string>) | ScopeExhausted | BelowFloor
    | RateHeadroom | LeaseExhausted | Admitted

  datatype Shadow = Shadow(leases: map<LeaseKey, Lease>, pending: set<LeaseKey>, windows: map<ApiKey, seq<Time>>)

  // Decisions ----------------------------------------------------------------

  /** `while stamps and stamps[0] <= now - 60.0: stamps.popleft()`. */
  function Prune(c: Config, stamps: seq<Time>, now: Time): (kept: seq<Time>)
    ensures |kept| <= |stamps| && kept == stamps[|stamps| - |kept|..]
    ensures forall i :: 0 <= i < |stamps| - |kept| ==> stamps[i] <= now - c.minute
  {
    if stamps != [] && stamps[0] <= now - c.minute then Prune(c, stamps[1..], now) else stamps
  }

  /** Whether one more admit would leave the headroom band. */
  predicate RateLimited(c: Config, windows: map<ApiKey, seq<Time>>, apiKey: ApiKey, rpm: Option<nat>, now: Time) {
    rpm.Some? && apiKey in windows && c.OverHeadroom(|Prune(c, windows[apiKey], now)| + 1, rpm.value)
  }

  function Pruned(c: Config, windows: map<ApiKey, seq<Time>>, apiKey: ApiKey, rpm: Option<nat>, now: Time)
    : map<ApiKey, seq<Time>>
  {
    if rpm.Some? && apiKey in windows then windows[apiKey := Prune(c, windows[apiKey], now)] else windows
  }

  function Stamped(windows: map<ApiKey, seq<Time>>, apiKey: ApiKey, rpm: Option<nat>, now: Time): map<ApiKey, seq<Time>> {
    if rpm.None? then windows
    else windows[apiKey := (if apiKey in windows then windows[apiKey] else []) + [now]]
  }

  datatype Decision = Decision(shadow: Shadow, verdict: Verdict, reason: Reason)

  function Decide(c: Config, s: Shadow, key: LeaseKey, maxCost: Option<nat>, now: Time): Decision {
    if maxCost.None? then Decision(s, Deny, PriceUnknown)
    else if key !in s.leases then
      Decision(s.(pending := if |s.pending| < c.maxTracked then s.pending + {key} else s.pending), SyncFallback, NoLease)
    else
      var lease := s.leases[key].(lastUsed := now);
      AdmitAgainst(c, s.(leases := s.leases[key := lease]), key, lease, maxCost.value, now)
  }

  function AdmitAgainst(c: Config, s: Shadow, key: LeaseKey, lease: Lease, maxCost: nat, now: Time): Decision {
    if now >= lease.expires then Decision(s, SyncFallback, LeaseExpired)
    else if lease.exclusions != [] then Decision(s, SyncFallback, Excluded(lease.exclusions))
    else if lease.remaining <= 0 then Decision(s, Deny, ScopeExhausted)
    else if lease.remaining < c.floor then Decision(s, SyncFallback, BelowFloor)
    else
      var windows := Pruned(c, s.windows, key.apiKey, lease.rpm, now);
      if RateLimited(c, s.windows, key.apiKey, lease.rpm, now) then
        Decision(s.(windows := windows), SyncFallback, RateHeadroom)
      else if lease.consumed + maxCost > lease.granted then
        Decision(s.(windows := windows), SyncFallback, LeaseExhausted)
      else
        Decision(s.(leases := s.leases[key := lease.(consumed := lease.consumed + maxCost)],
                    windows := Stamped(windows, key.apiKey, lease.rpm, now)),
                 Admit, Admitted)
  }

  /** The stamps that still count: those from the first inside the minute on. */
  ghost predicate Counted(c: Config, stamps: seq<Time>, now: Time, from: nat) {
    && from <= |stamps|
    && (forall i :: 0 <= i < from ==> stamps[i] + c.minute <= now)
    && (from < |stamps| ==> stamps[from] + c.minute > now)
  }

  /** One more admit stays within the headroom of the limit, if there is one and the
      key has been admitted before. */
  ghost predicate HasRoom(c: Config, s: Shadow, apiKey: ApiKey, rpm: Option<nat>, now: Time) {
    rpm.Some? && apiKey in s.windows ==>
      exists from :: Counted(c, s.windows[apiKey], now, from)
        && (|s.windows[apiKey]| - from + 1) * c.headroomDen <= rpm.value * c.headroomNum
  }

  /** Live, unexcluded, funded, and not below the floor. */
  ghost predicate Open(c: Config, lease: Lease, now: Time) {
    now < lease.expires && lease.exclusions == [] && lease.remaining > 0 && lease.remaining >= c.floor
  }

  ghost predicate MayAdmit(c: Config, s: Shadow, key: LeaseKey, cost: nat, now: Time) {
    && key in s.leases && Open(c, s.leases[key], now) && HasRoom(c, s, key.apiKey, s.leases[key].rpm, now)
    && s.leases[key].consumed + cost <= s.leases[key].granted
  }

  /** Why a priced request was not admitted. */
  ghost predicate ReasonIs(c: Config, s: Shadow, key: LeaseKey, cost: nat, now: Time, reason: Reason) {
    if key !in s.leases then reason == NoLease
    else
      var lease := s.leases[key];
      match reason
      case LeaseExpired => lease.expires <= now
      case Excluded(why) => lease.expires > now && lease.exclusions != [] && why == lease.exclusions
      case ScopeExhausted => lease.expires > now && lease.exclusions == [] && lease.remaining <= 0
      case BelowFloor => lease.expires > now && lease.exclusions == [] && 0 < lease.remaining < c.floor
      case RateHeadroom => Open(c, lease, now) && !HasRoom(c, s, key.apiKey, lease.rpm, now)
      case LeaseExhausted =>
        Open(c, lease, now) && HasRoom(c, s, key.apiKey, lease.rpm, now) && lease.consumed + cost > lease.granted
      case _ => false
  }

  /** What became of the key's stamps: untouched unless the limit was looked at, else
      those that still count, and an admit's own. */
  ghost predicate StampsAre(c: Config, s: Shadow, next: Shadow, key: LeaseKey, lease: Lease, now: Time, admitted: bool) {
    && (forall a :: a != key.apiKey ==> (a in next.windows <==> a in s.windows) && (a in s.windows ==> next.windows[a] == s.windows[a]))
    && if !Open(c, lease, now) || lease.rpm.None? then next.windows == s.windows
       else if key.apiKey !in s.windows then
         if admitted then key.apiKey in next.windows && next.windows[key.apiKey] == [now] else key.apiKey !in next.windows
       else
         && key.apiKey in next.windows
         && exists from: nat :: Counted(c, s.windows[key.apiKey], now, from)
              && next.windows[key.apiKey] == s.windows[key.apiKey][from..] + if admitted then [now] else []
  }

  lemma {:induction false} KeptAreInside(c: Config, stamps: seq<Time>, now: Time)
    ensures var kept := Prune(c, stamps, now); kept != [] ==> kept[0] > now - c.minute
  {
    if stamps != [] && stamps[0] <= now - c.minute {
      KeptAreInside(c, stamps[1..], now);
    }
  }

  lemma PruneCounts(c: Config, stamps: seq<Time>, now: Time) returns (from: nat)
    ensures Counted(c, stamps, now, from) && Prune(c, stamps, now) == stamps[from..]
  {
    KeptAreInside(c, stamps, now);
    from := |stamps| - |Prune(c, stamps, now)|;
  }

  lemma CountedOnce(c: Config, stamps: seq<Time>, now: Time, a: nat, b: nat)
    requires Counted(c, stamps, now, a) && Counted(c, stamps, now, b)
    ensures a == b
  {
  }

  lemma RateLimitedIs(c: Config, s: Shadow, apiKey: ApiKey, rpm: Option<nat>, now: Time)
    ensures RateLimited(c, s.windows, apiKey, rpm, now) <==> !HasRoom(c, s, apiKey, rpm, now)
  {
    if rpm.Some? && apiKey in s.windows {
      var stamps := s.windows[apiKey];
      var from := PruneCounts(c, stamps, now);
      var n := |stamps| - from + 1;
      hide Prune, Counted;
      assert |Prune(c, stamps, now)| + 1 == n;
      forall other | Counted(c, stamps, now, other) ensures other == from {
        CountedOnce(c, stamps, now, from, other);
      }
    }
  }

  /** A request is admitted if and only if it is priced and every check passes, and
      otherwise the reason names the check that failed first. */
  lemma DecidesExactly(c: Config, s: Shadow, key: LeaseKey, maxCost: Option<nat>, now: Time)
    ensures var d := Decide(c, s, key, maxCost, now);
            && (d.verdict.Admit? <==> maxCost.Some? && MayAdmit(c, s, key, maxCost.value, now))
            && (d.verdict.Deny? <==> d.reason.PriceUnknown? || d.reason.ScopeExhausted?)
            && (maxCost.None? <==> d.reason.PriceUnknown?)
            && (d.verdict.Admit? <==> d.reason.Admitted?)
            && (maxCost.Some? && !d.verdict.Admit? ==> ReasonIs(c, s, key, maxCost.value, now, d.reason))
  {
    if key in s.leases {
      RateLimitedIs(c, s, key.apiKey, s.leases[key].rpm, now);
    }
    hide RateLimited, HasRoom, Pruned, Stamped;
  }

  /** A decision charges the lease for an admit only, marks a held lease used, and asks
      for a lease that is missing while there is room to track it. */
  lemma DecisionChanges(c: Config, s: Shadow, key: LeaseKey, maxCost: Option<nat>, now: Time)
    ensures var d := Decide(c, s, key, maxCost, now);
            if maxCost.None? then d.shadow == s
            else if key !in s.leases then
              && d.shadow.leases == s.leases && d.shadow.windows == s.windows
              && d.shadow.pending == if |s.pending| < c.maxTracked then s.pending + {key} else s.pending
            else
              var lease := s.leases[key];
              && d.shadow.pending == s.pending
              && d.shadow.leases
                 == s.leases[key := lease.(lastUsed := now, consumed := lease.consumed + if d.verdict.Admit? then maxCost.value else 0)]
              && StampsAre(c, s, d.shadow, key, lease, now, d.verdict.Admit?)
  {
    hide RateLimited, StampsAre, Pruned, Stamped;
    if maxCost.Some? && key in s.leases {
      StampsExactly(c, s, key, maxCost.value, now);
    }
  }

  lemma StampsExactly(c: Config, s: Shadow, key: LeaseKey, cost: nat, now: Time)
    requires key in s.leases
    ensures var d := Decide(c, s, key, Some(cost), now);
            StampsAre(c, s, d.shadow, key, s.leases[key], now, d.verdict.Admit?)
  {
    hide RateLimited, Prune, Counted;
    if key.apiKey in s.windows {
      var from := PruneCounts(c, s.windows[key.apiKey], now);
      var kept := s.windows[key.apiKey][from..];
      assert kept + [] == kept;
    }
  }

  // The refresher ------------------------------------------------------------

  /** `int(x * num / den)`: truncation toward zero. */
  function Truncated(x: int, num: nat, den: nat): int
    requires den > 0
  {
    if x >= 0 then x * num / den else -((-x) * num / den)
  }

  function Granted(c: Config, remaining: int): int
    requires c.Valid()
  {
    var share := Truncated(remaining, c.fractionNum, c.fractionDen);
    var granted := if c.cap < share then c.cap else share;
    if granted > 0 then granted else 0
  }

  function Regrant(c: Config, previous: Option<Lease>, state: SourceState, grantedAt: Time): Lease
    requires c.Valid()
  {
    Lease(Granted(c, state.remaining), 0, state.remaining, state.exclusions, state.rpm, grantedAt + c.ttl,
          if previous.Some? then previous.value.lastUsed else grantedAt)
  }

  /** A batch the refresher may read: pending keys before leases, leases by last
      use, cut at the bound. */
  predicate Ranked(c: Config, s: Shadow, batch: set<LeaseKey>) {
    && batch <= s.pending + s.leases.Keys
    && |batch| <= c.maxTracked
    && (|batch| < c.maxTracked ==> batch == s.pending + s.leases.Keys)
    && (forall k, p :: k in batch && k !in s.pending && p in s.pending ==> p in batch)
    && (forall k, d :: k in batch && k !in s.pending && d in s.leases && d !in batch ==>
          s.leases[k].lastUsed >= s.leases[d].lastUsed)
  }

  /** First locked section: claim the pending keys, drop leases that lost their slot. */
  function Trim(s: Shadow, batch: set<LeaseKey>): Shadow {
    s.(pending := {}, leases := map k | k in s.leases && k in batch :: s.leases[k])
  }

  function LiveApiKeys(leases: map<LeaseKey, Lease>): set<ApiKey> {
    set k | k in leases :: k.apiKey
  }

  /** Second locked section: re-grant what was read, forget windows of API keys
      without any tracked lease. */
  function Install(c: Config, s: Shadow, states: map<LeaseKey, SourceState>, grantedAt: Time): Shadow
    requires c.Valid()
  {
    var leases := map k | k in s.leases.Keys + states.Keys ::
                    if k in states then Regrant(c, Lookup(s.leases, k), states[k], grantedAt) else s.leases[k];
    s.(leases := leases,
       windows := map a | a in s.windows && a in LiveApiKeys(leases) :: s.windows[a])
  }

  /** A refresh replaces the lease of every key it read by a fresh grant, unspent, over
      what was read, keeping when it was last used; it leaves the others, and keeps the
      stamps of exactly those API keys that still hold a lease. */
  lemma InstallsExactly(c: Config, s: Shadow, states: map<LeaseKey, SourceState>, grantedAt: Time)
    requires c.Valid()
    ensures var next := Install(c, s, states, grantedAt);
            && next.leases.Keys == s.leases.Keys + states.Keys && next.pending == s.pending
            && (forall k :: k in s.leases && k !in states ==> next.leases[k] == s.leases[k])
            && (forall k :: k in states ==>
                  var lease := next.leases[k];
                  && lease.consumed == 0 && lease.remaining == states[k].remaining && lease.exclusions == states[k].exclusions
                  && lease.rpm == states[k].rpm && lease.expires == grantedAt + c.ttl
                  && lease.lastUsed == (if k in s.leases then s.leases[k].lastUsed else grantedAt)
                  && lease.granted == Granted(c, states[k].remaining))
            && (forall a :: a in next.windows <==> a in s.windows && exists k :: k in next.leases && k.apiKey == a)
            && (forall a :: a in next.windows ==> next.windows[a] == s.windows[a])
  {
    hide Granted;
    var next := Install(c, s, states, grantedAt);
    forall a ensures a in LiveApiKeys(next.leases) <==> exists k :: k in next.leases && k.apiKey == a {
    }
  }

  // Runs ---------------------------------------------------------------------

  datatype AdmitRecord = AdmitRecord(key: LeaseKey, cost: nat, now: Time, lease: Lease)

  datatype GrantRecord = GrantRecord(key: LeaseKey, granted: int, remaining: int)

  /** The shadow, the batch being read, the clock, and what has happened. */
  datatype World = World(
    shadow: Shadow, batch: set<LeaseKey>, clock: Time, admits: seq<AdmitRecord>, grants: seq<GrantRecord>)

  function Begin(clock: Time): World {
    World(Shadow(map[], {}, map[]), {}, clock, [], [])
  }

  datatype Step =
    | Decided(key: LeaseKey, maxCost: Option<nat>, now: Time)
    | Trimmed(batch: set<LeaseKey>)
    | Installed(states: map<LeaseKey, SourceState>, order: seq<LeaseKey>, now: Time)

  /** The clock does not run backwards; the reader answers for keys of the batch
      it was asked about, in some order. */
  predicate Enabled(c: Config, w: World, step: Step) {
    match step
    case Decided(_, _, now) => now >= w.clock
    case Trimmed(batch) => Ranked(c, w.shadow, batch)
    case Installed(states, order, now) =>
      w.batch != {} && now >= w.clock && states.Keys <= w.batch && Enumerates(order, states.Keys)
  }

  predicate Enumerates(order: seq<LeaseKey>, keys: set<LeaseKey>) {
    && NoDuplicates(order)
    && (forall k :: k in order ==> k in keys)
    && (forall k :: k in keys ==> k in order)
  }

  function GrantsOf(c: Config, states: map<LeaseKey, SourceState>, order: seq<LeaseKey>): seq<GrantRecord>
    requires c.Valid() && forall k :: k in order ==> k in states
  {
    seq(|order|, i requires 0 <= i < |order| =>
      GrantRecord(order[i], Granted(c, states[order[i]].remaining), states[order[i]].remaining))
  }

  function Next(c: Config, w: World, step: Step): World
    requires c.Valid() && Enabled(c, w, step)
  {
    match step
    case Decided(key, maxCost, now) =>
      var d := Decide(c, w.shadow, key, maxCost, now);
      w.(shadow := d.shadow, clock := now,
         admits := if d.verdict.Admit? then w.admits + [AdmitRecord(key, maxCost.value, now, w.shadow.leases[key])] else w.admits)
    case Trimmed(batch) => w.(shadow := Trim(w.shadow, batch), batch := batch)
    case Installed(states, order, now) =>
      w.(shadow := Install(c, w.shadow, states, now), batch := {}, clock := now,
         grants := w.grants + GrantsOf(c, states, order))
  }

  predicate Runs(c: Config, w: World, steps: seq<Step>)
    requires c.Valid()
    decreases |steps|
  {
    steps == [] || (Enabled(c, w, steps[0]) && Runs(c, Next(c, w, steps[0]), steps[1..]))
  }

  function Run(c: Config, w: World, steps: seq<Step>): World
    requires c.Valid() && Runs(c, w, steps)
    decreases |steps|
  {
    if steps == [] then w else Run(c, Next(c, w, steps[0]), steps[1..])
  }

  // Budget safety ------------------------------------------------------------

  predicate LeaseSafe(c: Config, lease: Lease)
    requires c.Valid()
  {
    && 0 <= lease.consumed <= lease.granted <= c.cap
    && lease.granted == Granted(c, lease.remaining)
  }

  /** What the grant formula promises: within the cap, within the fraction, and
      nothing when nothing remains. */
  lemma GrantedIsSafe(c: Config, remaining: int)
    requires c.Valid()
    ensures 0 <= Granted(c, remaining) <= c.cap
    ensures remaining <= 0 ==> Granted(c, remaining) == 0
    ensures remaining > 0 ==> Granted(c, remaining) * c.fractionDen <= remaining * c.fractionNum
  {
    if remaining > 0 {
      var share := remaining * c.fractionNum / c.fractionDen;
      FloorBelow(remaining * c.fractionNum, c.fractionDen);
      MulMono(Granted(c, remaining), share, c.fractionDen);
    } else {
      NegativeShare(remaining, c.fractionNum, c.fractionDen);
    }
  }

  /** The grant is the largest whole amount within the cap and the fraction of what
      remains, and nothing when nothing remains. */
  lemma GrantedIsLargest(c: Config, remaining: int)
    requires c.Valid()
    ensures remaining <= 0 ==> Granted(c, remaining) == 0
    ensures remaining > 0 ==>
              forall amount: int :: amount <= Granted(c, remaining) <==>
                amount <= c.cap && amount * c.fractionDen <= remaining * c.fractionNum
  {
    if remaining > 0 {
      var x := remaining * c.fractionNum;
      FloorBelow(x, c.fractionDen);
      forall amount: int ensures amount <= x / c.fractionDen <==> amount * c.fractionDen <= x {
        if amount <= x / c.fractionDen {
          MulMono(amount, x / c.fractionDen, c.fractionDen);
        } else {
          MulMono(x / c.fractionDen + 1, amount, c.fractionDen);
        }
      }
    } else {
      NegativeShare(remaining, c.fractionNum, c.fractionDen);
    }
  }

  lemma FloorBelow(x: nat, d: nat)
    requires d > 0
    ensures 0 <= x / d && x / d * d <= x < (x / d + 1) * d
  {
    assert x == x / d * d + x % d;
  }

  lemma MulMono(a: int, b: int, d: nat)
    requires a <= b
    ensures a * d <= b * d
  {
  }

  lemma NegativeShare(x: int, num: nat, den: nat)
    requires x <= 0 && den > 0
    ensures Truncated(x, num, den) <= 0
  {
    NonNegativeProduct(-x, num);
    FloorBelow((-x) * num, den);
    if x == 0 {
      assert 0 * num == 0;
    }
  }

  lemma NonNegativeProduct(a: nat, b: nat)
    ensures a * b >= 0
  {
  }

  /** Cost admitted under one lease key. */
  function Spent(admits: seq<AdmitRecord>, key: LeaseKey): nat {
    if admits == [] then 0
    else
      var last := admits[|admits| - 1];
      Spent(admits[..|admits| - 1], key) + if last.key == key then last.cost else 0
  }

  /** Everything granted to one lease key, re-grants included. */
  function GrantTotal(grants: seq<GrantRecord>, key: LeaseKey): int {
    if grants == [] then 0
    else
      var last := grants[|grants| - 1];
      GrantTotal(grants[..|grants| - 1], key) + if last.key == key then last.granted else 0
  }

  function GrantCount(grants: seq<GrantRecord>, key: LeaseKey): nat {
    if grants == [] then 0
    else GrantCount(grants[..|grants| - 1], key) + if grants[|grants| - 1].key == key then 1 else 0
  }

  function Unused(leases: map<LeaseKey, Lease>, key: LeaseKey): int {
    if key in leases then leases[key].granted - leases[key].consumed else 0
  }

  /** A recorded admit was made against a live, unexcluded lease at or above the
      floor that still had room for it. */
  predicate AdmitSafe(c: Config, a: AdmitRecord) {
    && a.now < a.lease.expires
    && a.lease.exclusions == []
    && a.lease.remaining > 0 && a.lease.remaining >= c.floor
    && a.lease.consumed + a.cost <= a.lease.granted
  }

  ghost predicate Bounded(c: Config, w: World) {
    && |w.shadow.leases.Keys| <= c.maxTracked
    && |w.shadow.pending| <= c.maxTracked
    && |w.batch| <= c.maxTracked
    && (w.batch != {} ==> w.shadow.leases.Keys <= w.batch)
  }

  ghost predicate LeasesSafe(c: Config, leases: map<LeaseKey, Lease>)
    requires c.Valid()
  {
    forall k :: k in leases ==> LeaseSafe(c, leases[k])
  }

  ghost predicate RecordsSafe(c: Config, w: World)
    requires c.Valid()
  {
    && (forall a :: a in w.admits ==> AdmitSafe(c, a))
    && (forall g :: g in w.grants ==> g.granted == Granted(c, g.remaining))
  }

  /** What was spent under a key and what its lease still holds were granted. */
  predicate Accounted(w: World, key: LeaseKey) {
    Spent(w.admits, key) + Unused(w.shadow.leases, key) <= GrantTotal(w.grants, key)
  }

  ghost predicate Safe(c: Config, w: World)
    requires c.Valid()
  {
    Bounded(c, w) && LeasesSafe(c, w.shadow.leases) && RecordsSafe(c, w) && forall k :: Accounted(w, k)
  }

  /** An admit charges the deciding key's lease, which had room and was live. */
  lemma AdmitEffect(c: Config, s: Shadow, key: LeaseKey, maxCost: Option<nat>, now: Time)
    requires Decide(c, s, key, maxCost, now).verdict.Admit?
    ensures key in s.leases && maxCost.Some?
    ensures AdmitSafe(c, AdmitRecord(key, maxCost.value, now, s.leases[key]))
    ensures Decide(c, s, key, maxCost, now).shadow.leases
         == s.leases[key := s.leases[key].(lastUsed := now, consumed := s.leases[key].consumed + maxCost.value)]
  {
    hide Prune, RateLimited, Pruned, Stamped;
  }

  lemma NoAdmitEffect(c: Config, s: Shadow, key: LeaseKey, maxCost: Option<nat>, now: Time)
    requires !Decide(c, s, key, maxCost, now).verdict.Admit?
    ensures var after := Decide(c, s, key, maxCost, now).shadow.leases;
            after == s.leases || (key in s.leases && after == s.leases[key := s.leases[key].(lastUsed := now)])
  {
    hide Prune, RateLimited, Pruned, Stamped;
  }

  /** What a decision can do to the leases. */
  lemma DecideEffect(c: Config, s: Shadow, key: LeaseKey, maxCost: Option<nat>, now: Time)
    ensures var d := Decide(c, s, key, maxCost, now);
            && d.shadow.leases.Keys == s.leases.Keys
            && (forall k :: k in s.leases && k != key ==> d.shadow.leases[k] == s.leases[k])
            && (if d.verdict.Admit? then
                  && key in s.leases && maxCost.Some?
                  && AdmitSafe(c, AdmitRecord(key, maxCost.value, now, s.leases[key]))
                  && d.shadow.leases[key] == s.leases[key].(lastUsed := now, consumed := s.leases[key].consumed + maxCost.value)
                else
                  key in s.leases ==>
                    d.shadow.leases[key] == s.leases[key] || d.shadow.leases[key] == s.leases[key].(lastUsed := now))
  {
    hide Decide, AdmitSafe;
    if Decide(c, s, key, maxCost, now).verdict.Admit? {
      AdmitEffect(c, s, key, maxCost, now);
    } else {
      NoAdmitEffect(c, s, key, maxCost, now);
    }
  }

  lemma PendingStaysBounded(c: Config, s: Shadow, key: LeaseKey, maxCost: Option<nat>, now: Time)
    requires |s.pending| <= c.maxTracked
    ensures |Decide(c, s, key, maxCost, now).shadow.pending| <= c.maxTracked
  {
    hide Prune, RateLimited, Pruned, Stamped;
  }

  lemma DecideKeepsRecords(c: Config, w: World, step: Step)
    requires c.Valid() && Safe(c, w) && step.Decided? && Enabled(c, w, step)
    ensures var t := Next(c, w, step); Bounded(c, t) && LeasesSafe(c, t.shadow.leases) && RecordsSafe(c, t)
  {
    DecideEffect(c, w.shadow, step.key, step.maxCost, step.now);
    PendingStaysBounded(c, w.shadow, step.key, step.maxCost, step.now);
    hide Decide, Granted, Accounted;
  }

  /** Only an admit uses up budget, and only the deciding key's. */
  lemma DecideUses(c: Config, s: Shadow, key: LeaseKey, maxCost: Option<nat>, now: Time, k: LeaseKey)
    ensures var d := Decide(c, s, key, maxCost, now);
            && (d.verdict.Admit? ==> maxCost.Some? && key in s.leases)
            && Unused(d.shadow.leases, k)
            == Unused(s.leases, k) - if d.verdict.Admit? && k == key then maxCost.value else 0
  {
    hide Prune, RateLimited, Pruned, Stamped;
  }

  lemma DecideAccounts(c: Config, w: World, step: Step, key: LeaseKey)
    requires c.Valid() && step.Decided? && Enabled(c, w, step) && Accounted(w, key)
    ensures Accounted(Next(c, w, step), key)
  {
    var d := Decide(c, w.shadow, step.key, step.maxCost, step.now);
    DecideUses(c, w.shadow, step.key, step.maxCost, step.now, key);
    hide Decide, Unused, GrantTotal;
    if d.verdict.Admit? {
      Snoc(w.admits, AdmitRecord(step.key, step.maxCost.value, step.now, w.shadow.leases[step.key]));
    }
  }

  lemma TrimKeepsRecords(c: Config, w: World, step: Step)
    requires c.Valid() && Safe(c, w) && step.Trimmed? && Enabled(c, w, step)
    ensures var t := Next(c, w, step); Bounded(c, t) && LeasesSafe(c, t.shadow.leases) && RecordsSafe(c, t)
  {
    var t := Next(c, w, step);
    hide Accounted, AdmitSafe, LeaseSafe, Granted;
    SubsetSize(t.shadow.leases.Keys, w.shadow.leases.Keys);
    SubsetSize(t.shadow.leases.Keys, t.batch);
  }

  /** Dropping a lease forfeits what it still held. */
  lemma TrimAccounts(c: Config, w: World, step: Step, key: LeaseKey)
    requires c.Valid() && step.Trimmed? && Enabled(c, w, step) && LeasesSafe(c, w.shadow.leases) && Accounted(w, key)
    ensures Accounted(Next(c, w, step), key)
  {
    hide Granted, Ranked, Spent, GrantTotal;
  }

  lemma {:induction false} GrantTotalAppend(a: seq<GrantRecord>, b: seq<GrantRecord>, key: LeaseKey)
    ensures GrantTotal(a + b, key) == GrantTotal(a, key) + GrantTotal(b, key)
  {
    if b == [] {
      assert a + b == a;
    } else {
      var n := |b| - 1;
      assert (a + b)[..|a + b| - 1] == a + b[..n];
      GrantTotalAppend(a, b[..n], key);
    }
  }

  lemma Membership<T>(s: seq<T>, key: T)
    requires s != []
    ensures key in s <==> key in s[..|s| - 1] || key == s[|s| - 1]
  {
    assert s == s[..|s| - 1] + [s[|s| - 1]];
  }

  /** Each key of a refresh receives exactly one grant. */
  lemma {:induction false} OneGrantEach(c: Config, states: map<LeaseKey, SourceState>, order: seq<LeaseKey>, key: LeaseKey)
    requires c.Valid() && (forall k :: k in order ==> k in states)
    requires NoDuplicates(order)
    ensures GrantTotal(GrantsOf(c, states, order), key) == if key in order then Granted(c, states[key].remaining) else 0
  {
    hide Granted;
    if order != [] {
      var n := |order| - 1;
      var front := order[..n];
      assert forall k :: k in front ==> k in order;
      OneGrantEach(c, states, front, key);
      assert GrantsOf(c, states, order)[..n] == GrantsOf(c, states, front);
      Membership(order, key);
    }
  }

  lemma InstallKeepsBounded(c: Config, w: World, step: Step)
    requires c.Valid() && Safe(c, w) && step.Installed? && Enabled(c, w, step)
    ensures Bounded(c, Next(c, w, step))
  {
    var t := Next(c, w, step);
    hide Accounted, LeasesSafe, RecordsSafe, Granted, Regrant, LiveApiKeys, Enumerates;
    SubsetSize(t.shadow.leases.Keys, w.batch);
  }

  lemma InstallKeepsRecords(c: Config, w: World, step: Step)
    requires c.Valid() && Safe(c, w) && step.Installed? && Enabled(c, w, step)
    ensures var t := Next(c, w, step); LeasesSafe(c, t.shadow.leases) && RecordsSafe(c, t)
  {
    var t := Next(c, w, step);
    hide Accounted, Granted, LiveApiKeys;
    forall k | k in t.shadow.leases ensures LeaseSafe(c, t.shadow.leases[k]) {
      if k in step.states {
        GrantedIsSafe(c, step.states[k].remaining);
      }
    }
    assert forall g :: g in GrantsOf(c, step.states, step.order) ==> g.granted == Granted(c, g.remaining);
  }

  /** A re-grant replaces what the lease still held by one new grant. */
  lemma InstallAccounts(c: Config, w: World, step: Step, key: LeaseKey)
    requires c.Valid() && step.Installed? && Enabled(c, w, step) && LeasesSafe(c, w.shadow.leases) && Accounted(w, key)
    ensures Accounted(Next(c, w, step), key)
  {
    var order := step.order;
    OneGrantEach(c, step.states, order, key);
    GrantTotalAppend(w.grants, GrantsOf(c, step.states, order), key);
    hide Granted, Spent, GrantTotal, GrantsOf, LiveApiKeys;
  }

  lemma StepKeepsSafe(c: Config, w: World, step: Step)
    requires c.Valid() && Safe(c, w) && Enabled(c, w, step)
    ensures Safe(c, Next(c, w, step))
  {
    hide Next, Enabled, Bounded, LeasesSafe, RecordsSafe, Accounted;
    match step {
      case Decided(_, _, _) => DecideKeepsRecords(c, w, step);
      case Trimmed(_) => TrimKeepsRecords(c, w, step);
      case Installed(_, _, _) =>
        InstallKeepsBounded(c, w, step);
        InstallKeepsRecords(c, w, step);
    }
    forall k ensures Accounted(Next(c, w, step), k) {
      assert Accounted(w, k);
      match step {
        case Decided(_, _, _) => DecideAccounts(c, w, step, k);
        case Trimmed(_) => TrimAccounts(c, w, step, k);
        case Installed(_, _, _) => InstallAccounts(c, w, step, k);
      }
    }
  }

  lemma {:induction false} RunKeepsSafe(c: Config, w: World, steps: seq<Step>)
    requires c.Valid() && Safe(c, w) && Runs(c, w, steps)
    ensures Safe(c, Run(c, w, steps))
    decreases |steps|
  {
    hide Safe, Next, Enabled;
    if steps != [] {
      StepKeepsSafe(c, w, steps[0]);
      RunKeepsSafe(c, Next(c, w, steps[0]), steps[1..]);
    }
  }

  lemma {:induction false} GrantsAreCapped(c: Config, grants: seq<GrantRecord>, key: LeaseKey)
    requires c.Valid() && forall g :: g in grants ==> g.granted == Granted(c, g.remaining)
    ensures GrantTotal(grants, key) <= GrantCount(grants, key) * c.cap
  {
    hide Granted;
    if grants != [] {
      var front, last := grants[..|grants| - 1], grants[|grants| - 1];
      assert last in grants;
      forall g | g in front ensures g.granted == Granted(c, g.remaining) {
        assert g in grants;
      }
      GrantsAreCapped(c, front, key);
      GrantedIsSafe(c, last.remaining);
      OneMore(GrantCount(front, key), c.cap);
    }
  }

  lemma OneMore(n: nat, cap: nat)
    ensures (n + 1) * cap == n * cap + cap
  {
  }

  /** Budget safety of every reachable state: consumption stays within the grant,
      the grant within the cap and the fraction of what remained, the maps within
      their bound; every admit was covered by a live lease; and the cost admitted
      over k grants of a key is at most k caps. */
  lemma RunsStayInBudget(c: Config, clock: Time, steps: seq<Step>, key: LeaseKey)
    requires c.Valid() && Runs(c, Begin(clock), steps)
    ensures var w := Run(c, Begin(clock), steps);
            && |w.shadow.leases| <= c.maxTracked && |w.shadow.pending| <= c.maxTracked
            && (key in w.shadow.leases ==>
                  var lease := w.shadow.leases[key];
                  && 0 <= lease.consumed <= lease.granted <= c.cap
                  && (lease.remaining <= 0 ==> lease.granted == 0)
                  && (lease.remaining > 0 ==> lease.granted * c.fractionDen <= lease.remaining * c.fractionNum))
            && (forall a :: a in w.admits ==> AdmitSafe(c, a))
            && Spent(w.admits, key) <= GrantTotal(w.grants, key) <= GrantCount(w.grants, key) * c.cap
  {
    RunKeepsSafe(c, Begin(clock), steps);
    var w := Run(c, Begin(clock), steps);
    hide Granted, Run, Runs;
    GrantsAreCapped(c, w.grants, key);
    if key in w.shadow.leases {
      GrantedIsSafe(c, w.shadow.leases[key].remaining);
      assert LeaseSafe(c, w.shadow.leases[key]);
    }
    assert Accounted(w, key);
    assert |w.shadow.leases| == |w.shadow.leases.Keys|;
  }
}

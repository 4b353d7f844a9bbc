/** The lease shadow as the worker runs it: maps updated in place under one lock,
    a decision at a time, with the refresher's two locked sections. */
module LeaseWorker {
  import opened Prelude
  import opened LeaseShadow

  class ShadowState {
    const config: Config
    var leases: map<LeaseKey, Lease>
    var pendingKeys: set<LeaseKey>
    var rpmWindows: map<ApiKey, seq<Time>>

    constructor (config: Config)
      ensures this.config == config && Abstract() == Shadow(map[], {}, map[])
    {
      this.config := config;
      leases, pendingKeys, rpmWindows := map[], {}, map[];
    }

    ghost function Abstract(): Shadow
      reads this
    {
      Shadow(leases, pendingKeys, rpmWindows)
    }

    /** Drops the stamps that left the window, then compares what is left plus one. */
    method IsRateLimited(apiKey: ApiKey, rpm: Option<nat>, now: Time) returns (limited: bool)
      modifies this`rpmWindows
      ensures limited == RateLimited(config, old(rpmWindows), apiKey, rpm, now)
      ensures rpmWindows == Pruned(config, old(rpmWindows), apiKey, rpm, now)
    {
      hide Prune, Config.OverHeadroom;
      if rpm.None? || apiKey !in rpmWindows {
        return false;
      }
      var stamps := DropExpired(config, rpmWindows[apiKey], now);
      rpmWindows := rpmWindows[apiKey := stamps];
      limited := config.OverHeadroom(|stamps| + 1, rpm.value);
    }

    method AdmitAgainstLease(key: LeaseKey, maxCost: nat, now: Time) returns (verdict: Verdict, reason: Reason)
      requires key in leases
      modifies this
      ensures Decision(Abstract(), verdict, reason)
           == AdmitAgainst(config, old(Abstract()), key, old(leases[key]), maxCost, now)
    {
      hide Prune, RateLimited;
      var lease := leases[key];
      if now >= lease.expires {
        return SyncFallback, LeaseExpired;
      }
      if lease.exclusions != [] {
        return SyncFallback, Excluded(lease.exclusions);
      }
      if lease.remaining <= 0 {
        return Deny, ScopeExhausted;
      }
      if lease.remaining < config.floor {
        return SyncFallback, BelowFloor;
      }
      var limited := IsRateLimited(key.apiKey, lease.rpm, now);
      if limited {
        return SyncFallback, RateHeadroom;
      }
      if lease.consumed + maxCost > lease.granted {
        return SyncFallback, LeaseExhausted;
      }
      leases := leases[key := lease.(consumed := lease.consumed + maxCost)];
      if lease.rpm.Some? {
        var stamps := if key.apiKey in rpmWindows then rpmWindows[key.apiKey] else [];
        rpmWindows := rpmWindows[key.apiKey := stamps + [now]];
      }
      return Admit, Admitted;
    }

    method DecideOne(key: LeaseKey, maxCost: Option<nat>, now: Time) returns (verdict: Verdict, reason: Reason)
      modifies this
      ensures Decision(Abstract(), verdict, reason) == Decide(config, old(Abstract()), key, maxCost, now)
      ensures verdict.Admit? <==> maxCost.Some? && MayAdmit(config, old(Abstract()), key, maxCost.value, now)
      ensures maxCost.Some? && !verdict.Admit? ==> ReasonIs(config, old(Abstract()), key, maxCost.value, now, reason)
    {
      DecidesExactly(config, Abstract(), key, maxCost, now);
      hide MayAdmit, ReasonIs;
      if maxCost.None? {
        return Deny, PriceUnknown;
      }
      if key !in leases {
        if |pendingKeys| < config.maxTracked {
          pendingKeys := pendingKeys + {key};
        }
        return SyncFallback, NoLease;
      }
      leases := leases[key := leases[key].(lastUsed := now)];
      verdict, reason := AdmitAgainstLease(key, maxCost.value, now);
    }

    /** First locked section of a refresh: the keys to read, and the leases that
        lost their slot gone. */
    method ClaimBatch() returns (keys: seq<LeaseKey>)
      requires |pendingKeys| <= config.maxTracked
      modifies this
      ensures Enumerates(keys, Elements(keys))
      ensures Ranked(config, old(Abstract()), Elements(keys))
      ensures Abstract() == Trim(old(Abstract()), Elements(keys))
    {
      hide Merged, ByUse, Ranked, Enumerates;
      var pending := Enumerate(pendingKeys);
      var ranked := RankByUse(leases);
      var tracked := Deduplicate(leases, pendingKeys, pending, ranked);
      keys := tracked[..if |tracked| < config.maxTracked then |tracked| else config.maxTracked];
      CutIsRanked(config, Abstract(), |pending|, tracked, keys);
      var batch := Elements(keys);
      pendingKeys := {};
      leases := map k | k in leases && k in batch :: leases[k];
    }

    /** Re-grants what was read, one key at a time. */
    method RegrantAll(states: map<LeaseKey, SourceState>, grantedAt: Time)
      requires config.Valid()
      modifies this`leases
      ensures leases == RegrantedSoFar(config, old(leases), states, states.Keys, grantedAt)
    {
      hide *;
      ghost var before := leases;
      ghost var done: set<LeaseKey> := {};
      var rest := states.Keys;
      NoneRegranted(config, before, states, grantedAt);
      while rest != {}
        invariant rest + done == states.Keys && rest * done == {}
        invariant leases == RegrantedSoFar(config, before, states, done, grantedAt)
        decreases |rest|
      {
        var key :| key in rest;
        rest := rest - {key};
        OneMoreRegrant(config, before, states, done, grantedAt, key);
        leases := leases[key := Regrant(config, Lookup(leases, key), states[key], grantedAt)];
        done := done + {key};
      }
      assert done == states.Keys;
    }

    /** Second locked section of a refresh: the re-grants, then the windows of keys
        without a tracked lease forgotten. */
    method InstallStates(states: map<LeaseKey, SourceState>, grantedAt: Time)
      requires config.Valid()
      modifies this
      ensures Abstract() == Install(config, old(Abstract()), states, grantedAt)
    {
      hide Regrant, RegrantedSoFar, LiveApiKeys;
      RegrantAll(states, grantedAt);
      AllRegranted(config, old(Abstract()), states, grantedAt);
      var live := LiveApiKeys(leases);
      rpmWindows := map a | a in rpmWindows && a in live :: rpmWindows[a];
    }
  }

  /** `while stamps and stamps[0] <= now - 60.0: stamps.popleft()`. */
  method DropExpired(c: Config, stamps: seq<Time>, now: Time) returns (kept: seq<Time>)
    ensures kept == Prune(c, stamps, now)
  {
    kept := stamps;
    while kept != [] && kept[0] <= now - c.minute
      invariant Prune(c, kept, now) == Prune(c, stamps, now)
    {
      kept := kept[1..];
    }
  }

  ghost function RegrantedSoFar(c: Config, before: map<LeaseKey, Lease>, states: map<LeaseKey, SourceState>,
                                done: set<LeaseKey>, grantedAt: Time): map<LeaseKey, Lease>
    requires c.Valid() && done <= states.Keys
  {
    map k | k in before.Keys + done ::
      if k in done then Regrant(c, Lookup(before, k), states[k], grantedAt) else before[k]
  }

  lemma OneMoreRegrant(c: Config, before: map<LeaseKey, Lease>, states: map<LeaseKey, SourceState>,
                       done: set<LeaseKey>, grantedAt: Time, key: LeaseKey)
    requires c.Valid() && done <= states.Keys && key in states && key !in done
    ensures var soFar := RegrantedSoFar(c, before, states, done, grantedAt);
            && Lookup(soFar, key) == Lookup(before, key)
            && RegrantedSoFar(c, before, states, done + {key}, grantedAt)
            == soFar[key := Regrant(c, Lookup(before, key), states[key], grantedAt)]
  {
    hide Regrant;
  }

  lemma NoneRegranted(c: Config, before: map<LeaseKey, Lease>, states: map<LeaseKey, SourceState>, grantedAt: Time)
    requires c.Valid()
    ensures RegrantedSoFar(c, before, states, {}, grantedAt) == before
  {
    assert before.Keys + {} == before.Keys;
  }

  lemma AllRegranted(c: Config, s: Shadow, states: map<LeaseKey, SourceState>, grantedAt: Time)
    requires c.Valid()
    ensures RegrantedSoFar(c, s.leases, states, states.Keys, grantedAt) == Install(c, s, states, grantedAt).leases
  {
    hide Regrant;
  }

  method Enumerate(keys: set<LeaseKey>) returns (order: seq<LeaseKey>)
    ensures Enumerates(order, keys)
  {
    order := [];
    var rest := keys;
    while rest != {}
      invariant rest <= keys
      invariant Enumerates(order, keys - rest)
      decreases |rest|
    {
      var key :| key in rest;
      rest := rest - {key};
      order := order + [key];
    }
  }

  ghost predicate ByUse(leases: map<LeaseKey, Lease>, order: seq<LeaseKey>)
    requires forall k :: k in order ==> k in leases
  {
    forall i, j :: 0 <= i < j < |order| ==> leases[order[i]].lastUsed >= leases[order[j]].lastUsed
  }

  method MostRecent(leases: map<LeaseKey, Lease>, candidates: set<LeaseKey>) returns (best: LeaseKey)
    requires candidates != {} && candidates <= leases.Keys
    ensures best in candidates
    ensures forall k :: k in candidates ==> leases[k].lastUsed <= leases[best].lastUsed
  {
    best :| best in candidates;
    var rest := candidates - {best};
    while rest != {}
      invariant rest <= candidates && best in candidates
      invariant forall k :: k in candidates - rest ==> leases[k].lastUsed <= leases[best].lastUsed
      decreases |rest|
    {
      var key :| key in rest;
      rest := rest - {key};
      if leases[key].lastUsed > leases[best].lastUsed {
        best := key;
      }
    }
  }

  /** Tracked keys, most recently used first. */
  method RankByUse(leases: map<LeaseKey, Lease>) returns (order: seq<LeaseKey>)
    ensures Enumerates(order, leases.Keys) && ByUse(leases, order)
  {
    order := [];
    var rest := leases.Keys;
    while rest != {}
      invariant rest <= leases.Keys
      invariant Enumerates(order, leases.Keys - rest)
      invariant ByUse(leases, order)
      invariant forall k, r :: k in order && r in rest ==> leases[k].lastUsed >= leases[r].lastUsed
      decreases |rest|
    {
      var key := MostRecent(leases, rest);
      rest := rest - {key};
      order := order + [key];
    }
  }

  /** Pending keys up to `first`, then the leases not already listed, ranked. */
  ghost predicate Merged(leases: map<LeaseKey, Lease>, pending: set<LeaseKey>, first: nat, tracked: seq<LeaseKey>) {
    && first <= |tracked|
    && Enumerates(tracked, pending + leases.Keys)
    && (forall i :: 0 <= i < first ==> tracked[i] in pending)
    && (forall i :: first <= i < |tracked| ==> tracked[i] in leases && tracked[i] !in pending)
    && (forall i, j :: first <= i < j < |tracked| ==> leases[tracked[i]].lastUsed >= leases[tracked[j]].lastUsed)
  }

  method Deduplicate(ghost leases: map<LeaseKey, Lease>, ghost pendingKeys: set<LeaseKey>,
                     pending: seq<LeaseKey>, ranked: seq<LeaseKey>)
    returns (tracked: seq<LeaseKey>)
    requires Enumerates(pending, pendingKeys)
    requires Enumerates(ranked, leases.Keys) && ByUse(leases, ranked)
    ensures Merged(leases, pendingKeys, |pending|, tracked)
  {
    tracked := pending;
    ghost var added: seq<LeaseKey> := [];
    var i := 0;
    while i < |ranked|
      invariant i <= |ranked|
      invariant tracked == pending + added
      invariant forall k :: k in added ==> k in ranked[..i] && k !in pending
      invariant forall k :: k in ranked[..i] ==> k in tracked
      invariant NoDuplicates(added)
      invariant ByUse(leases, added)
    {
      var key := ranked[i];
      assert key !in ranked[..i];
      assert ranked[..i + 1] == ranked[..i] + [key];
      if key !in tracked {
        LeastRecent(leases, ranked, i, added);
        added := added + [key];
        tracked := tracked + [key];
      }
      i := i + 1;
    }
    assert ranked[..i] == ranked;
    MergedFrom(leases, pendingKeys, pending, added);
  }

  lemma MergedFrom(leases: map<LeaseKey, Lease>, pendingKeys: set<LeaseKey>, pending: seq<LeaseKey>, added: seq<LeaseKey>)
    requires Enumerates(pending, pendingKeys)
    requires NoDuplicates(added)
    requires forall k :: k in added ==> k in leases && k !in pending
    requires forall k :: k in leases ==> k in pending + added
    requires ByUse(leases, added)
    ensures Merged(leases, pendingKeys, |pending|, pending + added)
  {
    AppendEnumerates(pending, added, pendingKeys, leases.Keys);
    var tracked, first := pending + added, |pending|;
    forall i | 0 <= i < first ensures tracked[i] in pendingKeys {
      assert tracked[i] == pending[i];
    }
    forall i | first <= i < |tracked| ensures tracked[i] in leases && tracked[i] !in pendingKeys {
      assert tracked[i] == added[i - first];
    }
    forall i, j | first <= i < j < |tracked| ensures leases[tracked[i]].lastUsed >= leases[tracked[j]].lastUsed {
      assert tracked[i] == added[i - first] && tracked[j] == added[j - first];
    }
    hide Enumerates, ByUse;
  }

  lemma AppendEnumerates(a: seq<LeaseKey>, b: seq<LeaseKey>, first: set<LeaseKey>, second: set<LeaseKey>)
    requires Enumerates(a, first)
    requires NoDuplicates(b)
    requires forall k :: k in b ==> k in second && k !in a
    requires forall k :: k in second ==> k in a + b
    ensures Enumerates(a + b, first + second)
  {
    forall i, j | 0 <= i < j < |a + b| ensures (a + b)[i] != (a + b)[j] {
      if i < |a| <= j {
        assert b[j - |a|] in b;
      }
    }
  }

  lemma LeastRecent(leases: map<LeaseKey, Lease>, ranked: seq<LeaseKey>, i: nat, added: seq<LeaseKey>)
    requires i < |ranked| && (forall k :: k in ranked ==> k in leases) && ByUse(leases, ranked)
    requires forall k :: k in added ==> k in ranked[..i]
    ensures forall k :: k in added ==> leases[k].lastUsed >= leases[ranked[i]].lastUsed
  {
  }

  lemma CutIsRanked(c: Config, s: Shadow, first: nat, tracked: seq<LeaseKey>, keys: seq<LeaseKey>)
    requires |s.pending| <= c.maxTracked && Merged(s.leases, s.pending, first, tracked)
    requires keys == tracked[..if |tracked| < c.maxTracked then |tracked| else c.maxTracked]
    ensures Ranked(c, s, Elements(keys))
    ensures Enumerates(keys, Elements(keys))
  {
    PendingFit(s, first, tracked);
    CutSize(c, s, first, tracked, keys);
    hide Merged, ByUse, Enumerates;
    var cut := |keys|;
    assert keys == tracked[..cut];
    forall p | p in s.pending ensures p in keys {
      PendingComeFirst(s, first, tracked, cut, p);
    }
    forall k, d | k in keys && k !in s.pending && d in s.leases && d !in keys
      ensures s.leases[k].lastUsed >= s.leases[d].lastUsed
    {
      CutKeepsRecent(s, first, tracked, cut, k, d);
    }
    RankedFrom(c, s, keys, Elements(keys));
  }

  lemma RankedFrom(c: Config, s: Shadow, keys: seq<LeaseKey>, batch: set<LeaseKey>)
    requires forall k :: k in batch <==> k in keys
    requires batch <= s.pending + s.leases.Keys && |batch| <= c.maxTracked
    requires |batch| < c.maxTracked ==> batch == s.pending + s.leases.Keys
    requires forall p :: p in s.pending ==> p in keys
    requires forall k, d :: k in keys && k !in s.pending && d in s.leases && d !in keys ==>
      k in s.leases && s.leases[k].lastUsed >= s.leases[d].lastUsed
    ensures Ranked(c, s, batch)
  {
  }

  lemma CutSize(c: Config, s: Shadow, first: nat, tracked: seq<LeaseKey>, keys: seq<LeaseKey>)
    requires Merged(s.leases, s.pending, first, tracked)
    requires keys == tracked[..if |tracked| < c.maxTracked then |tracked| else c.maxTracked]
    ensures var batch := Elements(keys);
            && |batch| == |keys| <= c.maxTracked
            && batch <= s.pending + s.leases.Keys
            && (|keys| < c.maxTracked ==> batch == s.pending + s.leases.Keys)
            && Enumerates(keys, batch)
  {
    ElementsSize(keys);
    assert |keys| < c.maxTracked ==> keys == tracked;
  }

  lemma PendingFit(s: Shadow, first: nat, tracked: seq<LeaseKey>)
    requires Merged(s.leases, s.pending, first, tracked)
    ensures first <= |s.pending|
  {
    var pending := tracked[..first];
    ElementsSize(pending);
    SubsetSize(Elements(pending), s.pending);
  }

  lemma PendingComeFirst(s: Shadow, first: nat, tracked: seq<LeaseKey>, cut: nat, p: LeaseKey)
    requires Merged(s.leases, s.pending, first, tracked) && first <= cut <= |tracked|
    requires p in s.pending
    ensures p in tracked[..cut]
  {
    var j :| 0 <= j < |tracked| && tracked[j] == p;
    assert tracked[..cut][j] == p;
  }

  lemma CutKeepsRecent(s: Shadow, first: nat, tracked: seq<LeaseKey>, cut: nat, k: LeaseKey, d: LeaseKey)
    requires Merged(s.leases, s.pending, first, tracked) && first <= cut <= |tracked|
    requires k in tracked[..cut] && k !in s.pending && k in s.leases && d in s.leases && d !in tracked[..cut]
    ensures s.leases[k].lastUsed >= s.leases[d].lastUsed
  {
    var i :| 0 <= i < cut && tracked[i] == k;
    var j :| 0 <= j < |tracked| && tracked[j] == d;
    assert forall l :: 0 <= l < cut ==> tracked[l] in tracked[..cut];
  }
}

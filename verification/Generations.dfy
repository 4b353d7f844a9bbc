/** Catalog generations in one worker: each swap keeps the keys of the generation
    it replaces, and only those, for one step. */
module Generations {
  import opened Prelude
  import opened CatalogRows
  import opened Routing

  /** Alias revision and catalog digest. */
  type Key = (string, string)

  /** A normalised or a runtime catalog, by identity. */
  type Handle = nat

  /** Everything a worker serves one key from. */
  datatype Serving = Serving(
    routes: Handle, runtime: Handle, deployments: map<DeploymentId, Deployment>,
    variants: map<Org, map<DeploymentId, DeploymentId>>, ownKeyRequired: set<DeploymentId>)

  /** A build: its plans' revisions and what serves them, or an empty catalog. */
  datatype Build = Empty | Built(revisions: seq<string>, digest: string, serving: Serving)

  datatype State = State(
    generationKeys: set<Key>,
    routeCatalogs: map<Key, Handle>,
    runtimeCatalogs: map<Key, Handle>,
    deploymentsByKey: map<Key, map<DeploymentId, Deployment>>,
    variantsByKey: map<Key, map<Org, map<DeploymentId, DeploymentId>>>,
    ownKeyRequiredByKey: map<Key, set<DeploymentId>>)
  {
    /** All keyed maps share one domain, which covers the generation's own keys. */
    ghost predicate Closed() {
      && generationKeys <= Domain()
      && runtimeCatalogs.Keys == Domain() && deploymentsByKey.Keys == Domain()
      && variantsByKey.Keys == Domain() && ownKeyRequiredByKey.Keys == Domain()
    }

    function Domain(): set<Key> {
      routeCatalogs.Keys
    }

    /** What a key of the state is served from. */
    ghost function At(key: Key): Serving
      requires Closed() && key in Domain()
    {
      Serving(routeCatalogs[key], runtimeCatalogs[key], deploymentsByKey[key], variantsByKey[key], ownKeyRequiredByKey[key])
    }
  }

  function KeysOf(build: Build): set<Key> {
    match build
    case Empty => {}
    case Built(revisions, digest, _) => set r | r in revisions :: (r, digest)
  }

  function Kept(previous: Option<State>): set<Key> {
    if previous.Some? then previous.value.generationKeys else {}
  }

  /** What serves a key of the new state: the build, or else the previous state. */
  ghost predicate ServedBy(build: Build, previous: Option<State>, next: State, k: Key)
    requires (previous.Some? ==> previous.value.Closed()) && next.Closed() && k in next.Domain()
  {
    if k in KeysOf(build) then build.Built? && next.At(k) == build.serving
    else previous.Some? && k in previous.value.Domain() && next.At(k) == previous.value.At(k)
  }

  ghost predicate IsSuccessor(build: Build, previous: Option<State>, next: State)
    requires previous.Some? ==> previous.value.Closed()
  {
    && next.Closed()
    && next.generationKeys == KeysOf(build)
    && next.Domain() == KeysOf(build) + Kept(previous)
    && (forall k :: k in next.Domain() ==> ServedBy(build, previous, next, k))
  }

  ghost function Overlaid<V>(base: map<Key, V>, keys: set<Key>, value: V): map<Key, V> {
    map k | k in base.Keys + keys :: if k in keys then value else base[k]
  }

  /** The generation's keys, one alias plan at a time. */
  ghost function KeysUpTo(revisions: seq<string>, digest: string, i: nat): set<Key>
    requires i <= |revisions|
  {
    set r | r in revisions[..i] :: (r, digest)
  }

  lemma KeysNext(revisions: seq<string>, digest: string, i: nat)
    requires i < |revisions|
    ensures KeysUpTo(revisions, digest, i + 1) == KeysUpTo(revisions, digest, i) + {(revisions[i], digest)}
  {
    assert revisions[..i + 1] == revisions[..i] + [revisions[i]];
  }

  lemma KeysAll(build: Build)
    requires build.Built?
    ensures KeysUpTo(build.revisions, build.digest, 0) == {}
    ensures KeysUpTo(build.revisions, build.digest, |build.revisions|) == KeysOf(build)
  {
    assert build.revisions[..|build.revisions|] == build.revisions;
  }

  lemma NoOverlay<V>(base: map<Key, V>, value: V)
    ensures Overlaid(base, {}, value) == base
  {
  }

  /** The previous generation's entries, as the new state starts out. */
  function Grace(previous: Option<State>): State
    requires previous.Some? ==> previous.value.Closed()
  {
    match previous
    case None => State({}, map[], map[], map[], map[], map[])
    case Some(p) =>
      State({},
            map k | k in p.generationKeys :: p.routeCatalogs[k],
            map k | k in p.generationKeys :: p.runtimeCatalogs[k],
            map k | k in p.generationKeys :: p.deploymentsByKey[k],
            map k | k in p.generationKeys :: p.variantsByKey[k],
            map k | k in p.generationKeys :: if k in p.ownKeyRequiredByKey then p.ownKeyRequiredByKey[k] else {})
  }

  ghost function OverlaidState(base: State, keys: set<Key>, s: Serving): State {
    State(keys, Overlaid(base.routeCatalogs, keys, s.routes), Overlaid(base.runtimeCatalogs, keys, s.runtime),
          Overlaid(base.deploymentsByKey, keys, s.deployments), Overlaid(base.variantsByKey, keys, s.variants),
          Overlaid(base.ownKeyRequiredByKey, keys, s.ownKeyRequired))
  }

  lemma OverlayNext(base: State, keys: set<Key>, s: Serving, key: Key)
    ensures var now := OverlaidState(base, keys, s);
            OverlaidState(base, keys + {key}, s)
            == State(keys + {key}, now.routeCatalogs[key := s.routes], now.runtimeCatalogs[key := s.runtime],
                     now.deploymentsByKey[key := s.deployments], now.variantsByKey[key := s.variants],
                     now.ownKeyRequiredByKey[key := s.ownKeyRequired])
  {
    OverlayOne(base.routeCatalogs, keys, s.routes, key);
    OverlayOne(base.runtimeCatalogs, keys, s.runtime, key);
    OverlayOne(base.deploymentsByKey, keys, s.deployments, key);
    OverlayOne(base.variantsByKey, keys, s.variants, key);
    OverlayOne(base.ownKeyRequiredByKey, keys, s.ownKeyRequired, key);
    hide Overlaid;
  }

  lemma OverlayNone(base: State, s: Serving)
    requires base.generationKeys == {}
    ensures OverlaidState(base, {}, s) == base
  {
    NoOverlay(base.routeCatalogs, s.routes);
    NoOverlay(base.runtimeCatalogs, s.runtime);
    NoOverlay(base.deploymentsByKey, s.deployments);
    NoOverlay(base.variantsByKey, s.variants);
    NoOverlay(base.ownKeyRequiredByKey, s.ownKeyRequired);
    hide Overlaid;
  }

  lemma GraceHolds(previous: Option<State>)
    requires previous.Some? ==> previous.value.Closed()
    ensures var g := Grace(previous);
            && g.Closed() && g.generationKeys == {} && g.Domain() == Kept(previous)
            && forall k :: k in g.Domain() ==> previous.Some? && k in previous.value.Domain() && g.At(k) == previous.value.At(k)
  {
  }

  lemma EmptySucceeds(previous: Option<State>)
    requires previous.Some? ==> previous.value.Closed()
    ensures Grace(previous).generationKeys == {} && IsSuccessor(Empty, previous, Grace(previous))
  {
    GraceHolds(previous);
    hide Grace;
  }

  lemma OverlaidAt(base: State, keys: set<Key>, s: Serving)
    requires base.Closed()
    ensures var over := OverlaidState(base, keys, s);
            && over.Closed() && over.generationKeys == keys && over.Domain() == base.Domain() + keys
            && forall k :: k in over.Domain() ==> over.At(k) == if k in keys then s else base.At(k)
  {
  }

  lemma OverlaySucceeds(build: Build, previous: Option<State>)
    requires build.Built? && (previous.Some? ==> previous.value.Closed())
    ensures IsSuccessor(build, previous, OverlaidState(Grace(previous), KeysOf(build), build.serving))
  {
    hide KeysOf, Grace, OverlaidState, Kept;
    GraceHolds(previous);
    OverlaidAt(Grace(previous), KeysOf(build), build.serving);
    var over := OverlaidState(Grace(previous), KeysOf(build), build.serving);
    assert over.Domain() == KeysOf(build) + Kept(previous);
    hide State.Closed, State.At;
    forall k | k in over.Domain() ensures ServedBy(build, previous, over, k) {
    }
  }

  /** The state assembled from a build over the previous generation's entries. */
  ghost function Successor(build: Build, previous: Option<State>): (next: State)
    requires previous.Some? ==> previous.value.Closed()
    ensures next.Closed()
  {
    hide *;
    SuccessorSucceeds(build, previous);
    if build.Built? then OverlaidState(Grace(previous), KeysOf(build), build.serving) else Grace(previous)
  }

  lemma SuccessorSucceeds(build: Build, previous: Option<State>)
    requires previous.Some? ==> previous.value.Closed()
    ensures var next := if build.Built? then OverlaidState(Grace(previous), KeysOf(build), build.serving) else Grace(previous);
            IsSuccessor(build, previous, next) && next.Closed()
  {
    if build.Built? {
      OverlaySucceeds(build, previous);
    } else {
      EmptySucceeds(previous);
    }
    hide Grace, OverlaidState, KeysOf;
  }

  /** The new state serves each revision of the build, under the build's digest, from
      the build; keeps what the previous generation's own keys were served from, where
      they were not issued again; and knows no other key. */
  ghost predicate Replaces(build: Build, previous: Option<State>, next: State)
    requires previous.Some? ==> previous.value.Closed()
  {
    && next.Closed()
    && (forall key :: key in next.generationKeys <==> build.Built? && key.0 in build.revisions && key.1 == build.digest)
    && (forall key :: key in next.generationKeys ==> next.At(key) == build.serving)
    && (forall key :: key in next.Domain() && key !in next.generationKeys <==>
          previous.Some? && key in previous.value.generationKeys && key !in next.generationKeys)
    && (forall key :: key in next.Domain() && key !in next.generationKeys ==> next.At(key) == previous.value.At(key))
  }

  lemma SuccessorReplaces(build: Build, previous: Option<State>)
    requires previous.Some? ==> previous.value.Closed()
    ensures Replaces(build, previous, Successor(build, previous))
  {
    SuccessorSucceeds(build, previous);
    SuccessorIs(build, previous);
    hide Grace, OverlaidState, Successor, State.Closed, State.At, State.Domain;
  }

  /** Builds the state that replaces `previous`. */
  method BuildCatalogState(build: Build, previous: Option<State>) returns (next: State)
    requires previous.Some? ==> previous.value.Closed()
    ensures next == Successor(build, previous)
    ensures Replaces(build, previous, next)
  {
    hide *;
    SuccessorReplaces(build, previous);
    next := Grace(previous);
    EmptySucceeds(previous);
    SuccessorIs(build, previous);
    if build.Built? {
      var s := build.serving;
      ghost var base := next;
      OverlayNone(base, s);
      KeysAll(build);
      var i := 0;
      while i < |build.revisions|
        invariant i <= |build.revisions|
        invariant next == OverlaidState(base, KeysUpTo(build.revisions, build.digest, i), s)
      {
        var key := (build.revisions[i], build.digest);
        OverlayNext(base, KeysUpTo(build.revisions, build.digest, i), s, key);
        OverlaidKeys(base, KeysUpTo(build.revisions, build.digest, i), s);
        KeysNext(build.revisions, build.digest, i);
        next := State(
          next.generationKeys + {key},
          next.routeCatalogs[key := s.routes],
          next.runtimeCatalogs[key := s.runtime],
          next.deploymentsByKey[key := s.deployments],
          next.variantsByKey[key := s.variants],
          next.ownKeyRequiredByKey[key := s.ownKeyRequired]);
        i := i + 1;
      }
    }
  }

  lemma SuccessorIs(build: Build, previous: Option<State>)
    requires previous.Some? ==> previous.value.Closed()
    ensures Successor(build, previous)
            == if build.Built? then OverlaidState(Grace(previous), KeysOf(build), build.serving) else Grace(previous)
  {
    hide Grace, OverlaidState, KeysOf, State.Closed;
  }

  lemma OverlaidKeys(base: State, keys: set<Key>, s: Serving)
    ensures OverlaidState(base, keys, s).generationKeys == keys
  {
  }

  lemma OverlayOne<V>(base: map<Key, V>, keys: set<Key>, value: V, key: Key)
    ensures Overlaid(base, keys + {key}, value) == Overlaid(base, keys, value)[key := value]
  {
  }

  // Runs of swaps ------------------------------------------------------------

  /** The state a worker serves from after the first `n` builds. */
  ghost function Generation(builds: seq<Build>, n: nat): (state: Option<State>)
    requires n <= |builds|
    ensures state.None? <==> n == 0
    ensures state.Some? ==> state.value.Closed()
  {
    if n == 0 then None else Some(Successor(builds[n - 1], Generation(builds, n - 1)))
  }

  lemma GenerationSucceeds(builds: seq<Build>, n: nat)
    requires 0 < n <= |builds|
    ensures IsSuccessor(builds[n - 1], Generation(builds, n - 1), Generation(builds, n).value)
  {
    hide IsSuccessor, Successor, State.Closed;
    SuccessorSucceeds(builds[n - 1], Generation(builds, n - 1));
    SuccessorIs(builds[n - 1], Generation(builds, n - 1));
  }

  /** However many builds are swapped in, the maps they are assembled into share one
      domain: the current generation's keys and the one before's. */
  lemma OneDomain(builds: seq<Build>, n: nat)
    requires 0 < n <= |builds|
    ensures var s := Generation(builds, n).value;
            && s.Closed() && s.generationKeys == KeysOf(builds[n - 1])
            && s.Domain() == KeysOf(builds[n - 1]) + if n == 1 then {} else KeysOf(builds[n - 2])
  {
    GenerationSucceeds(builds, n);
    if n > 1 {
      GenerationSucceeds(builds, n - 1);
    }
    hide Generation, KeysOf, State.At, ServedBy;
  }

  /** A key issued in one generation still resolves after the next swap, to the same
      serving data unless the new build issued it again; and it is gone after two
      swaps that did not renew it. */
  lemma GraceIsOneSwap(builds: seq<Build>, n: nat, key: Key)
    requires 0 < n <= |builds| && key in KeysOf(builds[n - 1])
    ensures key in Generation(builds, n).value.Domain() && Generation(builds, n).value.At(key) == builds[n - 1].serving
    ensures n + 1 <= |builds| ==>
      var s := Generation(builds, n + 1).value;
      && key in s.Domain() && s.At(key) == if key in KeysOf(builds[n]) then builds[n].serving else builds[n - 1].serving
    ensures n + 2 <= |builds| && key !in KeysOf(builds[n]) && key !in KeysOf(builds[n + 1]) ==>
      key !in Generation(builds, n + 2).value.Domain()
  {
    GenerationSucceeds(builds, n);
    OneDomain(builds, n);
    if n + 1 <= |builds| {
      GenerationSucceeds(builds, n + 1);
    }
    if n + 2 <= |builds| {
      OneDomain(builds, n + 2);
    }
    hide Generation, KeysOf, State.Closed, State.At;
  }
}

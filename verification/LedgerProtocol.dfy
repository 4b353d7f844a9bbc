/** The deferred-accept protocol of the attempt ledger as atomic steps: every
    locked section and every SQL call is one step, and the steps of different
    requests interleave freely. The steps of one request follow one another. */
module LedgerProtocol {
  import opened Prelude
  import opened OrderedDict

  type RequestId = nat
  type AttemptId = nat
  type Time = int

  datatype Lineage = Lineage(prompt: string, conversation: string, stablePrefixChars: nat)

  datatype Limits = Limits(deferred: nat, lineage: nat, capture: nat)

  /** A `gateway_requests` row. */
  datatype Row = Row(deadline: Time, lineage: Option<Lineage>)

  /** What is left to do once a request's SQL call has returned. */
  datatype Chore = ResolveDeferred | PopLineage | EnqueueCapture | DropCapture

  /** Where one request's caller stands. `held` is the local copy of the
      deferred accept that a call read before its SQL. */
  datatype Stage =
    | Authorized
    | Idle
    | KeyedAccept(deadline: Time)
    | KeyedPopped(deadline: Time, lineage: Option<Lineage>)
    | Reserving(held: Option<Time>)
    | Peeked(deadline: Time, lineage: Option<Lineage>)
    | Finishing(held: Option<Time>)
    | FinishPopped(deadline: Time, lineage: Option<Lineage>)
    | Cleanup(todo: seq<Chore>)

  datatype State = State(
    deferred: Dict<RequestId, Time>,
    tracker: Dict<RequestId, Lineage>,
    buffer: Dict<RequestId, string>,
    queue: seq<RequestId>,
    rows: map<RequestId, Row>,
    attempts: map<AttemptId, RequestId>,
    stage: map<RequestId, Stage>,
    // What happened, for stating properties; no step reads these.
    frozen: map<RequestId, Time>,
    derived: map<RequestId, Lineage>,
    unkeyed: set<RequestId>)

  const START: State := State([], [], [], [], map[], map[], map[], map[], map[], {})

  datatype FinishOutcome = Committed | Revoked | Failed

  datatype Step =
    | Authorize(id: RequestId, lineage: Lineage, capture: Option<string>)
    | AcceptDeferred(id: RequestId, deadlineMonotonic: Time, monotonic: Time, wall: Time)
    | AcceptKeyed(id: RequestId, deadlineMonotonic: Time, monotonic: Time, wall: Time)
    | PopForAccept(id: RequestId)
    | KeyedSql(id: RequestId, committed: bool)
    | BeginStart(id: RequestId)
    | Peek(id: RequestId)
    | StartSql(id: RequestId, attempt: AttemptId, committed: bool)
    | BeginFinish(id: RequestId)
    | PopForFinish(id: RequestId)
    | FinishSql(id: RequestId, outcome: FinishOutcome)
    | Work(id: RequestId)

  // The locked sections ------------------------------------------------------

  /** The deadline an accept freezes: wall time plus what remains of the budget. */
  function Deadline(deadlineMonotonic: Time, monotonic: Time, wall: Time): Time {
    wall + if deadlineMonotonic > monotonic then deadlineMonotonic - monotonic else 0
  }

  function Unexpired(d: Dict<RequestId, Time>, now: Time): Dict<RequestId, Time> {
    if d == [] then []
    else if d[0].1 > now then [d[0]] + Unexpired(d[1..], now)
    else Unexpired(d[1..], now)
  }

  /** Insert one deferred accept: when saturated, purge expired entries first,
      then evict the oldest until the hard bound holds. */
  function AcceptInto(d: Dict<RequestId, Time>, id: RequestId, deadline: Time, now: Time, bound: nat)
    : Dict<RequestId, Time>
  {
    EvictOldest(Store(if |d| >= bound then Unexpired(d, now) else d, id, deadline), bound)
  }

  /** Store under `id`, make it the youngest, evict beyond the capacity. */
  function Remember<V>(d: Dict<RequestId, V>, id: RequestId, value: V, capacity: nat): Dict<RequestId, V> {
    EvictOldest(Delete(d, id) + [(id, value)], capacity)
  }

  // Steps --------------------------------------------------------------------

  predicate At(s: State, id: RequestId, stage: Stage) {
    id in s.stage && s.stage[id] == stage
  }

  predicate Enabled(s: State, step: Step) {
    match step
    case Authorize(id, _, _) => id !in s.stage
    case AcceptDeferred(id, _, _, _) => At(s, id, Authorized)
    case AcceptKeyed(id, _, _, _) => At(s, id, Authorized)
    case PopForAccept(id) => id in s.stage && s.stage[id].KeyedAccept?
    case KeyedSql(id, _) => id in s.stage && s.stage[id].KeyedPopped?
    case BeginStart(id) => At(s, id, Idle)
    case Peek(id) => id in s.stage && s.stage[id].Reserving? && s.stage[id].held.Some?
    case StartSql(id, _, _) => id in s.stage && (s.stage[id].Peeked? || s.stage[id] == Reserving(None))
    case BeginFinish(id) => At(s, id, Idle)
    case PopForFinish(id) => id in s.stage && s.stage[id].Finishing? && s.stage[id].held.Some?
    case FinishSql(id, _) => id in s.stage && (s.stage[id].FinishPopped? || s.stage[id] == Finishing(None))
    case Work(id) => id in s.stage && s.stage[id].Cleanup? && s.stage[id].todo != []
  }

  // The fields a step writes, one writer each.

  function Move(s: State, id: RequestId, stage: Stage): State {
    s.(stage := s.stage[id := stage])
  }

  function Defer(s: State, deferred: Dict<RequestId, Time>): State {
    s.(deferred := deferred)
  }

  function Track(s: State, tracker: Dict<RequestId, Lineage>): State {
    s.(tracker := tracker)
  }

  function Buffer(s: State, buffer: Dict<RequestId, string>): State {
    s.(buffer := buffer)
  }

  function Enqueue(s: State, id: RequestId): State {
    s.(queue := s.queue + [id])
  }

  /** The SQL functions keep one row per request; the protocol never offers a
      second one (`Resolved`). */
  function InsertRow(s: State, id: RequestId, deadline: Time, lineage: Option<Lineage>): State {
    s.(rows := s.rows[id := Row(deadline, lineage)])
  }

  function InsertAttempt(s: State, attempt: AttemptId, id: RequestId): State {
    s.(attempts := s.attempts[attempt := id])
  }

  function Freeze(s: State, id: RequestId, deadline: Time): State {
    s.(frozen := s.frozen[id := deadline])
  }

  function MarkUnkeyed(s: State, id: RequestId): State {
    s.(unkeyed := s.unkeyed + {id})
  }

  function Derive(s: State, id: RequestId, lineage: Lineage): State {
    s.(derived := s.derived[id := lineage])
  }

  function Next(limits: Limits, s: State, step: Step): State
    requires Enabled(s, step)
  {
    match step
    case Authorize(id, lineage, capture) =>
      var tracker := Remember(s.tracker, id, lineage, limits.lineage);
      var s1 := Track(Derive(s, id, lineage), tracker);
      var s2 := if capture.Some? then Buffer(s1, Remember(s.buffer, id, capture.value, limits.capture)) else s1;
      Move(s2, id, Authorized)
    case AcceptDeferred(id, dm, m, wall) =>
      var deadline := Deadline(dm, m, wall);
      var deferred := AcceptInto(s.deferred, id, deadline, wall, limits.deferred);
      Move(MarkUnkeyed(Freeze(Defer(s, deferred), id, deadline), id), id, Idle)
    case AcceptKeyed(id, dm, m, wall) =>
      var deadline := Deadline(dm, m, wall);
      Move(Freeze(s, id, deadline), id, KeyedAccept(deadline))
    case PopForAccept(id) =>
      Move(Track(s, Delete(s.tracker, id)), id, KeyedPopped(s.stage[id].deadline, Find(s.tracker, id)))
    case KeyedSql(id, committed) =>
      if committed && id !in s.rows
      then Move(InsertRow(s, id, s.stage[id].deadline, s.stage[id].lineage), id, Cleanup([EnqueueCapture]))
      else Move(s, id, Cleanup([DropCapture]))
    case BeginStart(id) => Move(s, id, Reserving(Find(s.deferred, id)))
    case Peek(id) => Move(s, id, Peeked(s.stage[id].held.value, Find(s.tracker, id)))
    case StartSql(id, attempt, committed) =>
      if !committed || attempt in s.attempts then Move(s, id, Idle)
      else if s.stage[id].Peeked? && id !in s.rows then
        // Fold: accept and attempt commit together.
        Move(InsertAttempt(InsertRow(s, id, s.stage[id].deadline, s.stage[id].lineage), attempt, id),
             id, Cleanup([ResolveDeferred, PopLineage, EnqueueCapture]))
      else if s.stage[id].Reserving? && id in s.rows then Move(InsertAttempt(s, attempt, id), id, Idle)
      else Move(s, id, Idle)
    case BeginFinish(id) => Move(s, id, Finishing(Find(s.deferred, id)))
    case PopForFinish(id) =>
      Move(Track(s, Delete(s.tracker, id)), id, FinishPopped(s.stage[id].held.value, Find(s.tracker, id)))
    case FinishSql(id, outcome) =>
      if s.stage[id].Finishing? then Move(s, id, Idle)
      else if outcome.Committed? && id !in s.rows then
        Move(InsertRow(s, id, s.stage[id].deadline, s.stage[id].lineage), id, Cleanup([ResolveDeferred, EnqueueCapture]))
      else if outcome.Revoked? then Move(s, id, Cleanup([ResolveDeferred, DropCapture]))
      else Move(s, id, Cleanup([DropCapture]))
    case Work(id) => Move(DoChore(s, id, s.stage[id].todo[0]), id, AfterChore(s.stage[id].todo))
  }

  function AfterChore(todo: seq<Chore>): Stage
    requires todo != []
  {
    if |todo| == 1 then Idle else Cleanup(todo[1..])
  }

  function DoChore(s: State, id: RequestId, chore: Chore): State {
    match chore
    case ResolveDeferred => Defer(s, Delete(s.deferred, id))
    case PopLineage => Track(s, Delete(s.tracker, id))
    case DropCapture => Buffer(s, Delete(s.buffer, id))
    case EnqueueCapture =>
      var emptied := Buffer(s, Delete(s.buffer, id));
      if Find(s.buffer, id).Some? then Enqueue(emptied, id) else emptied
  }

  predicate Runs(limits: Limits, s: State, steps: seq<Step>)
    decreases |steps|
  {
    steps == [] || (Enabled(s, steps[0]) && Runs(limits, Next(limits, s, steps[0]), steps[1..]))
  }

  function Run(limits: Limits, s: State, steps: seq<Step>): State
    requires Runs(limits, s, steps)
    decreases |steps|
  {
    if steps == [] then s else Run(limits, Next(limits, s, steps[0]), steps[1..])
  }

  // Status -------------------------------------------------------------------

  datatype Status = Pending | Durable | Dropped

  /** A call of this request holds its own copy of the deferred accept. */
  predicate Holds(stage: Stage) {
    match stage
    case Reserving(held) => held.Some?
    case Finishing(held) => held.Some?
    case Peeked(_, _) => true
    case FinishPopped(_, _) => true
    case _ => false
  }

  /** An accepted unkeyed request is durable once its row exists, pending while
      some accept of it can still be folded, dropped otherwise. */
  predicate InFlight(s: State, id: RequestId) {
    Has(s.deferred, id) || (id in s.stage && Holds(s.stage[id]))
  }

  function StatusOf(s: State, id: RequestId): Status {
    if id in s.rows then Durable else if InFlight(s, id) then Pending else Dropped
  }

  // The invariant ------------------------------------------------------------

  /** Everything the protocol holds about one request. */
  datatype View = View(
    stage: Option<Stage>,
    deferred: Option<Time>,
    tracked: Option<Lineage>,
    buffered: bool,
    row: Option<Row>,
    queued: nat,
    frozen: Option<Time>,
    derived: Option<Lineage>,
    unkeyed: bool)

  function ViewOf(s: State, id: RequestId): View {
    View(Lookup(s.stage, id), Find(s.deferred, id), Find(s.tracker, id), Find(s.buffer, id).Some?, Lookup(s.rows, id),
         multiset(s.queue)[id], Lookup(s.frozen, id), Lookup(s.derived, id), id in s.unkeyed)
  }

  function StageDeadline(stage: Stage): Option<Time> {
    match stage
    case Reserving(held) => held
    case Finishing(held) => held
    case Peeked(deadline, _) => Some(deadline)
    case FinishPopped(deadline, _) => Some(deadline)
    case KeyedAccept(deadline) => Some(deadline)
    case KeyedPopped(deadline, _) => Some(deadline)
    case _ => None
  }

  function StageLineage(stage: Stage): Option<Option<Lineage>> {
    match stage
    case KeyedPopped(_, lineage) => Some(lineage)
    case Peeked(_, lineage) => Some(lineage)
    case FinishPopped(_, lineage) => Some(lineage)
    case _ => None
  }

  predicate Owes(stage: Stage, chore: Chore) {
    stage.Cleanup? && chore in stage.todo
  }

  predicate Popped(stage: Stage) {
    stage.KeyedPopped? || stage.FinishPopped?
  }

  predicate BeforeRow(stage: Stage) {
    Holds(stage) || stage.Authorized? || stage.KeyedAccept? || stage.KeyedPopped?
  }

  /** Before authorize nothing exists; the first accept freezes the deadline. */
  predicate Placed(v: View) {
    && (v.stage.None? ==> v == View(None, None, None, false, None, 0, None, None, false))
    && (v.stage.Some? <==> v.derived.Some?)
    && (v.stage == Some(Authorized) ==> v.frozen.None?)
    && (v.unkeyed ==> v.frozen.Some?)
    && (v.deferred.Some? ==> v.unkeyed)
    && (v.stage.Some? && v.stage.value.Cleanup? ==> v.stage.value.todo != [])
    && (v.stage.Some? && (v.stage.value.KeyedAccept? || v.stage.value.KeyedPopped?) ==> !v.unkeyed)
  }

  /** Every copy of the deadline is the one frozen at accept. */
  predicate DeadlineKept(v: View) {
    && (v.deferred.Some? ==> v.frozen == v.deferred)
    && (v.row.Some? ==> v.frozen == Some(v.row.value.deadline))
    && (v.stage.Some? && StageDeadline(v.stage.value).Some? ==> v.frozen == StageDeadline(v.stage.value))
  }

  /** A durable request is no longer deferred, except between its commit and the
      resolution its own call still owes. */
  predicate Resolved(v: View) {
    && (v.row.Some? && v.deferred.Some? ==> v.stage.Some? && Owes(v.stage.value, ResolveDeferred))
    && (v.stage.Some? && BeforeRow(v.stage.value) ==> v.row.None?)
    && (v.stage.Some? && Owes(v.stage.value, EnqueueCapture) ==> v.row.Some?)
    && (v.stage.Some? && Owes(v.stage.value, PopLineage) ==> v.row.Some?)
    && (v.stage.Some? && Owes(v.stage.value, DropCapture) ==> v.row.None?)
    && (v.stage.Some? && Owes(v.stage.value, ResolveDeferred) ==>
          v.row.Some? || v.stage.value == Cleanup([ResolveDeferred, DropCapture]))
  }

  predicate FromDerived(v: View, lineage: Option<Lineage>) {
    lineage.Some? ==> lineage == v.derived
  }

  /** The lineage derived at authorize is the only one ever held or written. */
  predicate LineageKept(v: View) {
    && FromDerived(v, v.tracked)
    && (v.row.Some? ==> FromDerived(v, v.row.value.lineage))
    && (v.stage.Some? && StageLineage(v.stage.value).Some? ==> FromDerived(v, StageLineage(v.stage.value).value))
    && (v.stage.Some? && Popped(v.stage.value) ==> v.tracked.None?)
    && (v.row.Some? && v.tracked.Some? ==> v.stage.Some? && Owes(v.stage.value, PopLineage))
  }

  /** A capture is queued at most once, and only for a durable request. */
  predicate CaptureKept(v: View) {
    && v.queued <= 1
    && (v.queued == 1 ==> v.row.Some? && !v.buffered)
    && (v.row.Some? && v.buffered ==> v.stage.Some? && Owes(v.stage.value, EnqueueCapture))
  }

  predicate Good(v: View) {
    Placed(v) && DeadlineKept(v) && Resolved(v) && LineageKept(v) && CaptureKept(v)
  }

  ghost predicate Bounded(limits: Limits, s: State) {
    && Distinct(s.deferred) && Distinct(s.tracker) && Distinct(s.buffer)
    && |s.deferred| <= limits.deferred && |s.tracker| <= limits.lineage && |s.buffer| <= limits.capture
  }

  ghost predicate Inv(limits: Limits, s: State) {
    && Bounded(limits, s)
    && (forall id :: Good(ViewOf(s, id)))
    && (forall a :: a in s.attempts ==> s.attempts[a] in s.rows)
  }

  // Facts about the locked sections ------------------------------------------

  lemma {:induction false} UnexpiredKeeps(d: Dict<RequestId, Time>, now: Time)
    requires Distinct(d)
    ensures Distinct(Unexpired(d, now)) && |Unexpired(d, now)| <= |d|
    ensures forall e :: e in Unexpired(d, now) ==> e in d
  {
    if d != [] {
      UnexpiredKeeps(d[1..], now);
      var rest := Unexpired(d[1..], now);
      forall e | e in rest ensures e in d && e.0 != d[0].0 {
        var i :| 0 <= i < |d[1..]| && d[1..][i] == e;
        assert d[i + 1] == e;
      }
      assert forall j :: 0 <= j < |rest| ==> rest[j] in rest;
    }
  }

  lemma EvictKeeps<V>(d: Dict<RequestId, V>, bound: nat)
    requires Distinct(d)
    ensures Distinct(EvictOldest(d, bound)) && |EvictOldest(d, bound)| <= bound
    ensures forall e :: e in EvictOldest(d, bound) ==> e in d
    ensures d != [] && bound >= 1 ==> Has(EvictOldest(d, bound), d[|d| - 1].0)
  {
    var kept := EvictOldest(d, bound);
    if d != [] && bound >= 1 {
      assert kept[|kept| - 1] == d[|d| - 1];
    }
  }

  lemma AcceptKeeps(d: Dict<RequestId, Time>, id: RequestId, deadline: Time, now: Time, bound: nat)
    requires Distinct(d)
    ensures var after := AcceptInto(d, id, deadline, now, bound);
            && Distinct(after) && |after| <= bound
            && (forall e :: e in after ==> e == (id, deadline) || (e in d && e.0 != id))
            && (!Has(d, id) && bound >= 1 ==> Has(after, id))
            && (|d| < bound ==> after == Store(d, id, deadline))
  {
    hide *;
    UnexpiredKeeps(d, now);
    AcceptPurged(d, if |d| >= bound then Unexpired(d, now) else d, id, deadline, now, bound);
  }

  lemma AcceptPurged(d: Dict<RequestId, Time>, purged: Dict<RequestId, Time>, id: RequestId, deadline: Time, now: Time, bound: nat)
    requires Distinct(purged) && (forall e :: e in purged ==> e in d)
    requires purged == if |d| >= bound then Unexpired(d, now) else d
    ensures var after := AcceptInto(d, id, deadline, now, bound);
            && Distinct(after) && |after| <= bound
            && (forall e :: e in after ==> e == (id, deadline) || (e in d && e.0 != id))
            && (!Has(d, id) && bound >= 1 ==> Has(after, id))
            && (|d| < bound ==> after == Store(d, id, deadline))
  {
    hide Find, Store, Unexpired, Distinct;
    var stored := Store(purged, id, deadline);
    StoreShape(purged, id, deadline);
    EvictKeeps(stored, bound);
    if !Has(d, id) {
      SubDict(purged, d, id);
      assert stored[|stored| - 1] == (id, deadline);
    }
  }

  lemma SubDict<V>(part: Dict<RequestId, V>, d: Dict<RequestId, V>, id: RequestId)
    requires forall e :: e in part ==> e in d
    ensures Has(part, id) ==> Has(d, id)
  {
    if Has(part, id) {
      var i :| 0 <= i < |part| && part[i].0 == id;
      assert part[i] in part;
    }
  }

  lemma RememberKeeps<V>(d: Dict<RequestId, V>, id: RequestId, value: V, capacity: nat)
    requires Distinct(d)
    ensures var after := Remember(d, id, value, capacity);
            && Distinct(after) && |after| <= capacity
            && (forall e :: e in after ==> e == (id, value) || (e in d && e.0 != id))
  {
    var kept := Delete(d, id);
    DeleteMembers(d, id);
    hide Delete, Remember;
    var grown := kept + [(id, value)];
    assert Distinct(grown) by {
      forall i | 0 <= i < |kept| ensures kept[i].0 != id {
        assert kept[i] in kept;
      }
    }
    EvictKeeps(grown, capacity);
    RememberIs(d, id, value, capacity);
  }

  lemma RememberIs<V>(d: Dict<RequestId, V>, id: RequestId, value: V, capacity: nat)
    ensures Remember(d, id, value, capacity) == EvictOldest(Delete(d, id) + [(id, value)], capacity)
  {
  }

  lemma DeleteHas<V>(d: Dict<RequestId, V>, id: RequestId, other: RequestId)
    requires Distinct(d)
    ensures Has(Delete(d, id), other) <==> other != id && Has(d, other)
  {
    DeleteLookup(d, id, other);
  }

  lemma DeleteKeeps<V>(d: Dict<RequestId, V>, id: RequestId)
    requires Distinct(d)
    ensures Distinct(Delete(d, id)) && |Delete(d, id)| <= |d|
    ensures forall e :: e in Delete(d, id) ==> e in d && e.0 != id
    ensures forall other :: Has(Delete(d, id), other) <==> other != id && Has(d, other)
  {
    DeleteMembers(d, id);
    DeleteSize(d, id);
    forall other ensures Has(Delete(d, id), other) <==> other != id && Has(d, other) {
      DeleteHas(d, id, other);
    }
  }

  // Every step keeps the invariant -------------------------------------------

  /** What another request's step can do to a request: evict what it had. */
  predicate Shrinks(v: View, w: View) {
    && w == v.(deferred := w.deferred, tracked := w.tracked, buffered := w.buffered)
    && (w.deferred.Some? ==> w.deferred == v.deferred)
    && (w.tracked.Some? ==> w.tracked == v.tracked)
    && (w.buffered ==> v.buffered)
  }

  lemma ShrinkKeepsGood(v: View, w: View)
    requires Good(v) && Shrinks(v, w)
    ensures Good(w)
  {
  }

  lemma RememberFind<V>(d: Dict<RequestId, V>, id: RequestId, value: V, capacity: nat, other: RequestId)
    requires Distinct(d)
    ensures var after := Find(Remember(d, id, value, capacity), other);
            if other == id then after.None? || after == Some(value) else after.None? || after == Find(d, other)
  {
    hide Remember, Find;
    RememberKeeps(d, id, value, capacity);
    FindFrom(Remember(d, id, value, capacity), d, (id, value), other);
  }

  lemma AcceptFind(d: Dict<RequestId, Time>, id: RequestId, deadline: Time, now: Time, bound: nat, other: RequestId)
    requires Distinct(d)
    ensures var after := Find(AcceptInto(d, id, deadline, now, bound), other);
            && (if other == id then after.None? || after == Some(deadline) else after.None? || after == Find(d, other))
            && (|d| < bound ==> after == if other == id then Some(deadline) else Find(d, other))
  {
    hide AcceptInto, Find;
    AcceptKeeps(d, id, deadline, now, bound);
    FindFrom(AcceptInto(d, id, deadline, now, bound), d, (id, deadline), other);
    if |d| < bound {
      StoreLookup(d, id, deadline, other);
      hide Store;
    }
  }

  lemma FindFrom<V>(after: Dict<RequestId, V>, d: Dict<RequestId, V>, added: (RequestId, V), other: RequestId)
    requires Distinct(d)
    requires forall e :: e in after ==> e == added || (e in d && e.0 != added.0)
    ensures var found := Find(after, other);
            if other == added.0 then found.None? || found == Some(added.1) else found.None? || found == Find(d, other)
  {
    hide Distinct;
    var found := Find(after, other);
    if found.Some? && other != added.0 {
      FindUnique(d, other, found.value);
    }
  }

  lemma DeleteFind<V>(d: Dict<RequestId, V>, id: RequestId, other: RequestId)
    requires Distinct(d)
    ensures Find(Delete(d, id), other) == if other == id then None else Find(d, other)
  {
    DeleteLookup(d, id, other);
  }

  // How each writer changes a view.

  lemma MoveView(s: State, id: RequestId, stage: Stage, x: RequestId)
    ensures ViewOf(Move(s, id, stage), x) == ViewOf(s, x).(stage := if x == id then Some(stage) else ViewOf(s, x).stage)
  {
    hide Find;
  }

  lemma DeferView(s: State, deferred: Dict<RequestId, Time>, x: RequestId)
    ensures ViewOf(Defer(s, deferred), x) == ViewOf(s, x).(deferred := Find(deferred, x))
  {
    hide Find;
  }

  lemma TrackView(s: State, tracker: Dict<RequestId, Lineage>, x: RequestId)
    ensures ViewOf(Track(s, tracker), x) == ViewOf(s, x).(tracked := Find(tracker, x))
  {
    hide Find;
  }

  lemma BufferView(s: State, buffer: Dict<RequestId, string>, x: RequestId)
    ensures ViewOf(Buffer(s, buffer), x) == ViewOf(s, x).(buffered := Find(buffer, x).Some?)
  {
    hide Find;
  }

  lemma EnqueueView(s: State, id: RequestId, x: RequestId)
    ensures ViewOf(Enqueue(s, id), x) == ViewOf(s, x).(queued := ViewOf(s, x).queued + if x == id then 1 else 0)
  {
    hide Find;
  }

  lemma InsertRowView(s: State, id: RequestId, deadline: Time, lineage: Option<Lineage>, x: RequestId)
    ensures ViewOf(InsertRow(s, id, deadline, lineage), x) == ViewOf(s, x).(row := if x == id then Some(Row(deadline, lineage)) else ViewOf(s, x).row)
  {
    hide Find;
  }

  lemma InsertAttemptView(s: State, attempt: AttemptId, id: RequestId, x: RequestId)
    ensures ViewOf(InsertAttempt(s, attempt, id), x) == ViewOf(s, x)
  {
    hide Find;
  }

  lemma FreezeView(s: State, id: RequestId, deadline: Time, x: RequestId)
    ensures ViewOf(Freeze(s, id, deadline), x) == ViewOf(s, x).(frozen := if x == id then Some(deadline) else ViewOf(s, x).frozen)
  {
    hide Find;
  }

  lemma MarkUnkeyedView(s: State, id: RequestId, x: RequestId)
    ensures ViewOf(MarkUnkeyed(s, id), x) == ViewOf(s, x).(unkeyed := x == id || ViewOf(s, x).unkeyed)
  {
    hide Find;
  }

  lemma DeriveView(s: State, id: RequestId, lineage: Lineage, x: RequestId)
    ensures ViewOf(Derive(s, id, lineage), x) == ViewOf(s, x).(derived := if x == id then Some(lineage) else ViewOf(s, x).derived)
  {
    hide Find;
  }

  // What a step does to the views.

  function ViewAfterChore(v: View, chore: Chore): View {
    match chore
    case ResolveDeferred => v.(deferred := None)
    case PopLineage => v.(tracked := None)
    case DropCapture => v.(buffered := false)
    case EnqueueCapture => v.(buffered := false, queued := v.queued + if v.buffered then 1 else 0)
  }

  /** The acting request's view before and after its step. */
  predicate OwnMove(v: View, w: View, step: Step) {
    match step
    case Authorize(_, lineage, _) =>
      && v.stage.None?
      && w == v.(stage := Some(Authorized), derived := Some(lineage), tracked := w.tracked, buffered := w.buffered)
      && FromDerived(w, w.tracked)
    case AcceptDeferred(_, dm, m, wall) =>
      var deadline := Deadline(dm, m, wall);
      && v.stage == Some(Authorized)
      && w == v.(stage := Some(Idle), frozen := Some(deadline), unkeyed := true, deferred := w.deferred)
      && (w.deferred.None? || w.deferred == Some(deadline))
    case AcceptKeyed(_, dm, m, wall) =>
      var deadline := Deadline(dm, m, wall);
      v.stage == Some(Authorized) && w == v.(stage := Some(KeyedAccept(deadline)), frozen := Some(deadline))
    case PopForAccept(_) =>
      && v.stage.Some? && v.stage.value.KeyedAccept?
      && w == v.(stage := Some(KeyedPopped(v.stage.value.deadline, v.tracked)), tracked := None)
    case KeyedSql(_, committed) =>
      && v.stage.Some? && v.stage.value.KeyedPopped?
      && w == if committed && v.row.None? then Insert(v, [EnqueueCapture]) else v.(stage := Some(Cleanup([DropCapture])))
    case BeginStart(_) => v.stage == Some(Idle) && w == v.(stage := Some(Reserving(v.deferred)))
    case Peek(_) =>
      && v.stage.Some? && v.stage.value.Reserving? && v.stage.value.held.Some?
      && w == v.(stage := Some(Peeked(v.stage.value.held.value, v.tracked)))
    case StartSql(_, _, committed) =>
      && v.stage.Some? && (v.stage.value.Peeked? || v.stage.value == Reserving(None))
      && (|| w == v.(stage := Some(Idle))
          || (committed && v.stage.value.Peeked? && v.row.None? && w == Insert(v, [ResolveDeferred, PopLineage, EnqueueCapture])))
    case BeginFinish(_) => v.stage == Some(Idle) && w == v.(stage := Some(Finishing(v.deferred)))
    case PopForFinish(_) =>
      && v.stage.Some? && v.stage.value.Finishing? && v.stage.value.held.Some?
      && w == v.(stage := Some(FinishPopped(v.stage.value.held.value, v.tracked)), tracked := None)
    case FinishSql(_, outcome) =>
      && v.stage.Some?
      && (v.stage.value == Finishing(None) || v.stage.value.FinishPopped?)
      && w == if v.stage.value.Finishing? then v.(stage := Some(Idle))
              else if outcome.Committed? && v.row.None? then Insert(v, [ResolveDeferred, EnqueueCapture])
              else if outcome.Revoked? then v.(stage := Some(Cleanup([ResolveDeferred, DropCapture])))
              else v.(stage := Some(Cleanup([DropCapture])))
    case Work(_) =>
      && v.stage.Some? && v.stage.value.Cleanup? && v.stage.value.todo != []
      && w == ViewAfterChore(v, v.stage.value.todo[0]).(stage := Some(AfterChore(v.stage.value.todo)))
  }

  /** The row a popped or peeked call inserts, and the chores it then owes. */
  function Insert(v: View, todo: seq<Chore>): View
    requires v.stage.Some? && StageLineage(v.stage.value).Some?
  {
    v.(row := Some(Row(v.stage.value.deadline, v.stage.value.lineage)), stage := Some(Cleanup(todo)))
  }

  /** The acting request moves; any other is at most evicted, and a deferred
      accept only when the map is saturated. */
  predicate Moves(limits: Limits, s: State, t: State, step: Step, x: RequestId) {
    var v, w := ViewOf(s, x), ViewOf(t, x);
    if x == step.id then
      OwnMove(v, w, step) && (step.AcceptDeferred? && |s.deferred| < limits.deferred ==> w.deferred.Some?)
    else
      && Shrinks(v, w)
      && (w.deferred != v.deferred ==> step.AcceptDeferred? && |s.deferred| >= limits.deferred)
      && (w.tracked != v.tracked ==> step.Authorize?)
  }

  lemma EntryKeepsGood(v: View, w: View, step: Step)
    requires Good(v) && OwnMove(v, w, step) && (step.Authorize? || step.AcceptDeferred? || step.AcceptKeyed?)
    ensures Good(w)
  {
  }

  lemma ReadKeepsGood(v: View, w: View, step: Step)
    requires Good(v) && OwnMove(v, w, step)
    requires step.BeginStart? || step.Peek? || step.BeginFinish? || step.PopForAccept? || step.PopForFinish?
    ensures Good(w)
  {
  }

  lemma KeyedSqlKeepsGood(v: View, w: View, step: Step)
    requires Good(v) && OwnMove(v, w, step) && step.KeyedSql?
    ensures Good(w)
  {
  }

  lemma StartSqlKeepsGood(v: View, w: View, step: Step)
    requires Good(v) && OwnMove(v, w, step) && step.StartSql?
    ensures Good(w)
  {
  }

  lemma FinishSqlKeepsGood(v: View, w: View, step: Step)
    requires Good(v) && OwnMove(v, w, step) && step.FinishSql?
    ensures Good(w)
  {
  }

  lemma MoveKeepsGood(v: View, w: View, step: Step)
    requires Good(v) && OwnMove(v, w, step)
    ensures Good(w)
  {
    hide Good;
    match step {
      case Work(_) => ChoreGood(v);
      case Authorize(_, _, _) => EntryKeepsGood(v, w, step);
      case AcceptDeferred(_, _, _, _) => EntryKeepsGood(v, w, step);
      case AcceptKeyed(_, _, _, _) => EntryKeepsGood(v, w, step);
      case KeyedSql(_, _) => KeyedSqlKeepsGood(v, w, step);
      case StartSql(_, _, _) => StartSqlKeepsGood(v, w, step);
      case FinishSql(_, _) => FinishSqlKeepsGood(v, w, step);
      case _ => ReadKeepsGood(v, w, step);
    }
  }

  lemma ChoreGood(v: View)
    requires Good(v) && v.stage.Some? && v.stage.value.Cleanup? && v.stage.value.todo != []
    ensures var todo := v.stage.value.todo;
            Good(ViewAfterChore(v, todo[0]).(stage := Some(AfterChore(todo))))
  {
    var todo := v.stage.value.todo;
    AfterChoreOwes(todo, ResolveDeferred);
    AfterChoreOwes(todo, EnqueueCapture);
    AfterChoreOwes(todo, PopLineage);
    AfterChoreOwes(todo, DropCapture);
    hide AfterChore;
  }

  lemma AfterChoreOwes(todo: seq<Chore>, chore: Chore)
    requires todo != []
    ensures var after := AfterChore(todo);
            && (after.Idle? || (after.Cleanup? && after.todo != []))
            && (Owes(after, chore) ==> chore in todo)
            && (chore in todo && chore != todo[0] ==> Owes(after, chore))
  {
    assert todo == [todo[0]] + todo[1..];
  }

  lemma ReadStage(s: State, id: RequestId)
    ensures ViewOf(s, id).stage == Lookup(s.stage, id)
    ensures ViewOf(s, id).row == Lookup(s.rows, id)
    ensures ViewOf(s, id).deferred == Find(s.deferred, id)
    ensures ViewOf(s, id).tracked == Find(s.tracker, id)
    ensures ViewOf(s, id).buffered == Find(s.buffer, id).Some?
  {
  }

  lemma AuthorizedView(limits: Limits, s: State, step: Step, x: RequestId)
    requires step.Authorize? && Enabled(s, step)
    ensures var tracker := Remember(s.tracker, step.id, step.lineage, limits.lineage);
            var buffer := if step.capture.Some? then Remember(s.buffer, step.id, step.capture.value, limits.capture) else s.buffer;
            var v := ViewOf(s, x);
            ViewOf(Next(limits, s, step), x) ==
              (if x == step.id then v.(stage := Some(Authorized), derived := Some(step.lineage)) else v)
                .(tracked := Find(tracker, x),
                  buffered := Find(buffer, x).Some?)
  {
    ReadStage(s, x);
    hide ViewOf, Find, Has, Delete, Distinct, Remember, AcceptInto, Move, Defer, Track, Buffer, Enqueue, InsertRow, InsertAttempt, Freeze, MarkUnkeyed, Derive;
    var id := step.id;
    var tracker := Remember(s.tracker, id, step.lineage, limits.lineage);
    var s0 := Derive(s, id, step.lineage);
    var s2 := Track(s0, tracker);
    DeriveView(s, id, step.lineage, x);
    TrackView(s0, tracker, x);
    MoveView(s2, id, Authorized, x);
    if step.capture.Some? {
      var buffer := Remember(s.buffer, id, step.capture.value, limits.capture);
      BufferView(s2, buffer, x);
      MoveView(Buffer(s2, buffer), id, Authorized, x);
    }
  }

  lemma AuthorizeMoves(limits: Limits, s: State, step: Step, x: RequestId)
    requires Bounded(limits, s) && step.Authorize? && Enabled(s, step)
    ensures Moves(limits, s, Next(limits, s, step), step, x)
  {
    ReadStage(s, x);
    hide Good, ViewOf, Find, Distinct, Remember, Next;
    var id := step.id;
    var tracker := Remember(s.tracker, id, step.lineage, limits.lineage);
    var v, w := ViewOf(s, x), ViewOf(Next(limits, s, step), x);
    AuthorizedView(limits, s, step, x);
    RememberFind(s.tracker, id, step.lineage, limits.lineage, x);
    if step.capture.Some? {
      RememberFind(s.buffer, id, step.capture.value, limits.capture, x);
    }
  }

  lemma AcceptDeferredMoves(limits: Limits, s: State, step: Step, x: RequestId)
    requires Bounded(limits, s) && (step.AcceptDeferred?) && Enabled(s, step)
    ensures Moves(limits, s, Next(limits, s, step), step, x)
  {
    ReadStage(s, step.id);
    hide ViewOf, Find, Has, Delete, Distinct, Remember, AcceptInto, Move, Defer, Track, Buffer, Enqueue, InsertRow, InsertAttempt, Freeze, MarkUnkeyed, Derive;
    ReadStage(s, x);
    var id := step.id;
    var deadline := Deadline(step.deadlineMonotonic, step.monotonic, step.wall);
    var deferred := AcceptInto(s.deferred, id, deadline, step.wall, limits.deferred);
    AcceptFind(s.deferred, id, deadline, step.wall, limits.deferred, x);
    var s1 := Defer(s, deferred);
    var s2 := Freeze(s1, id, deadline);
    DeferView(s, deferred, x);
    FreezeView(s1, id, deadline, x);
    MarkUnkeyedView(s2, id, x);
    MoveView(MarkUnkeyed(s2, id), id, Idle, x);
  }

  lemma BeginMoves(limits: Limits, s: State, step: Step, x: RequestId)
    requires Bounded(limits, s) && (step.AcceptKeyed? || step.BeginStart? || step.BeginFinish? || step.Peek?) && Enabled(s, step)
    ensures Moves(limits, s, Next(limits, s, step), step, x)
  {
    ReadStage(s, step.id);
    hide ViewOf, Find, Has, Delete, Distinct, Remember, AcceptInto, Move, Defer, Track, Buffer, Enqueue, InsertRow, InsertAttempt, Freeze, MarkUnkeyed, Derive;
    var id := step.id;
    match step {
      case AcceptKeyed(_, dm, m, wall) =>
        var deadline := Deadline(dm, m, wall);
        FreezeView(s, id, deadline, x);
        MoveView(Freeze(s, id, deadline), id, KeyedAccept(deadline), x);
      case BeginStart(_) => MoveView(s, id, Reserving(Find(s.deferred, id)), x);
      case BeginFinish(_) => MoveView(s, id, Finishing(Find(s.deferred, id)), x);
      case Peek(_) => MoveView(s, id, Peeked(s.stage[id].held.value, Find(s.tracker, id)), x);
    }
  }

  lemma PopMoves(limits: Limits, s: State, step: Step, x: RequestId)
    requires Bounded(limits, s) && (step.PopForAccept? || step.PopForFinish?) && Enabled(s, step)
    ensures Moves(limits, s, Next(limits, s, step), step, x)
  {
    ReadStage(s, step.id);
    hide ViewOf, Find, Has, Delete, Distinct, Remember, AcceptInto, Move, Defer, Track, Buffer, Enqueue, InsertRow, InsertAttempt, Freeze, MarkUnkeyed, Derive;
    ReadStage(s, x);
    var id := step.id;
    var tracker := Delete(s.tracker, id);
    DeleteFind(s.tracker, id, x);
    TrackView(s, tracker, x);
    if step.PopForAccept? {
      MoveView(Track(s, tracker), id, KeyedPopped(s.stage[id].deadline, Find(s.tracker, id)), x);
    } else {
      MoveView(Track(s, tracker), id, FinishPopped(s.stage[id].held.value, Find(s.tracker, id)), x);
    }
  }

  lemma KeyedSqlMoves(limits: Limits, s: State, step: Step, x: RequestId)
    requires Bounded(limits, s) && (step.KeyedSql?) && Enabled(s, step)
    ensures Moves(limits, s, Next(limits, s, step), step, x)
  {
    ReadStage(s, step.id);
    hide ViewOf, Find, Has, Delete, Distinct, Remember, AcceptInto, Move, Defer, Track, Buffer, Enqueue, InsertRow, InsertAttempt, Freeze, MarkUnkeyed, Derive;
    var id := step.id;
    var deadline, lineage := s.stage[id].deadline, s.stage[id].lineage;
    InsertRowView(s, id, deadline, lineage, x);
    MoveView(InsertRow(s, id, deadline, lineage), id, Cleanup([EnqueueCapture]), x);
    MoveView(s, id, Cleanup([DropCapture]), x);
  }

  lemma StartSqlMoves(limits: Limits, s: State, step: Step, x: RequestId)
    requires Bounded(limits, s) && (step.StartSql?) && Enabled(s, step)
    ensures Moves(limits, s, Next(limits, s, step), step, x)
  {
    ReadStage(s, step.id);
    hide Good, ViewOf, Find, Has, Delete, Distinct, Remember, AcceptInto, Move, Defer, Track, Buffer, Enqueue, InsertRow, InsertAttempt, Freeze, MarkUnkeyed, Derive;
    var id := step.id;
    MoveView(s, id, Idle, x);
    InsertAttemptView(s, step.attempt, id, x);
    MoveView(InsertAttempt(s, step.attempt, id), id, Idle, x);
    if s.stage[id].Peeked? {
      var deadline, lineage := s.stage[id].deadline, s.stage[id].lineage;
      var s1 := InsertRow(s, id, deadline, lineage);
      InsertRowView(s, id, deadline, lineage, x);
      InsertAttemptView(s1, step.attempt, id, x);
      MoveView(InsertAttempt(s1, step.attempt, id), id, Cleanup([ResolveDeferred, PopLineage, EnqueueCapture]), x);
    }
  }

  lemma FinishSqlMoves(limits: Limits, s: State, step: Step, x: RequestId)
    requires Bounded(limits, s) && (step.FinishSql?) && Enabled(s, step)
    ensures Moves(limits, s, Next(limits, s, step), step, x)
  {
    ReadStage(s, step.id);
    hide Good, ViewOf, Find, Has, Delete, Distinct, Remember, AcceptInto, Move, Defer, Track, Buffer, Enqueue, InsertRow, InsertAttempt, Freeze, MarkUnkeyed, Derive;
    var id := step.id;
    MoveView(s, id, Idle, x);
    MoveView(s, id, Cleanup([ResolveDeferred, DropCapture]), x);
    MoveView(s, id, Cleanup([DropCapture]), x);
    if s.stage[id].FinishPopped? {
      var deadline, lineage := s.stage[id].deadline, s.stage[id].lineage;
      InsertRowView(s, id, deadline, lineage, x);
      MoveView(InsertRow(s, id, deadline, lineage), id, Cleanup([ResolveDeferred, EnqueueCapture]), x);
    }
  }

  lemma WorkMoves(limits: Limits, s: State, step: Step, x: RequestId)
    requires Bounded(limits, s) && (step.Work?) && Enabled(s, step)
    ensures Moves(limits, s, Next(limits, s, step), step, x)
  {
    ReadStage(s, step.id);
    hide Good, ViewOf, Find, Has, Delete, Distinct, Remember, AcceptInto, Move, Defer, Track, Buffer, Enqueue, InsertRow, InsertAttempt, Freeze, MarkUnkeyed, Derive;
    ReadStage(s, x);
    var id := step.id;
    var todo := s.stage[id].todo;
    ChoreView(s, id, todo[0], x);
    MoveView(DoChore(s, id, todo[0]), id, AfterChore(todo), x);
    hide DoChore;
  }

  /** A chore empties one slot of its own request's view. */
  lemma ChoreView(s: State, id: RequestId, chore: Chore, x: RequestId)
    requires Distinct(s.deferred) && Distinct(s.tracker) && Distinct(s.buffer)
    ensures var v := ViewOf(s, x);
            ViewOf(DoChore(s, id, chore), x) == if x != id then v else ViewAfterChore(v, chore)
  {
    ReadStage(s, x);
    hide ViewOf, Find, Has, Delete, Distinct, Remember, AcceptInto, Move, Defer, Track, Buffer, Enqueue, InsertRow, InsertAttempt, Freeze, MarkUnkeyed, Derive;
    DeleteFind(s.deferred, id, x);
    DeleteFind(s.tracker, id, x);
    DeleteFind(s.buffer, id, x);
    DeferView(s, Delete(s.deferred, id), x);
    TrackView(s, Delete(s.tracker, id), x);
    BufferView(s, Delete(s.buffer, id), x);
    EnqueueView(Buffer(s, Delete(s.buffer, id)), id, x);
  }

  lemma StepMoves(limits: Limits, s: State, step: Step, x: RequestId)
    requires Bounded(limits, s) && Enabled(s, step)
    ensures Moves(limits, s, Next(limits, s, step), step, x)
  {
    hide *;
    match step {
      case Authorize(_, _, _) => AuthorizeMoves(limits, s, step, x);
      case AcceptDeferred(_, _, _, _) => AcceptDeferredMoves(limits, s, step, x);
      case PopForAccept(_) => PopMoves(limits, s, step, x);
      case PopForFinish(_) => PopMoves(limits, s, step, x);
      case KeyedSql(_, _) => KeyedSqlMoves(limits, s, step, x);
      case StartSql(_, _, _) => StartSqlMoves(limits, s, step, x);
      case FinishSql(_, _) => FinishSqlMoves(limits, s, step, x);
      case Work(_) => WorkMoves(limits, s, step, x);
      case _ => BeginMoves(limits, s, step, x);
    }
  }

  lemma AuthorizeKeepsBounds(limits: Limits, s: State, step: Step)
    requires Bounded(limits, s) && (step.Authorize?) && Enabled(s, step)
    ensures Bounded(limits, Next(limits, s, step))
  {
    hide Find, Delete, Distinct, Remember, AcceptInto, Has;
    RememberKeeps(s.tracker, step.id, step.lineage, limits.lineage);
    if step.capture.Some? {
      RememberKeeps(s.buffer, step.id, step.capture.value, limits.capture);
    }
  }

  lemma PopKeepsBounds(limits: Limits, s: State, step: Step)
    requires Bounded(limits, s) && (step.PopForAccept? || step.PopForFinish?) && Enabled(s, step)
    ensures Bounded(limits, Next(limits, s, step))
  {
    hide Find, Delete, Distinct, Remember, AcceptInto, Has;
    DeleteKeeps(s.tracker, step.id);
  }

  lemma WorkKeepsBounds(limits: Limits, s: State, step: Step)
    requires Bounded(limits, s) && (step.Work?) && Enabled(s, step)
    ensures Bounded(limits, Next(limits, s, step))
  {
    hide Find, Delete, Distinct, Remember, AcceptInto, Has;
    var id, chore := step.id, s.stage[step.id].todo[0];
    DeleteKeeps(s.deferred, id);
    DeleteKeeps(s.tracker, id);
    DeleteKeeps(s.buffer, id);
    assert Bounded(limits, DoChore(s, id, chore));
    hide DoChore;
  }

  lemma SqlKeepsBounds(limits: Limits, s: State, step: Step)
    requires Bounded(limits, s) && (step.KeyedSql? || step.StartSql? || step.FinishSql?) && Enabled(s, step)
    ensures Bounded(limits, Next(limits, s, step))
  {
    hide Find, Delete, Distinct, Remember, AcceptInto, Has;
  }

  lemma StepKeepsBounds(limits: Limits, s: State, step: Step)
    requires Bounded(limits, s) && Enabled(s, step)
    ensures Bounded(limits, Next(limits, s, step))
  {
    match step {
      case Authorize(_, _, _) => AuthorizeKeepsBounds(limits, s, step);
      case AcceptDeferred(id, dm, m, wall) =>
        AcceptKeeps(s.deferred, id, Deadline(dm, m, wall), wall, limits.deferred);
        hide Distinct, AcceptInto, Has;
      case PopForAccept(_) => PopKeepsBounds(limits, s, step);
      case PopForFinish(_) => PopKeepsBounds(limits, s, step);
      case KeyedSql(_, _) => SqlKeepsBounds(limits, s, step);
      case StartSql(_, _, _) => SqlKeepsBounds(limits, s, step);
      case FinishSql(_, _) => SqlKeepsBounds(limits, s, step);
      case Work(_) => WorkKeepsBounds(limits, s, step);
      case _ =>
        hide Distinct, Find;
    }
  }

  lemma ChoreLeavesRows(s: State, id: RequestId, chore: Chore)
    ensures DoChore(s, id, chore).rows == s.rows && DoChore(s, id, chore).attempts == s.attempts
  {
    hide Find, Delete, Has;
  }

  lemma ChoresLeaveRows(limits: Limits, s: State, step: Step)
    requires Enabled(s, step) && step.Work?
    ensures Next(limits, s, step).rows == s.rows && Next(limits, s, step).attempts == s.attempts
  {
    ChoreLeavesRows(s, step.id, s.stage[step.id].todo[0]);
    hide DoChore;
  }

  lemma EntryLeavesRows(limits: Limits, s: State, step: Step)
    requires Enabled(s, step) && (step.Authorize? || step.AcceptDeferred? || step.AcceptKeyed?)
    ensures Next(limits, s, step).rows == s.rows && Next(limits, s, step).attempts == s.attempts
  {
    hide Remember, AcceptInto, Find, Has;
  }

  lemma OnlySqlWritesRows(limits: Limits, s: State, step: Step)
    requires Enabled(s, step) && !step.KeyedSql? && !step.StartSql? && !step.FinishSql?
    ensures Next(limits, s, step).rows == s.rows && Next(limits, s, step).attempts == s.attempts
  {
    match step {
      case Work(_) => ChoresLeaveRows(limits, s, step);
      case Authorize(_, _, _) => EntryLeavesRows(limits, s, step);
      case AcceptDeferred(_, _, _, _) => EntryLeavesRows(limits, s, step);
      case AcceptKeyed(_, _, _, _) => EntryLeavesRows(limits, s, step);
      case _ =>
        hide Find, Delete, Has;
    }
  }

  lemma SqlKeepsAttempts(limits: Limits, s: State, step: Step)
    requires Enabled(s, step) && (step.KeyedSql? || step.StartSql? || step.FinishSql?)
    requires forall a :: a in s.attempts ==> s.attempts[a] in s.rows
    ensures var t := Next(limits, s, step); forall a :: a in t.attempts ==> t.attempts[a] in t.rows
  {
    hide Find, Delete, Remember, AcceptInto, Has;
  }

  lemma AttemptsKeepRows(limits: Limits, s: State, step: Step)
    requires Enabled(s, step) && forall a :: a in s.attempts ==> s.attempts[a] in s.rows
    ensures var t := Next(limits, s, step); forall a :: a in t.attempts ==> t.attempts[a] in t.rows
  {
    hide Next, Enabled;
    if step.KeyedSql? || step.StartSql? || step.FinishSql? {
      SqlKeepsAttempts(limits, s, step);
    } else {
      OnlySqlWritesRows(limits, s, step);
    }
  }

  lemma StepKeepsInvariant(limits: Limits, s: State, step: Step)
    requires Inv(limits, s) && Enabled(s, step)
    ensures Inv(limits, Next(limits, s, step))
  {
    hide Good, ViewOf, Bounded, Next, Enabled, Shrinks, OwnMove;
    StepKeepsBounds(limits, s, step);
    AttemptsKeepRows(limits, s, step);
    forall id ensures Good(ViewOf(Next(limits, s, step), id)) {
      StepMoves(limits, s, step, id);
      if id == step.id {
        MoveKeepsGood(ViewOf(s, id), ViewOf(Next(limits, s, step), id), step);
      } else {
        ShrinkKeepsGood(ViewOf(s, id), ViewOf(Next(limits, s, step), id));
      }
    }
  }

  // Whole runs ---------------------------------------------------------------

  lemma {:induction false} RunKeepsInvariant(limits: Limits, s: State, steps: seq<Step>)
    requires Inv(limits, s) && Runs(limits, s, steps)
    ensures Inv(limits, Run(limits, s, steps))
    decreases |steps|
  {
    hide Inv, Next, Enabled;
    if steps != [] {
      StepKeepsInvariant(limits, s, steps[0]);
      RunKeepsInvariant(limits, Next(limits, s, steps[0]), steps[1..]);
    }
  }

  /** What holds of every request in every state any interleaving can reach. */
  lemma RunsAreSafe(limits: Limits, steps: seq<Step>, id: RequestId)
    requires Runs(limits, START, steps)
    ensures var s := Run(limits, START, steps);
            // the pending map never exceeds its bound
            && |s.deferred| <= limits.deferred
            // an attempt implies a durable accept
            && (forall a :: a in s.attempts ==> s.attempts[a] in s.rows)
            // a durable accept has the deadline frozen at accept and no lineage but
            // the one derived at authorize, whichever call wrote it
            && (id in s.rows ==>
                  && id in s.frozen && s.rows[id].deadline == s.frozen[id]
                  && id in s.derived && s.rows[id].lineage in {None, Some(s.derived[id])})
            // captures are queued at most once, and only after durability
            && multiset(s.queue)[id] <= 1
            && (id in s.queue ==> id in s.rows)
            // outside its own calls, a durable request is not pending as well, and
            // neither its capture nor its lineage is still waiting
            && (At(s, id, Idle) && id in s.rows ==> !Has(s.deferred, id) && !Has(s.buffer, id) && !Has(s.tracker, id))
            // what the tracker holds for the next rung is that lineage
            && (Find(s.tracker, id).Some? ==> id in s.derived && Find(s.tracker, id) == Some(s.derived[id]))
  {
    StartIsGood(limits);
    RunKeepsInvariant(limits, START, steps);
    var s := Run(limits, START, steps);
    hide Run, Runs, Find, Has, Distinct;
    assert Good(ViewOf(s, id));
  }

  lemma StartIsGood(limits: Limits)
    ensures Inv(limits, START)
  {
  }

  function ViewStatus(v: View): Status {
    if v.row.Some? then Durable
    else if v.deferred.Some? || (v.stage.Some? && Holds(v.stage.value)) then Pending
    else Dropped
  }

  lemma StatusOfView(s: State, id: RequestId)
    ensures StatusOf(s, id) == ViewStatus(ViewOf(s, id))
    ensures ViewOf(s, id).unkeyed == (id in s.unkeyed)
  {
    hide Find, Has;
  }

  lemma MoveKeepsStatus(v: View, w: View, step: Step)
    requires Good(v) && OwnMove(v, w, step) && v.unkeyed
    ensures w.unkeyed
    ensures ViewStatus(v).Durable? ==> ViewStatus(w).Durable?
    ensures ViewStatus(v).Dropped? ==> ViewStatus(w).Dropped?
    ensures ViewStatus(v).Pending? && ViewStatus(w).Dropped? ==>
              || (step.Work? && v.stage == Some(Cleanup([ResolveDeferred, DropCapture])))
              || ((step.StartSql? || step.FinishSql?) && v.deferred.None?)
  {
    hide DeadlineKept, LineageKept, CaptureKept, AfterChore;
    if step.Work? {
      ChoreGood(v);
      AfterChoreOwes(v.stage.value.todo, ResolveDeferred);
    }
  }

  /** A durable request stays durable and a dropped one stays dropped: no later
      call can write its row. */
  lemma StatusIsMonotone(limits: Limits, s: State, step: Step, id: RequestId)
    requires Inv(limits, s) && Enabled(s, step) && id in s.unkeyed
    ensures var t := Next(limits, s, step);
            && id in t.unkeyed
            && (StatusOf(s, id).Durable? ==> StatusOf(t, id).Durable?)
            && (StatusOf(s, id).Dropped? ==> StatusOf(t, id).Dropped?)
  {
    StepMoves(limits, s, step, id);
    StatusOfView(s, id);
    StatusOfView(Next(limits, s, step), id);
    hide Next, Enabled, StatusOf, ViewOf, Bounded, InFlight, OwnMove, Good;
    if step.id == id {
      MoveKeepsStatus(ViewOf(s, id), ViewOf(Next(limits, s, step), id), step);
    }
  }

  /** The only ways a pending request is dropped: evicted or purged by another
      accept at saturation, its own finish told that the key was revoked, or its
      own SQL refused after such an eviction. */
  lemma DropCauses(limits: Limits, s: State, step: Step, id: RequestId)
    requires Inv(limits, s) && Enabled(s, step) && id in s.unkeyed
    requires StatusOf(s, id).Pending? && StatusOf(Next(limits, s, step), id).Dropped?
    ensures || (step.AcceptDeferred? && step.id != id && |s.deferred| >= limits.deferred)
            || (step == Work(id) && At(s, id, Cleanup([ResolveDeferred, DropCapture])))
            || ((step.StartSql? || step.FinishSql?) && step.id == id && Find(s.deferred, id).None?)
  {
    StepMoves(limits, s, step, id);
    StatusOfView(s, id);
    StatusOfView(Next(limits, s, step), id);
    ReadStage(s, id);
    hide Next, Enabled, StatusOf, ViewOf, Bounded, InFlight, Find, Has, OwnMove, Good;
    if step.id == id {
      MoveKeepsStatus(ViewOf(s, id), ViewOf(Next(limits, s, step), id), step);
    }
  }

  /** The one way a buffered capture leaves by its own request's hand: into the queue
      once the row is durable, or dropped after a write that left no row. */
  lemma CaptureIsHandedOver(limits: Limits, s: State, step: Step, id: RequestId)
    requires Inv(limits, s) && Enabled(s, step) && step.id == id
    requires Find(s.buffer, id).Some? && Find(Next(limits, s, step).buffer, id).None?
    ensures step.Work?
    ensures var before, after := multiset(s.queue)[id], multiset(Next(limits, s, step).queue)[id];
            if id in s.rows then before == 0 && after == 1 else after == before
  {
    ReadStage(s, id);
    ReadStage(Next(limits, s, step), id);
    ReadQueue(s, id);
    ReadQueue(Next(limits, s, step), id);
    MovesOrShrinks(limits, s, step, id);
    assert Good(ViewOf(s, id));
    hide Next, Enabled, ViewOf, Find, Bounded, OwnMove, Good;
    OwnHandsOver(ViewOf(s, id), ViewOf(Next(limits, s, step), id), step);
  }

  lemma ReadQueue(s: State, id: RequestId)
    ensures ViewOf(s, id).queued == multiset(s.queue)[id]
  {
  }

  lemma OwnHandsOver(v: View, w: View, step: Step)
    requires Good(v) && OwnMove(v, w, step) && v.buffered && !w.buffered
    ensures step.Work? && if v.row.Some? then v.queued == 0 && w.queued == 1 else w.queued == v.queued
  {
    hide DeadlineKept, LineageKept, AfterChore;
  }

  // Without pressure nothing is dropped --------------------------------------

  /** No accept meets a saturated map, and no finish finds its key revoked. */
  predicate Calm(limits: Limits, s: State, step: Step) {
    && (step.AcceptDeferred? ==> |s.deferred| < limits.deferred)
    && (step.FinishSql? ==> !step.outcome.Revoked?)
  }

  predicate RunsCalmly(limits: Limits, s: State, steps: seq<Step>)
    requires Runs(limits, s, steps)
    decreases |steps|
  {
    steps == [] || (Calm(limits, s, steps[0]) && RunsCalmly(limits, Next(limits, s, steps[0]), steps[1..]))
  }

  predicate Kept(v: View) {
    && (v.unkeyed ==> v.row.Some? || v.deferred.Some?)
    && (v.stage == Some(Cleanup([ResolveDeferred, DropCapture])) ==> v.row.Some?)
  }

  lemma CalmMoveKeeps(v: View, w: View, step: Step)
    requires Good(v) && OwnMove(v, w, step) && Kept(v)
    requires step.AcceptDeferred? ==> w.deferred.Some?
    requires step.FinishSql? ==> !step.outcome.Revoked?
    ensures Kept(w)
  {
    hide DeadlineKept, LineageKept, CaptureKept, AfterChore;
    if step.Work? {
      var todo := v.stage.value.todo;
      ChoreGood(v);
      AfterChoreOwes(todo, ResolveDeferred);
    }
  }

  lemma CalmStepKeeps(limits: Limits, s: State, step: Step, id: RequestId)
    requires Inv(limits, s) && Enabled(s, step) && Calm(limits, s, step) && Kept(ViewOf(s, id))
    ensures Kept(ViewOf(Next(limits, s, step), id))
  {
    StepMoves(limits, s, step, id);
    hide Next, Enabled, ViewOf, Bounded, OwnMove, Good;
    if step.id == id {
      CalmMoveKeeps(ViewOf(s, id), ViewOf(Next(limits, s, step), id), step);
    }
  }

  lemma {:induction false} CalmRunKeeps(limits: Limits, s: State, steps: seq<Step>, id: RequestId)
    requires Inv(limits, s) && Runs(limits, s, steps) && RunsCalmly(limits, s, steps) && Kept(ViewOf(s, id))
    ensures Kept(ViewOf(Run(limits, s, steps), id))
    decreases |steps|
  {
    hide Inv, Next, Enabled, Kept, ViewOf, Calm;
    if steps != [] {
      StepKeepsInvariant(limits, s, steps[0]);
      CalmStepKeeps(limits, s, steps[0], id);
      CalmRunKeeps(limits, Next(limits, s, steps[0]), steps[1..], id);
    }
  }

  /** However calls interleave and whatever SQL refuses, an accepted request is
      never lost unless the map saturates or its key is revoked in flight. */
  lemma CalmRunsDropNothing(limits: Limits, steps: seq<Step>, id: RequestId)
    requires Runs(limits, START, steps) && RunsCalmly(limits, START, steps)
    ensures var s := Run(limits, START, steps); id in s.unkeyed ==> !StatusOf(s, id).Dropped?
  {
    StartIsGood(limits);
    CalmRunKeeps(limits, START, steps, id);
    StatusOfView(Run(limits, START, steps), id);
    hide Run, Runs, ViewOf, StatusOf;
  }

  // Lineage across rungs ------------------------------------------------------

  /** An authorize at a full tracker evicts the oldest entry; with no capacity at
      all it evicts its own. */
  predicate Evicts(limits: Limits, s: State, step: Step, id: RequestId) {
    step.Authorize? && if step.id == id then limits.lineage == 0
                       else |s.tracker| >= limits.lineage && s.tracker != [] && s.tracker[0].0 == id
  }

  /** A keyed accept or a finish fails after it had collected a lineage. */
  predicate Spoils(v: View, step: Step) {
    && v.stage.Some? && Popped(v.stage.value) && v.stage.value.lineage.Some?
    && ((step.KeyedSql? && !step.committed) || (step.FinishSql? && !step.outcome.Committed?))
  }

  predicate Loses(limits: Limits, s: State, step: Step, id: RequestId) {
    Evicts(limits, s, step, id) || (step.id == id && Spoils(ViewOf(s, id), step))
  }

  /** Some call of this request can still write its lineage. */
  predicate Obtainable(v: View) {
    v.tracked.Some? || (v.stage.Some? && Popped(v.stage.value) && v.stage.value.lineage.Some?)
  }

  lemma RememberEvicts(d: Dict<RequestId, Lineage>, id: RequestId, lineage: Lineage, capacity: nat, other: RequestId)
    requires Distinct(d) && |d| <= capacity && Find(d, id).None?
    ensures Find(Remember(d, id, lineage, capacity), other)
            == if other == id then (if capacity == 0 then None else Some(lineage))
               else if |d| >= capacity && d != [] && d[0].0 == other then None
               else Find(d, other)
  {
    DeleteAbsent(d, id);
    var grown := d + [(id, lineage)];
    var kept := EvictOldest(grown, capacity);
    RememberIs(d, id, lineage, capacity);
    assert forall i :: 0 <= i < |d| ==> d[i].0 != id;
    assert Distinct(grown) && Distinct(kept);
    hide Remember, Distinct;
    if other == id {
      if capacity > 0 {
        assert kept[|kept| - 1] == (id, lineage);
        FindUnique(kept, id, lineage) by {
          assert (id, lineage) in kept;
        }
      }
    } else {
      FindAfterEviction(d, grown, kept, id, lineage, capacity, other);
    }
  }

  lemma FindAfterEviction(d: Dict<RequestId, Lineage>, grown: Dict<RequestId, Lineage>, kept: Dict<RequestId, Lineage>,
                          id: RequestId, lineage: Lineage, capacity: nat, other: RequestId)
    requires Distinct(d) && Distinct(kept) && grown == d + [(id, lineage)] && kept == EvictOldest(grown, capacity)
    requires |d| <= capacity && other != id
    ensures Find(kept, other) == if |d| >= capacity && d != [] && d[0].0 == other then None else Find(d, other)
  {
    var cut := if |d| >= capacity then 1 else 0;
    assert kept == grown[cut..];
    if Find(kept, other).Some? {
      var l := Find(kept, other).value;
      var i :| 0 <= i < |kept| && kept[i] == (other, l);
      assert d[i + cut] == (other, l);
      assert (other, l) in d;
      FindUnique(d, other, l);
    } else if Find(d, other).Some? {
      forall i | cut <= i < |d| ensures d[i].0 != other {
        assert kept[i - cut] == d[i];
      }
    }
  }

  lemma AuthorizeEvictsExactly(limits: Limits, s: State, step: Step, id: RequestId)
    requires Inv(limits, s) && Enabled(s, step) && step.Authorize?
    ensures var w := ViewOf(Next(limits, s, step), id);
            w.tracked == if Evicts(limits, s, step, id) then None
                         else if step.id == id then Some(step.lineage) else Find(s.tracker, id)
  {
    AuthorizedView(limits, s, step, id);
    ReadStage(s, step.id);
    assert Good(ViewOf(s, step.id));
    RememberEvicts(s.tracker, step.id, step.lineage, limits.lineage, id);
    hide Next, ViewOf, Find, Remember;
  }

  lemma OtherKeepsTracked(limits: Limits, s: State, step: Step, id: RequestId)
    requires Enabled(s, step) && Bounded(limits, s) && !step.Authorize? && step.id != id
    ensures ViewOf(Next(limits, s, step), id).tracked == Find(s.tracker, id)
  {
    StepMoves(limits, s, step, id);
    ReadStage(s, id);
    hide Next, Enabled, ViewOf, Find, Bounded;
  }

  lemma OwnLosesExactly(v: View, w: View, step: Step)
    requires Good(v) && OwnMove(v, w, step) && !step.Authorize? && w.row.None?
    ensures Obtainable(w) <==> Obtainable(v) && !Spoils(v, step)
  {
    hide DeadlineKept, CaptureKept, AfterChore;
    if step.Work? {
      AfterChoreOwes(v.stage.value.todo, PopLineage);
    }
  }

  /** One step takes an unwritten lineage away if and only if it evicts it from
      the tracker, or is the failing write of a call that had collected it. */
  lemma LineageLossCauses(limits: Limits, s: State, step: Step, id: RequestId)
    requires Inv(limits, s) && Enabled(s, step)
    requires var t := Next(limits, s, step); id in t.stage && id !in t.rows
    ensures var v, w := ViewOf(s, id), ViewOf(Next(limits, s, step), id);
            Obtainable(w) <==> (Obtainable(v) || (step.Authorize? && step.id == id)) && !Loses(limits, s, step, id)
  {
    var t := Next(limits, s, step);
    var v, w := ViewOf(s, id), ViewOf(t, id);
    ReadStage(s, id);
    ReadStage(t, id);
    assert Good(v);
    StepMoves(limits, s, step, id);
    hide Next, Enabled, ViewOf, Find, Bounded, OwnMove, Good;
    if step.Authorize? {
      AuthorizeEvictsExactly(limits, s, step, id);
      AuthorizedStage(limits, s, step, id);
    } else if step.id == id {
      OwnLosesExactly(v, w, step);
    } else {
      OtherKeepsTracked(limits, s, step, id);
    }
  }

  lemma AuthorizedStage(limits: Limits, s: State, step: Step, id: RequestId)
    requires Inv(limits, s) && Enabled(s, step) && step.Authorize?
    ensures var v, w := ViewOf(s, id), ViewOf(Next(limits, s, step), id);
            && (w.stage == if id == step.id then Some(Authorized) else v.stage)
            && (id == step.id ==> v.stage.None?)
            && (Evicts(limits, s, step, id) && id != step.id ==> v.tracked.Some?)
            && (v.stage.Some? && Popped(v.stage.value) ==> v.tracked.None?)
  {
    AuthorizedView(limits, s, step, id);
    ReadStage(s, id);
    assert Good(ViewOf(s, id));
    hide Next, ViewOf, Remember;
    if Evicts(limits, s, step, id) && id != step.id {
      assert Has(s.tracker, id);
    }
  }

  // States along a run.

  function StateAt(limits: Limits, s: State, steps: seq<Step>, n: nat): State
    requires Runs(limits, s, steps) && n <= |steps|
    decreases n
  {
    if n == 0 then s else StateAt(limits, Next(limits, s, steps[0]), steps[1..], n - 1)
  }

  lemma {:induction false} StateAtNext(limits: Limits, s: State, steps: seq<Step>, n: nat)
    requires Runs(limits, s, steps) && n < |steps|
    ensures Enabled(StateAt(limits, s, steps, n), steps[n])
    ensures StateAt(limits, s, steps, n + 1) == Next(limits, StateAt(limits, s, steps, n), steps[n])
    decreases n
  {
    hide Next, Enabled;
    if n > 0 {
      StateAtNext(limits, Next(limits, s, steps[0]), steps[1..], n - 1);
    } else {
      assert StateAt(limits, Next(limits, s, steps[0]), steps[1..], 0) == Next(limits, s, steps[0]);
    }
  }

  lemma {:induction false} StateAtEnd(limits: Limits, s: State, steps: seq<Step>)
    requires Runs(limits, s, steps)
    ensures StateAt(limits, s, steps, |steps|) == Run(limits, s, steps)
    decreases |steps|
  {
    hide Next, Enabled;
    if steps != [] {
      StateAtEnd(limits, Next(limits, s, steps[0]), steps[1..]);
    }
  }

  lemma {:induction false} StateAtInv(limits: Limits, s: State, steps: seq<Step>, n: nat)
    requires Runs(limits, s, steps) && n <= |steps| && Inv(limits, s)
    ensures Inv(limits, StateAt(limits, s, steps, n))
    decreases n
  {
    hide Next, Enabled, Inv;
    if n > 0 {
      StepKeepsInvariant(limits, s, steps[0]);
      StateAtInv(limits, Next(limits, s, steps[0]), steps[1..], n - 1);
    }
  }

  /** One of the first `n` steps took the lineage of `id` away. */
  ghost predicate LostBy(limits: Limits, steps: seq<Step>, n: nat, id: RequestId)
    requires Runs(limits, START, steps) && n <= |steps|
  {
    exists j: nat :: j < n && Loses(limits, StateAt(limits, START, steps, j), steps[j], id)
  }

  lemma LostByNext(limits: Limits, steps: seq<Step>, n: nat, id: RequestId)
    requires Runs(limits, START, steps) && n < |steps|
    ensures LostBy(limits, steps, n + 1, id)
            <==> LostBy(limits, steps, n, id) || Loses(limits, StateAt(limits, START, steps, n), steps[n], id)
  {
    hide StateAt, Loses;
  }

  /** A step on the view of `id`: what it and its row were before and after. */
  lemma StepAt(limits: Limits, steps: seq<Step>, n: nat, id: RequestId)
    requires Runs(limits, START, steps) && n < |steps|
    ensures var s, t := StateAt(limits, START, steps, n), StateAt(limits, START, steps, n + 1);
            && Inv(limits, s) && Enabled(s, steps[n]) && t == Next(limits, s, steps[n])
            && Good(ViewOf(s, id))
            && (if steps[n].id == id then OwnMove(ViewOf(s, id), ViewOf(t, id), steps[n]) else Shrinks(ViewOf(s, id), ViewOf(t, id)))
  {
    StartIsGood(limits);
    StateAtInv(limits, START, steps, n);
    StateAtNext(limits, START, steps, n);
    hide StateAt, Next, Enabled, ViewOf, OwnMove, Good, Bounded;
    StepMoves(limits, StateAt(limits, START, steps, n), steps[n], id);
  }

  lemma UnseenIsNotLost(limits: Limits, s: State, step: Step, id: RequestId)
    requires Inv(limits, s) && Enabled(s, step) && Loses(limits, s, step, id)
    ensures id in Next(limits, s, step).stage
  {
    ReadStage(s, id);
    assert Good(ViewOf(s, id));
    hide ViewOf, Bounded, Remember, Find, Delete, AcceptInto;
    if step.id != id {
      AuthorizedStage(limits, s, step, id);
    }
  }

  lemma OwnStage(v: View, w: View, step: Step)
    requires OwnMove(v, w, step)
    ensures w.stage.Some? && (v.stage.None? <==> step.Authorize?)
  {
    hide AfterChore;
  }

  lemma OwnRow(v: View, w: View, step: Step)
    requires OwnMove(v, w, step)
    ensures v.row.Some? ==> w.row == v.row
    ensures v.row.None? && w.row.Some? ==> v.stage.Some? && StageLineage(v.stage.value) == Some(w.row.value.lineage)
  {
    hide AfterChore;
  }

  lemma OwnCollects(v: View, w: View, step: Step)
    requires OwnMove(v, w, step) && StageLineage(w.stage.value).Some?
    ensures Collects(step) && v.stage.Some? && (BeforeRow(v.stage.value) && !Popped(v.stage.value))
    ensures StageLineage(w.stage.value) == Some(v.tracked)
  {
    if step.Work? {
      AfterChoreOwes(v.stage.value.todo, PopLineage);
      hide AfterChore;
    }
  }

  lemma OtherStays(v: View, w: View)
    requires Shrinks(v, w)
    ensures w.stage == v.stage && w.row == v.row
  {
  }

  lemma MovesOrShrinks(limits: Limits, s: State, step: Step, id: RequestId)
    requires Enabled(s, step) && Bounded(limits, s)
    ensures var v, w := ViewOf(s, id), ViewOf(Next(limits, s, step), id);
            if step.id == id then OwnMove(v, w, step) else Shrinks(v, w)
  {
    StepMoves(limits, s, step, id);
    hide Next, Enabled, ViewOf, OwnMove, Shrinks, Bounded;
  }

  lemma StagesStay(limits: Limits, s: State, step: Step, id: RequestId)
    requires Enabled(s, step) && Bounded(limits, s)
    ensures id in Next(limits, s, step).stage <==> id in s.stage || step.id == id
    ensures id !in s.stage && step.id == id ==> step.Authorize?
  {
    ReadStage(s, id);
    ReadStage(Next(limits, s, step), id);
    MovesOrShrinks(limits, s, step, id);
    hide Next, Enabled, ViewOf, OwnMove, Shrinks, Find, Bounded;
    if step.id == id {
      OwnStage(ViewOf(s, id), ViewOf(Next(limits, s, step), id), step);
    } else {
      OtherStays(ViewOf(s, id), ViewOf(Next(limits, s, step), id));
    }
  }

  /** Step by step: loss and obtainability of an unwritten lineage exclude each
      other, and one of them holds. */
  ghost predicate EitherWay(v: View, lost: bool) {
    && (v.stage.None? ==> !lost)
    && (v.stage.Some? && v.row.None? ==> (Obtainable(v) <==> !lost))
  }

  lemma EitherWayNext(limits: Limits, s: State, step: Step, id: RequestId, lost: bool)
    requires Inv(limits, s) && Enabled(s, step) && EitherWay(ViewOf(s, id), lost)
    ensures EitherWay(ViewOf(Next(limits, s, step), id), lost || Loses(limits, s, step, id))
  {
    var t := Next(limits, s, step);
    ReadStage(s, id);
    ReadStage(t, id);
    StagesStay(limits, s, step, id);
    RowsStay(limits, s, step, id);
    UnseenHasNothing(limits, s, id);
    hide Inv, ViewOf, Next, Enabled, Loses, Obtainable, Find;
    if Loses(limits, s, step, id) {
      UnseenIsNotLost(limits, s, step, id);
    }
    if id in t.stage && id !in t.rows {
      LineageLossCauses(limits, s, step, id);
    }
  }

  lemma {:induction false} ObtainableExactly(limits: Limits, steps: seq<Step>, n: nat, id: RequestId)
    requires Runs(limits, START, steps) && n <= |steps|
    ensures EitherWay(ViewOf(StateAt(limits, START, steps, n), id), LostBy(limits, steps, n, id))
  {
    hide *;
    if n == 0 {
      NothingLostYet(limits, steps, id);
    } else {
      ObtainableExactly(limits, steps, n - 1, id);
      ObtainableNext(limits, steps, n - 1, id);
    }
  }

  lemma NothingLostYet(limits: Limits, steps: seq<Step>, id: RequestId)
    requires Runs(limits, START, steps)
    ensures EitherWay(ViewOf(StateAt(limits, START, steps, 0), id), LostBy(limits, steps, 0, id))
  {
  }

  lemma ObtainableNext(limits: Limits, steps: seq<Step>, n: nat, id: RequestId)
    requires Runs(limits, START, steps) && n < |steps|
    requires EitherWay(ViewOf(StateAt(limits, START, steps, n), id), LostBy(limits, steps, n, id))
    ensures EitherWay(ViewOf(StateAt(limits, START, steps, n + 1), id), LostBy(limits, steps, n + 1, id))
  {
    hide *;
    LostByNext(limits, steps, n, id);
    StepAt(limits, steps, n, id);
    EitherWayNext(limits, StateAt(limits, START, steps, n), steps[n], id, LostBy(limits, steps, n, id));
  }

  lemma UnseenHasNothing(limits: Limits, s: State, id: RequestId)
    requires Inv(limits, s)
    ensures id !in s.stage ==> !Obtainable(ViewOf(s, id))
  {
    assert Good(ViewOf(s, id));
    hide Find, Bounded;
  }

  lemma RowsStay(limits: Limits, s: State, step: Step, id: RequestId)
    requires Inv(limits, s) && Enabled(s, step)
    ensures var t := Next(limits, s, step); id in s.rows ==> id in t.rows && t.rows[id] == s.rows[id]
  {
    ReadStage(s, id);
    ReadStage(Next(limits, s, step), id);
    MovesOrShrinks(limits, s, step, id);
    hide Next, Enabled, ViewOf, OwnMove, Shrinks, Find, Bounded, Good;
    if step.id == id {
      OwnRow(ViewOf(s, id), ViewOf(Next(limits, s, step), id), step);
    } else {
      OtherStays(ViewOf(s, id), ViewOf(Next(limits, s, step), id));
    }
  }

  predicate Collects(step: Step) {
    step.PopForAccept? || step.Peek? || step.PopForFinish?
  }

  lemma NotAtStart(limits: Limits, steps: seq<Step>, n: nat, id: RequestId)
    requires Runs(limits, START, steps) && n <= |steps|
    ensures var s := StateAt(limits, START, steps, n); id in s.stage || id in s.rows ==> n > 0
  {
  }

  /** The call of `id` that is about to write collected its lineage at step `k`,
      and it is what the tracker held at that moment. */
  lemma {:induction false} CollectedAt(limits: Limits, steps: seq<Step>, n: nat, id: RequestId) returns (k: nat)
    requires Runs(limits, START, steps) && n <= |steps|
    requires var s := StateAt(limits, START, steps, n); id in s.stage && StageLineage(s.stage[id]).Some?
    ensures k < n && steps[k].id == id && Collects(steps[k]) && forall j :: k < j < n ==> steps[j].id != id
    ensures var s, was := StateAt(limits, START, steps, n), StateAt(limits, START, steps, k);
            && id in was.stage && id !in was.rows && !Popped(was.stage[id])
            && StageLineage(s.stage[id]) == Some(Find(was.tracker, id))
  {
    hide *;
    NotAtStart(limits, steps, n, id);
    CollectsNext(limits, steps, n - 1, id);
    if steps[n - 1].id == id {
      k := n - 1;
    } else {
      k := CollectedAt(limits, steps, n - 1, id);
    }
  }

  lemma CollectsOwn(s: State, t: State, step: Step, id: RequestId)
    requires var v, w := ViewOf(s, id), ViewOf(t, id);
             Good(v) && if step.id == id then OwnMove(v, w, step) else Shrinks(v, w)
    requires id in t.stage && StageLineage(t.stage[id]).Some?
    ensures if step.id == id
            then Collects(step) && id in s.stage && id !in s.rows && !Popped(s.stage[id])
                 && StageLineage(t.stage[id]) == Some(Find(s.tracker, id))
            else id in s.stage && s.stage[id] == t.stage[id]
  {
    ReadStage(s, id);
    ReadStage(t, id);
    hide ViewOf, Find, OwnMove, Shrinks, Placed, DeadlineKept, CaptureKept, LineageKept;
    if step.id == id {
      OwnCollects(ViewOf(s, id), ViewOf(t, id), step);
    } else {
      OtherStays(ViewOf(s, id), ViewOf(t, id));
    }
    hide StageLineage, Collects, BeforeRow, Popped;
  }

  lemma CollectsNext(limits: Limits, steps: seq<Step>, n: nat, id: RequestId)
    requires Runs(limits, START, steps) && n < |steps|
    requires var t := StateAt(limits, START, steps, n + 1); id in t.stage && StageLineage(t.stage[id]).Some?
    ensures var s, t := StateAt(limits, START, steps, n), StateAt(limits, START, steps, n + 1);
            if steps[n].id == id
            then Collects(steps[n]) && id in s.stage && id !in s.rows && !Popped(s.stage[id])
                 && StageLineage(t.stage[id]) == Some(Find(s.tracker, id))
            else id in s.stage && s.stage[id] == t.stage[id]
  {
    hide *;
    StepAt(limits, steps, n, id);
    CollectsOwn(StateAt(limits, START, steps, n), StateAt(limits, START, steps, n + 1), steps[n], id);
  }

  lemma WritesNext(limits: Limits, steps: seq<Step>, n: nat, id: RequestId)
    requires Runs(limits, START, steps) && n < |steps| && id in StateAt(limits, START, steps, n + 1).rows
    ensures var s, t := StateAt(limits, START, steps, n), StateAt(limits, START, steps, n + 1);
            if id in s.rows then t.rows[id] == s.rows[id]
            else steps[n].id == id && id in s.stage && StageLineage(s.stage[id]) == Some(t.rows[id].lineage)
  {
    hide *;
    StepAt(limits, steps, n, id);
    WritesOwn(StateAt(limits, START, steps, n), StateAt(limits, START, steps, n + 1), steps[n], id);
  }

  /** A row was written by one step of its own request, out of what that call held. */
  lemma {:induction false} WrittenAt(limits: Limits, steps: seq<Step>, n: nat, id: RequestId) returns (w: nat)
    requires Runs(limits, START, steps) && n <= |steps| && id in StateAt(limits, START, steps, n).rows
    ensures w < n && steps[w].id == id
    ensures var s, was := StateAt(limits, START, steps, n), StateAt(limits, START, steps, w);
            && id !in was.rows && id in StateAt(limits, START, steps, w + 1).rows
            && id in was.stage && StageLineage(was.stage[id]) == Some(s.rows[id].lineage)
  {
    hide *;
    NotAtStart(limits, steps, n, id);
    WritesNext(limits, steps, n - 1, id);
    if id in StateAt(limits, START, steps, n - 1).rows {
      w := WrittenAt(limits, steps, n - 1, id);
    } else {
      w := n - 1;
    }
  }

  lemma WritesOwn(s: State, t: State, step: Step, id: RequestId)
    requires var v, w := ViewOf(s, id), ViewOf(t, id); if step.id == id then OwnMove(v, w, step) else Shrinks(v, w)
    requires id in t.rows
    ensures if id in s.rows then t.rows[id] == s.rows[id]
            else step.id == id && id in s.stage && StageLineage(s.stage[id]) == Some(t.rows[id].lineage)
  {
    ReadStage(s, id);
    ReadStage(t, id);
    hide ViewOf, Find, OwnMove, Shrinks, StageLineage;
    if step.id == id {
      OwnRow(ViewOf(s, id), ViewOf(t, id), step);
    } else {
      OtherStays(ViewOf(s, id), ViewOf(t, id));
    }
  }

  /** Over every run: the call that wrote a row collected the lineage at its own
      step `k`, its next step `w` wrote it, and the row is without a lineage if and
      only if that lineage had been lost before it was collected. */
  lemma RowLineageExactly(limits: Limits, steps: seq<Step>, id: RequestId) returns (k: nat, w: nat)
    requires Runs(limits, START, steps) && id in Run(limits, START, steps).rows
    ensures k < w < |steps| && steps[k].id == steps[w].id == id && Collects(steps[k])
    ensures forall j :: k < j < w ==> steps[j].id != id
    ensures id !in StateAt(limits, START, steps, w).rows && id in StateAt(limits, START, steps, w + 1).rows
    ensures var s := Run(limits, START, steps);
            && id in s.derived
            && s.rows[id].lineage == Find(StateAt(limits, START, steps, k).tracker, id)
            && s.rows[id].lineage == if LostBy(limits, steps, k, id) then None else Some(s.derived[id])
  {
    StateAtEnd(limits, START, steps);
    RunsAreSafe(limits, steps, id);
    w := WrittenAt(limits, steps, |steps|, id);
    k := CollectedAt(limits, steps, w, id);
    ObtainableExactly(limits, steps, k, id);
    ReadStage(StateAt(limits, START, steps, k), id);
    hide Run, Runs, StateAt, LostBy, ViewOf, Find;
  }

  /** Over every run: a request that waits for its next call without a row has no
      lineage left for it if and only if it was lost on the way. */
  lemma IdleLineageExactly(limits: Limits, steps: seq<Step>, id: RequestId)
    requires Runs(limits, START, steps)
    requires var s := Run(limits, START, steps); At(s, id, Idle) && id !in s.rows
    ensures var s := Run(limits, START, steps);
            && id in s.derived
            && Find(s.tracker, id) == if LostBy(limits, steps, |steps|, id) then None else Some(s.derived[id])
  {
    var s := Run(limits, START, steps);
    StateAtEnd(limits, START, steps);
    RunsAreSafe(limits, steps, id);
    ObtainableExactly(limits, steps, |steps|, id);
    StartIsGood(limits);
    RunKeepsInvariant(limits, START, steps);
    assert Good(ViewOf(s, id));
    ReadStage(s, id);
    hide Run, Runs, StateAt, LostBy, Find, Bounded;
  }

  // The deadline, in arithmetic ------------------------------------------------

  /** Wall time plus what remains of the monotonic budget, nothing once it is spent. */
  predicate Budgeted(deadline: Time, deadlineMonotonic: Time, monotonic: Time, wall: Time) {
    if deadlineMonotonic <= monotonic then deadline == wall
    else deadline - wall == deadlineMonotonic - monotonic
  }

  ghost predicate AcceptedWith(step: Step, id: RequestId, deadline: Time) {
    && (step.AcceptDeferred? || step.AcceptKeyed?) && step.id == id
    && Budgeted(deadline, step.deadlineMonotonic, step.monotonic, step.wall)
  }

  lemma OwnFreezes(v: View, w: View, step: Step)
    requires OwnMove(v, w, step) && w.frozen != v.frozen
    ensures (step.AcceptDeferred? || step.AcceptKeyed?) && w.frozen.Some?
    ensures Budgeted(w.frozen.value, step.deadlineMonotonic, step.monotonic, step.wall)
  {
    hide AfterChore;
  }

  lemma FreezesNext(limits: Limits, steps: seq<Step>, n: nat, id: RequestId)
    requires Runs(limits, START, steps) && n < |steps|
    ensures var s, t := StateAt(limits, START, steps, n), StateAt(limits, START, steps, n + 1);
            id in t.frozen ==> (id in s.frozen && s.frozen[id] == t.frozen[id]) || AcceptedWith(steps[n], id, t.frozen[id])
  {
    StepAt(limits, steps, n, id);
    var s, t := StateAt(limits, START, steps, n), StateAt(limits, START, steps, n + 1);
    ReadFrozen(s, id);
    ReadFrozen(t, id);
    hide StateAt, Next, Enabled, ViewOf, OwnMove, Good, Bounded, Inv;
    if steps[n].id == id && ViewOf(t, id).frozen != ViewOf(s, id).frozen {
      OwnFreezes(ViewOf(s, id), ViewOf(t, id), steps[n]);
    }
  }

  lemma ReadFrozen(s: State, id: RequestId)
    ensures ViewOf(s, id).frozen == Lookup(s.frozen, id)
  {
  }

  lemma {:induction false} FrozenAt(limits: Limits, steps: seq<Step>, n: nat, id: RequestId) returns (j: nat)
    requires Runs(limits, START, steps) && n <= |steps| && id in StateAt(limits, START, steps, n).frozen
    ensures j < n && AcceptedWith(steps[j], id, StateAt(limits, START, steps, n).frozen[id])
  {
    hide *;
    NotFrozenAtStart(limits, steps, n, id);
    FreezesNext(limits, steps, n - 1, id);
    if AcceptedWith(steps[n - 1], id, StateAt(limits, START, steps, n).frozen[id]) {
      j := n - 1;
    } else {
      j := FrozenAt(limits, steps, n - 1, id);
    }
  }

  lemma NotFrozenAtStart(limits: Limits, steps: seq<Step>, n: nat, id: RequestId)
    requires Runs(limits, START, steps) && n <= |steps|
    ensures id in StateAt(limits, START, steps, n).frozen ==> n > 0
  {
  }

  /** Over every run a row's deadline is what one of its request's own accepts had
      left of its budget, on the wall clock of that moment. */
  lemma RowDeadlineExactly(limits: Limits, steps: seq<Step>, id: RequestId) returns (j: nat)
    requires Runs(limits, START, steps) && id in Run(limits, START, steps).rows
    ensures j < |steps| && AcceptedWith(steps[j], id, Run(limits, START, steps).rows[id].deadline)
  {
    RunsAreSafe(limits, steps, id);
    StateAtEnd(limits, START, steps);
    hide Run, Runs, StateAt, AcceptedWith;
    j := FrozenAt(limits, steps, |steps|, id);
  }

  lemma OnlyAcceptsFreeze(limits: Limits, s: State, step: Step)
    requires Enabled(s, step) && !step.AcceptDeferred? && !step.AcceptKeyed?
    ensures Next(limits, s, step).frozen == s.frozen
  {
    if step.Work? {
      ChoresFreezeNothing(s, step.id, s.stage[step.id].todo[0]);
      hide DoChore, AfterChore;
    } else if step.Authorize? {
      hide Remember, Find, Delete, Has;
    } else {
      hide Find, Delete, Remember, AcceptInto, Has, DoChore;
    }
  }

  lemma ChoresFreezeNothing(s: State, id: RequestId, chore: Chore)
    ensures DoChore(s, id, chore).frozen == s.frozen
  {
    hide Find, Delete, Has;
  }

  lemma {:induction false} LaterKeepFrozen(limits: Limits, s: State, steps: seq<Step>)
    requires Runs(limits, s, steps) && forall st :: st in steps ==> !st.AcceptDeferred? && !st.AcceptKeyed?
    ensures Run(limits, s, steps).frozen == s.frozen
    decreases |steps|
  {
    hide Next, Enabled;
    if steps != [] {
      assert steps[0] in steps;
      OnlyAcceptsFreeze(limits, s, steps[0]);
      LaterKeepFrozen(limits, Next(limits, s, steps[0]), steps[1..]);
    }
  }

  /** An accept and what its call does next leave the deadline the accept computed. */
  lemma AcceptFreezes(limits: Limits, s: State, steps: seq<Step>)
    requires Runs(limits, s, steps) && steps != [] && (steps[0].AcceptDeferred? || steps[0].AcceptKeyed?)
    requires forall st :: st in steps[1..] ==> !st.AcceptDeferred? && !st.AcceptKeyed?
    ensures var frozen, first := Run(limits, s, steps).frozen, steps[0];
            first.id in frozen && Budgeted(frozen[first.id], first.deadlineMonotonic, first.monotonic, first.wall)
  {
    hide Find, Delete, Remember, AcceptInto, Has;
    LaterKeepFrozen(limits, Next(limits, s, steps[0]), steps[1..]);
  }

  /** Whatever holds or carries a deadline has the frozen one. */
  lemma OneDeadline(limits: Limits, s: State, id: RequestId)
    requires Inv(limits, s) && id in s.frozen
    ensures Has(s.deferred, id) ==> Find(s.deferred, id) == Some(s.frozen[id])
    ensures id in s.rows ==> s.rows[id].deadline == s.frozen[id]
  {
    assert Good(ViewOf(s, id));
    hide Find, Has, Bounded;
  }

  // An insert, told by positions -------------------------------------------------

  /** `live` is what `d` keeps, in order: everything below the bound, and at the bound
      the entries whose deadline is still to come. */
  ghost predicate IsPurged(d: Dict<RequestId, Time>, now: Time, bound: nat, live: Dict<RequestId, Time>, places: seq<nat>) {
    && |places| == |live|
    && (forall i :: 0 <= i < |live| ==> places[i] < |d| && live[i] == d[places[i]])
    && (forall i, j :: 0 <= i < j < |places| ==> places[i] < places[j])
    && (forall p: nat :: p < |d| && (|d| < bound || d[p].1 > now) <==> p in places)
  }

  /** Purge, insert, and keep the youngest the bound allows. */
  ghost predicate IsInserted(d: Dict<RequestId, Time>, id: RequestId, deadline: Time, now: Time, bound: nat, after: Dict<RequestId, Time>) {
    exists live, places, stored ::
      IsPurged(d, now, bound, live, places) && IsStored(live, id, deadline, stored) && IsYoungest(stored, bound, after)
  }

  /** `places` are the positions of the entries still to come, in order. */
  ghost predicate IsLive(d: Dict<RequestId, Time>, now: Time, live: Dict<RequestId, Time>, places: seq<nat>) {
    && |places| == |live|
    && (forall i :: 0 <= i < |live| ==> places[i] < |d| && live[i] == d[places[i]])
    && (forall i, j :: 0 <= i < j < |places| ==> places[i] < places[j])
    && (forall p: nat :: p < |d| && d[p].1 > now <==> p in places)
  }

  lemma {:induction false} UnexpiredPlaces(d: Dict<RequestId, Time>, now: Time) returns (places: seq<nat>)
    ensures IsLive(d, now, Unexpired(d, now), places)
  {
    if d == [] {
      places := [];
    } else {
      var rest := UnexpiredPlaces(d[1..], now);
      var later := Later(rest);
      hide IsLive;
      if d[0].1 > now {
        LiveFirst(d, now, Unexpired(d[1..], now), rest);
        places := [0] + later;
      } else {
        NotLiveFirst(d, now, Unexpired(d[1..], now), rest);
        places := later;
      }
    }
  }

  function Later(places: seq<nat>): (later: seq<nat>)
    ensures |later| == |places| && forall i :: 0 <= i < |places| ==> later[i] == places[i] + 1
  {
    seq(|places|, i requires 0 <= i < |places| => places[i] + 1)
  }

  lemma LaterHas(places: seq<nat>, p: nat)
    ensures p in Later(places) <==> p > 0 && (p - 1) in places
  {
    if p > 0 && (p - 1) in places {
      var i :| 0 <= i < |places| && places[i] == p - 1;
      assert Later(places)[i] == p;
    }
  }

  lemma LivePlace(d: Dict<RequestId, Time>, now: Time, p: nat)
    requires d != []
    ensures p > 0 ==> (p < |d| && d[p].1 > now <==> p - 1 < |d[1..]| && d[1..][p - 1].1 > now)
  {
  }

  lemma NotLiveFirst(d: Dict<RequestId, Time>, now: Time, live: Dict<RequestId, Time>, rest: seq<nat>)
    requires d != [] && d[0].1 <= now && IsLive(d[1..], now, live, rest)
    ensures IsLive(d, now, live, Later(rest))
  {
    hide Later;
    forall p: nat ensures p < |d| && d[p].1 > now <==> p in Later(rest) {
      LaterHas(rest, p);
      LivePlace(d, now, p);
    }
  }

  lemma LiveFirst(d: Dict<RequestId, Time>, now: Time, live: Dict<RequestId, Time>, rest: seq<nat>)
    requires d != [] && d[0].1 > now && IsLive(d[1..], now, live, rest)
    ensures IsLive(d, now, [d[0]] + live, [0] + Later(rest))
  {
    hide *;
    var places, longer := [0] + Later(rest), [d[0]] + live;
    SameLength(d, now, live, rest);
    forall i | 0 <= i < |longer| ensures places[i] < |d| && longer[i] == d[places[i]] {
      FirstValue(d, now, live, rest, i);
    }
    forall i, j | 0 <= i < j < |places| ensures places[i] < places[j] {
      FirstOrder(d, now, live, rest, i, j);
    }
    forall p: nat ensures p < |d| && d[p].1 > now <==> p in places {
      FirstPlace(d, now, live, rest, p);
    }
    IsLiveBecause(d, now, longer, places);
  }

  lemma IsLiveBecause(d: Dict<RequestId, Time>, now: Time, live: Dict<RequestId, Time>, places: seq<nat>)
    requires |places| == |live|
    requires forall i :: 0 <= i < |live| ==> places[i] < |d| && live[i] == d[places[i]]
    requires forall i, j :: 0 <= i < j < |places| ==> places[i] < places[j]
    requires forall p: nat :: p < |d| && d[p].1 > now <==> p in places
    ensures IsLive(d, now, live, places)
  {
  }

  lemma SameLength(d: Dict<RequestId, Time>, now: Time, live: Dict<RequestId, Time>, rest: seq<nat>)
    requires d != [] && IsLive(d[1..], now, live, rest)
    ensures |rest| == |live| == |Later(rest)|
  {
  }

  lemma FirstValue(d: Dict<RequestId, Time>, now: Time, live: Dict<RequestId, Time>, rest: seq<nat>, i: nat)
    requires d != [] && IsLive(d[1..], now, live, rest) && i < |[d[0]] + live|
    ensures var places := [0] + Later(rest);
            i < |places| && places[i] < |d| && ([d[0]] + live)[i] == d[places[i]]
  {
    if i > 0 {
      assert live[i - 1] == d[1..][rest[i - 1]] && Later(rest)[i - 1] == rest[i - 1] + 1;
    }
  }

  lemma FirstOrder(d: Dict<RequestId, Time>, now: Time, live: Dict<RequestId, Time>, rest: seq<nat>, i: nat, j: nat)
    requires d != [] && IsLive(d[1..], now, live, rest) && i < j < |[0] + Later(rest)|
    ensures var places := [0] + Later(rest); places[i] < places[j]
  {
    assert Later(rest)[j - 1] == rest[j - 1] + 1;
    if i > 0 {
      assert Later(rest)[i - 1] == rest[i - 1] + 1 && rest[i - 1] < rest[j - 1];
    }
  }

  lemma FirstPlace(d: Dict<RequestId, Time>, now: Time, live: Dict<RequestId, Time>, rest: seq<nat>, p: nat)
    requires d != [] && d[0].1 > now && IsLive(d[1..], now, live, rest)
    ensures p < |d| && d[p].1 > now <==> p in [0] + Later(rest)
  {
    LaterHas(rest, p);
    LivePlace(d, now, p);
    hide Later;
    assert p in [0] + Later(rest) <==> p == 0 || p in Later(rest);
  }

  lemma InsertExactly(d: Dict<RequestId, Time>, id: RequestId, deadline: Time, now: Time, bound: nat)
    ensures IsInserted(d, id, deadline, now, bound, AcceptInto(d, id, deadline, now, bound))
  {
    var live := if |d| >= bound then Unexpired(d, now) else d;
    var places := PurgePlaces(d, now, bound);
    StoreIs(live, id, deadline);
    EvictIs(Store(live, id, deadline), bound);
    hide IsPurged, IsStored, IsYoungest, Unexpired;
  }

  lemma PurgePlaces(d: Dict<RequestId, Time>, now: Time, bound: nat) returns (places: seq<nat>)
    ensures IsPurged(d, now, bound, if |d| >= bound then Unexpired(d, now) else d, places)
  {
    if |d| >= bound {
      places := UnexpiredPlaces(d, now);
    } else {
      places := seq(|d|, i requires 0 <= i < |d| => i);
      forall p: nat ensures p < |d| <==> p in places {
        assert p < |d| ==> places[p] == p;
      }
    }
  }

  /** Remembering makes an entry the youngest, and the oldest beyond the capacity go. */
  lemma RememberExactly<V>(d: Dict<RequestId, V>, id: RequestId, value: V, capacity: nat)
    ensures exists rest :: IsWithout(d, id, rest) && IsYoungest(rest + [(id, value)], capacity, Remember(d, id, value, capacity))
  {
    DeleteIs(d, id);
    RememberIs(d, id, value, capacity);
    EvictIs(Delete(d, id) + [(id, value)], capacity);
    hide Remember, IsWithout, IsYoungest;
  }

  // A run that loses a lineage: a finish fails after it collected it, and the
  // next finish writes the row without one.

  const DEFAULT_LIMITS := Limits(4096, 50000, 5000)

  function FailedFinish(lineage: Lineage): seq<Step> {
    [Authorize(0, lineage, None), AcceptDeferred(0, 60, 0, 0),
     BeginFinish(0), PopForFinish(0), FinishSql(0, Failed), Work(0),
     BeginFinish(0), PopForFinish(0), FinishSql(0, Committed)]
  }

  function Accepted(lineage: Lineage, tracker: Dict<RequestId, Lineage>, stage: Stage): State {
    State([(0, 60)], tracker, [], [], map[], map[], map[0 := stage], map[0 := 60], map[0 := lineage], {0})
  }

  lemma RunsNext(limits: Limits, s: State, step: Step, others: seq<Step>, t: State)
    requires Enabled(s, step) && Next(limits, s, step) == t && Runs(limits, t, others)
    ensures Runs(limits, s, [step] + others) && Run(limits, s, [step] + others) == Run(limits, t, others)
  {
    assert ([step] + others)[1..] == others;
  }

  lemma FailedFinishLosesLineage(lineage: Lineage)
    ensures Runs(DEFAULT_LIMITS, START, FailedFinish(lineage))
    ensures var s := Run(DEFAULT_LIMITS, START, FailedFinish(lineage)); 0 in s.rows && s.rows[0] == Row(60, None)
  {
    hide Run, Runs, Next, Enabled;
    FinishAgain(DEFAULT_LIMITS, lineage);
    var again := [BeginFinish(0)] + ([PopForFinish(0)] + ([FinishSql(0, Committed)] + []));
    FinishInVain(DEFAULT_LIMITS, lineage, again);
    var first := [BeginFinish(0)] + ([PopForFinish(0)] + ([FinishSql(0, Failed)] + ([Work(0)] + again)));
    AcceptRun(DEFAULT_LIMITS, lineage, first);
    assert FailedFinish(lineage) == [Authorize(0, lineage, None)] + ([AcceptDeferred(0, 60, 0, 0)] + first);
  }

  lemma FinishAgain(limits: Limits, lineage: Lineage)
    ensures var again := [BeginFinish(0)] + ([PopForFinish(0)] + ([FinishSql(0, Committed)] + []));
            && Runs(limits, Accepted(lineage, [], Idle), again)
            && Run(limits, Accepted(lineage, [], Idle), again).rows == map[0 := Row(60, None)]
  {
    var written := Accepted(lineage, [], Cleanup([ResolveDeferred, EnqueueCapture])).(rows := map[0 := Row(60, None)]);
    NothingLeft(limits, written);
    hide Run, Runs;
    FinishRun(limits, lineage, [], None, Committed, written, []);
  }

  lemma FinishInVain(limits: Limits, lineage: Lineage, again: seq<Step>)
    requires Runs(limits, Accepted(lineage, [], Idle), again)
    ensures var first := [BeginFinish(0)] + ([PopForFinish(0)] + ([FinishSql(0, Failed)] + ([Work(0)] + again)));
            && Runs(limits, Accepted(lineage, [(0, lineage)], Idle), first)
            && Run(limits, Accepted(lineage, [(0, lineage)], Idle), first) == Run(limits, Accepted(lineage, [], Idle), again)
  {
    hide Run, Runs;
    DropRun(limits, lineage, again);
    FinishRun(limits, lineage, [(0, lineage)], Some(lineage), Failed, Accepted(lineage, [], Cleanup([DropCapture])),
              [Work(0)] + again);
  }

  lemma NothingLeft(limits: Limits, s: State)
    ensures Runs(limits, s, []) && Run(limits, s, []) == s
  {
  }

  lemma AcceptRun(limits: Limits, lineage: Lineage, others: seq<Step>)
    requires limits == DEFAULT_LIMITS && Runs(limits, Accepted(lineage, [(0, lineage)], Idle), others)
    ensures var steps := [Authorize(0, lineage, None)] + ([AcceptDeferred(0, 60, 0, 0)] + others);
            && Runs(limits, START, steps)
            && Run(limits, START, steps) == Run(limits, Accepted(lineage, [(0, lineage)], Idle), others)
  {
    var entered := START.(tracker := [(0, lineage)], stage := map[0 := Authorized], derived := map[0 := lineage]);
    hide Run, Runs;
    RunsNext(limits, entered, AcceptDeferred(0, 60, 0, 0), others, Accepted(lineage, [(0, lineage)], Idle));
    RunsNext(limits, START, Authorize(0, lineage, None), [AcceptDeferred(0, 60, 0, 0)] + others, entered);
  }

  lemma DropRun(limits: Limits, lineage: Lineage, others: seq<Step>)
    requires Runs(limits, Accepted(lineage, [], Idle), others)
    ensures var dropping := Accepted(lineage, [], Cleanup([DropCapture]));
            && Runs(limits, dropping, [Work(0)] + others)
            && Run(limits, dropping, [Work(0)] + others) == Run(limits, Accepted(lineage, [], Idle), others)
  {
    hide Run, Runs;
    RunsNext(limits, Accepted(lineage, [], Cleanup([DropCapture])), Work(0), others, Accepted(lineage, [], Idle));
  }

  lemma FinishRun(limits: Limits, lineage: Lineage, tracker: Dict<RequestId, Lineage>, held: Option<Lineage>,
                  outcome: FinishOutcome, after: State, others: seq<Step>)
    requires tracker == if held.Some? then [(0, held.value)] else []
    requires Next(limits, Accepted(lineage, [], FinishPopped(60, held)), FinishSql(0, outcome)) == after
    requires Runs(limits, after, others)
    ensures var steps := [BeginFinish(0)] + ([PopForFinish(0)] + ([FinishSql(0, outcome)] + others));
            && Runs(limits, Accepted(lineage, tracker, Idle), steps)
            && Run(limits, Accepted(lineage, tracker, Idle), steps) == Run(limits, after, others)
  {
    var popped := Accepted(lineage, [], FinishPopped(60, held));
    hide Run, Runs;
    RunsNext(limits, popped, FinishSql(0, outcome), others, after);
    RunsNext(limits, Accepted(lineage, tracker, Finishing(Some(60))), PopForFinish(0), [FinishSql(0, outcome)] + others, popped);
    RunsNext(limits, Accepted(lineage, tracker, Idle), BeginFinish(0), [PopForFinish(0)] + ([FinishSql(0, outcome)] + others),
             Accepted(lineage, tracker, Finishing(Some(60))));
  }

  // Refused rungs --------------------------------------------------------------

  /** The request's own steps are reservations; others neither saturate the map of
      deferred accepts nor evict this request's lineage. */
  predicate OnlyRungs(limits: Limits, s: State, step: Step, id: RequestId) {
    if step.id == id then step.BeginStart? || step.Peek? || step.StartSql? || step.Work?
    else !(step.AcceptDeferred? && |s.deferred| >= limits.deferred) && !Evicts(limits, s, step, id)
  }

  predicate RunsOnlyRungs(limits: Limits, s: State, steps: seq<Step>, id: RequestId)
    requires Runs(limits, s, steps)
    decreases |steps|
  {
    steps == [] || (OnlyRungs(limits, s, steps[0], id) && RunsOnlyRungs(limits, Next(limits, s, steps[0]), steps[1..], id))
  }

  /** Written with this deadline and lineage, or still holding both for a rung. */
  predicate Carried(v: View, deadline: Time, lineage: Lineage) {
    && v.stage.Some?
    && if v.row.Some? then v.row.value == Row(deadline, Some(lineage))
       else v.deferred == Some(deadline) && v.tracked == Some(lineage)
            && v.stage.value in {Idle, Reserving(Some(deadline)), Peeked(deadline, Some(lineage))}
  }

  lemma OwnRungCarries(v: View, w: View, step: Step, deadline: Time, lineage: Lineage)
    requires OwnMove(v, w, step) && Carried(v, deadline, lineage)
    requires step.BeginStart? || step.Peek? || step.StartSql? || step.Work?
    ensures Carried(w, deadline, lineage)
  {
  }

  lemma RungCarries(limits: Limits, s: State, step: Step, id: RequestId, deadline: Time, lineage: Lineage)
    requires Inv(limits, s) && Enabled(s, step) && OnlyRungs(limits, s, step, id)
    requires Carried(ViewOf(s, id), deadline, lineage)
    ensures Carried(ViewOf(Next(limits, s, step), id), deadline, lineage)
  {
    StepMoves(limits, s, step, id);
    ReadStage(s, id);
    hide Next, Enabled, ViewOf, OwnMove, Find, Has;
    var v, w := ViewOf(s, id), ViewOf(Next(limits, s, step), id);
    if step.id == id {
      OwnRungCarries(v, w, step, deadline, lineage);
    } else if step.Authorize? {
      AuthorizeEvictsExactly(limits, s, step, id);
    } else {
      OtherKeepsTracked(limits, s, step, id);
    }
  }

  /** However many rungs are refused, and whatever other requests do meanwhile,
      the accept stays held with its deadline and its lineage, and the fold that
      commits writes exactly these. */
  lemma {:induction false} RefusedRungsKeepAccept(limits: Limits, s: State, steps: seq<Step>, id: RequestId, deadline: Time, lineage: Lineage)
    requires Inv(limits, s) && Runs(limits, s, steps) && RunsOnlyRungs(limits, s, steps, id)
    requires Carried(ViewOf(s, id), deadline, lineage)
    ensures Carried(ViewOf(Run(limits, s, steps), id), deadline, lineage)
    decreases |steps|
  {
    hide Inv, Next, Enabled, Carried, ViewOf, OnlyRungs;
    if steps != [] {
      StepKeepsInvariant(limits, s, steps[0]);
      RungCarries(limits, s, steps[0], id, deadline, lineage);
      RefusedRungsKeepAccept(limits, Next(limits, s, steps[0]), steps[1..], id, deadline, lineage);
    }
  }

  lemma {:induction false} RunSnoc(limits: Limits, s: State, steps: seq<Step>, last: Step)
    requires Runs(limits, s, steps) && Enabled(Run(limits, s, steps), last)
    ensures Runs(limits, s, steps + [last])
    ensures Run(limits, s, steps + [last]) == Next(limits, Run(limits, s, steps), last)
    decreases |steps|
  {
    hide Next, Enabled;
    var all := steps + [last];
    if steps == [] {
      assert all[1..] == [];
    } else {
      assert all[1..] == steps[1..] + [last];
      RunSnoc(limits, Next(limits, s, steps[0]), steps[1..], last);
    }
  }
}

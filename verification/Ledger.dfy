/** The objects behind the ledger protocol. Each call performs protocol steps of
    its own request and nothing else, so the theorems about interleaved runs
    apply to it. */
module Ledger {
  import opened Prelude
  import opened OrderedDict
  import opened LedgerProtocol

  /** Bounded handoff of lineage from authorize to the ledger's accept. */
  class RequestLineageTracker {
    const capacity: nat
    var entries: Dict<RequestId, Lineage>

    constructor (capacity: nat)
      ensures this.capacity == capacity && entries == []
    {
      this.capacity := capacity;
      entries := [];
    }

    method Remember(id: RequestId, lineage: Lineage)
      modifies this
      ensures entries == LedgerProtocol.Remember(old(entries), id, lineage, capacity)
      ensures exists rest :: IsWithout(old(entries), id, rest) && IsYoungest(rest + [(id, lineage)], capacity, entries)
    {
      RememberExactly(entries, id, lineage, capacity);
      hide IsWithout, IsYoungest;
      entries := Delete(entries, id) + [(id, lineage)];
      entries := DropOldest(entries, capacity);
    }

    method Pop(id: RequestId) returns (lineage: Option<Lineage>)
      modifies this
      ensures lineage == Find(old(entries), id)
      ensures entries == Delete(old(entries), id)
    {
      lineage := Find(entries, id);
      entries := Delete(entries, id);
    }

    method Peek(id: RequestId) returns (lineage: Option<Lineage>)
      ensures lineage == Find(entries, id)
    {
      lineage := Find(entries, id);
    }
  }

  /** Bounded handoff of opted-in prompt content. */
  class PromptCaptureBuffer {
    const capacity: nat
    var entries: Dict<RequestId, string>

    constructor (capacity: nat)
      ensures this.capacity == capacity && entries == []
    {
      this.capacity := capacity;
      entries := [];
    }

    method Remember(id: RequestId, content: string)
      modifies this
      ensures entries == LedgerProtocol.Remember(old(entries), id, content, capacity)
      ensures exists rest :: IsWithout(old(entries), id, rest) && IsYoungest(rest + [(id, content)], capacity, entries)
    {
      RememberExactly(entries, id, content, capacity);
      hide IsWithout, IsYoungest;
      entries := Delete(entries, id) + [(id, content)];
      entries := DropOldest(entries, capacity);
    }

    method Pop(id: RequestId) returns (content: Option<string>)
      modifies this
      ensures content == Find(old(entries), id)
      ensures entries == Delete(old(entries), id)
    {
      content := Find(entries, id);
      entries := Delete(entries, id);
    }
  }

  /** Background writer: what was enqueued, and how much of it is still pending. */
  class PromptCaptureWriter {
    var enqueued: seq<RequestId>
    var pending: nat

    ghost predicate Valid()
      reads this
    {
      pending <= |enqueued|
    }

    constructor ()
      ensures Valid() && enqueued == [] && pending == 0
    {
      enqueued, pending := [], 0;
    }

    method Enqueue(id: RequestId)
      requires Valid()
      modifies this
      ensures Valid() && enqueued == old(enqueued) + [id] && pending == old(pending) + 1
    {
      enqueued, pending := enqueued + [id], pending + 1;
    }

    /** One turn of the drain loop: captures are written in the order queued. */
    method DrainOne() returns (id: Option<RequestId>)
      requires Valid()
      modifies this`pending
      ensures Valid()
      ensures old(pending) == 0 ==> id.None? && pending == 0
      ensures old(pending) > 0 ==> id == Some(enqueued[|enqueued| - old(pending)]) && pending == old(pending) - 1
    {
      if pending == 0 {
        return None;
      }
      id := Some(enqueued[|enqueued| - pending]);
      pending := pending - 1;
    }
  }

  /** The SQL functions as atomic calls. `willing` is every reason to refuse that
      the ledger cannot see: budgets, revoked keys, deadlines. */
  class Database {
    var rows: map<RequestId, Row>
    var attempts: map<AttemptId, RequestId>

    constructor ()
      ensures rows == map[] && attempts == map[]
    {
      rows, attempts := map[], map[];
    }

    method AcceptRequest(id: RequestId, deadline: Time, lineage: Option<Lineage>, willing: bool) returns (ok: bool)
      modifies this`rows
      ensures ok == (willing && id !in old(rows))
      ensures rows == if ok then old(rows)[id := Row(deadline, lineage)] else old(rows)
    {
      ok := willing && id !in rows;
      if ok {
        rows := rows[id := Row(deadline, lineage)];
      }
    }

    method AcceptAndStart(id: RequestId, deadline: Time, lineage: Option<Lineage>, attempt: AttemptId, willing: bool)
      returns (ok: bool)
      modifies this
      ensures ok == (willing && attempt !in old(attempts) && id !in old(rows))
      ensures rows == if ok then old(rows)[id := Row(deadline, lineage)] else old(rows)
      ensures attempts == if ok then old(attempts)[attempt := id] else old(attempts)
    {
      ok := willing && attempt !in attempts && id !in rows;
      if ok {
        rows, attempts := rows[id := Row(deadline, lineage)], attempts[attempt := id];
      }
    }

    method StartAttempt(id: RequestId, attempt: AttemptId, willing: bool) returns (ok: bool)
      modifies this`attempts
      ensures ok == (willing && attempt !in old(attempts) && id in rows)
      ensures attempts == if ok then old(attempts)[attempt := id] else old(attempts)
    {
      ok := willing && attempt !in attempts && id in rows;
      if ok {
        attempts := attempts[attempt := id];
      }
    }
  }

  class AttemptLedger {
    const limits: Limits
    const db: Database
    const lineage: RequestLineageTracker
    const captureBuffer: PromptCaptureBuffer
    const captureWriter: PromptCaptureWriter
    var deferredAccepts: Dict<RequestId, Time>

    /** The protocol state these objects are in. */
    ghost var world: State

    ghost predicate Valid()
      reads this, db, lineage, captureBuffer, captureWriter
    {
      && Inv(limits, world)
      && lineage.capacity == limits.lineage && captureBuffer.capacity == limits.capture
      && captureWriter.Valid()
      && world.deferred == deferredAccepts
      && world.tracker == lineage.entries
      && world.buffer == captureBuffer.entries
      && world.queue == captureWriter.enqueued
      && world.rows == db.rows
      && world.attempts == db.attempts
    }

    constructor (limits: Limits)
      ensures Valid() && fresh(db) && fresh(lineage) && fresh(captureBuffer) && fresh(captureWriter)
      ensures this.limits == limits && world == START
    {
      this.limits := limits;
      db := new Database();
      lineage := new RequestLineageTracker(limits.lineage);
      captureBuffer := new PromptCaptureBuffer(limits.capture);
      captureWriter := new PromptCaptureWriter();
      deferredAccepts := [];
      world := START;
      StartIsGood(limits);
    }

    /** Record one protocol step of a call. */
    ghost method Advance(start: State, before: seq<Step>, step: Step) returns (steps: seq<Step>)
      requires Inv(limits, world) && OwnRun(limits, start, before, step.id) && world == Run(limits, start, before)
      requires Enabled(world, step)
      modifies this`world
      ensures world == Next(limits, old(world), step) && Inv(limits, world)
      ensures OwnRun(limits, start, steps, step.id) && world == Run(limits, start, steps)
      ensures steps == before + [step]
    {
      hide Next, Inv, Enabled;
      steps := before + [step];
      RunSnoc(limits, start, before, step);
      StepKeepsInvariant(limits, world, step);
      world := Next(limits, world, step);
    }

    // The atomic parts of a call --------------------------------------------

    /** Drop one deferred accept after its authority is durably persisted. */
    method ResolveDeferredAccept(id: RequestId, ghost start: State, ghost before: seq<Step>) returns (ghost steps: seq<Step>)
      requires Valid() && Owed(world, id, Chore.ResolveDeferred)
      requires OwnRun(limits, start, before, id) && world == Run(limits, start, before)
      modifies this`world, this`deferredAccepts
      ensures Valid() && world == Next(limits, old(world), Work(id))
      ensures deferredAccepts == Delete(old(deferredAccepts), id)
      ensures At(world, id, AfterChore(old(world).stage[id].todo))
      ensures OwnRun(limits, start, steps, id) && world == Run(limits, start, steps)
      ensures steps == before + [Work(id)]
    {
      hide Find, Delete, Inv, Run, Runs, OwnRun, Has, AcceptInto;
      deferredAccepts := Delete(deferredAccepts, id);
      steps := Advance(start, before, Work(id));
    }

    /** Release the lineage entry a committed fold has written. */
    method ReleaseLineage(id: RequestId, ghost start: State, ghost before: seq<Step>) returns (ghost steps: seq<Step>)
      requires Valid() && Owed(world, id, Chore.PopLineage)
      requires OwnRun(limits, start, before, id) && world == Run(limits, start, before)
      modifies this`world, lineage
      ensures Valid() && world == Next(limits, old(world), Work(id))
      ensures At(world, id, AfterChore(old(world).stage[id].todo))
      ensures OwnRun(limits, start, steps, id) && world == Run(limits, start, steps)
      ensures steps == before + [Work(id)]
    {
      hide Find, Delete, Inv, Run, Runs, OwnRun, Has, AcceptInto;
      var _ := lineage.Pop(id);
      steps := Advance(start, before, Work(id));
    }

    /** Hand a buffered capture to the background writer. */
    method EnqueueCapture(id: RequestId, ghost start: State, ghost before: seq<Step>) returns (ghost steps: seq<Step>)
      requires Valid() && Owed(world, id, Chore.EnqueueCapture)
      requires OwnRun(limits, start, before, id) && world == Run(limits, start, before)
      modifies this`world, captureBuffer, captureWriter
      ensures Valid() && world == Next(limits, old(world), Work(id))
      ensures At(world, id, AfterChore(old(world).stage[id].todo))
      ensures OwnRun(limits, start, steps, id) && world == Run(limits, start, steps)
      ensures steps == before + [Work(id)]
      ensures Find(captureBuffer.entries, id).None?
      ensures captureWriter.enqueued == old(captureWriter.enqueued) + if Find(old(captureBuffer.entries), id).Some? then [id] else []
    {
      HoldsBuffer();
      DeleteLookup(captureBuffer.entries, id, id);
      hide Find, Delete, Inv, Run, Runs, OwnRun, Has, AcceptInto;
      var captured := captureBuffer.Pop(id);
      if captured.Some? {
        captureWriter.Enqueue(id);
      }
      steps := Advance(start, before, Work(id));
    }

    /** Forget a buffered capture whose request will never persist. */
    method DropCapture(id: RequestId, ghost start: State, ghost before: seq<Step>) returns (ghost steps: seq<Step>)
      requires Valid() && Owed(world, id, Chore.DropCapture)
      requires OwnRun(limits, start, before, id) && world == Run(limits, start, before)
      modifies this`world, captureBuffer
      ensures Valid() && world == Next(limits, old(world), Work(id))
      ensures At(world, id, AfterChore(old(world).stage[id].todo))
      ensures OwnRun(limits, start, steps, id) && world == Run(limits, start, steps)
      ensures steps == before + [Work(id)]
      ensures Find(captureBuffer.entries, id).None?
    {
      HoldsBuffer();
      DeleteLookup(captureBuffer.entries, id, id);
      hide Find, Delete, Inv, Run, Runs, OwnRun, Has, AcceptInto;
      var _ := captureBuffer.Pop(id);
      steps := Advance(start, before, Work(id));
    }

    /** The locked section of a deferred accept. */
    method Defer(id: RequestId, deadlineMonotonic: Time, monotonic: Time, wall: Time, ghost start: State, ghost before: seq<Step>) returns (ghost steps: seq<Step>)
      requires Valid() && At(world, id, Authorized)
      requires OwnRun(limits, start, before, id) && world == Run(limits, start, before)
      modifies this`world, this`deferredAccepts
      ensures Valid() && world == Next(limits, old(world), AcceptDeferred(id, deadlineMonotonic, monotonic, wall))
      ensures At(world, id, Idle)
      ensures deferredAccepts == AcceptInto(old(deferredAccepts), id, Deadline(deadlineMonotonic, monotonic, wall), wall, limits.deferred)
      ensures OwnRun(limits, start, steps, id) && world == Run(limits, start, steps)
      ensures steps == before + [AcceptDeferred(id, deadlineMonotonic, monotonic, wall)]
    {
      hide Find, Delete, Inv, Run, Runs, OwnRun, Has, AcceptInto;
      var remaining := if deadlineMonotonic > monotonic then deadlineMonotonic - monotonic else 0;
      var deadlineAt := wall + remaining;
      deferredAccepts := InsertDeferred(deferredAccepts, id, deadlineAt, wall, limits.deferred);
      steps := Advance(start, before, AcceptDeferred(id, deadlineMonotonic, monotonic, wall));
    }

    /** A keyed accept freezes its deadline. */
    method FreezeKeyed(id: RequestId, deadlineMonotonic: Time, monotonic: Time, wall: Time, ghost start: State, ghost before: seq<Step>) returns (deadlineAt: Time, ghost steps: seq<Step>)
      requires Valid() && At(world, id, Authorized)
      requires OwnRun(limits, start, before, id) && world == Run(limits, start, before)
      modifies this`world
      ensures Valid() && world == Next(limits, old(world), AcceptKeyed(id, deadlineMonotonic, monotonic, wall))
      ensures deadlineAt == Deadline(deadlineMonotonic, monotonic, wall) && At(world, id, KeyedAccept(deadlineAt))
      ensures OwnRun(limits, start, steps, id) && world == Run(limits, start, steps)
      ensures steps == before + [AcceptKeyed(id, deadlineMonotonic, monotonic, wall)]
    {
      hide Find, Delete, Inv, Run, Runs, OwnRun, Has, AcceptInto;
      var remaining := if deadlineMonotonic > monotonic then deadlineMonotonic - monotonic else 0;
      deadlineAt := wall + remaining;
      steps := Advance(start, before, AcceptKeyed(id, deadlineMonotonic, monotonic, wall));
    }

    /** A keyed accept collects its lineage. */
    method CollectForAccept(id: RequestId, deadlineAt: Time, ghost start: State, ghost before: seq<Step>) returns (found: Option<Lineage>, ghost steps: seq<Step>)
      requires Valid() && At(world, id, KeyedAccept(deadlineAt))
      requires OwnRun(limits, start, before, id) && world == Run(limits, start, before)
      modifies this`world, lineage
      ensures Valid() && world == Next(limits, old(world), PopForAccept(id))
      ensures found == Find(old(lineage.entries), id) && At(world, id, KeyedPopped(deadlineAt, found))
      ensures OwnRun(limits, start, steps, id) && world == Run(limits, start, steps)
      ensures steps == before + [PopForAccept(id)]
    {
      hide Find, Delete, Inv, Run, Runs, OwnRun, Has, AcceptInto;
      found := lineage.Pop(id);
      steps := Advance(start, before, PopForAccept(id));
    }

    /** The SQL call of a keyed accept. */
    method PersistKeyed(id: RequestId, deadlineAt: Time, found: Option<Lineage>, willing: bool, ghost start: State, ghost before: seq<Step>) returns (ok: bool, ghost steps: seq<Step>)
      requires Valid() && At(world, id, KeyedPopped(deadlineAt, found))
      requires OwnRun(limits, start, before, id) && world == Run(limits, start, before)
      modifies this`world, db`rows
      ensures Valid() && world == Next(limits, old(world), KeyedSql(id, willing))
      ensures At(world, id, Cleanup(if ok then [Chore.EnqueueCapture] else [Chore.DropCapture]))
      ensures ok == willing && id !in old(db.rows)
      ensures db.rows == if ok then old(db.rows)[id := Row(deadlineAt, found)] else old(db.rows)
      ensures OwnRun(limits, start, steps, id) && world == Run(limits, start, steps)
      ensures steps == before + [KeyedSql(id, willing)]
    {
      NoRowYet(limits, world, id);
      RowSql(limits, world, KeyedSql(id, willing));
      hide Find, Delete, Inv, Run, Runs, OwnRun, Has, AcceptInto, Next;
      ok := db.AcceptRequest(id, deadlineAt, found, willing);
      steps := Advance(start, before, KeyedSql(id, willing));
    }

    /** A reservation reads the pending accept. */
    method ReadForStart(id: RequestId, ghost start: State, ghost before: seq<Step>) returns (deferred: Option<Time>, ghost steps: seq<Step>)
      requires Valid() && At(world, id, Idle)
      requires OwnRun(limits, start, before, id) && world == Run(limits, start, before)
      modifies this`world
      ensures Valid() && world == Next(limits, old(world), BeginStart(id))
      ensures deferred == Find(deferredAccepts, id) && At(world, id, Reserving(deferred))
      ensures OwnRun(limits, start, steps, id) && world == Run(limits, start, steps)
      ensures steps == before + [BeginStart(id)]
    {
      hide Find, Delete, Inv, Run, Runs, OwnRun, Has, AcceptInto;
      deferred := Find(deferredAccepts, id);
      steps := Advance(start, before, BeginStart(id));
    }

    /** A folded reservation reads the lineage without consuming it. */
    method PeekLineage(id: RequestId, deadlineAt: Time, ghost start: State, ghost before: seq<Step>) returns (found: Option<Lineage>, ghost steps: seq<Step>)
      requires Valid() && At(world, id, Reserving(Some(deadlineAt)))
      requires OwnRun(limits, start, before, id) && world == Run(limits, start, before)
      modifies this`world
      ensures Valid() && world == Next(limits, old(world), LedgerProtocol.Peek(id))
      ensures found == Find(lineage.entries, id) && At(world, id, Peeked(deadlineAt, found))
      ensures OwnRun(limits, start, steps, id) && world == Run(limits, start, steps)
      ensures steps == before + [LedgerProtocol.Peek(id)]
    {
      hide Find, Delete, Inv, Run, Runs, OwnRun, Has, AcceptInto;
      found := lineage.Peek(id);
      steps := Advance(start, before, LedgerProtocol.Peek(id));
    }

    /** `gateway_accept_and_start_attempt`. */
    method ReserveFolded(id: RequestId, deadlineAt: Time, found: Option<Lineage>, attempt: AttemptId, willing: bool, ghost start: State, ghost before: seq<Step>) returns (ok: bool, ghost steps: seq<Step>)
      requires Valid() && At(world, id, Peeked(deadlineAt, found))
      requires OwnRun(limits, start, before, id) && world == Run(limits, start, before)
      modifies this`world, db
      ensures Valid() && world == Next(limits, old(world), StartSql(id, attempt, willing))
      ensures At(world, id, if ok then Cleanup([ResolveDeferred, PopLineage, Chore.EnqueueCapture]) else Idle)
      ensures db.rows == if ok then old(db.rows)[id := Row(deadlineAt, found)] else old(db.rows)
      ensures ok == (willing && attempt !in old(db.attempts)) && id !in old(db.rows)
      ensures db.attempts == if ok then old(db.attempts)[attempt := id] else old(db.attempts)
      ensures OwnRun(limits, start, steps, id) && world == Run(limits, start, steps)
      ensures steps == before + [StartSql(id, attempt, willing)]
    {
      NoRowYet(limits, world, id);
      hide Find, Delete, Inv, Run, Runs, OwnRun, Has, AcceptInto;
      ok := db.AcceptAndStart(id, deadlineAt, found, attempt, willing);
      steps := Advance(start, before, StartSql(id, attempt, willing));
    }

    /** `gateway_start_attempt`. */
    method ReservePlain(id: RequestId, attempt: AttemptId, willing: bool, ghost start: State, ghost before: seq<Step>) returns (ok: bool, ghost steps: seq<Step>)
      requires Valid() && At(world, id, Reserving(None))
      requires OwnRun(limits, start, before, id) && world == Run(limits, start, before)
      modifies this`world, db`attempts
      ensures Valid() && world == Next(limits, old(world), StartSql(id, attempt, willing))
      ensures At(world, id, Idle) && ok == (willing && attempt !in old(db.attempts) && id in db.rows)
      ensures db.attempts == if ok then old(db.attempts)[attempt := id] else old(db.attempts)
      ensures OwnRun(limits, start, steps, id) && world == Run(limits, start, steps)
      ensures steps == before + [StartSql(id, attempt, willing)]
    {
      hide Find, Delete, Inv, Run, Runs, OwnRun, Has, AcceptInto;
      ok := db.StartAttempt(id, attempt, willing);
      steps := Advance(start, before, StartSql(id, attempt, willing));
    }

    /** A finish reads the pending accept. */
    method ReadForFinish(id: RequestId, ghost start: State, ghost before: seq<Step>) returns (deferred: Option<Time>, ghost steps: seq<Step>)
      requires Valid() && At(world, id, Idle)
      requires OwnRun(limits, start, before, id) && world == Run(limits, start, before)
      modifies this`world
      ensures Valid() && world == Next(limits, old(world), BeginFinish(id))
      ensures deferred == Find(deferredAccepts, id) && At(world, id, Finishing(deferred))
      ensures OwnRun(limits, start, steps, id) && world == Run(limits, start, steps)
      ensures steps == before + [BeginFinish(id)]
    {
      hide Find, Delete, Inv, Run, Runs, OwnRun, Has, AcceptInto;
      deferred := Find(deferredAccepts, id);
      steps := Advance(start, before, BeginFinish(id));
    }

    /** A finish that must persist the accept collects its lineage first. */
    method CollectForFinish(id: RequestId, deadlineAt: Time, ghost start: State, ghost before: seq<Step>) returns (found: Option<Lineage>, ghost steps: seq<Step>)
      requires Valid() && At(world, id, Finishing(Some(deadlineAt)))
      requires OwnRun(limits, start, before, id) && world == Run(limits, start, before)
      modifies this`world, lineage
      ensures Valid() && world == Next(limits, old(world), PopForFinish(id))
      ensures found == Find(old(lineage.entries), id) && At(world, id, FinishPopped(deadlineAt, found))
      ensures OwnRun(limits, start, steps, id) && world == Run(limits, start, steps)
      ensures steps == before + [PopForFinish(id)]
    {
      hide Find, Delete, Inv, Run, Runs, OwnRun, Has, AcceptInto;
      found := lineage.Pop(id);
      steps := Advance(start, before, PopForFinish(id));
    }

    /** Accept and finish in one transaction. */
    method PersistFinish(id: RequestId, deadlineAt: Time, found: Option<Lineage>, outcome: FinishOutcome, ghost start: State, ghost before: seq<Step>) returns (ok: bool, ghost steps: seq<Step>)
      requires Valid() && At(world, id, FinishPopped(deadlineAt, found))
      requires OwnRun(limits, start, before, id) && world == Run(limits, start, before)
      modifies this`world, db`rows
      ensures Valid() && world == Next(limits, old(world), FinishSql(id, outcome))
      ensures At(world, id, Cleanup(if ok then [ResolveDeferred, Chore.EnqueueCapture]
                                    else if outcome.Revoked? then [ResolveDeferred, Chore.DropCapture] else [Chore.DropCapture]))
      ensures ok == outcome.Committed? && id !in old(db.rows)
      ensures db.rows == if ok then old(db.rows)[id := Row(deadlineAt, found)] else old(db.rows)
      ensures OwnRun(limits, start, steps, id) && world == Run(limits, start, steps)
      ensures steps == before + [FinishSql(id, outcome)]
    {
      NoRowYet(limits, world, id);
      RowSql(limits, world, FinishSql(id, outcome));
      hide Find, Delete, Inv, Run, Runs, OwnRun, Has, AcceptInto, Next;
      ok := db.AcceptRequest(id, deadlineAt, found, outcome.Committed?);
      steps := Advance(start, before, FinishSql(id, outcome));
    }

    /** A finish of a durable request. */
    method FinishPlain(id: RequestId, outcome: FinishOutcome, ghost start: State, ghost before: seq<Step>) returns (ok: bool, ghost steps: seq<Step>)
      requires Valid() && At(world, id, Finishing(None))
      requires OwnRun(limits, start, before, id) && world == Run(limits, start, before)
      modifies this`world
      ensures Valid() && world == Next(limits, old(world), FinishSql(id, outcome))
      ensures At(world, id, Idle) && ok == (outcome.Committed? && id in db.rows)
      ensures OwnRun(limits, start, steps, id) && world == Run(limits, start, steps)
      ensures steps == before + [FinishSql(id, outcome)]
    {
      hide Find, Delete, Inv, Run, Runs, OwnRun, Has, AcceptInto;
      ok := outcome.Committed? && id in db.rows;
      steps := Advance(start, before, FinishSql(id, outcome));
    }

    // Calls ------------------------------------------------------------------

    /** What authorization hands over for a request of its own: the lineage derived
        from it, and its content where the organisation opted in. */
    method Authorize(id: RequestId, derived: Lineage, content: Option<string>) returns (ghost steps: seq<Step>)
      requires Valid() && id !in world.stage
      modifies this`world, lineage, captureBuffer
      ensures Valid() && At(world, id, Authorized)
      ensures steps == [LedgerProtocol.Authorize(id, derived, content)]
      ensures OwnRun(limits, old(world), steps, id) && world == Run(limits, old(world), steps)
      ensures lineage.entries == LedgerProtocol.Remember(old(lineage.entries), id, derived, limits.lineage)
      ensures captureBuffer.entries == if content.Some?
                                       then LedgerProtocol.Remember(old(captureBuffer.entries), id, content.value, limits.capture)
                                       else old(captureBuffer.entries)
    {
      ghost var start := world;
      NoSteps(limits, start, id);
      hide Find, Delete, Inv, Run, Runs, OwnRun, Has, AcceptInto, LedgerProtocol.Remember;
      lineage.Remember(id, derived);
      if content.Some? {
        captureBuffer.Remember(id, content.value);
      }
      steps := Advance(start, [], LedgerProtocol.Authorize(id, derived, content));
      assert steps == [LedgerProtocol.Authorize(id, derived, content)];
    }

    /** Freeze the deadline; persist now only when idempotency is in play. */
    method AcceptRequestSync(id: RequestId, keyed: bool, deadlineMonotonic: Time, monotonic: Time, wall: Time, willing: bool)
      returns (accepted: bool, ghost steps: seq<Step>)
      requires Valid() && At(world, id, Authorized)
      modifies this, db`rows, lineage, captureBuffer, captureWriter
      ensures Valid() && At(world, id, Idle)
      ensures OwnRun(limits, old(world), steps, id) && world == Run(limits, old(world), steps)
      ensures steps == AcceptSteps(id, keyed, deadlineMonotonic, monotonic, wall, willing)
      ensures accepted == (!keyed || willing) && id !in old(db.rows)
      ensures id in world.frozen && Budgeted(world.frozen[id], deadlineMonotonic, monotonic, wall)
      ensures Has(deferredAccepts, id) ==> Find(deferredAccepts, id) == Some(world.frozen[id])
      ensures keyed && accepted ==> id in db.rows && db.rows[id].deadline == world.frozen[id]
      ensures var deadline := Deadline(deadlineMonotonic, monotonic, wall);
              if keyed then
                && deferredAccepts == old(deferredAccepts)
                && db.rows == if accepted then old(db.rows)[id := Row(deadline, Find(old(lineage.entries), id))] else old(db.rows)
              else
                && db.rows == old(db.rows)
                && deferredAccepts == AcceptInto(old(deferredAccepts), id, deadline, wall, limits.deferred)
      ensures keyed ==> Find(captureBuffer.entries, id).None?
      ensures captureWriter.enqueued
           == old(captureWriter.enqueued) + if keyed && accepted && Find(old(captureBuffer.entries), id).Some? then [id] else []
    {
      ghost var start := world;
      NoSteps(limits, start, id);
      NoRowYet(limits, world, id);
      AcceptStepsAre(id, keyed, deadlineMonotonic, monotonic, wall, willing);
      hide Next, Find, Delete, Inv, Run, Runs, OwnRun, Has, AcceptInto, Valid, Enabled, AcceptSteps;
      if keyed {
        accepted, steps := AcceptKeyedSync(id, deadlineMonotonic, monotonic, wall, willing, start);
      } else {
        steps := Defer(id, deadlineMonotonic, monotonic, wall, start, []);
        accepted := true;
      }
      AcceptedSteps(id, keyed, deadlineMonotonic, monotonic, wall, willing);
      IsRun(limits, start, steps, id);
      AcceptFreezes(limits, start, steps);
      HoldsWorld();
      OneDeadline(limits, world, id);
    }

    lemma HoldsBuffer()
      requires Valid()
      ensures Distinct(captureBuffer.entries)
    {
    }

    lemma HoldsWorld()
      requires Valid()
      ensures Inv(limits, world) && world.deferred == deferredAccepts && world.rows == db.rows
    {
    }

    method AcceptKeyedSync(id: RequestId, deadlineMonotonic: Time, monotonic: Time, wall: Time, willing: bool, ghost start: State)
      returns (accepted: bool, ghost steps: seq<Step>)
      requires Valid() && At(world, id, Authorized) && world == start
      modifies this`world, db`rows, lineage, captureBuffer, captureWriter
      ensures Valid() && At(world, id, Idle)
      ensures OwnRun(limits, start, steps, id) && world == Run(limits, start, steps)
      ensures steps == AcceptSteps(id, true, deadlineMonotonic, monotonic, wall, willing)
      ensures accepted == willing
      ensures var deadline := Deadline(deadlineMonotonic, monotonic, wall);
              db.rows == if accepted then old(db.rows)[id := Row(deadline, Find(old(lineage.entries), id))] else old(db.rows)
      ensures Find(captureBuffer.entries, id).None?
      ensures captureWriter.enqueued
           == old(captureWriter.enqueued) + if accepted && Find(old(captureBuffer.entries), id).Some? then [id] else []
    {
      NoSteps(limits, start, id);
      AcceptStepsAre(id, true, deadlineMonotonic, monotonic, wall, willing);
      hide Next, Find, Delete, Inv, Run, Runs, OwnRun, Has, AcceptInto, Valid, Enabled, AcceptSteps;
      var deadlineAt, found;
      deadlineAt, steps := FreezeKeyed(id, deadlineMonotonic, monotonic, wall, start, []);
      found, steps := CollectForAccept(id, deadlineAt, start, steps);
      accepted, steps := PersistKeyed(id, deadlineAt, found, willing, start, steps);
      if accepted {
        steps := EnqueueCapture(id, start, steps);
      } else {
        steps := DropCapture(id, start, steps);
      }
    }

    /** Reserve one attempt: folded with the deferred accept on a request's first
        successful rung, plain afterwards. A refusal leaves every object as it was. */
    method StartAttemptSync(id: RequestId, attempt: AttemptId, willing: bool)
      returns (started: bool, ghost steps: seq<Step>)
      requires Valid() && At(world, id, Idle)
      modifies this, db, lineage, captureBuffer, captureWriter
      ensures Valid() && At(world, id, Idle)
      ensures OwnRun(limits, old(world), steps, id) && world == Run(limits, old(world), steps)
      ensures var deferred := Find(old(deferredAccepts), id);
              && started == (willing && attempt !in old(db.attempts) && (deferred.Some? || id in old(db.rows)))
              && steps == StartSteps(id, deferred, attempt, willing, started)
              && (started ==>
                    && db.attempts == old(db.attempts)[attempt := id]
                    && db.rows == if deferred.Some?
                                  then old(db.rows)[id := Row(deferred.value, Find(old(lineage.entries), id))] else old(db.rows))
      ensures !started ==> db.rows == old(db.rows) && db.attempts == old(db.attempts)
                           && deferredAccepts == old(deferredAccepts) && unchanged(lineage)
                           && unchanged(captureBuffer) && unchanged(captureWriter)
    {
      ghost var start := world;
      NoSteps(limits, start, id);
      hide Next, Find, Delete, Inv, Run, Runs, OwnRun, Has, AcceptInto, Valid, Enabled, FoldSteps;
      var deferred;
      deferred, steps := ReadForStart(id, start, []);
      if deferred.Some? {
        started, steps := StartFolded(id, deferred.value, attempt, willing, start, steps);
      } else {
        started, steps := ReservePlain(id, attempt, willing, start, steps);
      }
    }

    method StartFolded(id: RequestId, deadlineAt: Time, attempt: AttemptId, willing: bool,
                       ghost start: State, ghost before: seq<Step>)
      returns (started: bool, ghost steps: seq<Step>)
      requires Valid() && At(world, id, Reserving(Some(deadlineAt)))
      requires OwnRun(limits, start, before, id) && world == Run(limits, start, before)
      modifies this, db, lineage, captureBuffer, captureWriter
      ensures Valid() && At(world, id, Idle)
      ensures OwnRun(limits, start, steps, id) && world == Run(limits, start, steps)
      ensures started == (willing && attempt !in old(db.attempts)) && id !in old(db.rows)
      ensures steps == before + FoldSteps(id, attempt, willing, started)
      ensures started ==> db.attempts == old(db.attempts)[attempt := id]
                          && db.rows == old(db.rows)[id := Row(deadlineAt, Find(old(lineage.entries), id))]
      ensures !started ==> db.rows == old(db.rows) && db.attempts == old(db.attempts)
                           && deferredAccepts == old(deferredAccepts) && unchanged(lineage)
                           && unchanged(captureBuffer) && unchanged(captureWriter)
    {
      FoldStepsAre(before, id, attempt, willing);
      hide Next, Find, Delete, Inv, Run, Runs, OwnRun, Has, AcceptInto, Valid, Enabled, FoldSteps;
      var found;
      found, steps := PeekLineage(id, deadlineAt, start, before);
      started, steps := ReserveFolded(id, deadlineAt, found, attempt, willing, start, steps);
      if started {
        steps := ResolveDeferredAccept(id, start, steps);
        steps := ReleaseLineage(id, start, steps);
        steps := EnqueueCapture(id, start, steps);
      }
    }

    /** Terminalize work that never reached dispatch: a request that is still
        deferred is persisted and finished in one transaction. */
    method FinishRequestSync(id: RequestId, outcome: FinishOutcome)
      returns (finished: bool, ghost steps: seq<Step>)
      requires Valid() && At(world, id, Idle)
      modifies this, db`rows, lineage, captureBuffer, captureWriter
      ensures Valid() && At(world, id, Idle)
      ensures OwnRun(limits, old(world), steps, id) && world == Run(limits, old(world), steps)
      ensures var deferred := Find(old(deferredAccepts), id);
              && finished == (outcome.Committed? && (deferred.Some? || id in old(db.rows)))
              && steps == FinishSteps(id, deferred, outcome)
              && db.rows == (if finished && deferred.Some?
                             then old(db.rows)[id := Row(deferred.value, Find(old(lineage.entries), id))] else old(db.rows))
              && deferredAccepts == (if deferred.Some? && (finished || outcome.Revoked?)
                                     then Delete(old(deferredAccepts), id) else old(deferredAccepts))
      ensures Find(old(deferredAccepts), id).Some? ==>
        && Find(captureBuffer.entries, id).None?
        && captureWriter.enqueued
           == old(captureWriter.enqueued) + if finished && Find(old(captureBuffer.entries), id).Some? then [id] else []
    {
      ghost var start := world;
      NoSteps(limits, start, id);
      FinishStepsAre(id, Find(deferredAccepts, id), outcome);
      hide Next, Find, Delete, Inv, Run, Runs, OwnRun, Has, AcceptInto, Valid, Enabled, FinishSteps;
      var deferred;
      deferred, steps := ReadForFinish(id, start, []);
      if deferred.None? {
        finished, steps := FinishPlain(id, outcome, start, steps);
        return;
      }
      var found;
      found, steps := CollectForFinish(id, deferred.value, start, steps);
      finished, steps := PersistFinish(id, deferred.value, found, outcome, start, steps);
      steps := SettleFinish(id, finished, outcome.Revoked?, start, steps);
    }

    /** After a persisting finish: the accept resolved unless it may be tried again, the
        capture queued or forgotten. */
    method SettleFinish(id: RequestId, finished: bool, revoked: bool, ghost start: State, ghost before: seq<Step>) returns (ghost steps: seq<Step>)
      requires Valid() && !(finished && revoked)
      requires At(world, id, Cleanup(if finished then [ResolveDeferred, Chore.EnqueueCapture]
                                     else if revoked then [ResolveDeferred, Chore.DropCapture] else [Chore.DropCapture]))
      requires OwnRun(limits, start, before, id) && world == Run(limits, start, before)
      modifies this`world, this`deferredAccepts, captureBuffer, captureWriter
      ensures Valid() && At(world, id, Idle)
      ensures OwnRun(limits, start, steps, id) && world == Run(limits, start, steps)
      ensures steps == before + (if finished || revoked then [Work(id)] + [Work(id)] else [Work(id)])
      ensures deferredAccepts == if finished || revoked then Delete(old(deferredAccepts), id) else old(deferredAccepts)
      ensures Find(captureBuffer.entries, id).None?
      ensures captureWriter.enqueued
           == old(captureWriter.enqueued) + if finished && Find(old(captureBuffer.entries), id).Some? then [id] else []
    {
      hide Next, Find, Delete, Inv, Run, Runs, OwnRun, Has, AcceptInto, Valid, Enabled;
      steps := before;
      if finished || revoked {
        steps := ResolveDeferredAccept(id, start, steps);
      }
      if finished {
        steps := EnqueueCapture(id, start, steps);
      } else {
        steps := DropCapture(id, start, steps);
      }
    }
  }

  /** Insert one deferred accept under the hard bound. */
  method InsertDeferred(d: Dict<RequestId, Time>, id: RequestId, deadlineAt: Time, now: Time, bound: nat)
    returns (after: Dict<RequestId, Time>)
    ensures after == AcceptInto(d, id, deadlineAt, now, bound)
    ensures IsInserted(d, id, deadlineAt, now, bound, after)
  {
    InsertExactly(d, id, deadlineAt, now, bound);
    hide Store, EvictOldest, Unexpired;
    after := d;
    if |after| >= bound {
      after := PurgeExpired(after, now);
    }
    after := Store(after, id, deadlineAt);
    after := DropOldest(after, bound);
  }

  /** `{k: v for k, v in d.items() if v > now}`. */
  method PurgeExpired(d: Dict<RequestId, Time>, now: Time) returns (live: Dict<RequestId, Time>)
    ensures live == Unexpired(d, now)
  {
    live := [];
    for i := 0 to |d|
      invariant live + Unexpired(d[i..], now) == Unexpired(d, now)
    {
      ghost var rest := Unexpired(d[i + 1..], now);
      assert d[i..][1..] == d[i + 1..];
      if d[i].1 > now {
        assert live + ([d[i]] + rest) == (live + [d[i]]) + rest;
        live := live + [d[i]];
      }
    }
    assert live + [] == live;
  }

  // The protocol steps each call takes.

  function AcceptSteps(id: RequestId, keyed: bool, deadlineMonotonic: Time, monotonic: Time, wall: Time, willing: bool): seq<Step> {
    if keyed
    then [AcceptKeyed(id, deadlineMonotonic, monotonic, wall), PopForAccept(id), KeyedSql(id, willing), Work(id)]
    else [AcceptDeferred(id, deadlineMonotonic, monotonic, wall)]
  }

  function StartSteps(id: RequestId, deferred: Option<Time>, attempt: AttemptId, willing: bool, started: bool): seq<Step> {
    [BeginStart(id)] + if deferred.Some? then FoldSteps(id, attempt, willing, started) else [StartSql(id, attempt, willing)]
  }

  function FoldSteps(id: RequestId, attempt: AttemptId, willing: bool, started: bool): seq<Step> {
    [LedgerProtocol.Peek(id), StartSql(id, attempt, willing)] + if started then [Work(id), Work(id), Work(id)] else []
  }

  function FinishSteps(id: RequestId, deferred: Option<Time>, outcome: FinishOutcome): seq<Step> {
    if deferred.None? then [BeginFinish(id), FinishSql(id, outcome)]
    else [BeginFinish(id), PopForFinish(id), FinishSql(id, outcome), Work(id)] + if outcome.Failed? then [] else [Work(id)]
  }

  lemma AcceptedSteps(id: RequestId, keyed: bool, deadlineMonotonic: Time, monotonic: Time, wall: Time, willing: bool)
    ensures var steps := AcceptSteps(id, keyed, deadlineMonotonic, monotonic, wall, willing);
            && steps != [] && (steps[0].AcceptDeferred? || steps[0].AcceptKeyed?) && steps[0].id == id
            && steps[0].deadlineMonotonic == deadlineMonotonic && steps[0].monotonic == monotonic && steps[0].wall == wall
            && forall st :: st in steps[1..] ==> !st.AcceptDeferred? && !st.AcceptKeyed?
  {
  }

  lemma IsRun(limits: Limits, s: State, steps: seq<Step>, id: RequestId)
    requires OwnRun(limits, s, steps, id)
    ensures Runs(limits, s, steps)
  {
  }

  lemma AcceptStepsAre(id: RequestId, keyed: bool, deadlineMonotonic: Time, monotonic: Time, wall: Time, willing: bool)
    ensures AcceptSteps(id, keyed, deadlineMonotonic, monotonic, wall, willing)
            == if keyed
               then [] + [AcceptKeyed(id, deadlineMonotonic, monotonic, wall)] + [PopForAccept(id)] + [KeyedSql(id, willing)] + [Work(id)]
               else [] + [AcceptDeferred(id, deadlineMonotonic, monotonic, wall)]
  {
  }

  lemma FoldStepsAre(before: seq<Step>, id: RequestId, attempt: AttemptId, willing: bool)
    ensures before + FoldSteps(id, attempt, willing, false) == before + [LedgerProtocol.Peek(id)] + [StartSql(id, attempt, willing)]
    ensures before + FoldSteps(id, attempt, willing, true)
            == before + [LedgerProtocol.Peek(id)] + [StartSql(id, attempt, willing)] + [Work(id)] + [Work(id)] + [Work(id)]
  {
  }

  lemma FinishStepsAre(id: RequestId, deferred: Option<Time>, outcome: FinishOutcome)
    ensures FinishSteps(id, deferred, outcome)
            == if deferred.None? then [] + [BeginFinish(id)] + [FinishSql(id, outcome)]
               else [] + [BeginFinish(id)] + [PopForFinish(id)] + [FinishSql(id, outcome)]
                    + if outcome.Failed? then [Work(id)] else [Work(id)] + [Work(id)]
  {
  }

  /** What the SQL call of a keyed accept or a persisting finish does. */
  lemma RowSql(limits: Limits, s: State, step: Step)
    requires Enabled(s, step) && (step.KeyedSql? || step.FinishSql?) && Popped(s.stage[step.id]) && step.id !in s.rows
    ensures var t, was, done := Next(limits, s, step), s.stage[step.id], if step.KeyedSql? then step.committed else step.outcome.Committed?;
            && t == s.(rows := t.rows, stage := t.stage)
            && t.rows == (if done then s.rows[step.id := Row(was.deadline, was.lineage)] else s.rows)
            && At(t, step.id, Cleanup(if step.KeyedSql? then (if done then [Chore.EnqueueCapture] else [Chore.DropCapture])
                                      else if done then [ResolveDeferred, Chore.EnqueueCapture]
                                      else if step.outcome.Revoked? then [ResolveDeferred, Chore.DropCapture] else [Chore.DropCapture]))
  {
    hide Find, Delete, Has, AcceptInto;
  }

  /** A call that is about to write a request's row finds none. */
  lemma NoRowYet(limits: Limits, s: State, id: RequestId)
    requires Inv(limits, s) && id in s.stage && BeforeRow(s.stage[id])
    ensures id !in s.rows
  {
    assert Good(ViewOf(s, id));
    hide Find, Bounded;
  }

  /** The next chore of a request's call. */
  predicate Owed(s: State, id: RequestId, chore: Chore) {
    id in s.stage && s.stage[id].Cleanup? && s.stage[id].todo != [] && s.stage[id].todo[0] == chore
  }

  ghost predicate OwnRun(limits: Limits, s: State, steps: seq<Step>, id: RequestId) {
    Runs(limits, s, steps) && forall st :: st in steps ==> st.id == id
  }

  lemma NoSteps(limits: Limits, s: State, id: RequestId)
    ensures OwnRun(limits, s, [], id) && Run(limits, s, []) == s
  {
  }
}

/** Chat Completions frames translated into Anthropic message events, and the
    non-streaming translation they must agree with. */
module ChatStream {
  import opened Prelude
  import opened Json

  // What arrives -------------------------------------------------------------

  /** The counters of a chat `usage` object; absent counters read as 0. */
  datatype ChatUsage = ChatUsage(prompt: int, completion: int, cached: int)

  /** One `tool_calls` entry of a delta; absent strings read as empty. */
  datatype CallDelta = CallDelta(index: int, id: string, name: string, arguments: string)

  /** The first choice of a frame; absent strings read as empty. */
  datatype Choice = Choice(finish: string, content: string, calls: seq<CallDelta>)

  datatype Frame = Frame(usage: Option<ChatUsage>, choice: Option<Choice>)

  /** One decoded `data:` payload. */
  datatype Payload =
    | Done                  // the literal [DONE]
    | Junk                  // not JSON, or not an object
    | Failure(body: Json)   // an object with an `error` member
    | Chunk(frame: Frame)

  // What leaves --------------------------------------------------------------

  datatype Usage = Usage(input: int, output: int, cacheRead: Option<int>)

  /** The empty string as a block id stands for one minted on the spot. */
  datatype BlockHead = TextHead | ToolHead(id: string, name: string)

  datatype StreamError = Upstream(body: Json) | Truncated

  datatype Event =
    | MessageStart
    | Ping
    | BlockStart(index: nat, head: BlockHead)
    | TextDelta(index: nat, text: string)
    | JsonDelta(index: nat, fragment: string)
    | BlockStop(index: nat)
    | MessageDelta(stop: string, usage: Usage)
    | MessageStop
    | ErrorEvent(error: StreamError)

  function StopReason(finish: string): string {
    if finish == "stop" then "end_turn"
    else if finish == "length" then "max_tokens"
    else if finish == "tool_calls" then "tool_use"
    else "end_turn"
  }

  function UsageFromChat(usage: Option<ChatUsage>): (u: Usage)
    ensures usage.Some? ==> u.input + u.cacheRead.GetOr(0) == usage.value.prompt
  {
    match usage
    case None => Usage(0, 0, None)
    case Some(c) => Usage(c.prompt - c.cached, c.completion, if c.cached != 0 then Some(c.cached) else None)
  }

  // The state machine as a function ------------------------------------------

  datatype OpenBlock = Closed | TextOpen(index: nat) | ToolOpen(index: nat, tool: int)

  datatype Cursor = Cursor(next: nat, open: OpenBlock, finish: string, usage: Option<ChatUsage>)

  const FRESH: Cursor := Cursor(0, Closed, "", None)

  datatype Emitted = Emitted(cursor: Cursor, events: seq<Event>)

  function CloseBlock(c: Cursor): seq<Event> {
    if c.open.Closed? then [] else [BlockStop(c.open.index)]
  }

  function Say(c: Cursor, content: string): Emitted {
    if content == "" then Emitted(c, [])
    else if c.open.TextOpen? then Emitted(c, [TextDelta(c.open.index, content)])
    else Emitted(c.(next := c.next + 1, open := TextOpen(c.next)),
                 CloseBlock(c) + [BlockStart(c.next, TextHead), TextDelta(c.next, content)])
  }

  function Arguments(index: nat, arguments: string): seq<Event> {
    if arguments == "" then [] else [JsonDelta(index, arguments)]
  }

  function CallTool(c: Cursor, call: CallDelta): Emitted {
    if c.open.ToolOpen? && c.open.tool == call.index
    then Emitted(c, Arguments(c.open.index, call.arguments))
    else Emitted(c.(next := c.next + 1, open := ToolOpen(c.next, call.index)),
                 CloseBlock(c) + [BlockStart(c.next, ToolHead(call.id, call.name))] + Arguments(c.next, call.arguments))
  }

  function CallTools(c: Cursor, calls: seq<CallDelta>): Emitted
    decreases |calls|
  {
    if calls == [] then Emitted(c, [])
    else
      var first := CallTool(c, calls[0]);
      var others := CallTools(first.cursor, calls[1..]);
      Emitted(others.cursor, first.events + others.events)
  }

  /** The bookkeeping a frame does before any block moves. */
  function Note(c: Cursor, frame: Frame): Cursor {
    var c1 := if frame.usage.Some? then c.(usage := frame.usage) else c;
    if frame.choice.Some? && frame.choice.value.finish != "" then c1.(finish := frame.choice.value.finish) else c1
  }

  function Step(c: Cursor, frame: Frame): Emitted {
    var noted := Note(c, frame);
    if frame.choice.None? then Emitted(noted, [])
    else
      var said := Say(noted, frame.choice.value.content);
      var called := CallTools(said.cursor, frame.choice.value.calls);
      Emitted(called.cursor, said.events + called.events)
  }

  function Finale(c: Cursor): seq<Event> {
    CloseBlock(c) + [MessageDelta(StopReason(c.finish), UsageFromChat(c.usage)), MessageStop]
  }

  function Opening(started: bool): seq<Event> {
    if started then [] else [MessageStart]
  }

  /** Everything emitted from here to the end of the stream. */
  function Translate(c: Cursor, started: bool, payloads: seq<Payload>): seq<Event>
    decreases |payloads|
  {
    if payloads == [] then Opening(started) + [ErrorEvent(Truncated)]
    else match payloads[0]
      case Done => Opening(started) + Finale(c)
      case Junk => Translate(c, started, payloads[1..])
      case Failure(body) => Opening(started) + [ErrorEvent(Upstream(body))]
      case Chunk(frame) =>
        var step := Step(c, frame);
        (if started then [] else [MessageStart, Ping]) + step.events + Translate(step.cursor, true, payloads[1..])
  }

  // The grammar --------------------------------------------------------------

  /** Where a reader of the event stream stands. */
  datatype Phase =
    | Unstarted
    | Greeted                             // message_start seen; one ping allowed
    | Between(next: nat)                  // no block open, `next` is the next index
    | Inside(index: nat, tool: bool)      // block `index` open
    | Closing                             // message_delta seen
    | Finished
    | Broken

  /** A reader that rejects everything but: message_start, at most one ping,
      blocks numbered 0, 1, 2, ... with at most one open and every delta naming
      the open block and its kind, then one error, or message_delta and
      message_stop with all blocks closed. */
  function Read(p: Phase, e: Event): Phase {
    match (p, e)
    case (Unstarted, MessageStart) => Greeted
    case (Greeted, Ping) => Between(0)
    case (Greeted, BlockStart(i, head)) => if i == 0 then Inside(0, head.ToolHead?) else Broken
    case (Greeted, MessageDelta(_, _)) => Closing
    case (Greeted, ErrorEvent(_)) => Finished
    case (Between(n), BlockStart(i, head)) => if i == n then Inside(n, head.ToolHead?) else Broken
    case (Between(_), MessageDelta(_, _)) => Closing
    case (Between(_), ErrorEvent(_)) => Finished
    case (Inside(n, tool), TextDelta(i, _)) => if i == n && !tool then p else Broken
    case (Inside(n, tool), JsonDelta(i, _)) => if i == n && tool then p else Broken
    case (Inside(n, _), BlockStop(i)) => if i == n then Between(n + 1) else Broken
    case (Inside(_, _), ErrorEvent(_)) => Finished
    case (Closing, MessageStop) => Finished
    case _ => Broken
  }

  function ReadAll(p: Phase, events: seq<Event>): Phase
    decreases |events|
  {
    if events == [] then p else ReadAll(Read(p, events[0]), events[1..])
  }

  lemma {:induction false} ReadAppend(p: Phase, a: seq<Event>, b: seq<Event>)
    ensures ReadAll(p, a + b) == ReadAll(ReadAll(p, a), b)
    decreases |a|
  {
    if a == [] {
      assert a + b == b;
    } else {
      assert (a + b)[1..] == a[1..] + b;
      ReadAppend(Read(p, a[0]), a[1..], b);
    }
  }

  lemma Read1(p: Phase, e: Event)
    ensures ReadAll(p, [e]) == Read(p, e)
  {
    assert [e][1..] == [];
  }

  /** A cursor the state machine can be in: the open block is the newest one. */
  ghost predicate Coherent(c: Cursor) {
    !c.open.Closed? ==> c.open.index + 1 == c.next
  }

  /** What a reader knows when the writer's cursor is `c`. */
  function PhaseOf(c: Cursor): Phase {
    match c.open
    case Closed => Between(c.next)
    case TextOpen(i) => Inside(i, false)
    case ToolOpen(i, _) => Inside(i, true)
  }

  lemma CloseReads(c: Cursor)
    requires Coherent(c)
    ensures ReadAll(PhaseOf(c), CloseBlock(c)) == Between(c.next)
  {
    if !c.open.Closed? {
      Read1(PhaseOf(c), BlockStop(c.open.index));
    }
  }

  lemma SayReads(c: Cursor, content: string)
    requires Coherent(c)
    ensures Coherent(Say(c, content).cursor)
    ensures ReadAll(PhaseOf(c), Say(c, content).events) == PhaseOf(Say(c, content).cursor)
  {
    if content != "" && !c.open.TextOpen? {
      var opening := [BlockStart(c.next, TextHead), TextDelta(c.next, content)];
      CloseReads(c);
      ReadAppend(PhaseOf(c), CloseBlock(c), opening);
      assert opening[1..] == [TextDelta(c.next, content)];
      Read1(Inside(c.next, false), TextDelta(c.next, content));
    } else if content != "" {
      Read1(PhaseOf(c), TextDelta(c.open.index, content));
    }
  }

  lemma CallReads(c: Cursor, call: CallDelta)
    requires Coherent(c)
    ensures Coherent(CallTool(c, call).cursor)
    ensures ReadAll(PhaseOf(c), CallTool(c, call).events) == PhaseOf(CallTool(c, call).cursor)
  {
    var out := CallTool(c, call).cursor;
    var arguments := Arguments(out.open.index, call.arguments);
    if call.arguments != "" {
      Read1(PhaseOf(out), JsonDelta(out.open.index, call.arguments));
    }
    if !(c.open.ToolOpen? && c.open.tool == call.index) {
      var opening := [BlockStart(c.next, ToolHead(call.id, call.name))];
      CloseReads(c);
      ReadAppend(PhaseOf(c), CloseBlock(c), opening);
      Read1(Between(c.next), opening[0]);
      ReadAppend(PhaseOf(c), CloseBlock(c) + opening, arguments);
    }
  }

  lemma {:induction false} CallsRead(c: Cursor, calls: seq<CallDelta>)
    requires Coherent(c)
    ensures Coherent(CallTools(c, calls).cursor)
    ensures ReadAll(PhaseOf(c), CallTools(c, calls).events) == PhaseOf(CallTools(c, calls).cursor)
    decreases |calls|
  {
    if calls != [] {
      var first := CallTool(c, calls[0]);
      CallReads(c, calls[0]);
      CallsRead(first.cursor, calls[1..]);
      ReadAppend(PhaseOf(c), first.events, CallTools(first.cursor, calls[1..]).events);
    }
  }

  lemma StepReads(c: Cursor, frame: Frame)
    requires Coherent(c)
    ensures Coherent(Step(c, frame).cursor)
    ensures ReadAll(PhaseOf(c), Step(c, frame).events) == PhaseOf(Step(c, frame).cursor)
  {
    var noted := Note(c, frame);
    assert PhaseOf(noted) == PhaseOf(c);
    if frame.choice.Some? {
      var said := Say(noted, frame.choice.value.content);
      SayReads(noted, frame.choice.value.content);
      CallsRead(said.cursor, frame.choice.value.calls);
      ReadAppend(PhaseOf(c), said.events, CallTools(said.cursor, frame.choice.value.calls).events);
    }
  }

  lemma FinaleReads(c: Cursor)
    requires Coherent(c)
    ensures ReadAll(PhaseOf(c), Finale(c)) == Finished
  {
    var delta := MessageDelta(StopReason(c.finish), UsageFromChat(c.usage));
    CloseReads(c);
    ReadAppend(PhaseOf(c), CloseBlock(c), [delta, MessageStop]);
    assert [delta, MessageStop][1..] == [MessageStop];
    Read1(Closing, MessageStop);
  }

  lemma {:induction false} TranslateReads(c: Cursor, started: bool, payloads: seq<Payload>)
    requires Coherent(c) && (!started ==> c == FRESH)
    ensures ReadAll(if started then PhaseOf(c) else Unstarted, Translate(c, started, payloads)) == Finished
    decreases |payloads|
  {
    var start := if started then PhaseOf(c) else Unstarted;
    Read1(Unstarted, MessageStart);
    if payloads == [] || payloads[0].Failure? {
      var error := ErrorEvent(if payloads == [] then Truncated else Upstream(payloads[0].body));
      ReadAppend(start, Opening(started), [error]);
      Read1(ReadAll(start, Opening(started)), error);
      return;
    }
    match payloads[0] {
      case Failure(_) =>
      case Junk => TranslateReads(c, started, payloads[1..]);
      case Done =>
        FinaleReads(c);
        ReadAppend(start, Opening(started), Finale(c));
        if !started {
          var delta := MessageDelta(StopReason(c.finish), UsageFromChat(c.usage));
          assert Finale(c) == [delta, MessageStop];
          assert Finale(c)[1..] == [MessageStop];
          Read1(Closing, MessageStop);
        }
      case Chunk(frame) =>
        var step := Step(c, frame);
        var hello := if started then [] else [MessageStart, Ping];
        assert !started ==> hello[1..] == [Ping];
        Read1(Greeted, Ping);
        StepReads(c, frame);
        TranslateReads(step.cursor, true, payloads[1..]);
        ReadAppend(start, hello, step.events);
        ReadAppend(start, hello + step.events, Translate(step.cursor, true, payloads[1..]));
    }
  }

  /** Whatever arrives, what leaves is a complete, well-bracketed event stream. */
  lemma EventsFollowGrammar(payloads: seq<Payload>)
    ensures ReadAll(Unstarted, Translate(FRESH, false, payloads)) == Finished
  {
    TranslateReads(FRESH, false, payloads);
  }

  /** The index of every block start, in order. */
  function StartIndices(events: seq<Event>): seq<nat> {
    if events == [] then []
    else (if events[0].BlockStart? then [events[0].index] else []) + StartIndices(events[1..])
  }

  function FirstIndex(p: Phase): nat {
    match p
    case Between(n) => n
    case Inside(n, _) => n + 1
    case _ => 0
  }

  /** Any stream the reader accepts numbers its blocks consecutively. */
  lemma {:induction false} AcceptedStreamsNumberBlocks(p: Phase, events: seq<Event>, k: nat)
    requires ReadAll(p, events) == Finished && k < |StartIndices(events)|
    ensures StartIndices(events)[k] == FirstIndex(p) + k
    decreases |events|
  {
    if events[0].BlockStart? {
      FinishedFromBroken(Read(p, events[0]), events[1..]);
      if k > 0 {
        AcceptedStreamsNumberBlocks(Read(p, events[0]), events[1..], k - 1);
      }
    } else {
      FinishedFromBroken(Read(p, events[0]), events[1..]);
      AfterEnd(p, events);
      AcceptedStreamsNumberBlocks(Read(p, events[0]), events[1..], k);
    }
  }

  lemma {:induction false} FinishedFromBroken(p: Phase, events: seq<Event>)
    requires ReadAll(p, events) == Finished
    ensures p != Broken
    decreases |events|
  {
    if events != [] {
      FinishedFromBroken(Read(p, events[0]), events[1..]);
    }
  }

  /** Nothing is accepted after the end, and no block starts while closing. */
  lemma AfterEnd(p: Phase, events: seq<Event>)
    requires ReadAll(p, events) == Finished && events != []
    ensures p != Finished
    ensures Read(p, events[0]) == Finished ==> events[1..] == []
    ensures Read(p, events[0]) == Closing ==> StartIndices(events[1..]) == []
  {
    FinishedFromBroken(Read(p, events[0]), events[1..]);
    if events[1..] != [] {
      FinishedFromBroken(Read(Read(p, events[0]), events[1]), events[1..][1..]);
      if events[1..][1..] != [] && Read(p, events[0]) == Closing {
        FinishedFromBroken(Read(Finished, events[1..][1..][0]), events[1..][1..][1..]);
      }
    }
  }

  // Conservation -------------------------------------------------------------

  /** The content a stream carries, piece by piece. */
  datatype Piece = TextPiece(text: string) | ArgumentPiece(fragment: string)

  function Pieces(events: seq<Event>): seq<Piece> {
    if events == [] then []
    else (match events[0]
          case TextDelta(_, text) => [TextPiece(text)]
          case JsonDelta(_, fragment) => [ArgumentPiece(fragment)]
          case _ => [])
         + Pieces(events[1..])
  }

  /** The frames translated before the stream ends or fails. */
  function LiveFrames(payloads: seq<Payload>): seq<Frame> {
    if payloads == [] then []
    else match payloads[0]
      case Done => []
      case Failure(_) => []
      case Junk => LiveFrames(payloads[1..])
      case Chunk(frame) => [frame] + LiveFrames(payloads[1..])
  }

  /** One thing a frame contributes to the message. */
  datatype Atom = Said(text: string) | Called(call: CallDelta)

  function FrameAtoms(frame: Frame): seq<Atom> {
    if frame.choice.None? then []
    else
      var choice := frame.choice.value;
      (if choice.content == "" then [] else [Said(choice.content)]) + CallAtoms(choice.calls)
  }

  function CallAtoms(calls: seq<CallDelta>): seq<Atom> {
    seq(|calls|, i requires 0 <= i < |calls| => Called(calls[i]))
  }

  function Atoms(frames: seq<Frame>): seq<Atom> {
    if frames == [] then [] else FrameAtoms(frames[0]) + Atoms(frames[1..])
  }

  function AtomPieces(atoms: seq<Atom>): seq<Piece> {
    if atoms == [] then []
    else (match atoms[0]
          case Said(text) => [TextPiece(text)]
          case Called(call) => if call.arguments == "" then [] else [ArgumentPiece(call.arguments)])
         + AtomPieces(atoms[1..])
  }

  lemma {:induction false} PiecesAppend(a: seq<Event>, b: seq<Event>)
    ensures Pieces(a + b) == Pieces(a) + Pieces(b)
  {
    if a == [] {
      assert a + b == b;
    } else {
      assert (a + b)[1..] == a[1..] + b;
      PiecesAppend(a[1..], b);
    }
  }

  lemma {:induction false} AtomPiecesAppend(a: seq<Atom>, b: seq<Atom>)
    ensures AtomPieces(a + b) == AtomPieces(a) + AtomPieces(b)
  {
    if a == [] {
      assert a + b == b;
    } else {
      assert (a + b)[1..] == a[1..] + b;
      AtomPiecesAppend(a[1..], b);
    }
  }

  lemma ClosePieces(c: Cursor, opening: Event, delta: seq<Event>)
    requires opening.BlockStart?
    ensures Pieces(CloseBlock(c) + [opening] + delta) == Pieces(delta)
  {
    PiecesAppend(CloseBlock(c) + [opening], delta);
    PiecesAppend(CloseBlock(c), [opening]);
    assert [opening][1..] == [];
    assert !c.open.Closed? ==> CloseBlock(c)[1..] == [];
  }

  lemma SayPieces(c: Cursor, content: string)
    requires content != ""
    ensures Pieces(Say(c, content).events) == [TextPiece(content)]
  {
    var index := if c.open.TextOpen? then c.open.index else c.next;
    var delta := [TextDelta(index, content)];
    assert delta[1..] == [];
    if !c.open.TextOpen? {
      ClosePieces(c, BlockStart(c.next, TextHead), delta);
      assert Say(c, content).events == CloseBlock(c) + [BlockStart(c.next, TextHead)] + delta;
    }
  }

  lemma CallPieces(c: Cursor, call: CallDelta)
    ensures Pieces(CallTool(c, call).events) == AtomPieces([Called(call)])
  {
    var delta := Arguments(CallTool(c, call).cursor.open.index, call.arguments);
    assert call.arguments != "" ==> delta[1..] == [];
    assert [Called(call)][1..] == [];
    if !(c.open.ToolOpen? && c.open.tool == call.index) {
      ClosePieces(c, BlockStart(c.next, ToolHead(call.id, call.name)), delta);
    }
  }

  lemma {:induction false} CallsPieces(c: Cursor, calls: seq<CallDelta>)
    ensures Pieces(CallTools(c, calls).events) == AtomPieces(CallAtoms(calls))
    decreases |calls|
  {
    if calls != [] {
      var first := CallTool(c, calls[0]);
      CallPieces(c, calls[0]);
      CallsPieces(first.cursor, calls[1..]);
      PiecesAppend(first.events, CallTools(first.cursor, calls[1..]).events);
      assert CallAtoms(calls) == [Called(calls[0])] + CallAtoms(calls[1..]);
      AtomPiecesAppend([Called(calls[0])], CallAtoms(calls[1..]));
    }
  }

  lemma StepPieces(c: Cursor, frame: Frame)
    ensures Pieces(Step(c, frame).events) == AtomPieces(FrameAtoms(frame))
  {
    if frame.choice.Some? {
      var choice := frame.choice.value;
      var said := Say(Note(c, frame), choice.content);
      var head := if choice.content == "" then [] else [Said(choice.content)];
      assert choice.content != "" ==> head[1..] == [];
      if choice.content != "" {
        SayPieces(Note(c, frame), choice.content);
      }
      CallsPieces(said.cursor, choice.calls);
      PiecesAppend(said.events, CallTools(said.cursor, choice.calls).events);
      AtomPiecesAppend(head, CallAtoms(choice.calls));
    }
  }

  /** No text and no argument fragment is lost, invented, merged or reordered:
      the deltas that leave are the contents that arrived, in order. */
  lemma {:induction false} ContentIsConserved(c: Cursor, started: bool, payloads: seq<Payload>)
    ensures Pieces(Translate(c, started, payloads)) == AtomPieces(Atoms(LiveFrames(payloads)))
    decreases |payloads|
  {
    if payloads == [] {
      NoPieces(Opening(started) + [ErrorEvent(Truncated)]);
      return;
    }
    match payloads[0] {
      case Failure(body) => NoPieces(Opening(started) + [ErrorEvent(Upstream(body))]);
      case Done => NoPieces(Opening(started) + Finale(c));
      case Junk => ContentIsConserved(c, started, payloads[1..]);
      case Chunk(frame) =>
        var step := Step(c, frame);
        ContentIsConserved(step.cursor, true, payloads[1..]);
        StepPieces(c, frame);
        ChunkPieces(if started then [] else [MessageStart, Ping], step.events, frame,
                    Translate(step.cursor, true, payloads[1..]), LiveFrames(payloads[1..]));
        assert LiveFrames(payloads)[1..] == LiveFrames(payloads[1..]);
    }
  }

  lemma ChunkPieces(hello: seq<Event>, events: seq<Event>, frame: Frame, tail: seq<Event>, frames: seq<Frame>)
    requires forall e :: e in hello ==> !e.TextDelta? && !e.JsonDelta?
    requires Pieces(events) == AtomPieces(FrameAtoms(frame))
    requires Pieces(tail) == AtomPieces(Atoms(frames))
    ensures Pieces(hello + events + tail) == AtomPieces(FrameAtoms(frame) + Atoms(frames))
  {
    hide *;
    NoPieces(hello);
    PiecesAppend(hello, events);
    PiecesAppend(hello + events, tail);
    AtomPiecesAppend(FrameAtoms(frame), Atoms(frames));
  }

  lemma {:induction false} NoPieces(events: seq<Event>)
    requires forall e :: e in events ==> !e.TextDelta? && !e.JsonDelta?
    ensures Pieces(events) == []
  {
    if events != [] {
      NoPieces(events[1..]);
    }
  }

  // How a stream ends --------------------------------------------------------

  /** The first payload that ends the stream, or the end of what arrived. */
  ghost function EndOf(payloads: seq<Payload>): (k: nat)
    ensures k <= |payloads| && (k < |payloads| ==> payloads[k].Done? || payloads[k].Failure?)
    ensures forall i :: 0 <= i < k ==> payloads[i].Junk? || payloads[i].Chunk?
  {
    if payloads == [] || payloads[0].Done? || payloads[0].Failure? then 0 else 1 + EndOf(payloads[1..])
  }

  /** The last finish reason given before position `k`; empty when none was. */
  ghost function FinishBefore(payloads: seq<Payload>, k: nat): string
    requires k <= |payloads|
  {
    if k == 0 then ""
    else match payloads[k - 1]
      case Chunk(Frame(_, Some(choice))) => if choice.finish != "" then choice.finish else FinishBefore(payloads, k - 1)
      case _ => FinishBefore(payloads, k - 1)
  }

  /** The last usage reported before position `k`. */
  ghost function UsageBefore(payloads: seq<Payload>, k: nat): Option<ChatUsage>
    requires k <= |payloads|
  {
    if k == 0 then None
    else match payloads[k - 1]
      case Chunk(Frame(Some(usage), _)) => Some(usage)
      case _ => UsageBefore(payloads, k - 1)
  }

  /** The stop reason a finish reason is told as. */
  ghost predicate StopsAs(finish: string, stop: string) {
    stop == if finish == "tool_calls" then "tool_use" else if finish == "length" then "max_tokens" else "end_turn"
  }

  /** The counters a usage is told as: cached prompt tokens apart from the others, and
      named only when there are any. */
  ghost predicate CountsAs(usage: Option<ChatUsage>, u: Usage) {
    match usage
    case None => u == Usage(0, 0, None)
    case Some(ChatUsage(prompt, completion, cached)) =>
      && u.output == completion && u.input == prompt - cached
      && u.cacheRead == if cached == 0 then None else Some(cached)
  }

  ghost predicate EndsWith(events: seq<Event>, last: seq<Event>) {
    |events| >= |last| && events[|events| - |last|..] == last
  }

  /** A finished stream tells its last finish reason and usage; a failed one the
      upstream's error; one cut short that it was. */
  ghost predicate EndsAsGiven(payloads: seq<Payload>, events: seq<Event>) {
    var k := EndOf(payloads);
    if k == |payloads| then EndsWith(events, [ErrorEvent(Truncated)])
    else match payloads[k]
      case Failure(body) => EndsWith(events, [ErrorEvent(Upstream(body))])
      case _ =>
        exists stop, usage ::
          StopsAs(FinishBefore(payloads, k), stop) && CountsAs(UsageBefore(payloads, k), usage)
          && EndsWith(events, [MessageDelta(stop, usage), MessageStop])
  }

  ghost predicate Remembers(c: Cursor, payloads: seq<Payload>, i: nat)
    requires i <= |payloads|
  {
    c.finish == FinishBefore(payloads, i) && c.usage == UsageBefore(payloads, i)
  }

  lemma {:induction false} CallsKeepNotes(c: Cursor, calls: seq<CallDelta>)
    ensures var next := CallTools(c, calls).cursor; next.finish == c.finish && next.usage == c.usage
    decreases |calls|
  {
    if calls != [] {
      CallsKeepNotes(CallTool(c, calls[0]).cursor, calls[1..]);
    }
  }

  lemma StepRemembers(c: Cursor, payloads: seq<Payload>, i: nat)
    requires i < |payloads| && payloads[i].Chunk? && Remembers(c, payloads, i)
    ensures Remembers(Step(c, payloads[i].frame).cursor, payloads, i + 1)
  {
    var frame := payloads[i].frame;
    if frame.choice.Some? {
      CallsKeepNotes(Say(Note(c, frame), frame.choice.value.content).cursor, frame.choice.value.calls);
    }
  }

  lemma EndsAfter(head: seq<Event>, events: seq<Event>, last: seq<Event>)
    requires EndsWith(events, last)
    ensures EndsWith(head + events, last)
  {
    var all := head + events;
    assert all[|all| - |last|..] == events[|events| - |last|..];
  }

  ghost function Last(c: Cursor, end: Option<Payload>): seq<Event> {
    match end
    case None => [ErrorEvent(Truncated)]
    case Some(Failure(body)) => [ErrorEvent(Upstream(body))]
    case Some(_) => [MessageDelta(StopReason(c.finish), UsageFromChat(c.usage)), MessageStop]
  }

  /** From position `i` on: the run reaches the end with all it noted on the way. */
  lemma {:induction false} TranslateEnds(c: Cursor, started: bool, payloads: seq<Payload>, i: nat, k: nat) returns (final: Cursor)
    requires i <= k <= |payloads| && Remembers(c, payloads, i)
    requires k < |payloads| ==> payloads[k].Done? || payloads[k].Failure?
    requires forall j :: 0 <= j < k ==> payloads[j].Junk? || payloads[j].Chunk?
    ensures Remembers(final, payloads, k)
    ensures EndsWith(Translate(c, started, payloads[i..]), Last(final, if k < |payloads| then Some(payloads[k]) else None))
    decreases k - i
  {
    if i == k {
      final := c;
      EndsAfter(Opening(started) + if k < |payloads| && payloads[k].Done? then CloseBlock(c) else [],
                Last(c, if k < |payloads| then Some(payloads[k]) else None), Last(c, if k < |payloads| then Some(payloads[k]) else None));
      if k < |payloads| && payloads[k].Done? {
        assert Opening(started) + CloseBlock(c) + Last(c, Some(payloads[k])) == Opening(started) + Finale(c);
      }
    } else {
      assert payloads[i..][1..] == payloads[i + 1..];
      if payloads[i].Junk? {
        final := TranslateEnds(c, started, payloads, i + 1, k);
      } else {
        StepRemembers(c, payloads, i);
        var step := Step(c, payloads[i].frame);
        final := TranslateEnds(step.cursor, true, payloads, i + 1, k);
        EndsAfter((if started then [] else [MessageStart, Ping]) + step.events, Translate(step.cursor, true, payloads[i + 1..]),
                  Last(final, if k < |payloads| then Some(payloads[k]) else None));
      }
    }
  }

  /** Every stream ends as what arrived says it should. */
  lemma StreamEndsAsGiven(payloads: seq<Payload>)
    ensures EndsAsGiven(payloads, Translate(FRESH, false, payloads))
  {
    var k := EndOf(payloads);
    var final := TranslateEnds(FRESH, false, payloads, 0, k);
    assert payloads[0..] == payloads;
    assert StopsAs(final.finish, StopReason(final.finish)) && CountsAs(final.usage, UsageFromChat(final.usage));
  }
}

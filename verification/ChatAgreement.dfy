/** Streaming and non-streaming translation: reassembling the events of a stream
    gives the message that translating the assembled completion body gives, for the
    streams the gateway's chat encoder promises and, but for tool calls that look
    alike, for no others. */
module ChatAgreement {
  import opened Prelude
  import opened OrderedDict
  import opened Json
  import opened ChatStream
  import opened Sorting

  // The non-streaming translation --------------------------------------------

  datatype ToolEntry = ToolEntry(id: string, name: string, arguments: string)

  datatype BodyChoice = BodyChoice(refusal: string, content: string, calls: seq<ToolEntry>, finish: string)

  datatype Completion = Completion(choice: Option<BodyChoice>, usage: Option<ChatUsage>)

  /** Each translation mints ids of its own, and no two of them are ever equal. */
  datatype Translation = Streamed | Whole

  datatype BlockId = Given(id: string) | Minted(side: Translation, block: nat)

  datatype Content = TextContent(text: string) | ToolUse(id: BlockId, name: string, input: Dict<string, Json>)

  datatype Message = Message(content: seq<Content>, stop: string, usage: Usage)

  datatype MessageError = NoChoice | Refused(reason: string) | StreamFailed(error: StreamError) | Unfinished

  /** JSON parsing of tool arguments, left uninterpreted. */
  type Parser = string -> Option<Json>

  /** Unparseable or non-object arguments become an empty object. */
  function ToolInput(parse: Parser, arguments: string): Dict<string, Json> {
    match parse(if arguments == "" then "{}" else arguments)
    case Some(Obj(fields)) => fields
    case _ => []
  }

  function TranslateCompletion(parse: Parser, body: Completion): Result<Message, MessageError> {
    if body.choice.None? then Err(NoChoice)
    else
      var choice := body.choice.value;
      if choice.refusal != "" then Err(Refused(choice.refusal))
      else
        Ok(Message(
          Render(parse, Whole, (if choice.content == "" then [] else [TextBlock(choice.content)]) + ToolBlocks(choice.calls)),
          StopReason(choice.finish), UsageFromChat(body.usage)))
  }

  function ToolBlocks(calls: seq<ToolEntry>): seq<Block> {
    seq(|calls|, i requires 0 <= i < |calls| => ToolBlock(calls[i].id, calls[i].name, calls[i].arguments))
  }

  /** The block a tool call becomes: its own id if it has one, its name, and its
      arguments parsed, where nothing stands for an empty object and so does anything
      that is not one. */
  ghost predicate CallBecomes(parse: Parser, call: ToolEntry, at: nat, block: Content) {
    && block.ToolUse? && block.name == call.name
    && block.id == (if call.id != "" then Given(call.id) else Minted(Whole, at))
    && var parsed := if call.arguments != "" then parse(call.arguments) else parse("{}");
       block.input == if parsed.Some? && parsed.value.Obj? then parsed.value.fields else []
  }

  /** A body with a choice that is no refusal becomes a message: its text first if it
      has any, then its tool calls in order, with its finish reason and usage told as a
      stream tells them; any other body becomes the error it stands for. */
  lemma CompletionExactly(parse: Parser, body: Completion)
    ensures var r := TranslateCompletion(parse, body);
            && (body.choice.None? <==> r == Err(NoChoice))
            && (body.choice.Some? && body.choice.value.refusal != "" ==> r == Err(Refused(body.choice.value.refusal)))
            && (body.choice.Some? && body.choice.value.refusal == "" ==>
                  var choice, lead := body.choice.value, if body.choice.value.content == "" then 0 else 1;
                  && r.Ok? && |r.value.content| == lead + |choice.calls|
                  && (lead == 1 ==> r.value.content[0] == TextContent(choice.content))
                  && (forall i :: 0 <= i < |choice.calls| ==> CallBecomes(parse, choice.calls[i], lead + i, r.value.content[lead + i]))
                  && StopsAs(choice.finish, r.value.stop) && CountsAs(body.usage, r.value.usage))
  {
  }

  // A client reassembling the event stream -----------------------------------

  datatype Block = TextBlock(text: string) | ToolBlock(id: string, name: string, arguments: string) {
    function Head(): BlockHead {
      match this
      case TextBlock(_) => TextHead
      case ToolBlock(id, name, _) => ToolHead(id, name)
    }
  }

  function RenderBlock(parse: Parser, side: Translation, n: nat, b: Block): Content {
    match b
    case TextBlock(text) => TextContent(text)
    case ToolBlock(id, name, arguments) =>
      ToolUse(if id == "" then Minted(side, n) else Given(id), name, ToolInput(parse, arguments))
  }

  function Render(parse: Parser, side: Translation, blocks: seq<Block>): seq<Content> {
    seq(|blocks|, i requires 0 <= i < |blocks| => RenderBlock(parse, side, i, blocks[i]))
  }

  datatype Ending = Open | Ended(stop: string, usage: Usage) | Failed(error: StreamError)

  datatype Draft = Draft(blocks: seq<Block>, ending: Ending)

  function Opened(head: BlockHead): Block {
    match head
    case TextHead => TextBlock("")
    case ToolHead(id, name) => ToolBlock(id, name, "")
  }

  function Receive(d: Draft, e: Event): Draft {
    match e
    case BlockStart(i, head) => if i == |d.blocks| then d.(blocks := d.blocks + [Opened(head)]) else d
    case TextDelta(i, text) =>
      if i < |d.blocks| && d.blocks[i].TextBlock?
      then d.(blocks := d.blocks[i := TextBlock(d.blocks[i].text + text)]) else d
    case JsonDelta(i, fragment) =>
      if i < |d.blocks| && d.blocks[i].ToolBlock?
      then d.(blocks := d.blocks[i := d.blocks[i].(arguments := d.blocks[i].arguments + fragment)]) else d
    case MessageDelta(stop, usage) => d.(ending := Ended(stop, usage))
    case ErrorEvent(error) => d.(ending := Failed(error))
    case _ => d
  }

  function ReceiveAll(d: Draft, events: seq<Event>): Draft
    decreases |events|
  {
    if events == [] then d else ReceiveAll(Receive(d, events[0]), events[1..])
  }

  function Reassemble(parse: Parser, events: seq<Event>): Result<Message, MessageError> {
    var d := ReceiveAll(Draft([], Open), events);
    match d.ending
    case Open => Err(Unfinished)
    case Failed(error) => Err(StreamFailed(error))
    case Ended(stop, usage) => Ok(Message(Render(parse, Streamed, d.blocks), stop, usage))
  }

  // The completion body the frames add up to ---------------------------------

  const NO_ENTRY := ToolEntry("", "", "")

  function Either(first: string, second: string): string {
    if first != "" then first else second
  }

  /** Of the deltas of one tool index the first id and the first name count, and
      the argument fragments add up. */
  function Merge(so: ToolEntry, call: CallDelta): ToolEntry {
    ToolEntry(Either(so.id, call.id), Either(so.name, call.name), so.arguments + call.arguments)
  }

  function Accumulate(tools: Dict<int, ToolEntry>, call: CallDelta): Dict<int, ToolEntry> {
    Store(tools, call.index, Merge(Find(tools, call.index).GetOr(NO_ENTRY), call))
  }

  /** The tools in the order they were opened. */
  function Tools(atoms: seq<Atom>): Dict<int, ToolEntry> {
    if atoms == [] then []
    else
      var before := Tools(atoms[..|atoms| - 1]);
      match atoms[|atoms| - 1]
      case Said(_) => before
      case Called(call) => Accumulate(before, call)
  }

  function Spoken(atoms: seq<Atom>): string {
    if atoms == [] then ""
    else
      var before := Spoken(atoms[..|atoms| - 1]);
      if atoms[|atoms| - 1].Said? then before + atoms[|atoms| - 1].text else before
  }

  function Entries(tools: Dict<int, ToolEntry>): seq<ToolEntry> {
    seq(|tools|, i requires 0 <= i < |tools| => tools[i].1)
  }

  predicate ByIndex(a: (int, ToolEntry), b: (int, ToolEntry)) {
    a.0 <= b.0
  }

  predicate HasChoice(frames: seq<Frame>) {
    exists i :: 0 <= i < |frames| && frames[i].choice.Some?
  }

  function LastNote(frames: seq<Frame>): Cursor {
    if frames == [] then FRESH else Note(LastNote(frames[..|frames| - 1]), frames[|frames| - 1])
  }

  /** The body of the same completion requested without streaming: contents and
      per-index tool deltas put together, tools in index order, the last finish
      reason and usage. */
  function AssembledBody(frames: seq<Frame>): Completion {
    var note := LastNote(frames);
    Completion(if HasChoice(frames)
               then Some(BodyChoice("", Spoken(Atoms(frames)), Entries(Sort(Tools(Atoms(frames)), ByIndex)), note.finish))
               else None,
               note.usage)
  }

  // Which streams the encoder promises ---------------------------------------

  /** Whether `x` lands in the block that is open after `before`. */
  predicate Continues(before: seq<Atom>, x: Atom) {
    before != [] &&
    match (before[|before| - 1], x)
    case (Said(_), Said(_)) => true
    case (Called(a), Called(b)) => a.index == b.index
    case _ => false
  }

  predicate Mentions(atoms: seq<Atom>, index: int) {
    exists i :: 0 <= i < |atoms| && atoms[i].Called? && atoms[i].call.index == index
  }

  predicate AnyCall(atoms: seq<Atom>) {
    exists i :: 0 <= i < |atoms| && atoms[i].Called?
  }

  /** Text comes before every tool call, the deltas of one tool follow each other,
      and the first of them carries the id, and the name if any of them does. */
  predicate Sequential(atoms: seq<Atom>) {
    atoms == [] ||
    var before, x := atoms[..|atoms| - 1], atoms[|atoms| - 1];
    && Sequential(before)
    && match x
       case Said(_) => !AnyCall(before)
       case Called(call) =>
         if Continues(before, x) then call.name == "" || Find(Tools(before), call.index).GetOr(NO_ENTRY).name != ""
         else !Mentions(before, call.index) && call.id != ""
  }

  predicate InIndexOrder(tools: Dict<int, ToolEntry>) {
    forall i, j :: 0 <= i < j < |tools| ==> tools[i].0 < tools[j].0
  }

  /** What the encoder promises: text, then tool calls in index order, each
      introduced by an id-bearing frame. */
  predicate EncoderShaped(atoms: seq<Atom>) {
    Sequential(atoms) && InIndexOrder(Tools(atoms))
  }

  predicate ShowsAlike(parse: Parser, a: ToolEntry, b: ToolEntry) {
    a.id == b.id && a.name == b.name && ToolInput(parse, a.arguments) == ToolInput(parse, b.arguments)
  }

  /** Moving the tools into index order is not noticed: they are in that order, or
      what changes places looks alike. */
  predicate OrderUnnoticed(parse: Parser, tools: Dict<int, ToolEntry>) {
    var sorted := Sort(tools, ByIndex);
    |sorted| == |tools| && forall i :: 0 <= i < |tools| ==> ShowsAlike(parse, tools[i].1, sorted[i].1)
  }

  ghost predicate DistinctIds(tools: Dict<int, ToolEntry>) {
    forall i, j :: 0 <= i < j < |tools| ==> tools[i].1.id != tools[j].1.id
  }

  // Blocks by atoms ----------------------------------------------------------

  function Grow(b: Block, x: Atom): Block {
    match (b, x)
    case (TextBlock(text), Said(more)) => TextBlock(text + more)
    case (ToolBlock(id, name, arguments), Called(call)) => ToolBlock(id, name, arguments + call.arguments)
    case _ => b
  }

  function Begin(x: Atom): Block {
    match x
    case Said(text) => TextBlock(text)
    case Called(call) => ToolBlock(call.id, call.name, call.arguments)
  }

  /** The blocks the stream opens for these atoms. */
  function StreamBlocks(atoms: seq<Atom>): (blocks: seq<Block>)
    ensures atoms == [] <==> blocks == []
    ensures atoms != [] ==> (blocks[|blocks| - 1].TextBlock? <==> atoms[|atoms| - 1].Said?)
  {
    if atoms == [] then []
    else
      var before, x := atoms[..|atoms| - 1], atoms[|atoms| - 1];
      var blocks := StreamBlocks(before);
      if Continues(before, x) then blocks[|blocks| - 1 := Grow(blocks[|blocks| - 1], x)] else blocks + [Begin(x)]
  }

  function BlocksOf(text: string, tools: Dict<int, ToolEntry>): seq<Block> {
    (if text == "" then [] else [TextBlock(text)]) + ToolBlocks(Entries(tools))
  }

  /** The body's blocks, with its tools still in the order they were opened. */
  function OpenedBlocks(atoms: seq<Atom>): seq<Block> {
    BlocksOf(Spoken(atoms), Tools(atoms))
  }

  function BodyBlocks(atoms: seq<Atom>): seq<Block> {
    BlocksOf(Spoken(atoms), Sort(Tools(atoms), ByIndex))
  }

  // The stream builds StreamBlocks -------------------------------------------

  lemma {:induction false} ReceiveAppend(d: Draft, a: seq<Event>, b: seq<Event>)
    ensures ReceiveAll(d, a + b) == ReceiveAll(ReceiveAll(d, a), b)
    decreases |a|
  {
    if a == [] {
      assert a + b == b;
    } else {
      assert (a + b)[1..] == a[1..] + b;
      ReceiveAppend(Receive(d, a[0]), a[1..], b);
    }
  }

  lemma Receive1(d: Draft, e: Event)
    ensures ReceiveAll(d, [e]) == Receive(d, e)
  {
    assert [e][1..] == [];
  }

  /** Writer, reader and atoms are in step. */
  ghost predicate InStep(c: Cursor, d: Draft, atoms: seq<Atom>) {
    && d.blocks == StreamBlocks(atoms)
    && d.ending.Open?
    && c.next == |d.blocks|
    && (if atoms == [] then c.open == Closed
        else match atoms[|atoms| - 1]
          case Said(_) => c.open == TextOpen(c.next - 1)
          case Called(call) => c.open == ToolOpen(c.next - 1, call.index))
  }

  lemma CloseKeepsDraft(c: Cursor, d: Draft)
    ensures ReceiveAll(d, CloseBlock(c)) == d
  {
    if !c.open.Closed? {
      Receive1(d, BlockStop(c.open.index));
    }
  }

  lemma SayInStep(c: Cursor, d: Draft, atoms: seq<Atom>, content: string)
    requires InStep(c, d, atoms) && content != ""
    ensures InStep(Say(c, content).cursor, ReceiveAll(d, Say(c, content).events), atoms + [Said(content)])
  {
    Snoc(atoms, Said(content));
    if c.open.TextOpen? {
      Receive1(d, TextDelta(c.open.index, content));
    } else {
      var start, delta := BlockStart(c.next, TextHead), TextDelta(c.next, content);
      CloseKeepsDraft(c, d);
      ReceiveAppend(d, CloseBlock(c), [start, delta]);
      assert [start, delta][1..] == [delta];
      var d1 := Receive(d, start);
      Receive1(d1, delta);
      assert "" + content == content;
      assert d1.blocks[c.next := TextBlock(content)] == d.blocks + [TextBlock(content)];
    }
  }

  lemma CallInStep(c: Cursor, d: Draft, atoms: seq<Atom>, call: CallDelta)
    requires InStep(c, d, atoms)
    ensures InStep(CallTool(c, call).cursor, ReceiveAll(d, CallTool(c, call).events), atoms + [Called(call)])
  {
    Snoc(atoms, Called(call));
    var out := CallTool(c, call).cursor;
    var index := out.open.index;
    var arguments := Arguments(index, call.arguments);
    if c.open.ToolOpen? && c.open.tool == call.index {
      ArgumentsArrive(d, index, call.arguments);
    } else {
      var start := BlockStart(c.next, ToolHead(call.id, call.name));
      CloseKeepsDraft(c, d);
      ReceiveAppend(d, CloseBlock(c), [start]);
      Receive1(d, start);
      ReceiveAppend(d, CloseBlock(c) + [start], arguments);
      var d1 := Receive(d, start);
      ArgumentsArrive(d1, index, call.arguments);
      assert "" + call.arguments == call.arguments;
      assert d1.blocks[index := Begin(Called(call))] == d.blocks + [Begin(Called(call))];
    }
  }

  lemma ArgumentsArrive(d: Draft, index: nat, arguments: string)
    requires index < |d.blocks| && d.blocks[index].ToolBlock?
    ensures ReceiveAll(d, Arguments(index, arguments))
            == d.(blocks := d.blocks[index := d.blocks[index].(arguments := d.blocks[index].arguments + arguments)])
  {
    if arguments == "" {
      assert d.blocks[index].arguments + "" == d.blocks[index].arguments;
      assert d.blocks[index := d.blocks[index]] == d.blocks;
    } else {
      Receive1(d, JsonDelta(index, arguments));
    }
  }

  lemma {:induction false} CallsInStep(c: Cursor, d: Draft, atoms: seq<Atom>, calls: seq<CallDelta>)
    requires InStep(c, d, atoms)
    ensures InStep(CallTools(c, calls).cursor, ReceiveAll(d, CallTools(c, calls).events), atoms + CallAtoms(calls))
    decreases |calls|
  {
    if calls == [] {
      assert atoms + CallAtoms(calls) == atoms;
    } else {
      var first := CallTool(c, calls[0]);
      var d1 := ReceiveAll(d, first.events);
      CallInStep(c, d, atoms, calls[0]);
      CallsInStep(first.cursor, d1, atoms + [Called(calls[0])], calls[1..]);
      ReceiveAppend(d, first.events, CallTools(first.cursor, calls[1..]).events);
      assert atoms + CallAtoms(calls) == atoms + [Called(calls[0])] + CallAtoms(calls[1..]);
    }
  }

  lemma SayMaybeInStep(c: Cursor, d: Draft, atoms: seq<Atom>, content: string)
    requires InStep(c, d, atoms)
    ensures InStep(Say(c, content).cursor, ReceiveAll(d, Say(c, content).events),
                   atoms + (if content == "" then [] else [Said(content)]))
  {
    if content != "" {
      SayInStep(c, d, atoms, content);
    } else {
      assert atoms + [] == atoms;
    }
  }

  lemma StepInStep(c: Cursor, d: Draft, atoms: seq<Atom>, frame: Frame)
    requires InStep(c, d, atoms)
    ensures InStep(Step(c, frame).cursor, ReceiveAll(d, Step(c, frame).events), atoms + FrameAtoms(frame))
  {
    var noted := Note(c, frame);
    assert InStep(noted, d, atoms);
    if frame.choice.None? {
      assert atoms + FrameAtoms(frame) == atoms;
    } else {
      ChoiceInStep(noted, d, atoms, frame.choice.value);
    }
  }

  lemma ChoiceInStep(c: Cursor, d: Draft, atoms: seq<Atom>, choice: Choice)
    requires InStep(c, d, atoms)
    ensures var said := Say(c, choice.content);
            var called := CallTools(said.cursor, choice.calls);
            InStep(called.cursor, ReceiveAll(d, said.events + called.events),
                   atoms + ((if choice.content == "" then [] else [Said(choice.content)]) + CallAtoms(choice.calls)))
  {
    var said := Say(c, choice.content);
    var head := if choice.content == "" then [] else [Said(choice.content)];
    SayMaybeInStep(c, d, atoms, choice.content);
    CallsInStep(said.cursor, ReceiveAll(d, said.events), atoms + head, choice.calls);
    ReceiveAppend(d, said.events, CallTools(said.cursor, choice.calls).events);
    assert atoms + (head + CallAtoms(choice.calls)) == atoms + head + CallAtoms(choice.calls);
  }

  /** Payloads that reach their [DONE] without an error. */
  predicate Completes(payloads: seq<Payload>) {
    payloads != [] &&
    match payloads[0]
    case Done => true
    case Failure(_) => false
    case _ => Completes(payloads[1..])
  }

  lemma StepNotes(c: Cursor, frame: Frame)
    ensures Step(c, frame).cursor.finish == Note(c, frame).finish
    ensures Step(c, frame).cursor.usage == Note(c, frame).usage
  {
    if frame.choice.Some? {
      CallsNote(Say(Note(c, frame), frame.choice.value.content).cursor, frame.choice.value.calls);
    }
  }

  lemma {:induction false} CallsNote(c: Cursor, calls: seq<CallDelta>)
    ensures CallTools(c, calls).cursor.finish == c.finish && CallTools(c, calls).cursor.usage == c.usage
    decreases |calls|
  {
    if calls != [] {
      CallsNote(CallTool(c, calls[0]).cursor, calls[1..]);
    }
  }

  /** Frames seen so far and the cursor's notes about them. */
  ghost predicate Noted(c: Cursor, frames: seq<Frame>) {
    c.finish == LastNote(frames).finish && c.usage == LastNote(frames).usage
  }

  lemma {:induction false} AtomsAppend(a: seq<Frame>, b: seq<Frame>)
    ensures Atoms(a + b) == Atoms(a) + Atoms(b)
  {
    if a == [] {
      assert a + b == b;
    } else {
      assert (a + b)[1..] == a[1..] + b;
      AtomsAppend(a[1..], b);
    }
  }

  /** The message a client holds once these frames have been translated. */
  function Built(frames: seq<Frame>): Draft {
    var note := LastNote(frames);
    Draft(StreamBlocks(Atoms(frames)), Ended(StopReason(note.finish), UsageFromChat(note.usage)))
  }

  lemma {:induction false} StreamBuildsBlocks(c: Cursor, started: bool, payloads: seq<Payload>, d: Draft, seen: seq<Frame>)
    requires Completes(payloads)
    requires InStep(c, d, Atoms(seen)) && Noted(c, seen)
    ensures ReceiveAll(d, Translate(c, started, payloads)) == Built(seen + LiveFrames(payloads))
    decreases |payloads|
  {
    match payloads[0] {
      case Junk => StreamBuildsBlocks(c, started, payloads[1..], d, seen);
      case Done =>
        assert seen + LiveFrames(payloads) == seen;
        DoneEnds(c, started, d);
      case Chunk(frame) =>
        var step := Step(c, frame);
        ChunkInStep(c, d, seen, frame);
        StreamBuildsBlocks(step.cursor, true, payloads[1..], ReceiveAll(d, step.events), seen + [frame]);
        ChunkBuilds(c, started, payloads, d, seen);
    }
  }

  lemma ChunkBuilds(c: Cursor, started: bool, payloads: seq<Payload>, d: Draft, seen: seq<Frame>)
    requires payloads != [] && payloads[0].Chunk?
    requires var step := Step(c, payloads[0].frame);
             ReceiveAll(ReceiveAll(d, step.events), Translate(step.cursor, true, payloads[1..]))
             == Built(seen + [payloads[0].frame] + LiveFrames(payloads[1..]))
    ensures ReceiveAll(d, Translate(c, started, payloads)) == Built(seen + LiveFrames(payloads))
  {
    hide Step, Built, Receive, ReceiveAll;
    var frame := payloads[0].frame;
    var step := Step(c, frame);
    assert seen + LiveFrames(payloads) == seen + [frame] + LiveFrames(payloads[1..]);
    Receive3(d, if started then [] else [MessageStart, Ping], step.events, Translate(step.cursor, true, payloads[1..]));
  }

  lemma ChunkInStep(c: Cursor, d: Draft, seen: seq<Frame>, frame: Frame)
    requires InStep(c, d, Atoms(seen)) && Noted(c, seen)
    ensures InStep(Step(c, frame).cursor, ReceiveAll(d, Step(c, frame).events), Atoms(seen + [frame]))
    ensures Noted(Step(c, frame).cursor, seen + [frame])
  {
    StepInStep(c, d, Atoms(seen), frame);
    SeenOneMore(c, seen, frame);
  }

  lemma DoneEnds(c: Cursor, started: bool, d: Draft)
    ensures ReceiveAll(d, Opening(started) + Finale(c))
            == d.(ending := Ended(StopReason(c.finish), UsageFromChat(c.usage)))
  {
    var delta := MessageDelta(StopReason(c.finish), UsageFromChat(c.usage));
    SilentPrefix(d, Opening(started));
    ReceiveAppend(d, Opening(started), Finale(c));
    CloseKeepsDraft(c, d);
    ReceiveAppend(d, CloseBlock(c), [delta, MessageStop]);
    assert [delta, MessageStop][1..] == [MessageStop];
    Receive1(Receive(d, delta), MessageStop);
  }

  lemma Receive3(d: Draft, hello: seq<Event>, events: seq<Event>, tail: seq<Event>)
    requires hello in [[], [MessageStart], [MessageStart, Ping]]
    ensures ReceiveAll(d, hello + events + tail) == ReceiveAll(ReceiveAll(d, events), tail)
  {
    SilentPrefix(d, hello);
    ReceiveAppend(d, hello, events);
    ReceiveAppend(d, hello + events, tail);
  }

  lemma SeenOneMore(c: Cursor, seen: seq<Frame>, frame: Frame)
    requires Noted(c, seen)
    ensures Noted(Step(c, frame).cursor, seen + [frame])
    ensures Atoms(seen + [frame]) == Atoms(seen) + FrameAtoms(frame)
  {
    Snoc(seen, frame);
    StepNotes(c, frame);
    AtomsAppend(seen, [frame]);
    assert [frame][1..] == [];
    assert FrameAtoms(frame) + Atoms([]) == FrameAtoms(frame);
  }

  lemma SilentPrefix(d: Draft, events: seq<Event>)
    requires events in [[], [MessageStart], [MessageStart, Ping]]
    ensures ReceiveAll(d, events) == d
  {
    if events == [MessageStart, Ping] {
      assert events[1..] == [Ping];
      Receive1(d, Ping);
    } else if events == [MessageStart] {
      Receive1(d, MessageStart);
    }
  }

  // Sequential streams give the body's blocks, in the order they were opened ---

  lemma {:induction false} ToolsMention(atoms: seq<Atom>, index: int)
    ensures Find(Tools(atoms), index).Some? <==> Mentions(atoms, index)
    ensures Distinct(Tools(atoms))
  {
    if atoms != [] {
      hide Find, Has, Store, Distinct;
      var before, x := atoms[..|atoms| - 1], atoms[|atoms| - 1];
      ToolsMention(before, index);
      assert forall i :: 0 <= i < |before| ==> before[i] == atoms[i];
      if x.Called? {
        var entry := Merge(Find(Tools(before), x.call.index).GetOr(NO_ENTRY), x.call);
        StoreLookup(Tools(before), x.call.index, entry, index);
        StoreShape(Tools(before), x.call.index, entry);
      }
    }
  }

  lemma {:induction false} StoreAtEnd<K, V>(d: Dict<K, V>, key: K, value: V)
    requires Distinct(d) && d != [] && d[|d| - 1].0 == key
    ensures Store(d, key, value) == d[|d| - 1 := (key, value)]
    ensures Find(d, key) == Some(d[|d| - 1].1)
  {
    FindAt(d, |d| - 1);
    if |d| > 1 {
      StoreAtEnd(d[1..], key, value);
      assert d[1..][|d| - 2 := (key, value)] == d[|d| - 1 := (key, value)][1..];
    }
  }

  lemma {:induction false} NoCallsNoTools(atoms: seq<Atom>)
    requires !AnyCall(atoms)
    ensures Tools(atoms) == []
  {
    if atoms != [] {
      var before := atoms[..|atoms| - 1];
      assert forall i :: 0 <= i < |before| ==> before[i] == atoms[i];
      NoCallsNoTools(before);
    }
  }

  /** The tool being streamed is the last one opened. */
  lemma {:induction false} OpenToolIsLast(atoms: seq<Atom>)
    requires Sequential(atoms) && atoms != [] && atoms[|atoms| - 1].Called?
    ensures var tools := Tools(atoms); tools != [] && tools[|tools| - 1].0 == atoms[|atoms| - 1].call.index
  {
    var before, x := atoms[..|atoms| - 1], atoms[|atoms| - 1];
    var entry := Merge(Find(Tools(before), x.call.index).GetOr(NO_ENTRY), x.call);
    ToolsMention(before, x.call.index);
    hide Find, Store, Distinct, Mentions, Merge;
    if Continues(before, x) {
      OpenToolIsLast(before);
      StoreAtEnd(Tools(before), x.call.index, entry);
    } else {
      StoreShape(Tools(before), x.call.index, entry);
    }
  }

  ghost predicate AllIdentified(tools: Dict<int, ToolEntry>) {
    forall e :: e in tools ==> e.1.id != ""
  }

  lemma {:induction false} ToolsAreIdentified(atoms: seq<Atom>)
    requires Sequential(atoms)
    ensures AllIdentified(Tools(atoms))
  {
    if atoms != [] {
      var before, x := atoms[..|atoms| - 1], atoms[|atoms| - 1];
      ToolsAreIdentified(before);
      if x.Called? {
        var so := Find(Tools(before), x.call.index);
        ToolsMention(before, x.call.index);
        StoreShape(Tools(before), x.call.index, Merge(so.GetOr(NO_ENTRY), x.call));
        ContinuedIsMentioned(before, x);
        hide Find, Store, Distinct, Tools, Continues, Mentions;
      }
    }
  }

  lemma ContinuedIsMentioned(before: seq<Atom>, x: Atom)
    ensures x.Called? && Continues(before, x) ==> Mentions(before, x.call.index)
  {
  }

  /** The whole text is the first block; each tool is one block after it. */
  lemma {:induction false} SequentialBlocksAgree(atoms: seq<Atom>)
    requires Sequential(atoms) && NonEmptyText(atoms)
    ensures StreamBlocks(atoms) == OpenedBlocks(atoms)
  {
    if atoms == [] {
    } else {
      var before, x := atoms[..|atoms| - 1], atoms[|atoms| - 1];
      assert atoms == before + [x];
      assert forall i :: 0 <= i < |before| ==> before[i] == atoms[i];
      SequentialBlocksAgree(before);
      match x {
        case Said(text) => SaidAgrees(before, text);
        case Called(call) => CallAgrees(before, call);
      }
    }
  }

  predicate NonEmptyText(atoms: seq<Atom>) {
    forall i :: 0 <= i < |atoms| && atoms[i].Said? ==> atoms[i].text != ""
  }

  lemma {:induction false} SpokenWhenText(atoms: seq<Atom>)
    requires NonEmptyText(atoms)
    ensures atoms != [] && atoms[|atoms| - 1].Said? ==> Spoken(atoms) != ""
    ensures Spoken(atoms) != "" ==> exists i :: 0 <= i < |atoms| && atoms[i].Said?
  {
    if atoms != [] {
      var before := atoms[..|atoms| - 1];
      assert forall i :: 0 <= i < |before| ==> before[i] == atoms[i];
      SpokenWhenText(before);
    }
  }

  lemma SaidAgrees(before: seq<Atom>, text: string)
    requires !AnyCall(before) && NonEmptyText(before) && text != ""
    requires StreamBlocks(before) == OpenedBlocks(before)
    ensures StreamBlocks(before + [Said(text)]) == OpenedBlocks(before + [Said(text)])
  {
    Snoc(before, Said(text));
    NoCallsNoTools(before);
    assert ToolBlocks(Entries([])) == [];
    SpokenWhenText(before);
    assert "" + text == text;
    if before != [] {
      assert before[|before| - 1].Said?;
    }
  }

  lemma CallAgrees(before: seq<Atom>, call: CallDelta)
    requires Sequential(before + [Called(call)]) && NonEmptyText(before)
    requires StreamBlocks(before) == OpenedBlocks(before)
    ensures StreamBlocks(before + [Called(call)]) == OpenedBlocks(before + [Called(call)])
  {
    var x := Called(call);
    var tools := Tools(before);
    Snoc(before, x);
    ToolsMention(before, call.index);
    if Continues(before, x) {
      OpenToolIsLast(before);
      ToolsAreIdentified(before);
      FindAt(tools, |tools| - 1);
      GrowingToolAgrees(before, call);
    } else {
      FreshToolAgrees(before, call);
    }
  }

  lemma FreshToolAgrees(before: seq<Atom>, call: CallDelta)
    requires !Continues(before, Called(call)) && Find(Tools(before), call.index).None? && Distinct(Tools(before))
    requires StreamBlocks(before) == OpenedBlocks(before)
    ensures StreamBlocks(before + [Called(call)]) == OpenedBlocks(before + [Called(call)])
  {
    var x := Called(call);
    var tools := Tools(before);
    var entry := Merge(NO_ENTRY, call);
    Snoc(before, x);
    assert entry == ToolEntry(call.id, call.name, call.arguments);
    StoreShape(tools, call.index, entry);
    assert Tools(before + [x]) == tools + [(call.index, entry)];
    EntryAppended(Spoken(before), tools, (call.index, entry));
  }

  lemma EntryAppended(text: string, tools: Dict<int, ToolEntry>, last: (int, ToolEntry))
    ensures BlocksOf(text, tools + [last]) == BlocksOf(text, tools) + [ToolBlock(last.1.id, last.1.name, last.1.arguments)]
  {
    assert Entries(tools + [last]) == Entries(tools) + [last.1];
  }

  lemma GrowingToolAgrees(before: seq<Atom>, call: CallDelta)
    requires Continues(before, Called(call)) && StreamBlocks(before) == OpenedBlocks(before)
    requires var tools := Tools(before);
             && Distinct(tools) && tools != [] && tools[|tools| - 1].0 == call.index
             && tools[|tools| - 1].1.id != "" && (call.name == "" || tools[|tools| - 1].1.name != "")
    ensures StreamBlocks(before + [Called(call)]) == OpenedBlocks(before + [Called(call)])
  {
    hide *;
    var x := Called(call);
    var tools := Tools(before);
    var so := tools[|tools| - 1].1;
    StreamGrows(before, x);
    BodyGrows(before, call);
    LastEntryChanges(Spoken(before), tools, (call.index, Merge(so, call)));
    GrowTool(so, call);
  }

  lemma StreamGrows(before: seq<Atom>, x: Atom)
    requires Continues(before, x)
    ensures var blocks := StreamBlocks(before);
            blocks != [] && StreamBlocks(before + [x]) == blocks[|blocks| - 1 := Grow(blocks[|blocks| - 1], x)]
  {
    Snoc(before, x);
  }

  lemma BodyGrows(before: seq<Atom>, call: CallDelta)
    requires var tools := Tools(before); Distinct(tools) && tools != [] && tools[|tools| - 1].0 == call.index
    ensures var tools := Tools(before);
            var n := |tools| - 1;
            && OpenedBlocks(before) == BlocksOf(Spoken(before), tools)
            && OpenedBlocks(before + [Called(call)])
               == BlocksOf(Spoken(before), tools[n := (call.index, Merge(tools[n].1, call))])
  {
    var tools := Tools(before);
    Snoc(before, Called(call));
    StoreAtEnd(tools, call.index, Merge(tools[|tools| - 1].1, call));
  }

  lemma GrowTool(so: ToolEntry, call: CallDelta)
    requires so.id != "" && (call.name == "" || so.name != "")
    ensures var grown := Merge(so, call);
            Grow(ToolBlock(so.id, so.name, so.arguments), Called(call)) == ToolBlock(grown.id, grown.name, grown.arguments)
  {
  }

  lemma LastEntryChanges(text: string, tools: Dict<int, ToolEntry>, last: (int, ToolEntry))
    requires tools != []
    ensures var n := |tools| - 1;
            var blocks := BlocksOf(text, tools);
            && blocks != [] && blocks[|blocks| - 1] == ToolBlock(tools[n].1.id, tools[n].1.name, tools[n].1.arguments)
            && BlocksOf(text, tools[n := last]) == blocks[|blocks| - 1 := ToolBlock(last.1.id, last.1.name, last.1.arguments)]
  {
  }

  // ... and only sequential streams do -----------------------------------------

  function Heads(blocks: seq<Block>): (heads: seq<BlockHead>)
    ensures |heads| == |blocks|
    ensures forall i :: 0 <= i < |blocks| ==> heads[i] == blocks[i].Head()
  {
    seq(|blocks|, i requires 0 <= i < |blocks| => blocks[i].Head())
  }

  predicate TextOnlyFirst(heads: seq<BlockHead>) {
    forall i :: 1 <= i < |heads| ==> heads[i].ToolHead?
  }

  predicate IdsGiven(heads: seq<BlockHead>) {
    forall i :: 0 <= i < |heads| && heads[i].ToolHead? ==> heads[i].id != ""
  }

  function IsTool(head: BlockHead): nat {
    if head.ToolHead? then 1 else 0
  }

  function IsNameless(head: BlockHead): nat {
    if head.ToolHead? && head.name == "" then 1 else 0
  }

  function LacksName(e: (int, ToolEntry)): nat {
    if e.1.name == "" then 1 else 0
  }

  /** What one more atom does to the heads of the stream's blocks. */
  lemma StreamHeads(before: seq<Atom>, x: Atom)
    ensures Heads(StreamBlocks(before + [x]))
            == Heads(StreamBlocks(before)) + if Continues(before, x) then [] else [Begin(x).Head()]
  {
    Snoc(before, x);
    var blocks := StreamBlocks(before);
    if Continues(before, x) {
      var n := |blocks| - 1;
      assert Grow(blocks[n], x).Head() == blocks[n].Head();
    }
  }

  lemma {:induction false} TextOnlyFirstMeansTextBeforeCalls(atoms: seq<Atom>, k: nat)
    requires TextOnlyFirst(Heads(StreamBlocks(atoms)))
    requires k < |atoms| && atoms[k].Said?
    ensures !AnyCall(atoms[..k])
    decreases |atoms|
  {
    var before, x := atoms[..|atoms| - 1], atoms[|atoms| - 1];
    assert atoms == before + [x];
    StreamHeads(before, x);
    var heads := Heads(StreamBlocks(atoms));
    TextPrefix(before, x);
    if k < |before| {
      TextOnlyFirstMeansTextBeforeCalls(before, k);
      assert before[..k] == atoms[..k];
    } else if before != [] {
      assert before == atoms[..k];
      if !Continues(before, x) {
        assert false;
      } else {
        var n := |before| - 1;
        TextOnlyFirstMeansTextBeforeCalls(before, n);
        forall i | 0 <= i < |before| ensures !before[i].Called? {
          if i < n {
            assert before[..n][i] == before[i];
          }
        }
      }
    }
  }

  /** The stream opens at least as many tools, and leaves at least as many of them
      nameless, as the body lists. */
  lemma {:induction false} CountsLeaveNoGap(atoms: seq<Atom>)
    ensures |Tools(atoms)| <= Sum(Heads(StreamBlocks(atoms)), IsTool)
    ensures Sum(Tools(atoms), LacksName) <= Sum(Heads(StreamBlocks(atoms)), IsNameless)
  {
    if atoms != [] {
      var before, x := atoms[..|atoms| - 1], atoms[|atoms| - 1];
      assert atoms == before + [x];
      CountsLeaveNoGap(before);
      StreamCounts(before, x);
      ToolCounts(before, x);
      hide Tools, StreamBlocks, Heads, Sum, Continues, Mentions, NamesLate;
    }
  }

  /** How one more atom changes the counts of the stream's heads. */
  lemma StreamCounts(before: seq<Atom>, x: Atom)
    ensures var heads, after := Heads(StreamBlocks(before)), Heads(StreamBlocks(before + [x]));
            && Sum(after, IsTool) == Sum(heads, IsTool) + (if x.Called? && !Continues(before, x) then 1 else 0)
            && Sum(after, IsNameless)
               == Sum(heads, IsNameless) + (if x.Called? && !Continues(before, x) && x.call.name == "" then 1 else 0)
    ensures x.Called? && Continues(before, x) ==> Mentions(before, x.call.index)
  {
    var heads := Heads(StreamBlocks(before));
    StreamHeads(before, x);
    SumSnoc(heads, Begin(x).Head(), IsTool);
    SumSnoc(heads, Begin(x).Head(), IsNameless);
    assert heads + [] == heads;
    ContinuedIsMentioned(before, x);
    hide StreamBlocks, Heads, Continues, Sum, Mentions;
  }

  /** How one more atom changes the counts of the body's tools. */
  lemma ToolCounts(before: seq<Atom>, x: Atom)
    ensures |Tools(before + [x])| == |Tools(before)| + if x.Called? && !Mentions(before, x.call.index) then 1 else 0
    ensures Sum(Tools(before + [x]), LacksName)
            == Sum(Tools(before), LacksName)
               + (if x.Called? && !Mentions(before, x.call.index) && x.call.name == "" then 1 else 0)
               - (if x.Called? && Mentions(before, x.call.index) && NamesLate(before, x.call) then 1 else 0)
  {
    Snoc(before, x);
    if x.Called? {
      var tools, index := Tools(before), x.call.index;
      var entry := Merge(Find(tools, index).GetOr(NO_ENTRY), x.call);
      ToolsMention(before, index);
      StoreShape(tools, index, entry);
      StoreNameless(tools, index, entry);
      hide Store, Distinct, Sum, Mentions, Find;
    }
  }

  /** A continuing delta brings the first name of its tool. */
  predicate NamesLate(before: seq<Atom>, call: CallDelta) {
    call.name != "" && Find(Tools(before), call.index).GetOr(NO_ENTRY).name == ""
  }

  lemma SumSnoc<T>(s: seq<T>, x: T, weight: T -> nat)
    ensures Sum(s + [x], weight) == Sum(s, weight) + weight(x)
  {
    Snoc(s, x);
  }

  lemma {:induction false} StoreNameless(tools: Dict<int, ToolEntry>, key: int, entry: ToolEntry)
    ensures var so := Find(tools, key);
            Sum(Store(tools, key, entry), LacksName) + (if so.Some? then LacksName((key, so.value)) else 0)
            == Sum(tools, LacksName) + LacksName((key, entry))
  {
    var stored := Store(tools, key, entry);
    SumFirst(stored, LacksName);
    if tools != [] {
      SumFirst(tools, LacksName);
      if tools[0].0 != key {
        StoreNameless(tools[1..], key, entry);
        assert stored[1..] == Store(tools[1..], key, entry);
      } else {
        assert stored[1..] == tools[1..];
      }
    } else {
      assert stored[1..] == [];
    }
  }

  lemma TextPrefix(before: seq<Atom>, x: Atom)
    requires TextOnlyFirst(Heads(StreamBlocks(before + [x])))
    ensures TextOnlyFirst(Heads(StreamBlocks(before)))
  {
    hide StreamBlocks;
    var heads := Heads(StreamBlocks(before));
    StreamHeads(before, x);
    forall i | 1 <= i < |heads| ensures heads[i].ToolHead? {
      assert Heads(StreamBlocks(before + [x]))[i] == heads[i];
    }
  }

  lemma IdsPrefix(before: seq<Atom>, x: Atom)
    requires IdsGiven(Heads(StreamBlocks(before + [x])))
    ensures IdsGiven(Heads(StreamBlocks(before)))
    ensures x.Called? && !Continues(before, x) ==> x.call.id != ""
  {
    hide StreamBlocks, Continues;
    var heads, after := Heads(StreamBlocks(before)), Heads(StreamBlocks(before + [x]));
    StreamHeads(before, x);
    forall i | 0 <= i < |heads| && heads[i].ToolHead? ensures heads[i].id != "" {
      assert after[i] == heads[i];
    }
    if x.Called? && !Continues(before, x) {
      assert after[|heads|] == Begin(x).Head();
    }
  }

  /** The heads a sequential stream must have, and only it has. */
  ghost predicate Tight(atoms: seq<Atom>) {
    var heads := Heads(StreamBlocks(atoms));
    && TextOnlyFirst(heads) && IdsGiven(heads)
    && |Tools(atoms)| == Sum(heads, IsTool) && Sum(Tools(atoms), LacksName) == Sum(heads, IsNameless)
  }

  lemma TightStep(before: seq<Atom>, x: Atom)
    requires Tight(before + [x])
    ensures Tight(before)
    ensures x.Called? ==> if Continues(before, x) then !NamesLate(before, x.call)
                          else !Mentions(before, x.call.index) && x.call.id != ""
  {
    TextPrefix(before, x);
    IdsPrefix(before, x);
    StreamCounts(before, x);
    ToolCounts(before, x);
    CountsLeaveNoGap(before);
    hide StreamBlocks, Tools, Sum, Heads, Continues, Mentions, NamesLate, TextOnlyFirst, IdsGiven;
  }

  /** Equal counts leave no room for a reopened tool or a late name. */
  lemma {:induction false} TightIsSequential(atoms: seq<Atom>)
    requires Tight(atoms)
    ensures Sequential(atoms)
  {
    if atoms != [] {
      var before, x := atoms[..|atoms| - 1], atoms[|atoms| - 1];
      assert atoms == before + [x];
      TightStep(before, x);
      TightIsSequential(before);
      if x.Said? {
        TextOnlyFirstMeansTextBeforeCalls(atoms, |before|);
      }
      hide Tight, StreamBlocks, Tools, Continues, Mentions, Find;
    }
  }

  // The body's side ------------------------------------------------------------

  lemma {:induction false} ToolHeadsCount(tools: Dict<int, ToolEntry>)
    ensures Sum(Heads(ToolBlocks(Entries(tools))), IsTool) == |tools|
    ensures Sum(Heads(ToolBlocks(Entries(tools))), IsNameless) == Sum(tools, LacksName)
  {
    if tools != [] {
      var n := |tools| - 1;
      ToolHeadsCount(tools[..n]);
      var heads := Heads(ToolBlocks(Entries(tools)));
      assert heads[..n] == Heads(ToolBlocks(Entries(tools[..n])));
    }
  }

  lemma BodyHeads(atoms: seq<Atom>)
    ensures var heads := Heads(BodyBlocks(atoms));
            TextOnlyFirst(heads) && Sum(heads, IsTool) == |Tools(atoms)| && Sum(heads, IsNameless) == Sum(Tools(atoms), LacksName)
  {
    SortKeepsAll(Tools(atoms), ByIndex);
    SumSort(Tools(atoms), ByIndex, LacksName);
    TextAndToolHeads(Spoken(atoms), Sort(Tools(atoms), ByIndex));
    hide Sort, Tools, Sum, Heads, TextOnlyFirst, BlocksOf;
  }

  lemma TextAndToolHeads(text: string, tools: Dict<int, ToolEntry>)
    ensures var heads := Heads(BlocksOf(text, tools));
            TextOnlyFirst(heads) && Sum(heads, IsTool) == |tools| && Sum(heads, IsNameless) == Sum(tools, LacksName)
  {
    var blocks := ToolBlocks(Entries(tools));
    ToolHeadsCount(tools);
    AllTools(Entries(tools));
    hide Sum, Entries, ToolBlocks, Heads;
    assert forall i :: 0 <= i < |blocks| ==> blocks[i].Head().ToolHead? by {
      assert forall i :: 0 <= i < |blocks| ==> blocks[i] in blocks;
    }
    if text != "" {
      TextInFront(text, blocks);
      LeadingText(Heads(blocks));
    } else {
      assert [] + blocks == blocks;
    }
  }

  lemma AllTools(entries: seq<ToolEntry>)
    ensures forall b :: b in ToolBlocks(entries) ==> b.ToolBlock?
  {
  }

  lemma TextInFront(text: string, blocks: seq<Block>)
    ensures Heads([TextBlock(text)] + blocks) == [TextHead] + Heads(blocks)
  {
  }

  lemma LeadingText(heads: seq<BlockHead>)
    ensures Sum([TextHead] + heads, IsTool) == Sum(heads, IsTool)
    ensures Sum([TextHead] + heads, IsNameless) == Sum(heads, IsNameless)
  {
    assert ([TextHead] + heads)[1..] == heads;
    SumFirst([TextHead] + heads, IsTool);
    SumFirst([TextHead] + heads, IsNameless);
  }

  /** Equal messages have equal heads, and none of them minted. */
  lemma RenderShowsHeads(parse: Parser, a: seq<Block>, b: seq<Block>)
    requires Render(parse, Streamed, a) == Render(parse, Whole, b)
    ensures Heads(a) == Heads(b) && IdsGiven(Heads(a))
  {
    assert |Render(parse, Streamed, a)| == |a| && |Render(parse, Whole, b)| == |b|;
    forall i | 0 <= i < |a| ensures a[i].Head() == b[i].Head() && (a[i].ToolBlock? ==> a[i].id != "") {
      assert Render(parse, Streamed, a)[i] == Render(parse, Whole, b)[i];
    }
  }

  lemma {:induction false} AtomTextIsNonEmpty(frames: seq<Frame>)
    ensures NonEmptyText(Atoms(frames))
  {
    if frames != [] {
      AtomTextIsNonEmpty(frames[1..]);
    }
  }

  /** With every tool identified, moving the tools changes the message unless it
      goes unnoticed. */
  lemma OrderShows(parse: Parser, text: string, tools: Dict<int, ToolEntry>)
    requires AllIdentified(tools)
    ensures Render(parse, Streamed, BlocksOf(text, tools)) == Render(parse, Whole, BlocksOf(text, Sort(tools, ByIndex)))
            <==> OrderUnnoticed(parse, tools)
  {
    var sorted := Sort(tools, ByIndex);
    SortKeepsAll(tools, ByIndex);
    hide Sort, ToolInput;
    var a, b := BlocksOf(text, tools), BlocksOf(text, sorted);
    var ra, rb := Render(parse, Streamed, a), Render(parse, Whole, b);
    var from := if text == "" then 0 else 1;
    assert |ra| == |rb| == from + |tools|;
    forall i | 0 <= i < |tools| ensures ra[from + i] == rb[from + i] <==> ShowsAlike(parse, tools[i].1, sorted[i].1) {
      assert tools[i] in tools && sorted[i] in sorted;
      assert a[from + i] == ToolBlock(tools[i].1.id, tools[i].1.name, tools[i].1.arguments);
      assert b[from + i] == ToolBlock(sorted[i].1.id, sorted[i].1.name, sorted[i].1.arguments);
    }
    if OrderUnnoticed(parse, tools) {
      forall i | 0 <= i < |ra| ensures ra[i] == rb[i] {
        assert i >= from ==> ra[from + (i - from)] == rb[from + (i - from)];
      }
    }
  }

  lemma ByIndexIsPreorder()
    ensures Preorder(ByIndex)
  {
  }

  lemma InOrderIsSorted(tools: Dict<int, ToolEntry>)
    requires Distinct(tools)
    ensures InIndexOrder(tools) <==> Sort(tools, ByIndex) == tools
  {
    ByIndexIsPreorder();
    SortKeepsAll(tools, ByIndex);
    SortSorts(tools, ByIndex);
    InOrderIsOrdered(tools);
    hide Sort, Ordered, InIndexOrder, Preorder;
    if InIndexOrder(tools) {
      OrderedUnique(tools, Sort(tools, ByIndex), ByIndex) by {
        NoTiesInDict(tools);
      }
    }
  }

  lemma InOrderIsOrdered(tools: Dict<int, ToolEntry>)
    requires Distinct(tools)
    ensures InIndexOrder(tools) <==> Ordered(tools, ByIndex)
  {
  }

  lemma NoTiesInDict(tools: Dict<int, ToolEntry>)
    requires Distinct(tools)
    ensures NoTies(tools, ByIndex)
  {
  }

  /** Tools in index order go unnoticed; tools with ids of their own, only they. */
  lemma IndexOrderShows(parse: Parser, tools: Dict<int, ToolEntry>)
    requires Distinct(tools)
    ensures InIndexOrder(tools) ==> OrderUnnoticed(parse, tools)
    ensures DistinctIds(tools) && OrderUnnoticed(parse, tools) ==> InIndexOrder(tools)
  {
    var sorted := Sort(tools, ByIndex);
    InOrderIsSorted(tools);
    SortKeepsAll(tools, ByIndex);
    hide Sort, InIndexOrder, ToolInput;
    if DistinctIds(tools) && OrderUnnoticed(parse, tools) {
      forall i | 0 <= i < |tools| ensures sorted[i] == tools[i] {
        assert sorted[i] in sorted;
        var j :| 0 <= j < |tools| && tools[j] == sorted[i];
        assert ShowsAlike(parse, tools[i].1, sorted[i].1);
        assert tools[i].1.id == tools[j].1.id;
      }
    }
  }

  /** The agreement theorem. For a stream that reaches [DONE], the message a client
      reassembles is the message of the assembled body if and only if some frame
      carried a choice, the stream is sequential, and putting its tools in index
      order goes unnoticed. So it is for every encoder-shaped stream; and where no
      two tools share an id, for no other. */
  lemma StreamAgreesWithBody(parse: Parser, payloads: seq<Payload>)
    requires Completes(payloads)
    ensures var frames := LiveFrames(payloads);
            var agree := Reassemble(parse, Translate(FRESH, false, payloads)) == TranslateCompletion(parse, AssembledBody(frames));
            && (agree <==> HasChoice(frames) && Sequential(Atoms(frames)) && OrderUnnoticed(parse, Tools(Atoms(frames))))
            && (HasChoice(frames) && EncoderShaped(Atoms(frames)) ==> agree)
            && (DistinctIds(Tools(Atoms(frames))) ==> (agree <==> HasChoice(frames) && EncoderShaped(Atoms(frames))))
  {
    var frames := LiveFrames(payloads);
    var atoms := Atoms(frames);
    StreamBuildsBlocks(FRESH, false, payloads, Draft([], Open), []);
    assert [] + frames == frames;
    AtomTextIsNonEmpty(frames);
    BlocksAgree(parse, atoms);
    ToolsMention(atoms, 0);
    IndexOrderShows(parse, Tools(atoms));
    hide Completes, Atoms, LiveFrames, Translate, StreamBlocks, BlocksOf, Sequential, OrderUnnoticed, InIndexOrder, Tools, Sort, DistinctIds;
  }

  lemma BlocksAgree(parse: Parser, atoms: seq<Atom>)
    requires NonEmptyText(atoms)
    ensures Render(parse, Streamed, StreamBlocks(atoms)) == Render(parse, Whole, BodyBlocks(atoms))
            <==> Sequential(atoms) && OrderUnnoticed(parse, Tools(atoms))
  {
    hide Render, StreamBlocks, Tools, Sort, Heads, Sum, OrderUnnoticed, Sequential, AllIdentified, TextOnlyFirst, IdsGiven, BlocksOf;
    if Render(parse, Streamed, StreamBlocks(atoms)) == Render(parse, Whole, BodyBlocks(atoms)) {
      RenderShowsHeads(parse, StreamBlocks(atoms), BodyBlocks(atoms));
      BodyHeads(atoms);
      TightIsSequential(atoms);
    }
    if Sequential(atoms) {
      SequentialBlocksAgree(atoms);
      ToolsAreIdentified(atoms);
      OrderShows(parse, Spoken(atoms), Tools(atoms));
    }
  }

  const TEXT_AFTER_TOOL: seq<Payload> :=
    [Chunk(Frame(None, Some(Choice("", "", [CallDelta(0, "a", "f", "")])))), Chunk(Frame(None, Some(Choice("stop", "x", [])))), Done]

  /** A tool call and then text: the stream shows them in that order, the body shows
      the text first. */
  lemma TextAfterToolDisagrees(parse: Parser)
    ensures Completes(TEXT_AFTER_TOOL)
    ensures Reassemble(parse, Translate(FRESH, false, TEXT_AFTER_TOOL))
            != TranslateCompletion(parse, AssembledBody(LiveFrames(TEXT_AFTER_TOOL)))
  {
    TextAfterToolAtoms();
    var atoms := [Called(CallDelta(0, "a", "f", "")), Said("x")];
    assert atoms[..1][0].Called?;
    assert !Sequential(atoms);
    StreamAgreesWithBody(parse, TEXT_AFTER_TOOL);
    hide Translate, LiveFrames, Atoms, Sequential, Completes, Reassemble, AssembledBody;
  }

  lemma TextAfterToolAtoms()
    ensures Completes(TEXT_AFTER_TOOL)
    ensures Atoms(LiveFrames(TEXT_AFTER_TOOL)) == [Called(CallDelta(0, "a", "f", "")), Said("x")]
  {
    var first, second := TEXT_AFTER_TOOL[0].frame, TEXT_AFTER_TOOL[1].frame;
    assert TEXT_AFTER_TOOL[1..][0] == Chunk(second) && TEXT_AFTER_TOOL[1..][1..] == [Done];
    assert LiveFrames([Done]) == [];
    assert LiveFrames(TEXT_AFTER_TOOL) == [first] + ([second] + []);
    assert FrameAtoms(first) == [Called(CallDelta(0, "a", "f", ""))] && FrameAtoms(second) == [Said("x")];
    AtomsAppend([first], [second]);
    assert [first][1..] == [] && [second][1..] == [];
  }
}

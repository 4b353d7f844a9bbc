/** The object that translates one stream, and the loop that drives it. */
module MessageTranslator {
  import opened Prelude
  import opened SseFraming
  import opened ChatStream

  datatype BlockKind = TextKind | ToolKind

  /** Tracks the one open content block while translating one stream. */
  class StreamState {
    var nextBlockIndex: nat
    var openBlock: Option<nat>
    var openKind: Option<BlockKind>
    var openToolFor: Option<int>
    var finishReason: string
    var usage: Option<ChatUsage>

    /** The three `open` fields move together, and the open block is the newest. */
    ghost predicate Valid()
      reads this
    {
      && (openBlock.Some? <==> openKind.Some?)
      && (openToolFor.Some? <==> openKind == Some(ToolKind))
      && (openBlock.Some? ==> openBlock.value + 1 == nextBlockIndex)
    }

    /** The abstract cursor these fields stand for. */
    ghost function Now(): (c: Cursor)
      requires Valid()
      reads this
      ensures Coherent(c)
    {
      var open := match openKind
        case None => Closed
        case Some(TextKind) => TextOpen(openBlock.value)
        case Some(ToolKind) => ToolOpen(openBlock.value, openToolFor.value);
      Cursor(nextBlockIndex, open, finishReason, usage)
    }

    constructor ()
      ensures Valid() && Now() == FRESH
    {
      nextBlockIndex := 0;
      openBlock, openKind, openToolFor := None, None, None;
      finishReason, usage := "", None;
    }

    method CloseBlock() returns (events: seq<Event>)
      requires Valid()
      modifies this`openBlock, this`openKind, this`openToolFor
      ensures Valid() && Now() == old(Now()).(open := Closed)
      ensures events == ChatStream.CloseBlock(old(Now()))
    {
      if openBlock.None? {
        return [];
      }
      events := [BlockStop(openBlock.value)];
      openBlock, openKind, openToolFor := None, None, None;
    }

    method OpenTextBlock() returns (events: seq<Event>)
      requires Valid()
      modifies this
      ensures Valid()
      ensures var c := old(Now()); Now() == c.(next := c.next + 1, open := TextOpen(c.next))
      ensures events == ChatStream.CloseBlock(old(Now())) + [BlockStart(old(nextBlockIndex), TextHead)]
    {
      events := CloseBlock();
      var index := nextBlockIndex;
      nextBlockIndex := nextBlockIndex + 1;
      openBlock, openKind, openToolFor := Some(index), Some(TextKind), None;
      events := events + [BlockStart(index, TextHead)];
    }

    method OpenToolBlock(openaiIndex: int, call: CallDelta) returns (events: seq<Event>)
      requires Valid()
      modifies this
      ensures Valid()
      ensures var c := old(Now()); Now() == c.(next := c.next + 1, open := ToolOpen(c.next, openaiIndex))
      ensures events == ChatStream.CloseBlock(old(Now())) + [BlockStart(old(nextBlockIndex), ToolHead(call.id, call.name))]
    {
      events := CloseBlock();
      var index := nextBlockIndex;
      nextBlockIndex := nextBlockIndex + 1;
      openBlock, openKind, openToolFor := Some(index), Some(ToolKind), Some(openaiIndex);
      events := events + [BlockStart(index, ToolHead(call.id, call.name))];
    }

    method Finale() returns (events: seq<Event>)
      requires Valid()
      modifies this
      ensures Valid()
      ensures events == ChatStream.Finale(old(Now()))
    {
      events := CloseBlock();
      events := events + [MessageDelta(StopReason(finishReason), UsageFromChat(usage)), MessageStop];
    }

    /** One frame of the stream. */
    method Frame(frame: ChatStream.Frame) returns (events: seq<Event>)
      requires Valid()
      modifies this
      ensures Valid() && Emitted(Now(), events) == Step(old(Now()), frame)
    {
      events := [];
      if frame.usage.Some? {
        usage := frame.usage;
      }
      if frame.choice.None? {
        return;
      }
      var choice := frame.choice.value;
      if choice.finish != "" {
        finishReason := choice.finish;
      }
      if choice.content != "" {
        if openKind != Some(TextKind) {
          events := OpenTextBlock();
        }
        events := events + [TextDelta(openBlock.value, choice.content)];
      }
      assert Emitted(Now(), events) == Say(Note(old(Now()), frame), choice.content);
      var more := ToolCalls(choice.calls);
      events := events + more;
    }

    method ToolCalls(calls: seq<CallDelta>) returns (events: seq<Event>)
      requires Valid()
      modifies this
      ensures Valid() && Emitted(Now(), events) == CallTools(old(Now()), calls)
    {
      events := [];
      ghost var start := Now();
      for k := 0 to |calls|
        invariant Valid() && Emitted(Now(), events) == CallTools(start, calls[..k])
      {
        ghost var before := Now();
        var call := calls[k];
        var emitted: seq<Event> := [];
        if openKind != Some(ToolKind) || openToolFor != Some(call.index) {
          emitted := OpenToolBlock(call.index, call);
        }
        if call.arguments != "" {
          emitted := emitted + [JsonDelta(openBlock.value, call.arguments)];
        }
        assert Emitted(Now(), emitted) == CallTool(before, call);
        CallToolsSnoc(start, calls[..k], call);
        assert calls[..k + 1] == calls[..k] + [call];
        events := events + emitted;
      }
      assert calls[..|calls|] == calls;
    }
  }

  lemma {:induction false} CallToolsSnoc(c: Cursor, calls: seq<CallDelta>, call: CallDelta)
    ensures var before := CallTools(c, calls);
            var last := CallTool(before.cursor, call);
            CallTools(c, calls + [call]) == Emitted(last.cursor, before.events + last.events)
    decreases |calls|
  {
    if calls == [] {
      assert [call][1..] == [];
      assert CallTool(c, call).events + [] == CallTool(c, call).events;
      assert [] + CallTool(c, call).events == CallTool(c, call).events;
    } else {
      assert (calls + [call])[1..] == calls[1..] + [call];
      CallToolsSnoc(CallTool(c, calls[0]).cursor, calls[1..], call);
    }
  }

  function Decoded(decode: Bytes -> Payload, data: seq<Bytes>): (payloads: seq<Payload>)
    ensures |payloads| == |data|
  {
    seq(|data|, i requires 0 <= i < |data| => decode(data[i]))
  }

  /** What has been emitted, with what the rest of the payloads will add. */
  ghost predicate OnTrack(whole: seq<Event>, events: seq<Event>, c: Cursor, started: bool, payloads: seq<Payload>) {
    events + Translate(c, started, payloads) == whole
  }

  lemma TrackChunk(whole: seq<Event>, events: seq<Event>, c: Cursor, started: bool, payloads: seq<Payload>)
    requires OnTrack(whole, events, c, started, payloads) && payloads != [] && payloads[0].Chunk?
    ensures var step := Step(c, payloads[0].frame);
            OnTrack(whole, (events + if started then [] else [MessageStart, Ping]) + step.events, step.cursor, true, payloads[1..])
  {
    var step := Step(c, payloads[0].frame);
    var hello := if started then [] else [MessageStart, Ping];
    var rest := Translate(step.cursor, true, payloads[1..]);
    assert events + (hello + step.events + rest) == events + hello + step.events + rest;
  }

  lemma TrackJunk(whole: seq<Event>, events: seq<Event>, c: Cursor, started: bool, payloads: seq<Payload>)
    requires OnTrack(whole, events, c, started, payloads) && payloads != [] && payloads[0].Junk?
    ensures OnTrack(whole, events, c, started, payloads[1..])
  {
  }

  lemma TrackTruncated(whole: seq<Event>, events: seq<Event>, c: Cursor, started: bool, payloads: seq<Payload>)
    requires OnTrack(whole, events, c, started, payloads) && payloads == []
    ensures whole == events + Opening(started) + [ErrorEvent(Truncated)]
  {
    assert events + (Opening(started) + [ErrorEvent(Truncated)]) == events + Opening(started) + [ErrorEvent(Truncated)];
  }

  lemma TrackDone(whole: seq<Event>, events: seq<Event>, c: Cursor, started: bool, payloads: seq<Payload>)
    requires OnTrack(whole, events, c, started, payloads) && payloads != [] && payloads[0].Done?
    ensures whole == events + Opening(started) + Finale(c)
  {
    assert events + (Opening(started) + Finale(c)) == events + Opening(started) + Finale(c);
  }

  lemma TrackFailure(whole: seq<Event>, events: seq<Event>, c: Cursor, started: bool, payloads: seq<Payload>)
    requires OnTrack(whole, events, c, started, payloads) && payloads != [] && payloads[0].Failure?
    ensures whole == events + Opening(started) + [ErrorEvent(Upstream(payloads[0].body))]
  {
    var error := [ErrorEvent(Upstream(payloads[0].body))];
    assert events + (Opening(started) + error) == events + Opening(started) + error;
  }

  /** Translate a chunked stream. The events depend on the bytes alone, not on
      how the transport cut them, and always form a complete event stream that
      carries the contents received. */
  method TranslateChatSse(chunks: seq<Bytes>, decode: Bytes -> Payload) returns (events: seq<Event>)
    ensures events == Translate(FRESH, false, Decoded(decode, Payloads(Split(Flatten(chunks)).frames)))
    ensures forall carried :: Wrote(Flatten(chunks), carried) ==> events == Translate(FRESH, false, Decoded(decode, carried))
    ensures ReadAll(Unstarted, events) == Finished
    ensures EndsAsGiven(Decoded(decode, Payloads(Split(Flatten(chunks)).frames)), events)
    ensures Pieces(events)
            == AtomPieces(Atoms(LiveFrames(Decoded(decode, Payloads(Split(Flatten(chunks)).frames)))))
  {
    var data := IterSseData(chunks);
    var payloads := Decoded(decode, data);
    EventsFollowGrammar(payloads);
    StreamEndsAsGiven(payloads);
    hide EndsAsGiven;
    ContentIsConserved(FRESH, false, payloads);
    events := TranslatePayloads(payloads);
  }

  method TranslatePayloads(payloads: seq<Payload>) returns (events: seq<Event>)
    ensures events == Translate(FRESH, false, payloads)
  {
    hide Step, Translate;
    var state := new StreamState();
    var started := false;
    events := [];
    ghost var whole := Translate(FRESH, false, payloads);
    var rest := payloads;
    while rest != [] && !rest[0].Done?
      invariant state.Valid() && fresh(state)
      invariant OnTrack(whole, events, state.Now(), started, rest)
      decreases |rest|
    {
      var payload := rest[0];
      if payload.Failure? {
        TrackFailure(whole, events, state.Now(), started, rest);
        if !started {
          events := events + [MessageStart];
        }
        events := events + [ErrorEvent(Upstream(payload.body))];
        return;
      }
      if payload.Chunk? {
        TrackChunk(whole, events, state.Now(), started, rest);
        if !started {
          events := events + [MessageStart, Ping];
          started := true;
        }
        var emitted := state.Frame(payload.frame);
        events := events + emitted;
      } else {
        TrackJunk(whole, events, state.Now(), started, rest);
      }
      rest := rest[1..];
    }
    if rest == [] {
      TrackTruncated(whole, events, state.Now(), started, rest);
    } else {
      TrackDone(whole, events, state.Now(), started, rest);
    }
    if !started {
      events := events + [MessageStart];
    }
    if rest == [] {
      events := events + [ErrorEvent(Truncated)];
      return;
    }
    var last := state.Finale();
    events := events + last;
  }
}

/** The LF-only subset of server-sent-event framing (section 9.2 of the WHATWG
    HTML standard) that the gateway reads and writes: a frame ends at a blank
    line, and its payload lines start with `data:`. */
module SseFraming {
  import opened Prelude

  type byte = x: int | 0 <= x < 256
  type Bytes = seq<byte>

  const LF: byte := 10
  const BLANK_LINE: Bytes := [10, 10]
  const DATA_PREFIX: Bytes := [100, 97, 116, 97, 58] // "data:"

  predicate BreakAt(s: Bytes, i: int) {
    0 <= i && i + 1 < |s| && s[i] == LF && s[i + 1] == LF
  }

  ghost predicate NoBreak(s: Bytes) {
    forall i :: !BreakAt(s, i)
  }

  /** Position of the first blank line, or `|s|` when there is none. */
  function FirstBreak(s: Bytes): (i: nat)
    ensures i <= |s|
    ensures i < |s| ==> BreakAt(s, i)
    ensures forall j :: 0 <= j < i ==> !BreakAt(s, j)
  {
    FirstBreakFrom(s, 0)
  }

  function FirstBreakFrom(s: Bytes, from: nat): (i: nat)
    requires from <= |s|
    ensures from <= i <= |s|
    ensures i < |s| ==> BreakAt(s, i)
    ensures forall j :: from <= j < i ==> !BreakAt(s, j)
    decreases |s| - from
  {
    if from == |s| || BreakAt(s, from) then from else FirstBreakFrom(s, from + 1)
  }

  /** A byte string cut at its blank lines: completed frames, and the tail that
      no blank line has terminated yet. */
  datatype Framing = Framing(frames: seq<Bytes>, rest: Bytes)

  function Split(s: Bytes): Framing
    decreases |s|
  {
    var i := FirstBreak(s);
    if i == |s| then Framing([], s)
    else
      var tail := Split(s[i + 2..]);
      Framing([s[..i]] + tail.frames, tail.rest)
  }

  /** The inverse: every frame followed by its blank line, then the tail. */
  function Join(frames: seq<Bytes>, rest: Bytes): Bytes {
    if frames == [] then rest else frames[0] + BLANK_LINE + Join(frames[1..], rest)
  }

  /** What a completed frame looks like: no blank line inside, and not ending in
      a line feed (that line feed would have started the terminator earlier). */
  ghost predicate FrameLike(f: Bytes) {
    NoBreak(f) && (|f| > 0 ==> f[|f| - 1] != LF)
  }

  ghost predicate WellFramed(w: Framing) {
    (forall f :: f in w.frames ==> FrameLike(f)) && NoBreak(w.rest)
  }

  lemma {:induction false} SplitJoin(s: Bytes)
    ensures Join(Split(s).frames, Split(s).rest) == s
    ensures WellFramed(Split(s))
    decreases |s|
  {
    var i := FirstBreak(s);
    if i < |s| {
      SplitJoin(s[i + 2..]);
      var f := s[..i];
      assert s == f + BLANK_LINE + s[i + 2..];
      forall j ensures !BreakAt(f, j) {
        assert BreakAt(f, j) ==> BreakAt(s, j);
      }
      assert |f| > 0 && f[i - 1] == LF ==> BreakAt(s, i - 1);
    } else {
      forall j ensures !BreakAt(s, j) {}
    }
  }

  /** Any well-framed list of frames and tail is what splitting its bytes gives:
      with SplitJoin this determines Split completely. */
  lemma {:induction false} JoinSplit(w: Framing)
    requires WellFramed(w)
    ensures Split(Join(w.frames, w.rest)) == w
    decreases |w.frames|
  {
    var s := Join(w.frames, w.rest);
    if w.frames == [] {
      assert FirstBreak(s) < |s| ==> BreakAt(w.rest, FirstBreak(s));
    } else {
      var f := w.frames[0];
      var tail := Join(w.frames[1..], w.rest);
      assert s == f + BLANK_LINE + tail;
      FirstBreakOfFrame(f, tail);
      assert s[|f| + 2..] == tail && s[..|f|] == f;
      JoinSplit(Framing(w.frames[1..], w.rest));
      assert w.frames == [f] + w.frames[1..];
    }
  }

  lemma FirstBreakOfFrame(f: Bytes, tail: Bytes)
    requires FrameLike(f)
    ensures FirstBreak(f + BLANK_LINE + tail) == |f|
  {
    var s := f + BLANK_LINE + tail;
    assert BreakAt(s, |f|);
    forall j | 0 <= j < |f| ensures !BreakAt(s, j) {
      assert !BreakAt(f, j);
      assert j + 1 < |f| ==> s[j + 1] == f[j + 1];
    }
  }

  lemma {:induction false} JoinAppend(a: seq<Bytes>, b: seq<Bytes>, rest: Bytes)
    ensures Join(a + b, rest) == Join(a, Join(b, rest))
  {
    if a == [] {
      assert a + b == b;
    } else {
      assert (a + b)[1..] == a[1..] + b;
      JoinAppend(a[1..], b, rest);
    }
  }

  lemma {:induction false} JoinTail(frames: seq<Bytes>, rest: Bytes, more: Bytes)
    ensures Join(frames, rest) + more == Join(frames, rest + more)
  {
    if frames != [] {
      JoinTail(frames[1..], rest, more);
      var head := frames[0] + BLANK_LINE;
      assert head + Join(frames[1..], rest) + more == head + (Join(frames[1..], rest) + more);
    }
  }

  /** Splitting a prefix first and feeding its tail back in front of what comes
      next loses nothing: the heart of chunk-boundary independence. */
  lemma SplitAppend(s: Bytes, t: Bytes)
    ensures Split(s + t) ==
            Framing(Split(s).frames + Split(Split(s).rest + t).frames, Split(Split(s).rest + t).rest)
  {
    var a := Split(s);
    var b := Split(a.rest + t);
    SplitJoin(s);
    SplitJoin(a.rest + t);
    JoinTail(a.frames, a.rest, t);
    JoinAppend(a.frames, b.frames, b.rest);
    JoinSplit(Framing(a.frames + b.frames, b.rest));
  }

  // Payload lines ------------------------------------------------------------

  /** `frame.split(b"\n")`. */
  function Lines(frame: Bytes): (lines: seq<Bytes>)
    ensures |lines| > 0
    ensures forall l :: l in lines ==> LF !in l
  {
    if LF !in frame then [frame]
    else
      var i := FirstLf(frame);
      [frame[..i]] + Lines(frame[i + 1..])
  }

  function FirstLf(s: Bytes): (i: nat)
    requires LF in s
    ensures i < |s| && s[i] == LF && LF !in s[..i]
  {
    if s[0] == LF then 0 else 1 + FirstLf(s[1..])
  }

  predicate IsSpace(b: byte) {
    b == 32 || 9 <= b <= 13
  }

  /** `bytes.strip()`. */
  function Strip(s: Bytes): (t: Bytes)
    ensures |t| > 0 ==> !IsSpace(t[0]) && !IsSpace(t[|t| - 1])
    decreases |s|
  {
    if s == [] then []
    else if IsSpace(s[0]) then Strip(s[1..])
    else if IsSpace(s[|s| - 1]) then Strip(s[..|s| - 1])
    else s
  }

  /** The payload a line carries, as a sequence of length zero or one. */
  function LinePayload(line: Bytes): seq<Bytes> {
    if DATA_PREFIX <= line then [Strip(line[|DATA_PREFIX|..])] else []
  }

  function LinePayloads(lines: seq<Bytes>): seq<Bytes> {
    if lines == [] then [] else LinePayload(lines[0]) + LinePayloads(lines[1..])
  }

  function Payloads(frames: seq<Bytes>): seq<Bytes> {
    if frames == [] then [] else LinePayloads(Lines(frames[0])) + Payloads(frames[1..])
  }

  lemma {:induction false} LinePayloadsAppend(a: seq<Bytes>, b: seq<Bytes>)
    ensures LinePayloads(a + b) == LinePayloads(a) + LinePayloads(b)
  {
    if a == [] {
      assert a + b == b;
    } else {
      assert (a + b)[1..] == a[1..] + b;
      LinePayloadsAppend(a[1..], b);
    }
  }

  lemma {:induction false} PayloadsAppend(a: seq<Bytes>, b: seq<Bytes>)
    ensures Payloads(a + b) == Payloads(a) + Payloads(b)
  {
    if a == [] {
      assert a + b == b;
    } else {
      assert (a + b)[1..] == a[1..] + b;
      PayloadsAppend(a[1..], b);
    }
  }

  // Round trip -----------------------------------------------------------------

  /** ASCII text as bytes. */
  ghost function Ascii(text: string): Bytes {
    seq(|text|, i requires 0 <= i < |text| => if text[i] < 128 as char then text[i] as int as byte else 0)
  }

  /** What a line may hold around its payload: blanks, tabs and the like, but no
      line feed. */
  const BLANKS: set<byte> := {9, 11, 12, 13, 32}

  /** A line as its writer means it: a payload with blanks around it, or anything
      else (an event name, a comment). */
  datatype Line = Data(before: Bytes, payload: Bytes, after: Bytes) | Other(text: Bytes)

  ghost predicate AllBlank(s: Bytes) {
    forall b :: b in s ==> b in BLANKS
  }

  /** Payloads hold no line feed and neither start nor end in a blank; other lines
      are not empty and do not start like a payload line. */
  ghost predicate Meant(line: Line) {
    match line
    case Data(before, payload, after) =>
      && AllBlank(before) && AllBlank(after) && LF !in payload
      && (payload != [] ==> payload[0] !in BLANKS && payload[|payload| - 1] !in BLANKS)
    case Other(text) => text != [] && LF !in text && !(Ascii("data:") <= text)
  }

  ghost predicate AllMeant(frames: seq<seq<Line>>) {
    forall f, l :: f in frames && l in f ==> Meant(l)
  }

  ghost function LineBytes(line: Line): Bytes {
    match line
    case Data(before, payload, after) => Ascii("data:") + before + payload + after
    case Other(text) => text
  }

  ghost function AllLineBytes(lines: seq<Line>): (r: seq<Bytes>)
    ensures |r| == |lines|
  {
    seq(|lines|, i requires 0 <= i < |lines| => LineBytes(lines[i]))
  }

  /** Lines with a line feed between any two. */
  function JoinLines(lines: seq<Bytes>): Bytes {
    if lines == [] then []
    else if |lines| == 1 then lines[0]
    else lines[0] + [LF] + JoinLines(lines[1..])
  }

  /** Each frame ends at a blank line; the tail is a frame still under way. */
  ghost function StreamBytes(frames: seq<seq<Line>>, tail: Bytes): Bytes {
    if frames == [] then tail
    else JoinLines(AllLineBytes(frames[0])) + Ascii("\n\n") + StreamBytes(frames[1..], tail)
  }

  ghost function FrameCarries(lines: seq<Line>): seq<Bytes> {
    if lines == [] then []
    else (if lines[0].Data? then [lines[0].payload] else []) + FrameCarries(lines[1..])
  }

  ghost function Carries(frames: seq<seq<Line>>): seq<Bytes> {
    if frames == [] then [] else FrameCarries(frames[0]) + Carries(frames[1..])
  }

  lemma Constants()
    ensures Ascii("data:") == DATA_PREFIX && Ascii("\n\n") == BLANK_LINE
  {
  }

  /** Splitting at line feeds and joining again is the identity. */
  lemma {:induction false} LinesJoin(frame: Bytes)
    ensures JoinLines(Lines(frame)) == frame
    decreases |frame|
  {
    if LF in frame {
      var i := FirstLf(frame);
      LinesJoin(frame[i + 1..]);
      assert frame == frame[..i] + [LF] + frame[i + 1..];
      assert Lines(frame)[1..] == Lines(frame[i + 1..]);
    }
  }

  lemma {:induction false} JoinLinesSplits(lines: seq<Bytes>)
    requires lines != [] && forall l :: l in lines ==> LF !in l
    ensures Lines(JoinLines(lines)) == lines
    decreases |lines|
  {
    var frame := JoinLines(lines);
    assert lines[0] in lines;
    if |lines| > 1 {
      JoinLinesSplits(lines[1..]);
      var rest := JoinLines(lines[1..]);
      assert frame == lines[0] + [LF] + rest;
      assert frame[|lines[0]|] == LF;
      FirstLfIs(lines[0], rest);
      assert frame[..|lines[0]|] == lines[0] && frame[|lines[0]| + 1..] == rest;
      assert lines == [lines[0]] + lines[1..];
    }
  }

  lemma {:induction false} FirstLfIs(head: Bytes, rest: Bytes)
    requires LF !in head
    ensures LF in head + [LF] + rest && FirstLf(head + [LF] + rest) == |head|
  {
    var s := head + [LF] + rest;
    assert s[|head|] == LF;
    if head != [] {
      assert s[0] == head[0];
      FirstLfIs(head[1..], rest);
      assert s[1..] == head[1..] + [LF] + rest;
    }
  }

  /** Stripping takes white space off both ends and nothing else. */
  lemma {:induction false} StripTakesEnds(s: Bytes) returns (lo: nat, hi: nat)
    ensures lo <= hi <= |s| && Strip(s) == s[lo..hi]
    ensures forall i :: 0 <= i < lo || hi <= i < |s| ==> IsSpace(s[i])
    decreases |s|
  {
    hide IsSpace;
    if s != [] && IsSpace(s[0]) {
      lo, hi := StripTakesEnds(s[1..]);
      assert s[1..][lo..hi] == s[lo + 1..hi + 1];
      lo, hi := lo + 1, hi + 1;
    } else if s != [] && IsSpace(s[|s| - 1]) {
      lo, hi := StripTakesEnds(s[..|s| - 1]);
      assert s[..|s| - 1][lo..hi] == s[lo..hi];
    } else {
      lo, hi := 0, |s|;
    }
  }

  lemma {:induction false} StripLead(before: Bytes, rest: Bytes)
    requires AllBlank(before)
    ensures Strip(before + rest) == Strip(rest)
  {
    if before == [] {
      assert before + rest == rest;
    } else {
      assert before[0] in before && IsSpace(before[0]);
      StripLead(before[1..], rest);
      assert (before + rest)[1..] == before[1..] + rest;
    }
  }

  lemma {:induction false} StripTrail(core: Bytes, after: Bytes)
    requires AllBlank(after) && core != [] && !IsSpace(core[0]) && !IsSpace(core[|core| - 1])
    ensures Strip(core + after) == core
  {
    var s := core + after;
    if after == [] {
      assert s == core;
    } else {
      var n := |after| - 1;
      assert after[n] in after && IsSpace(s[|s| - 1]);
      StripTrail(core, after[..n]);
      assert s[..|s| - 1] == core + after[..n];
    }
  }

  lemma StripFinds(before: Bytes, payload: Bytes, after: Bytes)
    requires Meant(Data(before, payload, after))
    ensures Strip(before + payload + after) == payload
  {
    MeantEnds(before, payload, after);
    hide *;
    assert before + payload + after == before + (payload + after);
    StripLead(before, payload + after);
    if payload == [] {
      assert payload + after == after;
      StripBlank(after);
    } else {
      StripTrail(payload, after);
    }
  }

  lemma MeantEnds(before: Bytes, payload: Bytes, after: Bytes)
    requires Meant(Data(before, payload, after))
    ensures AllBlank(before) && AllBlank(after)
    ensures payload != [] ==> !IsSpace(payload[0]) && !IsSpace(payload[|payload| - 1])
  {
    if payload != [] {
      assert payload[0] in payload && payload[|payload| - 1] in payload;
    }
    hide AllBlank;
  }

  lemma {:induction false} StripBlank(s: Bytes)
    requires AllBlank(s)
    ensures Strip(s) == []
  {
    if s != [] {
      assert s[0] in s;
      StripBlank(s[1..]);
    }
  }

  lemma LineCarries(line: Line)
    requires Meant(line)
    ensures LinePayload(LineBytes(line)) == if line.Data? then [line.payload] else []
    ensures LineBytes(line) != [] && LF !in LineBytes(line)
  {
    Constants();
    hide Ascii, Strip;
    if line.Data? {
      var bytes := LineBytes(line);
      assert bytes[..|DATA_PREFIX|] == DATA_PREFIX;
      assert bytes[|DATA_PREFIX|..] == line.before + line.payload + line.after;
      StripFinds(line.before, line.payload, line.after);
      assert LF !in DATA_PREFIX;
    }
  }

  lemma {:induction false} LinesCarry(lines: seq<Line>)
    requires forall l :: l in lines ==> Meant(l)
    ensures LinePayloads(AllLineBytes(lines)) == FrameCarries(lines)
  {
    hide LineBytes, LinePayload, Meant;
    if lines != [] {
      assert lines[0] in lines;
      LineCarries(lines[0]);
      LinesCarry(lines[1..]);
      assert AllLineBytes(lines)[1..] == AllLineBytes(lines[1..]);
    }
  }

  /** What was meant as a frame is one, and yields what it carries. */
  lemma FrameRoundTrip(lines: seq<Line>)
    requires forall l :: l in lines ==> Meant(l)
    ensures FrameLike(JoinLines(AllLineBytes(lines)))
    ensures LinePayloads(Lines(JoinLines(AllLineBytes(lines)))) == FrameCarries(lines)
  {
    var bytes := AllLineBytes(lines);
    hide LineBytes, LinePayload, Meant, FrameCarries;
    forall b | b in bytes ensures b != [] && LF !in b {
      var i :| 0 <= i < |bytes| && bytes[i] == b;
      assert lines[i] in lines;
      LineCarries(lines[i]);
    }
    if lines == [] {
      NothingCarried();
    } else {
      LinesCarry(lines);
      JoinLinesSplits(bytes);
      SolidJoins(bytes);
    }
  }

  lemma NothingCarried()
    ensures Lines([]) == [[]] && LinePayloads(Lines([])) == [] && FrameCarries([]) == [] && FrameLike([])
  {
    assert Lines([])[1..] == [];
  }

  lemma {:induction false} SolidJoins(lines: seq<Bytes>)
    requires lines != [] && forall l :: l in lines ==> l != [] && LF !in l
    ensures FrameLike(JoinLines(lines)) && JoinLines(lines) != [] && JoinLines(lines)[0] != LF
  {
    var f, h := JoinLines(lines), lines[0];
    assert h in lines && h[0] in h && h[|h| - 1] in h;
    if |lines| == 1 {
      assert forall j :: 0 <= j < |f| ==> f[j] in h;
    } else {
      assert forall l :: l in lines[1..] ==> l in lines;
      SolidJoins(lines[1..]);
      var tail := JoinLines(lines[1..]);
      assert f == h + [LF] + tail;
      forall j ensures !BreakAt(f, j) {
        if 0 <= j < |h| {
          assert f[j] == h[j] && h[j] in h;
        } else if j > |h| && j + 1 < |f| {
          assert f[j] == tail[j - |h| - 1] && f[j + 1] == tail[j - |h|];
          assert !BreakAt(tail, j - |h| - 1);
        }
      }
      assert f[|f| - 1] == tail[|tail| - 1];
    }
  }

  /** The round trip: reading what was written gives back the payloads that were
      meant, in order, whatever blanks and other lines stand around them. */
  lemma {:induction false} StreamRoundTrip(frames: seq<seq<Line>>, tail: Bytes)
    requires AllMeant(frames) && NoBreak(tail)
    ensures Payloads(Split(StreamBytes(frames, tail)).frames) == Carries(frames)
    ensures Split(StreamBytes(frames, tail)).rest == tail
  {
    var s := StreamBytes(frames, tail);
    hide Split, Payloads, Ascii;
    if frames == [] {
      JoinSplit(Framing([], tail));
      NoPayloads();
    } else {
      Constants();
      assert frames[0] in frames && forall f :: f in frames[1..] ==> f in frames;
      StreamRoundTrip(frames[1..], tail);
      FrameRoundTrip(frames[0]);
      OneFrameMore(JoinLines(AllLineBytes(frames[0])), StreamBytes(frames[1..], tail));
    }
  }

  lemma NoPayloads()
    ensures Payloads([]) == [] && Carries([]) == []
  {
  }

  lemma OneFrameMore(frame: Bytes, rest: Bytes)
    requires FrameLike(frame)
    ensures var w, more := Split(frame + BLANK_LINE + rest), Split(rest);
            w.rest == more.rest && Payloads(w.frames) == LinePayloads(Lines(frame)) + Payloads(more.frames)
  {
    var s := frame + BLANK_LINE + rest;
    FirstBreakOfFrame(frame, rest);
    assert s[..|frame|] == frame && s[|frame| + 2..] == rest;
    hide FirstBreak;
    assert Split(s).frames[1..] == Split(rest).frames;
  }

  /** What a stream was written to carry, whichever way it was written. */
  ghost predicate Wrote(s: Bytes, carried: seq<Bytes>) {
    exists frames, tail :: AllMeant(frames) && NoBreak(tail) && s == StreamBytes(frames, tail) && carried == Carries(frames)
  }

  lemma WroteIsRead(s: Bytes)
    ensures forall carried :: Wrote(s, carried) ==> Payloads(Split(s).frames) == carried
  {
    forall carried | Wrote(s, carried) ensures Payloads(Split(s).frames) == carried {
      var frames, tail :| AllMeant(frames) && NoBreak(tail) && s == StreamBytes(frames, tail) && carried == Carries(frames);
      StreamRoundTrip(frames, tail);
    }
  }

  /** Yields the `data:` payloads of a chunked stream. The result is a function
      of the concatenated bytes alone, so where the transport cuts them cannot
      matter; what a writer meant it to carry is what comes out. */
  method IterSseData(chunks: seq<Bytes>) returns (payloads: seq<Bytes>)
    ensures payloads == Payloads(Split(Flatten(chunks)).frames)
    ensures forall carried :: Wrote(Flatten(chunks), carried) ==> payloads == carried
  {
    WroteIsRead(Flatten(chunks));
    hide Wrote;
    var buffer: Bytes := [];
    payloads := [];
    assert chunks[..0] == [];
    for n := 0 to |chunks|
      invariant payloads == Payloads(Split(Flatten(chunks[..n])).frames)
      invariant buffer == Split(Flatten(chunks[..n])).rest
    {
      ghost var sofar := Flatten(chunks[..n]);
      assert chunks[..n + 1] == chunks[..n] + [chunks[n]];
      FlattenAppend(chunks[..n], [chunks[n]]);
      assert Flatten([chunks[n]]) == chunks[n];
      SplitAppend(sofar, chunks[n]);
      PayloadsAppend(Split(sofar).frames, Split(buffer + chunks[n]).frames);
      var more;
      more, buffer := DrainFrames(buffer + chunks[n]);
      payloads := payloads + more;
    }
    assert chunks[..|chunks|] == chunks;
  }

  /** `done` frames have been cut off `input` and `buffer` is what remains. */
  ghost predicate Drained(input: Bytes, done: seq<Bytes>, buffer: Bytes) {
    Split(input) == Framing(done + Split(buffer).frames, Split(buffer).rest)
  }

  lemma DrainStep(input: Bytes, done: seq<Bytes>, buffer: Bytes)
    requires Drained(input, done, buffer) && FirstBreak(buffer) < |buffer|
    ensures var i := FirstBreak(buffer); Drained(input, done + [buffer[..i]], buffer[i + 2..])
  {
    var i := FirstBreak(buffer);
    var tail := Split(buffer[i + 2..]).frames;
    assert done + ([buffer[..i]] + tail) == (done + [buffer[..i]]) + tail;
  }

  /** `while b"\n\n" in buffer: frame, buffer = buffer.split(b"\n\n", 1) ...` */
  method DrainFrames(input: Bytes) returns (payloads: seq<Bytes>, buffer: Bytes)
    ensures payloads == Payloads(Split(input).frames)
    ensures buffer == Split(input).rest
  {
    buffer, payloads := input, [];
    ghost var done: seq<Bytes> := [];
    assert [] + Split(input).frames == Split(input).frames;
    while FirstBreak(buffer) < |buffer|
      invariant payloads == Payloads(done)
      invariant Drained(input, done, buffer)
      decreases |buffer|
    {
      var i := FirstBreak(buffer);
      var more := FramePayloads(buffer[..i]);
      PayloadsAppend(done, [buffer[..i]]);
      assert Payloads([buffer[..i]]) == more + Payloads([]);
      DrainStep(input, done, buffer);
      payloads := payloads + more;
      done, buffer := done + [buffer[..i]], buffer[i + 2..];
    }
    assert done + [] == done;
  }

  /** The `data:` lines of one completed frame. */
  method FramePayloads(frame: Bytes) returns (payloads: seq<Bytes>)
    ensures payloads == LinePayloads(Lines(frame))
  {
    payloads := [];
    var lines := Lines(frame);
    for k := 0 to |lines|
      invariant payloads == LinePayloads(lines[..k])
    {
      assert lines[..k + 1] == lines[..k] + [lines[k]];
      LinePayloadsAppend(lines[..k], [lines[k]]);
      if DATA_PREFIX <= lines[k] {
        payloads := payloads + [Strip(lines[k][|DATA_PREFIX|..])];
      }
    }
    assert lines[..|lines|] == lines;
  }
}

/** Rewriting a server-sent-event stream frame by frame while its bytes arrive
    in arbitrary pieces. The frame rewriter is a parameter: it maps a frame and a
    state (what is still left to hand out) to the frame to forward and the next
    state. */
module FrameRelay {
  import opened Prelude
  import opened SseFraming

  type Rewriter<!S> = (Bytes, S) -> (Bytes, S)

  datatype Rewritten<S> = Rewritten(frames: seq<Bytes>, state: S)

  /** Frames rewritten left to right, each under the state its predecessors left. */
  function RewriteFrames<S>(rw: Rewriter<S>, frames: seq<Bytes>, state: S): (r: Rewritten<S>)
    ensures |r.frames| == |frames|
  {
    if frames == [] then Rewritten([], state)
    else
      var first := rw(frames[0], state);
      var others := RewriteFrames(rw, frames[1..], first.1);
      Rewritten([first.0] + others.frames, others.state)
  }

  lemma {:induction false} RewriteFramesAppend<S>(rw: Rewriter<S>, a: seq<Bytes>, b: seq<Bytes>, state: S)
    ensures var ra := RewriteFrames(rw, a, state);
            var rb := RewriteFrames(rw, b, ra.state);
            RewriteFrames(rw, a + b, state) == Rewritten(ra.frames + rb.frames, rb.state)
  {
    if a == [] {
      assert a + b == b;
      assert RewriteFrames(rw, a, state).frames + RewriteFrames(rw, b, state).frames == RewriteFrames(rw, b, state).frames;
    } else {
      assert (a + b)[1..] == a[1..] + b;
      RewriteFramesAppend(rw, a[1..], b, rw(a[0], state).1);
    }
  }

  /** The relay between two body messages. */
  datatype Relay<S> = Relay(buffer: Bytes, state: S)

  datatype Fed<S> = Fed(next: Relay<S>, out: Bytes)

  /** One body message: what it emits and what stays behind. */
  function FeedBody<S>(rw: Rewriter<S>, st: Relay<S>, body: Bytes, final: bool): Fed<S> {
    var w := Split(st.buffer + body);
    var r := RewriteFrames(rw, w.frames, st.state);
    if final then Fed(Relay([], r.state), Join(r.frames, w.rest))
    else Fed(Relay(w.rest, r.state), Join(r.frames, []))
  }

  /** A response delivered as any number of body messages, the last one final. */
  function RelayAll<S>(rw: Rewriter<S>, st: Relay<S>, bodies: seq<Bytes>): Fed<S>
    requires bodies != []
    decreases |bodies|
  {
    var first := FeedBody(rw, st, bodies[0], |bodies| == 1);
    if |bodies| == 1 then first
    else
      var others := RelayAll(rw, first.next, bodies[1..]);
      Fed(others.next, first.out + others.out)
  }

  /** The frame-by-frame rewrite of a whole stream, its unterminated tail verbatim. */
  function RewriteStream<S>(rw: Rewriter<S>, stream: Bytes, state: S): Fed<S> {
    FeedBody(rw, Relay([], state), stream, true)
  }

  lemma WholeStream<S>(rw: Rewriter<S>, stream: Bytes, state: S)
    ensures RewriteStream(rw, stream, state)
            == Fed(Relay([], RewriteFrames(rw, Split(stream).frames, state).state),
                   Join(RewriteFrames(rw, Split(stream).frames, state).frames, Split(stream).rest))
  {
    assert [] + stream == stream;
  }

  /** Relaying a prefix and then the rest is relaying the whole. */
  lemma RewriteStreamStep<S>(rw: Rewriter<S>, s: Bytes, t: Bytes, state: S)
    ensures var head := FeedBody(rw, Relay([], state), s, false);
            var tail := RewriteStream(rw, head.next.buffer + t, head.next.state);
            RewriteStream(rw, s + t, state) == Fed(tail.next, head.out + tail.out)
  {
    hide Split, Join, RewriteFrames;
    assert [] + s == s;
    WholeStream(rw, s + t, state);
    SplitAppend(s, t);
    var a := Split(s);
    var b := Split(a.rest + t);
    RewriteFramesAppend(rw, a.frames, b.frames, state);
    var ra := RewriteFrames(rw, a.frames, state);
    var rb := RewriteFrames(rw, b.frames, ra.state);
    WholeStream(rw, a.rest + t, ra.state);
    JoinAppend(ra.frames, rb.frames, b.rest);
    JoinTail(ra.frames, [], Join(rb.frames, b.rest));
    assert [] + Join(rb.frames, b.rest) == Join(rb.frames, b.rest);
  }

  lemma BufferedPrefix<S>(rw: Rewriter<S>, st: Relay<S>, body: Bytes, final: bool)
    ensures FeedBody(rw, st, body, final) == FeedBody(rw, Relay([], st.state), st.buffer + body, final)
  {
    assert [] + (st.buffer + body) == st.buffer + body;
  }

  /** However the stream is cut into body messages, the client receives the
      rewrite of the whole stream and the rewriter ends in the same state. */
  lemma {:induction false} RelayIsWholeRewrite<S>(rw: Rewriter<S>, st: Relay<S>, bodies: seq<Bytes>)
    requires bodies != []
    ensures RelayAll(rw, st, bodies) == RewriteStream(rw, st.buffer + Flatten(bodies), st.state)
    decreases |bodies|
  {
    hide Split, Join, RewriteFrames;
    BufferedPrefix(rw, st, bodies[0], |bodies| == 1);
    if |bodies| == 1 {
      assert Flatten(bodies) == bodies[0] + Flatten(bodies[1..]) == bodies[0];
    } else {
      var rest := Flatten(bodies[1..]);
      var next := FeedBody(rw, st, bodies[0], false).next;
      RelayIsWholeRewrite(rw, next, bodies[1..]);
      assert st.buffer + Flatten(bodies) == (st.buffer + bodies[0]) + rest;
      RewriteStreamStep(rw, st.buffer + bodies[0], rest, st.state);
    }
  }

  /** A rewriter that leaves frames and state alone relays every byte unchanged. */
  lemma {:induction false} IdentityRewrite<S>(rw: Rewriter<S>, frames: seq<Bytes>, state: S)
    requires forall f :: f in frames ==> rw(f, state) == (f, state)
    ensures RewriteFrames(rw, frames, state) == Rewritten(frames, state)
  {
    if frames != [] {
      IdentityRewrite(rw, frames[1..], state);
      assert rw(frames[0], state) == (frames[0], state);
      assert [frames[0]] + frames[1..] == frames;
    }
  }

  lemma {:induction false} RewritePreserves<S>(rw: Rewriter<S>, frames: seq<Bytes>, state: S)
    requires forall f, s :: FrameLike(f) ==> FrameLike(rw(f, s).0)
    requires forall f :: f in frames ==> FrameLike(f)
    ensures forall f :: f in RewriteFrames(rw, frames, state).frames ==> FrameLike(f)
  {
    if frames != [] {
      RewritePreserves(rw, frames[1..], rw(frames[0], state).1);
    }
  }

  /** When rewritten frames are still frames, a reader of the rewritten stream
      sees the same frames at the same places: as many as before, each the
      rewrite of its original, and the same tail. */
  lemma RewriteKeepsFraming<S>(rw: Rewriter<S>, stream: Bytes, state: S)
    requires forall f, s :: FrameLike(f) ==> FrameLike(rw(f, s).0)
    ensures Split(RewriteStream(rw, stream, state).out)
            == Framing(RewriteFrames(rw, Split(stream).frames, state).frames, Split(stream).rest)
  {
    SplitJoin(stream);
    WholeStream(rw, stream, state);
    RewritePreserves(rw, Split(stream).frames, state);
    JoinSplit(Framing(RewriteFrames(rw, Split(stream).frames, state).frames, Split(stream).rest));
  }
}

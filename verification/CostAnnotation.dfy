/** Stamping the settled `usage.cost` onto finished completions while their
    bytes are in flight. */
module CostAnnotation {
  import opened Prelude
  import opened OrderedDict
  import opened Json
  import opened SseFraming
  import opened FrameRelay

  const MICRO_USD_PER_USD: real := 1000000.0

  datatype BillingSource = HostManaged | CustomerManaged

  datatype SettledCost = SettledCost(billedMicroUsd: int, source: BillingSource) {
    /** The billed amount in USD; a customer-managed request is never charged. */
    function Cost(): real {
      if source.CustomerManaged? then 0.0 else billedMicroUsd as real / MICRO_USD_PER_USD
    }
  }

  /** Settled costs by public response digest, oldest first. */
  type Records = Dict<string, SettledCost>

  /** JSON text conversion, left uninterpreted. */
  datatype Codec = Codec(parse: Bytes -> Option<Json>, dump: Json -> Bytes) {
    /** `json.dumps` escapes line feeds, so encoded JSON never contains one. */
    ghost predicate OneLine() {
      forall j :: LF !in dump(j)
    }
  }

  // Annotating one payload ---------------------------------------------------

  function Field(j: Json, key: string): Option<Json> {
    if j.Obj? then Find(j.fields, key) else None
  }

  predicate HasUsage(j: Json) {
    var usage := Field(j, "usage");
    usage.Some? && usage.value.Obj?
  }

  datatype Place = AtTop | InResponse | Absent

  function UsagePlace(payload: Json): Place {
    if !payload.Obj? then Absent
    else if HasUsage(payload) then AtTop
    else
      var nested := Field(payload, "response");
      if nested.Some? && nested.value.Obj? && HasUsage(nested.value) then InResponse else Absent
  }

  function Holder(payload: Json): (h: Json)
    requires !UsagePlace(payload).Absent?
    ensures h.Obj? && HasUsage(h)
  {
    if UsagePlace(payload).AtTop? then payload else Field(payload, "response").value
  }

  /** `identity.rsplit("_", 1)[-1]`, when the identity contains a `_`. */
  function AfterLastUnderscore(s: string): Option<string> {
    if s == "" then None
    else match AfterLastUnderscore(s[1..])
      case Some(tail) => Some(tail)
      case None => if s[0] == '_' then Some(s[1..]) else None
  }

  /** The digest under which the payload's cost would have been recorded. */
  function Digest(payload: Json): Option<string> {
    if UsagePlace(payload).Absent? then None
    else match Field(Holder(payload), "id")
      case Some(Str(identity)) => AfterLastUnderscore(identity)
      case _ => None
  }

  function WithField(j: Json, key: string, value: Json): Json
    requires j.Obj?
  {
    Obj(Store(j.fields, key, value))
  }

  function StampHolder(holder: Json, cost: real): Json
    requires holder.Obj? && HasUsage(holder)
  {
    WithField(holder, "usage", WithField(Field(holder, "usage").value, "cost", Num(cost)))
  }

  function Stamp(payload: Json, cost: real): Json
    requires !UsagePlace(payload).Absent?
  {
    var stamped := StampHolder(Holder(payload), cost);
    if UsagePlace(payload).AtTop? then stamped else WithField(payload, "response", stamped)
  }

  /** The annotated payload, or None when nothing was modified, with the
      records that remain. */
  function Annotate(payload: Json, records: Records): (Option<Json>, Records) {
    match Digest(payload)
    case None => (None, records)
    case Some(digest) =>
      match Find(records, digest)
      case None => (None, records)
      case Some(settled) => (Some(Stamp(payload, settled.Cost())), Delete(records, digest))
  }

  /** Annotation sets `usage.cost` and nothing else: every other field, at every
      level on the way, reads as before, and so does the payload's identity. */
  lemma AnnotateTouchesOnlyCost(payload: Json, records: Records, key: string)
    requires Annotate(payload, records).0.Some?
    ensures OnlyCostChanged(payload, Annotate(payload, records).0.value,
                            Find(records, Digest(payload).value).value.Cost(), key)
  {
    hide Find, Has, Store, Delete, AfterLastUnderscore, HolderChanged;
    var cost := Find(records, Digest(payload).value).value.Cost();
    var holder := Holder(payload);
    var stamped := StampHolder(holder, cost);
    StampHolderShape(holder, cost, key);
    if UsagePlace(payload).InResponse? {
      StoreLookup(payload.fields, "response", stamped, "usage");
      StoreLookup(payload.fields, "response", stamped, "response");
      StoreLookup(payload.fields, "response", stamped, key);
    }
  }

  ghost predicate OnlyCostChanged(before: Json, after: Json, cost: real, key: string) {
    && UsagePlace(after) == UsagePlace(before) != Absent
    && Digest(after) == Digest(before)
    && HolderChanged(Holder(before), Holder(after), cost, key)
    && (UsagePlace(before).InResponse? && key != "response" ==> Field(after, key) == Field(before, key))
  }

  ghost predicate HolderChanged(before: Json, after: Json, cost: real, key: string) {
    && HasUsage(before) && HasUsage(after)
    && Field(Field(after, "usage").value, "cost") == Some(Num(cost))
    && (key != "cost" ==> Field(Field(after, "usage").value, key) == Field(Field(before, "usage").value, key))
    && (key != "usage" ==> Field(after, key) == Field(before, key))
  }

  lemma StampHolderShape(holder: Json, cost: real, key: string)
    requires holder.Obj? && HasUsage(holder)
    ensures HolderChanged(holder, StampHolder(holder, cost), cost, key)
    ensures Field(StampHolder(holder, cost), "id") == Field(holder, "id")
  {
    var usage := Field(holder, "usage").value;
    var priced := WithField(usage, "cost", Num(cost));
    StoreLookup(usage.fields, "cost", Num(cost), "cost");
    StoreLookup(usage.fields, "cost", Num(cost), key);
    StoreLookup(holder.fields, "usage", priced, "usage");
    StoreLookup(holder.fields, "usage", priced, "id");
    StoreLookup(holder.fields, "usage", priced, key);
  }

  // Rewriting one frame ------------------------------------------------------

  const USAGE_MARKER: Bytes := [34, 117, 115, 97, 103, 101, 34] // "usage", quoted

  predicate Contains(s: Bytes, needle: Bytes) {
    exists i :: 0 <= i <= |s| && needle <= s[i..]
  }

  /** `[i for i, line in enumerate(lines) if line.startswith(b"data:")]`. */
  function DataIndices(lines: seq<Bytes>): (at: seq<nat>)
    ensures forall k :: 0 <= k < |at| ==> at[k] < |lines| && DATA_PREFIX <= lines[at[k]]
  {
    if lines == [] then []
    else
      var before := DataIndices(lines[..|lines| - 1]);
      if DATA_PREFIX <= lines[|lines| - 1] then before + [|lines| - 1] else before
  }

  /** The payload a frame offers for annotation, when it has exactly one data line. */
  function FramePayload(codec: Codec, frame: Bytes): Option<Json> {
    var lines := Lines(frame);
    var at := DataIndices(lines);
    if Contains(frame, USAGE_MARKER) && |at| == 1
    then codec.parse(lines[at[0]][|DATA_PREFIX|..])
    else None
  }

  const DATA_SPACE: Bytes := DATA_PREFIX + [32]

  function RewriteFrame(codec: Codec, frame: Bytes, records: Records): (Bytes, Records) {
    match FramePayload(codec, frame)
    case None => (frame, records)
    case Some(payload) =>
      var (annotated, left) := Annotate(payload, records);
      if annotated.None? then (frame, left)
      else
        var lines := Lines(frame);
        var at := DataIndices(lines);
        (JoinLines(lines[at[0] := DATA_SPACE + codec.dump(annotated.value)]), left)
  }

  /** The cost annotator as a frame rewriter over the records still to hand out. */
  function Annotator(codec: Codec): Rewriter<Records> {
    (frame: Bytes, records: Records) => RewriteFrame(codec, frame, records)
  }

  /** An empty registry relays every byte unchanged, however it is cut. */
  lemma EmptyRegistryIsIdentity(codec: Codec, bodies: seq<Bytes>)
    requires bodies != []
    ensures RelayAll(Annotator(codec), Relay([], []), bodies) == Fed(Relay([], []), Flatten(bodies))
  {
    var stream := Flatten(bodies);
    RelayIsWholeRewrite(Annotator(codec), Relay([], []), bodies);
    assert [] + stream == stream;
    WholeStream(Annotator(codec), stream, []);
    forall f ensures RewriteFrame(codec, f, []) == (f, []) {
      NothingToStamp(codec, f);
    }
    IdentityRewrite(Annotator(codec), Split(stream).frames, []);
    SplitJoin(stream);
  }

  lemma NothingToStamp(codec: Codec, frame: Bytes)
    ensures RewriteFrame(codec, frame, []) == (frame, [])
  {
  }

  // Frames stay frames -------------------------------------------------------

  /** A byte string is a frame exactly when no line after the first is empty. */
  ghost predicate SolidLines(lines: seq<Bytes>) {
    |lines| > 0 && (forall k :: 0 <= k < |lines| ==> LF !in lines[k]) && (forall k :: 1 <= k < |lines| ==> lines[k] != [])
  }

  lemma NoLfNoBreak(s: Bytes)
    requires LF !in s
    ensures NoBreak(s)
  {
  }

  lemma {:induction false} SolidLinesJoinToFrame(lines: seq<Bytes>)
    requires SolidLines(lines)
    ensures FrameLike(JoinLines(lines))
    ensures |lines[0]| > 0 ==> |JoinLines(lines)| > 0 && JoinLines(lines)[0] != LF
    decreases |lines|
  {
    var f := JoinLines(lines);
    if |lines| == 1 {
      NoLfNoBreak(f);
    } else {
      SolidLinesJoinToFrame(lines[1..]);
      var tail := JoinLines(lines[1..]);
      var h := lines[0];
      assert f == h + [LF] + tail;
      forall j ensures !BreakAt(f, j) {
        if 0 <= j < |h| {
          assert f[j] == h[j] && h[j] in h;
        } else if j > |h| && j + 1 < |f| {
          assert f[j] == tail[j - |h| - 1] && f[j + 1] == tail[j - |h|];
          assert !BreakAt(tail, j - |h| - 1);
        }
      }
      assert f[|f| - 1] == tail[|tail| - 1];
    }
  }

  lemma {:induction false} FrameHasSolidLines(frame: Bytes)
    requires FrameLike(frame)
    ensures SolidLines(Lines(frame))
    decreases |frame|
  {
    if LF in frame {
      var i := FirstLf(frame);
      var tail := frame[i + 1..];
      assert |tail| > 0;
      forall j ensures !BreakAt(tail, j) {
        assert !BreakAt(frame, i + 1 + j);
      }
      FrameHasSolidLines(tail);
      assert !BreakAt(frame, i);
      FirstLineNonEmpty(tail);
    }
    forall k | 0 <= k < |Lines(frame)| ensures LF !in Lines(frame)[k] {
      assert Lines(frame)[k] in Lines(frame);
    }
  }

  lemma FirstLineNonEmpty(s: Bytes)
    requires |s| > 0 && s[0] != LF
    ensures Lines(s)[0] != []
  {
  }

  lemma RewriteKeepsFrames(codec: Codec, frame: Bytes, records: Records)
    requires codec.OneLine() && FrameLike(frame)
    ensures FrameLike(RewriteFrame(codec, frame, records).0)
  {
    var payload := FramePayload(codec, frame);
    if payload.Some? && Annotate(payload.value, records).0.Some? {
      var lines := Lines(frame);
      var at := DataIndices(lines);
      var out := Annotate(payload.value, records).0.value;
      FrameHasSolidLines(frame);
      var line := DATA_SPACE + codec.dump(out);
      assert LF !in line;
      SolidLinesJoinToFrame(lines[at[0] := line]);
    }
  }

  /** The annotated stream has the same frames at the same places. */
  lemma AnnotationKeepsFraming(codec: Codec, stream: Bytes, records: Records)
    requires codec.OneLine()
    ensures Split(RewriteStream(Annotator(codec), stream, records).out)
            == Framing(RewriteFrames(Annotator(codec), Split(stream).frames, records).frames, Split(stream).rest)
  {
    forall f, s | FrameLike(f) ensures FrameLike(Annotator(codec)(f, s).0) {
      RewriteKeepsFrames(codec, f, s);
    }
    RewriteKeepsFraming(Annotator(codec), stream, records);
  }

  /** The digests whose cost a run of frames stamps, in order. */
  function Stamped(codec: Codec, frames: seq<Bytes>, records: Records): seq<string> {
    if frames == [] then []
    else
      var payload := FramePayload(codec, frames[0]);
      var tail := Stamped(codec, frames[1..], RewriteFrame(codec, frames[0], records).1);
      if payload.Some? && Annotate(payload.value, records).0.Some?
      then [Digest(payload.value).value] + tail else tail
  }

  /** A settled cost is handed out at most once, and only if it was recorded. */
  lemma {:induction false} CostStampedAtMostOnce(codec: Codec, frames: seq<Bytes>, records: Records, digest: string)
    requires Distinct(records)
    ensures var left := RewriteFrames(Annotator(codec), frames, records).state;
            && Distinct(left)
            && multiset(Stamped(codec, frames, records))[digest]
               == (if Find(records, digest).Some? && Find(left, digest).None? then 1 else 0)
            && (Find(records, digest).None? ==> Find(left, digest).None?)
  {
    if frames != [] {
      var left := RewriteFrame(codec, frames[0], records).1;
      var payload := FramePayload(codec, frames[0]);
      if payload.Some? && Annotate(payload.value, records).0.Some? {
        var d := Digest(payload.value).value;
        DeleteMembers(records, d);
        DeleteLookup(records, d, digest);
        CostStampedAtMostOnce(codec, frames[1..], left, digest);
        assert multiset(Stamped(codec, frames, records))
            == multiset([d]) + multiset(Stamped(codec, frames[1..], left));
      } else {
        assert left == records;
        CostStampedAtMostOnce(codec, frames[1..], left, digest);
      }
    }
  }

  // What a frame is billed ---------------------------------------------------

  ghost predicate HasUsageObject(j: Json) {
    j.Obj? && exists usage :: Find(j.fields, "usage") == Some(Obj(usage))
  }

  /** The object whose usage is priced: the payload itself, or else the response it
      carries. */
  ghost predicate HolderIs(payload: Json, holder: Json) {
    && payload.Obj? && HasUsageObject(holder)
    && if HasUsageObject(payload) then holder == payload else Find(payload.fields, "response") == Some(holder)
  }

  /** A payload names a digest: its holder's id ends in it, after its last underscore. */
  ghost predicate Names(payload: Json, digest: string) {
    exists holder, prefix ::
      HolderIs(payload, holder) && Find(holder.fields, "id") == Some(Str(prefix + "_" + digest)) && '_' !in digest
  }

  /** What an amount settles to in USD: nothing for a customer-managed request. */
  ghost function Dollars(settled: SettledCost): real {
    match settled.source
    case HostManaged => settled.billedMicroUsd as real / 1000000.0
    case CustomerManaged => 0.0
  }

  /** Two objects read alike under every key but one. */
  ghost predicate AlikeBut(before: Json, after: Json, key: string) {
    && before.Obj? && after.Obj?
    && forall k :: k != key ==> Find(after.fields, k) == Find(before.fields, k)
  }

  ghost predicate HolderPriced(before: Json, after: Json, cost: real) {
    && AlikeBut(before, after, "usage") && HasUsageObject(before) && HasUsageObject(after)
    && var was, now := Find(before.fields, "usage").value, Find(after.fields, "usage").value;
       AlikeBut(was, now, "cost") && Find(now.fields, "cost") == Some(Num(cost))
  }

  /** Only the usage's cost was written. */
  ghost predicate Priced(before: Json, after: Json, cost: real) {
    if HasUsageObject(before) then HolderPriced(before, after, cost)
    else
      && AlikeBut(before, after, "response") && !HasUsageObject(after)
      && Find(before.fields, "response").Some? && Find(after.fields, "response").Some?
      && HolderPriced(Find(before.fields, "response").value, Find(after.fields, "response").value, cost)
  }

  /** A frame offers one payload: it mentions a usage, and its one data line is JSON. */
  ghost predicate Offers(codec: Codec, frame: Bytes, lines: seq<Bytes>, k: nat, payload: Json) {
    && lines != [] && (forall l :: l in lines ==> LF !in l) && JoinLines(lines) == frame
    && (exists i :: 0 <= i <= |frame| && Ascii("\"usage\"") <= frame[i..])
    && k < |lines| && Ascii("data:") <= lines[k] && (forall j :: 0 <= j < |lines| && j != k ==> !(Ascii("data:") <= lines[j]))
    && codec.parse(lines[k][5..]) == Some(payload)
  }

  ghost predicate Billable(codec: Codec, frame: Bytes, records: Records, lines: seq<Bytes>, k: nat, payload: Json,
                           digest: string, settled: SettledCost)
  {
    Offers(codec, frame, lines, k, payload) && Names(payload, digest) && Find(records, digest) == Some(settled)
  }

  /** The record is consumed, and the data line rewritten with the cost it settles to. */
  ghost predicate BilledAs(codec: Codec, out: Bytes, records: Records, left: Records, lines: seq<Bytes>, k: nat, payload: Json,
                           digest: string, settled: SettledCost)
  {
    && k < |lines| && left == Delete(records, digest)
    && exists priced :: Priced(payload, priced, Dollars(settled))
         && out == JoinLines(lines[k := Ascii("data: ") + codec.dump(priced)])
  }

  /** A frame that offers a payload with a recorded cost leaves with that cost written
      in it and the record consumed; every other frame leaves untouched. */
  ghost predicate FrameBilled(codec: Codec, frame: Bytes, out: Bytes, records: Records, left: Records) {
    && (forall lines, k, payload, digest, settled :: Billable(codec, frame, records, lines, k, payload, digest, settled) ==>
          BilledAs(codec, out, records, left, lines, k, payload, digest, settled))
    && ((forall lines, k, payload, digest, settled :: !Billable(codec, frame, records, lines, k, payload, digest, settled)) ==>
          out == frame && left == records)
  }

  lemma {:induction false} AfterLastIs(s: string)
    ensures AfterLastUnderscore(s).None? <==> '_' !in s
    ensures AfterLastUnderscore(s).Some? ==>
              var tail := AfterLastUnderscore(s).value; '_' !in tail && |tail| < |s| && s == s[..|s| - |tail| - 1] + "_" + tail
  {
    if s != "" {
      AfterLastIs(s[1..]);
      assert s == [s[0]] + s[1..];
      if AfterLastUnderscore(s[1..]).Some? {
        var tail := AfterLastUnderscore(s[1..]).value;
        assert s[..|s| - |tail| - 1] == [s[0]] + s[1..][..|s| - 1 - |tail| - 1];
      } else if s[0] == '_' {
        assert s[..0] + "_" + s[1..] == s;
      }
    }
  }

  lemma {:induction false} AfterLastOf(prefix: string, digest: string)
    requires '_' !in digest
    ensures AfterLastUnderscore(prefix + "_" + digest) == Some(digest)
  {
    var s := prefix + "_" + digest;
    if prefix == "" {
      assert s[1..] == digest && s[0] == '_';
      AfterLastIs(digest);
    } else {
      AfterLastOf(prefix[1..], digest);
      assert s[1..] == prefix[1..] + "_" + digest;
    }
  }

  lemma UsageIs(j: Json)
    ensures HasUsageObject(j) <==> j.Obj? && HasUsage(j)
  {
    if j.Obj? && HasUsage(j) {
      assert Find(j.fields, "usage") == Some(Obj(Find(j.fields, "usage").value.fields));
    }
  }

  lemma HolderAgrees(payload: Json)
    ensures UsagePlace(payload).Absent? <==> forall holder :: !HolderIs(payload, holder)
    ensures !UsagePlace(payload).Absent? ==> forall holder :: HolderIs(payload, holder) <==> holder == Holder(payload)
    ensures UsagePlace(payload).AtTop? <==> HasUsageObject(payload)
  {
    forall j ensures HasUsageObject(j) <==> j.Obj? && HasUsage(j) {
      UsageIs(j);
    }
    hide HasUsageObject, HasUsage, Find;
    if !UsagePlace(payload).Absent? {
      assert HolderIs(payload, Holder(payload));
    }
  }

  lemma DigestAgrees(payload: Json, digest: string)
    ensures Names(payload, digest) <==> Digest(payload) == Some(digest)
  {
    HolderAgrees(payload);
    hide UsagePlace, Holder, HolderIs, Find, AfterLastUnderscore;
    if Names(payload, digest) {
      var holder, prefix :|
        HolderIs(payload, holder) && Find(holder.fields, "id") == Some(Str(prefix + "_" + digest)) && '_' !in digest;
      AfterLastOf(prefix, digest);
    }
    if Digest(payload) == Some(digest) {
      var id := Find(Holder(payload).fields, "id").value.text;
      AfterLastIs(id);
      assert Find(Holder(payload).fields, "id") == Some(Str(id[..|id| - |digest| - 1] + "_" + digest));
    }
  }

  lemma HolderStamped(holder: Json, cost: real)
    requires holder.Obj? && HasUsage(holder)
    ensures HolderPriced(holder, StampHolder(holder, cost), cost)
  {
    var after := StampHolder(holder, cost);
    var usage := Field(holder, "usage").value;
    var priced := WithField(usage, "cost", Num(cost));
    forall k ensures Find(priced.fields, k) == if k == "cost" then Some(Num(cost)) else Find(usage.fields, k) {
      StoreLookup(usage.fields, "cost", Num(cost), k);
    }
    forall k ensures Find(after.fields, k) == if k == "usage" then Some(priced) else Find(holder.fields, k) {
      StoreLookup(holder.fields, "usage", priced, k);
    }
    hide Find, Store;
    assert Find(after.fields, "usage") == Some(Obj(priced.fields));
    UsageIs(holder);
  }

  lemma StampIs(payload: Json, cost: real)
    requires !UsagePlace(payload).Absent?
    ensures Priced(payload, Stamp(payload, cost), cost)
  {
    HolderStamped(Holder(payload), cost);
    UsageIs(payload);
    var after := Stamp(payload, cost);
    if UsagePlace(payload).InResponse? {
      var stamped := StampHolder(Holder(payload), cost);
      forall k ensures Find(after.fields, k) == if k == "response" then Some(stamped) else Find(payload.fields, k) {
        StoreLookup(payload.fields, "response", stamped, k);
      }
      hide HolderPriced, StampHolder, Store, Find;
      UsageIs(after);
    }
  }

  lemma {:induction false} DataIndicesAre(lines: seq<Bytes>)
    ensures var at := DataIndices(lines);
            && (forall j :: 0 <= j < |lines| && DATA_PREFIX <= lines[j] ==> j in at)
            && (|at| > 1 ==> at[0] != at[1])
  {
    hide DATA_PREFIX;
    if lines != [] {
      var n := |lines| - 1;
      DataIndicesAre(lines[..n]);
      var before := DataIndices(lines[..n]);
      forall j | 0 <= j < n && DATA_PREFIX <= lines[j] ensures j in before {
        assert lines[..n][j] == lines[j];
      }
    }
  }

  lemma OnlyDataLine(lines: seq<Bytes>, k: nat)
    requires k < |lines|
    ensures DataIndices(lines) == [k]
       <==> DATA_PREFIX <= lines[k] && forall j :: 0 <= j < |lines| && j != k ==> !(DATA_PREFIX <= lines[j])
  {
    DataIndicesAre(lines);
    var at := DataIndices(lines);
    hide DATA_PREFIX, DataIndices;
    if DATA_PREFIX <= lines[k] && forall j :: 0 <= j < |lines| && j != k ==> !(DATA_PREFIX <= lines[j]) {
      assert k in at;
      forall i | 0 <= i < |at| ensures at[i] == k {
      }
    }
    if at == [k] {
      assert at[0] == k && forall j :: j in at ==> j == k;
    }
  }

  lemma Five()
    ensures |DATA_PREFIX| == 5
  {
  }

  lemma OffersIs(codec: Codec, frame: Bytes, lines: seq<Bytes>, k: nat, payload: Json)
    ensures Offers(codec, frame, lines, k, payload)
       <==> lines == Lines(frame) && DataIndices(lines) == [k] && FramePayload(codec, frame) == Some(payload)
  {
    Constants();
    LinesJoin(frame);
    assert Ascii("\"usage\"") == USAGE_MARKER;
    if lines != [] && (forall l :: l in lines ==> LF !in l) && JoinLines(lines) == frame {
      JoinLinesSplits(lines);
    }
    if k < |lines| {
      OnlyDataLine(lines, k);
    }
    hide Lines, JoinLines, DataIndices, Ascii, DATA_PREFIX;
    assert |DATA_PREFIX| == 5 by { Five(); }
  }

  lemma BillableIs(codec: Codec, frame: Bytes, records: Records, lines: seq<Bytes>, k: nat, payload: Json, digest: string,
                   settled: SettledCost)
    ensures Billable(codec, frame, records, lines, k, payload, digest, settled)
       <==> && lines == Lines(frame) && DataIndices(lines) == [k] && FramePayload(codec, frame) == Some(payload)
            && Digest(payload) == Some(digest) && Find(records, digest) == Some(settled)
  {
    OffersIs(codec, frame, lines, k, payload);
    DigestAgrees(payload, digest);
    hide Offers, Names, Lines, DataIndices, FramePayload, Digest, Find;
  }

  lemma BilledCase(codec: Codec, frame: Bytes, records: Records, lines: seq<Bytes>, k: nat, payload: Json, digest: string,
                   settled: SettledCost)
    requires Billable(codec, frame, records, lines, k, payload, digest, settled)
    ensures var (out, left) := RewriteFrame(codec, frame, records);
            BilledAs(codec, out, records, left, lines, k, payload, digest, settled)
  {
    BillableIs(codec, frame, records, lines, k, payload, digest, settled);
    SpaceAfter();
    DigestHasPlace(payload);
    assert Dollars(settled) == settled.Cost();
    hide Billable, Lines, DataIndices, Find, Delete, Stamp, Priced, JoinLines, Ascii, Digest, FramePayload;
    StampIs(payload, settled.Cost());
  }

  lemma DigestHasPlace(payload: Json)
    ensures Digest(payload).Some? ==> !UsagePlace(payload).Absent?
  {
  }

  lemma UnbilledCase(codec: Codec, frame: Bytes, records: Records) returns (lines: seq<Bytes>, k: nat, payload: Json, digest: string,
                                                                            settled: SettledCost)
    requires RewriteFrame(codec, frame, records) != (frame, records)
    ensures Billable(codec, frame, records, lines, k, payload, digest, settled)
  {
    lines, payload := Lines(frame), FramePayload(codec, frame).value;
    k, digest := DataIndices(lines)[0], Digest(payload).value;
    settled := Find(records, digest).value;
    assert DataIndices(lines) == [k];
    BillableIs(codec, frame, records, lines, k, payload, digest, settled);
    hide Billable, Lines, DataIndices, Find, Delete, Stamp, JoinLines, Ascii, Digest;
  }

  /** What the annotator writes into one frame, and when it writes at all. */
  lemma RewriteFrameBills(codec: Codec, frame: Bytes, records: Records)
    ensures var (out, left) := RewriteFrame(codec, frame, records); FrameBilled(codec, frame, out, records, left)
  {
    hide Billable, BilledAs, RewriteFrame;
    forall lines, k: nat, payload, digest, settled | Billable(codec, frame, records, lines, k, payload, digest, settled)
      ensures var (out, left) := RewriteFrame(codec, frame, records);
              BilledAs(codec, out, records, left, lines, k, payload, digest, settled)
    {
      BilledCase(codec, frame, records, lines, k, payload, digest, settled);
    }
    if RewriteFrame(codec, frame, records) != (frame, records) {
      var lines, k, payload, digest, settled := UnbilledCase(codec, frame, records);
    }
  }

  lemma SpaceAfter()
    ensures Ascii("data: ") == DATA_SPACE
  {
  }

  ghost predicate BilledOver(codec: Codec, frames: seq<Bytes>, outs: seq<Bytes>, held: seq<Records>) {
    && |held| == |frames| + 1 && |outs| == |frames|
    && forall i :: 0 <= i < |frames| ==> FrameBilled(codec, frames[i], outs[i], held[i], held[i + 1])
  }

  /** The frames of a stream billed in turn, each against what the ones before left. */
  ghost predicate FramesBilled(codec: Codec, frames: seq<Bytes>, outs: seq<Bytes>, records: Records, left: Records) {
    exists held :: BilledOver(codec, frames, outs, held) && held[0] == records && held[|frames|] == left
  }

  lemma {:induction false} RewriteFramesBills(codec: Codec, frames: seq<Bytes>, records: Records)
    ensures var r := RewriteFrames(Annotator(codec), frames, records); FramesBilled(codec, frames, r.frames, records, r.state)
  {
    hide FrameBilled, RewriteFrame;
    if frames == [] {
      assert BilledOver(codec, frames, [], [records]);
    } else {
      var (out, left) := RewriteFrame(codec, frames[0], records);
      RewriteFrameBills(codec, frames[0], records);
      RewriteFramesBills(codec, frames[1..], left);
      var r := RewriteFrames(Annotator(codec), frames[1..], left);
      OneMoreBilled(codec, frames, out, r.frames, records, left, r.state);
    }
  }

  lemma OneMoreBilled(codec: Codec, frames: seq<Bytes>, out: Bytes, outs: seq<Bytes>, records: Records, left: Records, last: Records)
    requires frames != [] && FrameBilled(codec, frames[0], out, records, left)
    requires FramesBilled(codec, frames[1..], outs, left, last)
    ensures FramesBilled(codec, frames, [out] + outs, records, last)
  {
    hide FrameBilled;
    var held :| BilledOver(codec, frames[1..], outs, held) && held[0] == left && held[|frames[1..]|] == last;
    var all := [records] + held;
    assert BilledOver(codec, frames, [out] + outs, all);
    assert all[0] == records && all[|frames|] == last;
  }

  /** However a response is cut into body messages, each of its frames arrives billed
      exactly as its record says, and its unfinished tail as it was. */
  lemma ResponseBilledExactly(codec: Codec, bodies: seq<Bytes>, records: Records)
    requires bodies != []
    ensures var stream := Split(Flatten(bodies));
            exists outs, left ::
              && FramesBilled(codec, stream.frames, outs, records, left)
              && RelayAll(Annotator(codec), Relay([], records), bodies) == Fed(Relay([], left), Join(outs, stream.rest))
  {
    var stream := Split(Flatten(bodies));
    RelayIsWholeRewrite(Annotator(codec), Relay([], records), bodies);
    assert [] + Flatten(bodies) == Flatten(bodies);
    WholeStream(Annotator(codec), Flatten(bodies), records);
    RewriteFramesBills(codec, stream.frames, records);
    hide FramesBilled, RelayAll, RewriteFrames, Split, Join;
  }

  /** A message is sent unless it would be empty with more to follow. */
  ghost function Message(out: Bytes, moreBody: bool): seq<(Bytes, bool)> {
    if out == [] && moreBody then [] else [(out, moreBody)]
  }

  /** One more message went out: the frames as they are billed, and a tail as it is. */
  ghost predicate SentBilled(codec: Codec, frames: seq<Bytes>, tail: Bytes, moreBody: bool, records: Records, left: Records,
                             before: seq<(Bytes, bool)>, after: seq<(Bytes, bool)>)
  {
    exists outs :: FramesBilled(codec, frames, outs, records, left) && after == before + Message(Join(outs, tail), moreBody)
  }

  // The objects --------------------------------------------------------------

  /** Bounded handoff from the attempt ledger to the annotator. */
  class CostRegistry {
    const capacity: nat
    var records: Records

    ghost predicate Valid()
      reads this
    {
      Distinct(records) && |records| <= capacity
    }

    constructor (capacity: nat)
      ensures Valid() && records == [] && this.capacity == capacity
    {
      this.capacity := capacity;
      records := [];
    }

    method Record(digest: string, settled: SettledCost)
      requires Valid()
      modifies this
      ensures Valid()
      ensures records == EvictOldest(Store(old(records), digest, settled), capacity)
      ensures capacity > 0 && Find(old(records), digest).None? ==> Find(records, digest) == Some(settled)
    {
      hide Find, Has, Store, EvictOldest;
      StoreShape(records, digest, settled);
      records := Store(records, digest, settled);
      records := DropOldest(records, capacity);
      LastSurvives(old(records), digest, settled, capacity);
    }

    method Pop(digest: string) returns (settled: Option<SettledCost>)
      requires Valid()
      modifies this
      ensures Valid()
      ensures settled == Find(old(records), digest)
      ensures records == Delete(old(records), digest)
    {
      settled := Find(records, digest);
      DeleteMembers(records, digest);
      DeleteSize(records, digest);
      records := Delete(records, digest);
    }
  }

  /** Per-response wrapper rewriting the frames of a streamed completion. */
  class ResponseRewriter {
    const codec: Codec
    const registry: CostRegistry
    var sseBuffer: Bytes
    /** Body messages handed downstream: bytes, and whether more will follow. */
    var sent: seq<(Bytes, bool)>

    constructor (codec: Codec, registry: CostRegistry)
      ensures this.codec == codec && this.registry == registry
      ensures sseBuffer == [] && sent == []
    {
      this.codec := codec;
      this.registry := registry;
      sseBuffer, sent := [], [];
    }

    method RewriteOne(frame: Bytes) returns (out: Bytes)
      requires registry.Valid()
      modifies registry
      ensures registry.Valid()
      ensures (out, registry.records) == RewriteFrame(codec, frame, old(registry.records))
      ensures FrameBilled(codec, frame, out, old(registry.records), registry.records)
    {
      RewriteFrameBills(codec, frame, registry.records);
      hide FrameBilled;
      out := frame;
      var payload := FramePayload(codec, frame);
      if payload.None? || Digest(payload.value).None? {
        return;
      }
      var settled := registry.Pop(Digest(payload.value).value);
      if settled.None? {
        DeleteAbsent(old(registry.records), Digest(payload.value).value);
        return;
      }
      var lines := Lines(frame);
      var index := DataIndices(lines)[0];
      lines := lines[index := DATA_SPACE + codec.dump(Stamp(payload.value, settled.value.Cost()))];
      out := JoinLines(lines);
    }

    /** Forward every completed frame; keep only the trailing partial one. */
    method OnSseBody(body: Bytes, moreBody: bool)
      requires registry.Valid()
      modifies this, registry
      ensures registry.Valid()
      ensures var fed := FeedBody(Annotator(codec), old(Relay(sseBuffer, registry.records)), body, !moreBody);
              && Relay(sseBuffer, registry.records) == fed.next
              && sent == if fed.out != [] || !moreBody then old(sent) + [(fed.out, moreBody)] else old(sent)
      ensures var stream := Split(old(sseBuffer) + body);
              && sseBuffer == (if moreBody then stream.rest else [])
              && SentBilled(codec, stream.frames, if moreBody then [] else stream.rest, moreBody, old(registry.records),
                            registry.records, old(sent), sent)
    {
      hide FramesBilled, Split;
      RewriteFramesBills(codec, Split(sseBuffer + body).frames, registry.records);
      ghost var outs := RewriteFrames(Annotator(codec), Split(sseBuffer + body).frames, registry.records).frames;
      var parts := Split(sseBuffer + body);
      var out := RewriteParts(parts.frames);
      sseBuffer := [];
      if !moreBody {
        JoinTail(RewriteFrames(Annotator(codec), parts.frames, old(registry.records)).frames, [], parts.rest);
        assert [] + parts.rest == parts.rest;
        out := out + parts.rest;
      } else {
        sseBuffer := parts.rest;
      }
      if out != [] || !moreBody {
        sent := sent + [(out, moreBody)];
      }
      assert out == Join(outs, if moreBody then [] else parts.rest);
      assert sent == old(sent) + Message(out, moreBody);
    }

    /** `b"".join(rewrite(frame) + b"\n\n" for frame in parts)`. */
    method RewriteParts(frames: seq<Bytes>) returns (out: Bytes)
      requires registry.Valid()
      modifies registry
      ensures registry.Valid()
      ensures var r := RewriteFrames(Annotator(codec), frames, old(registry.records));
              out == Join(r.frames, []) && registry.records == r.state
    {
      hide FrameBilled, RewriteFrame;
      out := [];
      ghost var start := registry.records;
      ghost var done: seq<Bytes> := [];
      for k := 0 to |frames|
        invariant registry.Valid()
        invariant RewriteFrames(Annotator(codec), frames[..k], start) == Rewritten(done, registry.records)
        invariant out == Join(done, [])
      {
        ghost var before := registry.records;
        var frame := RewriteOne(frames[k]);
        out := out + (frame + BLANK_LINE);
        assert frames[..k + 1] == frames[..k] + [frames[k]];
        RewriteFramesAppend(Annotator(codec), frames[..k], [frames[k]], start);
        OneFrame(Annotator(codec), frames[k], before);
        JoinOneMore(done, frame);
        done := done + [frame];
      }
      assert frames[..|frames|] == frames;
    }
  }

  lemma OneFrame<S>(rw: Rewriter<S>, frame: Bytes, state: S)
    ensures RewriteFrames(rw, [frame], state) == Rewritten([rw(frame, state).0], rw(frame, state).1)
  {
    assert RewriteFrames(rw, [frame][1..], rw(frame, state).1).frames == [];
  }

  lemma JoinOneMore(frames: seq<Bytes>, frame: Bytes)
    ensures Join(frames + [frame], []) == Join(frames, []) + (frame + BLANK_LINE)
  {
    JoinAppend(frames, [frame], []);
    JoinTail(frames, [], frame + BLANK_LINE);
    assert [] + (frame + BLANK_LINE) == frame + BLANK_LINE;
    assert Join([frame][1..], []) == [];
    assert Join([frame], []) == frame + BLANK_LINE;
  }
}

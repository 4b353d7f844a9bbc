/** What the canonical slug of a model id is, told in terms of the id's own text: the
    decorations it sheds, the words it keeps and how they are joined. */
module ModelSlugs {
  import opened Prelude
  import opened ModelIdentity

  // Words --------------------------------------------------------------------

  /** A maximal run within a text: letters and digits, dots, or anything else. */
  datatype Run = Text(chars: string) | Dots(chars: string) | Junk(chars: string)

  ghost predicate AlNum(c: char) {
    'a' <= c <= 'z' || 'A' <= c <= 'Z' || '0' <= c <= '9'
  }

  ghost predicate IsRun(r: Run) {
    && r.chars != ""
    && match r
       case Text(chars) => forall c :: c in chars ==> AlNum(c)
       case Dots(chars) => forall c :: c in chars ==> c == '.'
       case Junk(chars) => forall c :: c in chars ==> !AlNum(c) && c != '.'
  }

  ghost predicate SameKind(a: Run, b: Run) {
    (a.Text? && b.Text?) || (a.Dots? && b.Dots?) || (a.Junk? && b.Junk?)
  }

  /** The runs of a text: no two of one kind next to each other. */
  ghost predicate AreRuns(runs: seq<Run>) {
    && (forall r :: r in runs ==> IsRun(r))
    && (forall i :: 0 <= i < |runs| - 1 ==> !SameKind(runs[i], runs[i + 1]))
  }

  ghost function Spelled(runs: seq<Run>): string {
    if runs == [] then "" else runs[0].chars + Spelled(runs[1..])
  }

  ghost function Small(c: char): char {
    if 'A' <= c <= 'Z' then c + 32 as char else c
  }

  ghost function Told(r: Run): string {
    match r
    case Text(chars) => seq(|chars|, i requires 0 <= i < |chars| => Small(chars[i]))
    case Dots(_) => "."
    case Junk(_) => "-"
  }

  ghost function AllTold(runs: seq<Run>): string {
    if runs == [] then "" else Told(runs[0]) + AllTold(runs[1..])
  }

  ghost predicate NoText(runs: seq<Run>) {
    forall r :: r in runs ==> !r.Text?
  }

  /** A text reduces to its words, lower case, with one dash for every run of other
      characters and one dot for every run of dots between them, and to nothing when it
      has no word. */
  ghost predicate Reduces(value: string, normal: string) {
    exists lead: seq<Run>, core: seq<Run>, trail: seq<Run> ::
      && AreRuns(lead + core + trail) && Spelled(lead + core + trail) == value
      && NoText(lead) && NoText(trail) && (core != [] ==> core[0].Text? && core[|core| - 1].Text?)
      && normal == AllTold(core)
  }

  ghost function RunsOf(s: string): (runs: seq<Run>)
    ensures AreRuns(runs) && Spelled(runs) == s
  {
    if s == "" then []
    else
      var rest := RunsOf(s[1..]);
      var one := if AlNum(s[0]) then Text([s[0]]) else if s[0] == '.' then Dots([s[0]]) else Junk([s[0]]);
      assert s == [s[0]] + s[1..];
      if rest != [] && SameKind(one, rest[0]) then
        var grown := match rest[0]
          case Text(chars) => Text([s[0]] + chars)
          case Dots(chars) => Dots([s[0]] + chars)
          case Junk(chars) => Junk([s[0]] + chars);
        LongerRun(rest[0], one, s[0]);
        Grown(rest, grown, s[0]);
        [grown] + rest[1..]
      else
        Fresh(rest, one);
        [one] + rest
  }

  lemma LongerRun(r: Run, one: Run, c: char)
    requires IsRun(r) && IsRun(one) && SameKind(one, r) && one.chars == [c]
    ensures forall x :: x in [c] + r.chars ==> x == c || x in r.chars
    ensures c in one.chars
  {
  }

  lemma Grown(rest: seq<Run>, grown: Run, c: char)
    requires AreRuns(rest) && rest != [] && SameKind(grown, rest[0]) && IsRun(grown) && grown.chars == [c] + rest[0].chars
    ensures AreRuns([grown] + rest[1..]) && Spelled([grown] + rest[1..]) == [c] + Spelled(rest)
  {
    var runs := [grown] + rest[1..];
    assert runs[1..] == rest[1..];
    forall i | 0 <= i < |runs| - 1 ensures !SameKind(runs[i], runs[i + 1]) {
      assert !SameKind(rest[i], rest[i + 1]);
    }
  }

  lemma Fresh(rest: seq<Run>, one: Run)
    requires AreRuns(rest) && IsRun(one) && (rest != [] ==> !SameKind(one, rest[0]))
    ensures AreRuns([one] + rest) && Spelled([one] + rest) == one.chars + Spelled(rest)
  {
    var runs := [one] + rest;
    assert runs[1..] == rest;
    forall i | 0 <= i < |runs| - 1 ensures !SameKind(runs[i], runs[i + 1]) {
      if i > 0 {
        assert !SameKind(rest[i - 1], rest[i]);
      }
    }
  }

  /** After folding: words lower case, dots as they were, a dash for the rest. */
  ghost function Folding(r: Run): string {
    match r
    case Text(_) => Told(r)
    case Dots(chars) => chars
    case Junk(_) => "-"
  }

  ghost function AllFolding(runs: seq<Run>): string {
    if runs == [] then "" else Folding(runs[0]) + AllFolding(runs[1..])
  }

  lemma SmallIs(c: char)
    ensures LowerChar(c) == Small(c)
    ensures Word(Small(c)) <==> AlNum(c) || c == '.'
    ensures AlNum(c) ==> Small(c) != '.' && !Edge(Small(c))
  {
  }

  lemma {:induction false} FoldWords(s: string, inRun: bool)
    requires forall i :: 0 <= i < |s| ==> Word(s[i])
    ensures Fold(s, inRun) == s
  {
    if s != "" {
      FoldWords(s[1..], false);
    }
  }

  lemma {:induction false} FoldJunk(s: string, inRun: bool)
    requires forall i :: 0 <= i < |s| ==> !Word(s[i])
    ensures Fold(s, inRun) == if s == "" || inRun then "" else "-"
  {
    if s != "" {
      FoldJunk(s[1..], true);
    }
  }

  lemma FoldOneRun(r: Run, inRun: bool)
    requires IsRun(r) && (inRun ==> !r.Junk?)
    ensures Fold(Lower(r.chars), inRun) == Folding(r)
    ensures Lower(r.chars) != "" && (Word(Lower(r.chars)[|r.chars| - 1]) <==> !r.Junk?)
  {
    var s := Lower(r.chars);
    forall i | 0 <= i < |s| ensures s[i] == Small(r.chars[i]) && (Word(s[i]) <==> !r.Junk?) {
      SmallIs(r.chars[i]);
      assert r.chars[i] in r.chars;
    }
    hide Word, Lower, LowerChar;
    if r.Junk? {
      FoldJunk(s, inRun);
    } else {
      FoldWords(s, inRun);
      if r.Dots? {
        forall i | 0 <= i < |s| ensures s[i] == r.chars[i] {
          assert r.chars[i] in r.chars;
        }
        assert s == r.chars;
      }
    }
  }

  lemma {:induction false} FoldRuns(runs: seq<Run>, inRun: bool)
    requires AreRuns(runs) && (inRun && runs != [] ==> !runs[0].Junk?)
    ensures Fold(Lower(Spelled(runs)), inRun) == AllFolding(runs)
  {
    hide IsRun, Lower, Word, Folding;
    if runs == [] {
      LowerNothing();
    } else {
      assert runs[0] in runs;
      assert forall r :: r in runs[1..] ==> r in runs;
      assert runs[1..] != [] ==> runs[1..][0] == runs[1];
      forall i | 0 <= i < |runs[1..]| - 1 ensures !SameKind(runs[1..][i], runs[1..][i + 1]) {
        assert !SameKind(runs[i + 1], runs[i + 2]);
      }
      FoldOneRun(runs[0], inRun);
      FoldRuns(runs[1..], runs[0].Junk?);
      LowerAppend(runs[0].chars, Spelled(runs[1..]));
      FoldAppend(Lower(runs[0].chars), Lower(Spelled(runs[1..])), inRun);
    }
  }

  lemma LowerNothing()
    ensures Lower("") == ""
  {
  }

  lemma {:induction false} JoinDotless(s: string, inRun: bool)
    requires '.' !in s
    ensures JoinDots(s, inRun) == s
  {
    if s != "" {
      assert s[0] in s;
      JoinDotless(s[1..], false);
    }
  }

  lemma {:induction false} JoinOnlyDots(s: string, inRun: bool)
    requires forall c :: c in s ==> c == '.'
    ensures JoinDots(s, inRun) == if s == "" || inRun then "" else "."
  {
    if s != "" {
      assert s[0] in s && forall c :: c in s[1..] ==> c in s;
      JoinOnlyDots(s[1..], true);
    }
  }

  lemma JoinOneRun(r: Run, inRun: bool)
    requires IsRun(r) && (inRun ==> !r.Dots?)
    ensures JoinDots(Folding(r), inRun) == Told(r)
    ensures Folding(r) != "" && (Folding(r)[|Folding(r)| - 1] == '.' <==> r.Dots?)
  {
    var s := Folding(r);
    match r {
      case Text(chars) =>
        forall i | 0 <= i < |chars| ensures s[i] != '.' {
          assert chars[i] in chars;
          SmallIs(chars[i]);
        }
        JoinDotless(s, inRun);
      case Dots(chars) =>
        assert s[|s| - 1] in chars;
        JoinOnlyDots(s, inRun);
      case Junk(_) =>
        JoinDotless(s, inRun);
    }
  }

  lemma {:induction false} JoinRuns(runs: seq<Run>, inRun: bool)
    requires AreRuns(runs) && (inRun && runs != [] ==> !runs[0].Dots?)
    ensures JoinDots(AllFolding(runs), inRun) == AllTold(runs)
  {
    hide IsRun, Folding, Told;
    if runs != [] {
      assert runs[0] in runs;
      assert forall r :: r in runs[1..] ==> r in runs;
      assert runs[1..] != [] ==> runs[1..][0] == runs[1];
      forall i | 0 <= i < |runs[1..]| - 1 ensures !SameKind(runs[1..][i], runs[1..][i + 1]) {
        assert !SameKind(runs[i + 1], runs[i + 2]);
      }
      JoinOneRun(runs[0], inRun);
      JoinRuns(runs[1..], runs[0].Dots?);
      JoinDotsAppend(Folding(runs[0]), AllFolding(runs[1..]), inRun);
    }
  }

  lemma {:induction false} ToldAppend(a: seq<Run>, b: seq<Run>)
    ensures AllTold(a + b) == AllTold(a) + AllTold(b)
  {
    if a == [] {
      assert a + b == b;
    } else {
      assert (a + b)[1..] == a[1..] + b;
      ToldAppend(a[1..], b);
    }
  }

  lemma {:induction false} NoTextIsEdge(runs: seq<Run>)
    requires NoText(runs)
    ensures forall i :: 0 <= i < |AllTold(runs)| ==> Edge(AllTold(runs)[i])
  {
    if runs != [] {
      assert runs[0] in runs && forall r :: r in runs[1..] ==> r in runs;
      NoTextIsEdge(runs[1..]);
    }
  }

  lemma {:induction false} TrimsAway(s: string, drop: char -> bool)
    requires forall i :: 0 <= i < |s| ==> drop(s[i])
    ensures TrimLeft(s, drop) == ""
  {
    if s != "" {
      TrimsAway(s[1..], drop);
    }
  }

  lemma TrimsEnds(a: string, mid: string, b: string, drop: char -> bool)
    requires (forall i :: 0 <= i < |a| ==> drop(a[i])) && (forall i :: 0 <= i < |b| ==> drop(b[i]))
    requires mid != "" ==> !drop(mid[0]) && !drop(mid[|mid| - 1])
    ensures Trim(a + mid + b, drop) == mid
  {
    TrimsAway(a, drop);
    if mid == "" {
      assert a + mid + b == a + b;
      TrimsAway(a + b, drop);
    } else {
      assert a + mid + b == a + (mid + b);
      TrimLeftAppend(a, mid + b, drop);
      assert "" + (mid + b) == mid + b;
      TrimRightDrops(mid + b, |mid|, drop);
      assert (mid + b)[..|mid|] == mid;
    }
  }

  lemma TextEnds(r: Run)
    requires IsRun(r) && r.Text?
    ensures Told(r) != "" && !Edge(Told(r)[0]) && !Edge(Told(r)[|Told(r)| - 1])
  {
    assert r.chars[0] in r.chars && r.chars[|r.chars| - 1] in r.chars;
    SmallIs(r.chars[0]);
    SmallIs(r.chars[|r.chars| - 1]);
  }

  lemma CoreEnds(core: seq<Run>)
    requires core != [] && core[0].Text? && core[|core| - 1].Text? && IsRun(core[0]) && IsRun(core[|core| - 1])
    ensures var s := AllTold(core); s != "" && !Edge(s[0]) && !Edge(s[|s| - 1])
  {
    var n := |core| - 1;
    TextEnds(core[0]);
    TextEnds(core[n]);
    assert core == core[..n] + [core[n]];
    ToldAppend(core[..n], [core[n]]);
    assert AllTold([core[n]]) == Told(core[n]) + AllTold([core[n]][1..]);
    hide Told;
  }

  /** The runs of a text, its outer ones without a word set apart. */
  lemma {:induction false} SetApart(runs: seq<Run>) returns (lead: seq<Run>, core: seq<Run>, trail: seq<Run>)
    ensures runs == lead + core + trail && NoText(lead) && NoText(trail)
    ensures core != [] ==> core[0].Text? && core[|core| - 1].Text?
    decreases |runs|
  {
    if runs == [] || (runs[0].Text? && runs[|runs| - 1].Text?) {
      lead, core, trail := [], runs, [];
    } else if !runs[0].Text? {
      lead, core, trail := SetApart(runs[1..]);
      lead := [runs[0]] + lead;
    } else {
      var n := |runs| - 1;
      lead, core, trail := SetApart(runs[..n]);
      trail := trail + [runs[n]];
    }
  }

  /** Normalising keeps the words of a text and nothing else. */
  lemma NormalizeReduces(value: string)
    ensures Reduces(value, Normalize(value))
  {
    var runs := RunsOf(value);
    var lead, core, trail := SetApart(runs);
    FoldRuns(runs, false);
    JoinRuns(runs, false);
    ToldAppend(lead + core, trail);
    ToldAppend(lead, core);
    NoTextIsEdge(lead);
    NoTextIsEdge(trail);
    if core != [] {
      assert core[0] in runs && core[|core| - 1] in runs;
      CoreEnds(core);
    }
    hide Fold, JoinDots, Edge, Lower, Trim, IsRun, Told;
    TrimsEnds(AllTold(lead), AllTold(core), AllTold(trail), Edge);
  }

  // Decorations --------------------------------------------------------------

  /** The white space of Unicode. */
  ghost predicate Blank(c: char) {
    var n := c as int;
    n in {9, 10, 11, 12, 13, 28, 29, 30, 31, 32, 133, 160, 5760, 8232, 8233, 8239, 8287, 12288} || 8192 <= n <= 8202
  }

  lemma SpaceIs(c: char)
    ensures Space(c) <==> Blank(c)
  {
  }

  ghost predicate AllSpace(s: string) {
    forall i :: 0 <= i < |s| ==> Space(s[i])
  }

  ghost predicate AllBlank(s: string) {
    forall i :: 0 <= i < |s| ==> Blank(s[i])
  }

  /** White space off both ends. */
  ghost predicate Stripped(id: string, bare: string) {
    exists lead, trail ::
      && id == lead + bare + trail && AllBlank(lead) && AllBlank(trail)
      && (bare != "" ==> !Blank(bare[0]) && !Blank(bare[|bare| - 1]))
  }

  /** A Fireworks path off the front, the longer one if both are there. */
  ghost predicate PathOff(bare: string, plain: string) {
    if "accounts/fireworks/models/" <= bare then bare == "accounts/fireworks/models/" + plain
    else if "accounts/fireworks/" <= bare then bare == "accounts/fireworks/" + plain
    else plain == bare
  }

  ghost function Known(maker: string): Option<string> {
    if maker in {"ai21", "amazon", "anthropic", "baidu", "bytedance", "cohere", "deepseek", "google", "luma", "meta", "microsoft",
                 "minimax", "mistral", "moonshot", "moonshotai", "nvidia", "openai", "qwen", "stability", "thinkingmachines",
                 "writer", "zai"}
    then Some(maker) else None
  }

  ghost predicate IsRegion(s: string) {
    s in {"us", "eu", "apac", "ap", "ca", "sa", "us-gov", "global"}
  }

  /** A vendor's letters, digits and dots, lower case. */
  ghost function Kept(vendor: string): string {
    if vendor == "" then ""
    else (if AlNum(vendor[0]) || vendor[0] == '.' then [Small(vendor[0])] else "") + Kept(vendor[1..])
  }

  ghost function AllSmall(s: string): string {
    seq(|s|, i requires 0 <= i < |s| => Small(s[i]))
  }

  /** A maker's token, or else the whole of it stays the name. */
  ghost predicate TokenPeels(plain: string, token: string, tail: string, maker: Option<string>, name: string) {
    maker == Known(AllSmall(token)) && name == if maker.Some? then tail else plain
  }

  /** `maker.name`, a region in front of it dropped. */
  ghost predicate DottedPeels(plain: string, maker: Option<string>, name: string) {
    if '.' !in plain then maker == None && name == plain
    else exists head, rest :: plain == head + "." + rest && '.' !in head && HeadPeels(plain, head, rest, maker, name)
  }

  ghost predicate HeadPeels(plain: string, head: string, rest: string, maker: Option<string>, name: string) {
    if IsRegion(AllSmall(head)) && '.' in rest then
      exists token, tail :: rest == token + "." + tail && '.' !in token && TokenPeels(plain, token, tail, maker, name)
    else TokenPeels(plain, head, rest, maker, name)
  }

  /** The vendor in front of the last slash, or a dotted maker. */
  ghost predicate Peels(plain: string, maker: Option<string>, name: string) {
    if '/' in plain then
      exists vendor :: plain == vendor + "/" + name && '/' !in name && maker == Known(Kept(vendor))
    else DottedPeels(plain, maker, name)
  }

  /** Azure's marker off a longer name, on Azure's lane only. */
  ghost predicate LaneOff(provider: string, name: string, own: string) {
    if provider == "azure_openai" && |name| > 3 && AllSmall(name[..3]) == "fw-" then own == name[3..] else own == name
  }

  ghost predicate EndsNumbered(s: string, base: string, mark: string) {
    exists d :: d != "" && (forall c :: c in d ==> '0' <= c <= '9') && s == base + mark + d
  }

  /** A trailing `:<digits>` off a maker's name, and a `-v<digits>` before it. */
  ghost predicate VersionOff(maker: Option<string>, own: string, base: string) {
    if maker.None? || forall x :: !EndsNumbered(own, x, ":") then base == own
    else
      exists x :: EndsNumbered(own, x, ":")
        && if forall y :: !EndsNumbered(x, y, "-v") then base == x else EndsNumbered(x, base, "-v")
  }

  /** The maker and the base name of an id, decoration by decoration. */
  ghost predicate Splits(provider: string, id: string, maker: Option<string>, base: string) {
    exists bare, plain, name, own ::
      && Stripped(id, bare) && PathOff(bare, plain) && Peels(plain, maker, name)
      && LaneOff(provider, name, own) && VersionOff(maker, own, base)
  }

  lemma {:induction false} LeftIsSpace(s: string)
    ensures forall i :: 0 <= i < |s| - |TrimLeft(s, Space)| ==> Space(s[i])
  {
    hide Space;
    if s != "" && Space(s[0]) {
      LeftIsSpace(s[1..]);
      assert forall i :: 1 <= i < |s| ==> s[i] == s[1..][i - 1];
    }
  }

  lemma {:induction false} RightIsSpace(s: string)
    ensures forall i :: |TrimRight(s, Space)| <= i < |s| ==> Space(s[i])
  {
    hide Space;
    if s != "" && Space(s[|s| - 1]) {
      RightIsSpace(s[..|s| - 1]);
    }
  }

  lemma SpacesAreBlank(s: string)
    requires AllSpace(s)
    ensures AllBlank(s)
  {
    forall i | 0 <= i < |s| ensures Blank(s[i]) {
      SpaceIs(s[i]);
    }
  }

  lemma StripsAs(lead: string, left: string, bare: string, trail: string)
    requires left == bare + trail && AllSpace(lead) && AllSpace(trail)
    requires bare != "" ==> !Space(bare[0]) && !Space(bare[|bare| - 1])
    ensures Stripped(lead + left, bare)
  {
    SpacesAreBlank(lead);
    SpacesAreBlank(trail);
    if bare != "" {
      SpaceIs(bare[0]);
      SpaceIs(bare[|bare| - 1]);
    }
    hide Space, Blank, AllSpace, AllBlank;
    assert lead + left == lead + bare + trail;
  }

  lemma LeftStrips(id: string)
    ensures var left := TrimLeft(id, Space); AllSpace(id[..|id| - |left|]) && id == id[..|id| - |left|] + left
  {
    LeftIsSpace(id);
    hide Space;
  }

  lemma RightStrips(left: string)
    ensures var bare := TrimRight(left, Space); AllSpace(left[|bare|..]) && left == bare + left[|bare|..]
  {
    RightIsSpace(left);
    hide Space;
    var bare := TrimRight(left, Space);
    forall i | 0 <= i < |left| - |bare| ensures Space(left[|bare|..][i]) {
      assert left[|bare|..][i] == left[|bare| + i];
    }
  }

  lemma TrimStrips(id: string)
    ensures Stripped(id, Trim(id, Space))
  {
    var left := TrimLeft(id, Space);
    var bare := TrimRight(left, Space);
    LeftStrips(id);
    RightStrips(left);
    hide Space, AllSpace, TrimLeft, TrimRight, Stripped;
    assert bare != "" ==> left[0] == bare[0];
    StripsAs(id[..|id| - |left|], left, bare, left[|bare|..]);
  }

  lemma PathGoes(bare: string)
    ensures PathOff(bare, StripPath(bare))
  {
    assert FIREWORKS_PATHS[0] == "accounts/fireworks/models/" && FIREWORKS_PATHS[1] == "accounts/fireworks/";
  }

  lemma LowerIsSmall(s: string)
    ensures Lower(s) == AllSmall(s)
  {
    forall i | 0 <= i < |s| ensures Lower(s)[i] == AllSmall(s)[i] {
      SmallIs(s[i]);
    }
  }

  lemma {:induction false} KeyIsKept(vendor: string)
    ensures VendorKey(vendor) == Kept(vendor)
  {
    if vendor != "" {
      SmallIs(vendor[0]);
      KeyIsKept(vendor[1..]);
    }
    hide Word, LowerChar, Small, AlNum;
  }

  lemma KnownIs(maker: string)
    ensures Known(maker) == if maker in KNOWN_MAKERS then Some(maker) else None
    ensures IsRegion(maker) <==> maker in BEDROCK_REGIONS
  {
  }

  lemma TokenGoes(plain: string, token: string, tail: string)
    ensures var known := Lower(token) in KNOWN_MAKERS;
            TokenPeels(plain, token, tail, if known then Some(Lower(token)) else None, if known then tail else plain)
  {
    LowerIsSmall(token);
    KnownIs(Lower(token));
    hide Known, KNOWN_MAKERS, Lower, AllSmall;
  }

  lemma HeadGoes(plain: string, head: string, rest: string)
    requires Cut(plain, '.') == Some((head, rest))
    ensures HeadPeels(plain, head, rest, SplitDotted(plain).0, SplitDotted(plain).1)
  {
    LowerIsSmall(head);
    KnownIs(Lower(head));
    hide TokenPeels, IsRegion, KNOWN_MAKERS, BEDROCK_REGIONS, Lower, AllSmall, Known;
    if Lower(head) in BEDROCK_REGIONS && '.' in rest {
      var (token, tail) := Cut(rest, '.').value;
      TokenGoes(plain, token, tail);
      hide Cut;
      assert rest == token + "." + tail;
    } else {
      TokenGoes(plain, head, rest);
    }
  }

  lemma DottedGoes(plain: string)
    ensures DottedPeels(plain, SplitDotted(plain).0, SplitDotted(plain).1)
  {
    hide HeadPeels, KNOWN_MAKERS, BEDROCK_REGIONS;
    var cut := Cut(plain, '.');
    if cut.Some? {
      var (head, rest) := cut.value;
      HeadGoes(plain, head, rest);
      hide SplitDotted;
      assert plain == head + "." + rest;
    }
  }

  lemma PeelGoes(plain: string)
    ensures Peels(plain, PeelMaker(plain).0, PeelMaker(plain).1)
  {
    var cut := CutLast(plain, '/');
    DottedGoes(plain);
    hide SplitDotted, DottedPeels, CutLast;
    if cut.Some? {
      var (vendor, name) := cut.value;
      KeyIsKept(vendor);
      KnownIs(VendorKey(vendor));
      hide VendorKey, Kept, Known, KNOWN_MAKERS;
      assert plain == vendor + "/" + name;
    }
  }

  lemma LaneGoes(provider: string, name: string)
    ensures LaneOff(provider, name, StripLane(provider, name))
  {
    LowerIsSmall(name);
    hide Small, LowerChar;
    if |name| > 3 {
      assert AllSmall(name[..3]) == AllSmall(name)[..3];
    }
  }

  lemma NumberedIs(s: string, mark: string)
    requires mark != "" && !Digit(mark[|mark| - 1])
    ensures MarkBefore(s, mark).Some? ==> EndsNumbered(s, s[..MarkBefore(s, mark).value], mark)
    ensures MarkBefore(s, mark).None? ==> forall x :: !EndsNumbered(s, x, mark)
  {
    hide MarkBefore;
    var at := MarkBefore(s, mark);
    if at.Some? {
      var d := s[at.value + |mark|..];
      forall i | 0 <= i < |d| ensures '0' <= d[i] <= '9' {
        assert d[i] == s[at.value + |mark| + i];
      }
      assert s == s[..at.value] + mark + d;
    }
    forall x | EndsNumbered(s, x, mark) ensures at.Some? {
      NumberedHasMark(s, x, mark);
    }
  }

  lemma NumberedHasMark(s: string, x: string, mark: string)
    requires mark != "" && !Digit(mark[|mark| - 1]) && EndsNumbered(s, x, mark)
    ensures MarkBefore(s, mark).Some?
  {
    var d :| d != "" && (forall c :: c in d ==> '0' <= c <= '9') && s == x + mark + d;
    assert forall i :: 0 <= i < |d| ==> d[i] in d;
    MarkFound(x, mark, d);
    hide MarkBefore;
  }

  lemma MarkedGoes(own: string, x: string, base: string)
    requires EndsNumbered(own, x, ":")
    requires if forall y :: !EndsNumbered(x, y, "-v") then base == x else EndsNumbered(x, base, "-v")
    ensures VersionOff(Some(""), own, base)
  {
    hide EndsNumbered;
  }

  lemma VersionGoes(maker: Option<string>, own: string)
    ensures VersionOff(maker, own, if maker.Some? then StripVersion(own) else own)
  {
    NumberedIs(own, ":");
    var at := MarkBefore(own, ":");
    if maker.Some? && at.Some? {
      var x := own[..at.value];
      NumberedIs(x, "-v");
      hide MarkBefore, EndsNumbered, VersionOff;
      MarkedGoes(own, x, StripVersion(own));
      AnyMaker(maker, own, StripVersion(own));
    }
    hide MarkBefore, EndsNumbered;
  }

  lemma AnyMaker(maker: Option<string>, own: string, base: string)
    requires maker.Some? && VersionOff(Some(""), own, base)
    ensures VersionOff(maker, own, base)
  {
    hide EndsNumbered;
  }

  /** Splitting an id sheds exactly these decorations. */
  lemma SplitExactly(provider: string, id: string)
    ensures Splits(provider, id, SplitMaker(provider, id).0, SplitMaker(provider, id).1)
  {
    var bare := Trim(id, Space);
    var plain := StripPath(bare);
    var (maker, name) := PeelMaker(plain);
    var own := StripLane(provider, name);
    TrimStrips(id);
    PathGoes(bare);
    PeelGoes(plain);
    LaneGoes(provider, name);
    VersionGoes(maker, own);
    hide Trim, StripPath, PeelMaker, StripLane, StripVersion, Stripped, PathOff, Peels, LaneOff, VersionOff;
  }

  // The slug -----------------------------------------------------------------

  /** The base name reduced, else the display name reduced, else the provider. */
  ghost predicate IsName(provider: string, base: string, display: string, name: string) {
    exists b, d ::
      Reduces(base, b) && Reduces(display, d) && name == if b != "" then b else if d != "" then d else provider
  }

  /** Letter first, its maker or else its provider in front of any other name. */
  ghost function Lettered(provider: string, maker: Option<string>, name: string): string {
    if name != "" && 'a' <= name[0] <= 'z' then name else maker.GetOr(provider) + "-" + name
  }

  ghost predicate Separator(c: char) {
    c in {'-', '.', '_'}
  }

  /** The first 128 characters, no separator left at the end. */
  ghost predicate IsClipped(whole: string, slug: string) {
    && slug <= whole && |slug| <= 128 && (slug != "" ==> !Separator(slug[|slug| - 1]))
    && forall i :: |slug| <= i < |whole| && i < 128 ==> Separator(whole[i])
  }

  lemma {:induction false} RightGoes(s: string)
    ensures var t := TrimRight(s, SlugEdge);
            t <= s && (t != "" ==> !Separator(t[|t| - 1])) && forall i :: |t| <= i < |s| ==> Separator(s[i])
  {
    if s != "" && SlugEdge(s[|s| - 1]) {
      RightGoes(s[..|s| - 1]);
    }
  }

  lemma ClipIs(whole: string)
    ensures IsClipped(whole, Clip(whole))
  {
    RightGoes(whole[..if |whole| < SLUG_MAX then |whole| else SLUG_MAX]);
  }

  ghost predicate SlugFrom(provider: string, id: string, display: string, slug: string, maker: Option<string>, base: string, name: string) {
    && Splits(provider, id, maker, base) && IsName(provider, base, display, name)
    && IsClipped(Lettered(provider, maker, name), slug)
  }

  /** The slug of an id: its maker and base name split off, the name reduced, made
      letter first, and clipped. */
  lemma SlugExactly(provider: string, id: string, display: string)
    ensures exists maker, base, name :: SlugFrom(provider, id, display, Slug(provider, id, display), maker, base, name)
  {
    var (maker, base) := SplitMaker(provider, id);
    var name := NameOf(provider, base, display);
    SplitExactly(provider, id);
    NameGoes(provider, base, display);
    LetteredIs(provider, maker, name);
    hide SplitMaker, NameOf, LetterFirst, Clip, Splits, IsName, IsClipped, Lettered;
    ClipIs(LetterFirst(name, maker, provider));
    assert SlugFrom(provider, id, display, Slug(provider, id, display), maker, base, name);
  }

  lemma NameGoes(provider: string, base: string, display: string)
    ensures IsName(provider, base, display, NameOf(provider, base, display))
  {
    NormalizeReduces(base);
    NormalizeReduces(display);
    hide Reduces, Normalize;
  }

  lemma LetteredIs(provider: string, maker: Option<string>, name: string)
    ensures LetterFirst(name, maker, provider) == Lettered(provider, maker, name)
  {
  }
}

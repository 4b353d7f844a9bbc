/** Canonical model identity: the public slug one provider's model id reduces to. */
module ModelIdentity {
  import opened Prelude

  const SLUG_MAX: nat := 128

  const FIREWORKS_PATHS: seq<string> := ["accounts/fireworks/models/", "accounts/fireworks/"]

  const BEDROCK_REGIONS: set<string> := {"us", "eu", "apac", "ap", "ca", "sa", "us-gov", "global"}

  const KNOWN_MAKERS: set<string> := {
    "ai21", "amazon", "anthropic", "baidu", "bytedance", "cohere", "deepseek", "google", "luma", "meta", "microsoft",
    "minimax", "mistral", "moonshot", "moonshotai", "nvidia", "openai", "qwen", "stability", "thinkingmachines",
    "writer", "zai"
  }

  const AZURE := "azure_openai"

  const AZURE_LANE_PREFIX := "fw-"

  // Characters ---------------------------------------------------------------

  predicate Letter(c: char) {
    'a' <= c <= 'z'
  }

  predicate Digit(c: char) {
    '0' <= c <= '9'
  }

  /** `[a-z0-9.]`, what the normaliser keeps. */
  predicate Word(c: char) {
    Letter(c) || Digit(c) || c == '.'
  }

  /** The slug alphabet. */
  predicate SlugChar(c: char) {
    Word(c) || c == '-' || c == '_'
  }

  predicate Space(c: char) {
    || '\U{0009}' <= c <= '\U{000D}' || '\U{001C}' <= c <= '\U{0020}' || c == '\U{0085}' || c == '\U{00A0}'
    || c == '\U{1680}' || '\U{2000}' <= c <= '\U{200A}' || c == '\U{2028}' || c == '\U{2029}' || c == '\U{202F}'
    || c == '\U{205F}' || c == '\U{3000}'
  }

  function LowerChar(c: char): char {
    if 'A' <= c <= 'Z' then (c as int - 'A' as int + 'a' as int) as char else c
  }

  function Lower(s: string): (r: string)
    ensures |r| == |s| && forall i :: 0 <= i < |s| ==> r[i] == LowerChar(s[i])
  {
    seq(|s|, i requires 0 <= i < |s| => LowerChar(s[i]))
  }

  // Text operations ----------------------------------------------------------

  function TrimLeft(s: string, drop: char -> bool): (r: string)
    ensures |r| <= |s| && r == s[|s| - |r|..]
    ensures r != [] ==> !drop(r[0])
  {
    if s != [] && drop(s[0]) then TrimLeft(s[1..], drop) else s
  }

  function TrimRight(s: string, drop: char -> bool): (r: string)
    ensures |r| <= |s| && r == s[..|r|]
    ensures r != [] ==> !drop(r[|r| - 1])
  {
    if s != [] && drop(s[|s| - 1]) then TrimRight(s[..|s| - 1], drop) else s
  }

  function Trim(s: string, drop: char -> bool): string {
    TrimRight(TrimLeft(s, drop), drop)
  }

  predicate StartsWith(s: string, prefix: string) {
    |prefix| <= |s| && s[..|prefix|] == prefix
  }

  /** `s.partition(c)`, when `c` occurs. */
  function Cut(s: string, c: char): (r: Option<(string, string)>)
    ensures r.None? <==> c !in s
    ensures r.Some? ==> s == r.value.0 + [c] + r.value.1 && c !in r.value.0
  {
    if s == [] then None
    else if s[0] == c then Some(([], s[1..]))
    else
      match Cut(s[1..], c)
      case None => None
      case Some(p) => Some(([s[0]] + p.0, p.1))
  }

  /** `s.rpartition(c)`, when `c` occurs. */
  function CutLast(s: string, c: char): (r: Option<(string, string)>)
    ensures r.None? <==> c !in s
    ensures r.Some? ==> s == r.value.0 + [c] + r.value.1 && c !in r.value.1
  {
    if s == [] then None
    else
      var n := |s| - 1;
      if s[n] == c then Some((s[..n], []))
      else
        match CutLast(s[..n], c)
        case None => None
        case Some(p) => Some((p.0, p.1 + [s[n]]))
  }

  // Normalisation ------------------------------------------------------------

  /** Every run of characters outside the kept alphabet becomes one dash. */
  function Fold(s: string, inRun: bool): string {
    if s == [] then []
    else if Word(s[0]) then [s[0]] + Fold(s[1..], false)
    else (if inRun then [] else ['-']) + Fold(s[1..], true)
  }

  /** Every run of dots becomes one dot. */
  function JoinDots(s: string, inRun: bool): string {
    if s == [] then []
    else if s[0] != '.' then [s[0]] + JoinDots(s[1..], false)
    else (if inRun then [] else ['.']) + JoinDots(s[1..], true)
  }

  predicate Edge(c: char) {
    c == '-' || c == '.'
  }

  function Normalize(value: string): string {
    Trim(JoinDots(Fold(Lower(value), false), false), Edge)
  }

  /** Nothing left to normalise: the kept alphabet and single dashes and dots, with
      no separator at either end. */
  predicate Normal(s: string) {
    && (forall i :: 0 <= i < |s| ==> Word(s[i]) || s[i] == '-')
    && (forall i :: 0 <= i < |s| - 1 ==> !(s[i] == '-' && s[i + 1] == '-') && !(s[i] == '.' && s[i + 1] == '.'))
    && (s != [] ==> !Edge(s[0]) && !Edge(s[|s| - 1]))
  }

  /** What folding promises, given whether a dash was just written. */
  predicate Folded(s: string, afterDash: bool) {
    && (forall i :: 0 <= i < |s| ==> Word(s[i]) || s[i] == '-')
    && (forall i :: 0 <= i < |s| - 1 ==> !(s[i] == '-' && s[i + 1] == '-'))
    && (afterDash && s != [] ==> s[0] != '-')
  }

  predicate SingleDots(s: string, afterDot: bool) {
    && (forall i :: 0 <= i < |s| - 1 ==> !(s[i] == '.' && s[i + 1] == '.'))
    && (afterDot && s != [] ==> s[0] != '.')
  }

  lemma {:induction false} FoldFolds(s: string, inRun: bool)
    ensures Folded(Fold(s, inRun), inRun)
  {
    if s != [] {
      FoldFolds(s[1..], !Word(s[0]));
      var rest := Fold(s[1..], !Word(s[0]));
      hide Word;
      assert Fold(s, inRun) == rest || Fold(s, inRun) == [Fold(s, inRun)[0]] + rest;
    }
  }

  lemma {:induction false} JoinDotsKeepsFolded(s: string, inRun: bool, afterDash: bool)
    requires Folded(s, afterDash)
    ensures Folded(JoinDots(s, inRun), afterDash && !(inRun && s != [] && s[0] == '.'))
  {
    if s != [] {
      assert Folded(s[1..], s[0] == '-');
      JoinDotsKeepsFolded(s[1..], s[0] == '.', s[0] == '-');
    }
  }

  lemma {:induction false} JoinDotsJoins(s: string, inRun: bool)
    ensures SingleDots(JoinDots(s, inRun), inRun)
  {
    if s != [] {
      JoinDotsJoins(s[1..], s[0] == '.');
    }
  }

  lemma SliceShape(s: string, lo: nat, hi: nat)
    requires lo <= hi <= |s| && Folded(s, false) && SingleDots(s, false)
    ensures Folded(s[lo..hi], false) && SingleDots(s[lo..hi], false)
  {
  }

  lemma TrimSlice(s: string, drop: char -> bool) returns (lo: nat, hi: nat)
    ensures lo <= hi <= |s| && Trim(s, drop) == s[lo..hi]
    ensures lo < hi ==> !drop(s[lo]) && !drop(s[hi - 1])
  {
    var left := TrimLeft(s, drop);
    lo := |s| - |left|;
    hi := lo + |TrimRight(left, drop)|;
  }

  lemma TrimKeepsShape(s: string)
    requires Folded(s, false) && SingleDots(s, false)
    ensures Normal(Trim(s, Edge))
  {
    var lo, hi := TrimSlice(s, Edge);
    hide Trim;
    SliceShape(s, lo, hi);
  }

  /** Every output is in normal shape. */
  lemma NormalizeIsNormal(value: string)
    ensures Normal(Normalize(value))
  {
    var folded := Fold(Lower(value), false);
    FoldFolds(Lower(value), false);
    JoinDotsKeepsFolded(folded, false, false);
    JoinDotsJoins(folded, false);
    hide Normal, Trim, Folded, SingleDots;
    TrimKeepsShape(JoinDots(folded, false));
  }

  lemma {:induction false} FoldFixes(s: string, inRun: bool)
    requires Folded(s, inRun)
    ensures Fold(s, inRun) == s
  {
    if s != [] {
      assert Folded(s[1..], !Word(s[0]));
      FoldFixes(s[1..], !Word(s[0]));
    }
  }

  lemma {:induction false} JoinDotsFixes(s: string, inRun: bool)
    requires SingleDots(s, inRun)
    ensures JoinDots(s, inRun) == s
  {
    if s != [] {
      assert SingleDots(s[1..], s[0] == '.');
      JoinDotsFixes(s[1..], s[0] == '.');
    }
  }

  lemma LowerFixes(s: string)
    requires forall i :: 0 <= i < |s| ==> Word(s[i]) || s[i] == '-'
    ensures Lower(s) == s
  {
    assert forall i :: 0 <= i < |s| ==> LowerChar(s[i]) == s[i];
  }

  lemma TrimFixes(s: string, drop: char -> bool)
    requires s != [] ==> !drop(s[0]) && !drop(s[|s| - 1])
    ensures Trim(s, drop) == s
  {
  }

  /** The normal strings are exactly the fixed points, so normalising is idempotent. */
  lemma FixedExactlyWhenNormal(s: string)
    ensures Normalize(s) == s <==> Normal(s)
    ensures Normalize(Normalize(s)) == Normalize(s)
  {
    NormalizeIsNormal(s);
    if Normal(s) {
      NormalIsFixed(s);
    }
    NormalIsFixed(Normalize(s));
  }

  lemma NormalIsFixed(s: string)
    requires Normal(s)
    ensures Normalize(s) == s
  {
    LowerFixes(s);
    FoldFixes(s, false);
    JoinDotsFixes(s, false);
    TrimFixes(s, Edge);
  }

  // Splitting an id ----------------------------------------------------------

  function StripPath(id: string): string {
    if StartsWith(id, FIREWORKS_PATHS[0]) then id[|FIREWORKS_PATHS[0]|..]
    else if StartsWith(id, FIREWORKS_PATHS[1]) then id[|FIREWORKS_PATHS[1]|..]
    else id
  }

  /** Lower-cased vendor with the folded characters removed. */
  function VendorKey(vendor: string): string {
    if vendor == [] then []
    else (if Word(LowerChar(vendor[0])) then [LowerChar(vendor[0])] else []) + VendorKey(vendor[1..])
  }

  /** `[region.]maker.name`: only a region and a known maker are peeled. */
  function SplitDotted(id: string): (Option<string>, string) {
    match Cut(id, '.')
    case None => (None, id)
    case Some((head, rest)) =>
      if Lower(head) in BEDROCK_REGIONS && '.' in rest then
        var (maker, name) := Cut(rest, '.').value;
        if Lower(maker) in KNOWN_MAKERS then (Some(Lower(maker)), name) else (None, id)
      else if Lower(head) in KNOWN_MAKERS then (Some(Lower(head)), rest)
      else (None, id)
  }

  function PeelMaker(id: string): (Option<string>, string) {
    match CutLast(id, '/')
    case Some((vendor, name)) =>
      (if VendorKey(vendor) in KNOWN_MAKERS then Some(VendorKey(vendor)) else None, name)
    case None => SplitDotted(id)
  }

  function StripLane(provider: string, name: string): string {
    if provider == AZURE && StartsWith(Lower(name), AZURE_LANE_PREFIX) && |name| > |AZURE_LANE_PREFIX|
    then name[|AZURE_LANE_PREFIX|..]
    else name
  }

  function TrailingDigits(s: string): (n: nat)
    ensures n <= |s| && (forall i :: |s| - n <= i < |s| ==> Digit(s[i]))
    ensures n < |s| ==> !Digit(s[|s| - n - 1])
  {
    if s != [] && Digit(s[|s| - 1]) then 1 + TrailingDigits(s[..|s| - 1]) else 0
  }

  /** Where a trailing `<mark><digits>` starts, digits being one or more. */
  function MarkBefore(s: string, mark: string): (at: Option<nat>)
    requires mark != [] && !Digit(mark[|mark| - 1])
    ensures at.Some? ==> at.value + |mark| < |s| && s[at.value..at.value + |mark|] == mark
    ensures at.Some? ==> forall i :: at.value + |mark| <= i < |s| ==> Digit(s[i])
  {
    var n := TrailingDigits(s);
    var at := |s| - n - |mark|;
    if n > 0 && at >= 0 && s[at..at + |mark|] == mark then Some(at) else None
  }

  /** `(?:-v\d+)?:\d+$`, removed. */
  function StripVersion(name: string): string {
    match MarkBefore(name, ":")
    case None => name
    case Some(at) =>
      var base := name[..at];
      match MarkBefore(base, "-v")
      case None => base
      case Some(v) => base[..v]
  }

  function SplitMaker(provider: string, id: string): (Option<string>, string) {
    var (maker, peeled) := PeelMaker(StripPath(Trim(id, Space)));
    var name := StripLane(provider, peeled);
    (maker, if maker.Some? then StripVersion(name) else name)
  }

  function LetterFirst(normalized: string, maker: Option<string>, provider: string): string {
    if normalized != [] && Letter(normalized[0]) then normalized
    else if maker.Some? then maker.value + "-" + normalized
    else provider + "-" + normalized
  }

  predicate SlugEdge(c: char) {
    c == '-' || c == '.' || c == '_'
  }

  /** The name the slug is built from: the id's, else the display name's, else the
      provider's own key. */
  function NameOf(provider: string, base: string, display: string): string {
    if Normalize(base) != [] then Normalize(base)
    else if Normalize(display) != [] then Normalize(display)
    else provider
  }

  function Slug(provider: string, id: string, display: string): string {
    var (maker, base) := SplitMaker(provider, id);
    SlugOf(provider, maker, base, display)
  }

  function SlugOf(provider: string, maker: Option<string>, base: string, display: string): string {
    var slug := LetterFirst(NameOf(provider, base, display), maker, provider);
    Clip(slug)
  }

  /** At most 128 characters, and no separator at the end. */
  function Clip(slug: string): string {
    TrimRight(slug[..if |slug| < SLUG_MAX then |slug| else SLUG_MAX], SlugEdge)
  }

  // Well-formed slugs --------------------------------------------------------

  predicate LetterFirstOver(s: string) {
    s != [] && Letter(s[0]) && forall i :: 0 <= i < |s| ==> SlugChar(s[i])
  }

  lemma MakersAreLetterFirst(maker: string)
    requires maker in KNOWN_MAKERS
    ensures LetterFirstOver(maker)
  {
  }

  lemma DottedMakerIsKnown(id: string)
    ensures SplitDotted(id).0.Some? ==> SplitDotted(id).0.value in KNOWN_MAKERS
  {
    hide KNOWN_MAKERS, BEDROCK_REGIONS, Cut;
  }

  lemma MakerIsKnown(provider: string, id: string)
    ensures SplitMaker(provider, id).0.Some? ==> SplitMaker(provider, id).0.value in KNOWN_MAKERS
  {
    var stripped := StripPath(Trim(id, Space));
    DottedMakerIsKnown(stripped);
    hide KNOWN_MAKERS, SplitDotted, StripPath, Trim, StripLane, StripVersion, CutLast, VendorKey;
  }

  lemma LetterFirstIsLetterFirst(normalized: string, maker: Option<string>, provider: string)
    requires LetterFirstOver(provider) && (maker.Some? ==> LetterFirstOver(maker.value))
    requires Normal(normalized) || normalized == provider
    ensures LetterFirstOver(LetterFirst(normalized, maker, provider))
  {
  }

  /** Every slug is letter first, over the slug alphabet, 1 to 128 long, and ends in
      no separator. */
  lemma SlugIsWellFormed(provider: string, id: string, display: string)
    requires LetterFirstOver(provider)
    ensures var slug := Slug(provider, id, display);
            && LetterFirstOver(slug) && 1 <= |slug| <= SLUG_MAX && !SlugEdge(slug[|slug| - 1])
  {
    var (maker, base) := SplitMaker(provider, id);
    var name := NameOf(provider, base, display);
    MakerIsLetterFirst(provider, id);
    NameIsNormal(provider, base, display);
    hide SplitMaker, Normalize, LetterFirst, LetterFirstOver, NameOf;
    LetterFirstIsLetterFirst(name, maker, provider);
    TrimKeepsFirst(LetterFirst(name, maker, provider));
  }

  lemma MakerIsLetterFirst(provider: string, id: string)
    ensures SplitMaker(provider, id).0.Some? ==> LetterFirstOver(SplitMaker(provider, id).0.value)
  {
    MakerIsKnown(provider, id);
    hide SplitMaker, LetterFirstOver;
    var maker := SplitMaker(provider, id).0;
    if maker.Some? {
      MakersAreLetterFirst(maker.value);
    }
  }

  lemma NameIsNormal(provider: string, base: string, display: string)
    ensures var name := NameOf(provider, base, display); Normal(name) || name == provider
  {
    NormalizeIsNormal(base);
    NormalizeIsNormal(display);
    hide Normalize, Normal;
  }

  lemma TrimKeepsFirst(s: string)
    requires LetterFirstOver(s)
    ensures var slug := TrimRight(s[..if |s| < SLUG_MAX then |s| else SLUG_MAX], SlugEdge);
            LetterFirstOver(slug) && 1 <= |slug| <= SLUG_MAX && !SlugEdge(slug[|slug| - 1])
  {
    var cut := s[..if |s| < SLUG_MAX then |s| else SLUG_MAX];
    TrimRightStops(cut, SlugEdge);
  }

  lemma {:induction false} TrimRightStops(s: string, drop: char -> bool)
    requires s != [] && !drop(s[0])
    ensures TrimRight(s, drop) != []
  {
    if drop(s[|s| - 1]) {
      TrimRightStops(s[..|s| - 1], drop);
    }
  }

  // Decorations --------------------------------------------------------------

  predicate NoSpace(s: string) {
    forall i :: 0 <= i < |s| ==> !Space(s[i])
  }

  lemma {:induction false} CutPrefix(a: string, c: char, b: string)
    requires c !in a
    ensures Cut(a + [c] + b, c) == Some((a, b))
  {
    var s := a + [c] + b;
    if a != [] {
      assert s[1..] == a[1..] + [c] + b;
      CutPrefix(a[1..], c, b);
      assert [a[0]] + a[1..] == a;
    } else {
      assert s[1..] == b;
    }
  }

  lemma {:induction false} CutLastSuffix(a: string, c: char, b: string)
    requires c !in b
    ensures CutLast(a + [c] + b, c) == Some((a, b))
  {
    var s := a + [c] + b;
    if b != [] {
      var n := |b| - 1;
      assert s[..|s| - 1] == a + [c] + b[..n];
      CutLastSuffix(a, c, b[..n]);
      assert b[..n] + [b[n]] == b;
      assert s[|s| - 1] == b[n];
    } else {
      assert s[..|s| - 1] == a;
    }
  }

  /** Two ids that leave the same maker and base name have the same slug on any two
      lanes, whatever their display names. */
  lemma SameNameSameSlug(p: string, q: string, id: string, other: string, display: string, shown: string)
    requires SplitMaker(p, id) == SplitMaker(q, other)
    requires (p == q && display == shown)
          || (Normalize(SplitMaker(p, id).1) != [] && SplitMaker(p, id).0.Some?)
    ensures Slug(p, id, display) == Slug(q, other, shown)
  {
    hide SplitMaker, Normalize;
  }

  lemma PathSplits(provider: string, path: string, id: string)
    requires path in FIREWORKS_PATHS && NoSpace(id)
    requires !StartsWith(id, FIREWORKS_PATHS[1]) && !StartsWith(id, "models/")
    ensures SplitMaker(provider, path + id) == SplitMaker(provider, id)
  {
    hide StripPath, Trim, PeelMaker, StripLane, StripVersion, StartsWith, SplitMaker;
    PathIsPlain(path);
    StripAddedPath(path, id);
    TrimPlain(id);
    TrimPlain(path + id);
    SameStripped(provider, path + id, id);
  }

  lemma TrimPlain(id: string)
    requires NoSpace(id)
    ensures Trim(id, Space) == id
  {
    hide Space;
    TrimFixes(id, Space);
  }

  lemma SameStripped(provider: string, a: string, b: string)
    requires StripPath(Trim(a, Space)) == StripPath(Trim(b, Space))
    ensures SplitMaker(provider, a) == SplitMaker(provider, b)
  {
    hide StripPath, Trim, PeelMaker, StripLane, StripVersion;
  }

  lemma PathIsPlain(path: string)
    requires path in FIREWORKS_PATHS
    ensures path != [] && NoSpace(path)
  {
    hide Space;
    PlainChars();
  }

  lemma PlainChars()
    ensures forall c: char :: Letter(c) || Digit(c) || c == '/' || c == '-' || c == '.' ==> !Space(c)
  {
  }

  lemma StripAddedPath(path: string, id: string)
    requires path in FIREWORKS_PATHS
    requires !StartsWith(id, FIREWORKS_PATHS[1]) && !StartsWith(id, "models/")
    ensures StripPath(path + id) == id == StripPath(id)
  {
    var long, short := FIREWORKS_PATHS[0], FIREWORKS_PATHS[1];
    assert long == short + "models/";
    assert (path + id)[..|path|] == path && (path + id)[|path|..] == id;
    StartsWithTwo(id, short, "models/");
    StartsWithTwo(path + id, short, "models/");
  }

  lemma StartsWithTwo(s: string, a: string, b: string)
    ensures StartsWith(s, a + b) <==> StartsWith(s, a) && StartsWith(s[|a|..], b)
  {
    if |a + b| <= |s| {
      assert s[..|a + b|] == s[..|a|] + s[|a|..][..|b|];
    }
  }

  lemma StartsWithHas(s: string, prefix: string, i: nat)
    requires StartsWith(s, prefix) && i < |prefix|
    ensures prefix[i] in s
  {
    assert s[i] == s[..|prefix|][i];
  }

  /** A Fireworks account path in front of an id changes nothing. */
  lemma PathIsInvisible(provider: string, path: string, id: string, display: string)
    requires path in FIREWORKS_PATHS && NoSpace(id)
    requires !StartsWith(id, FIREWORKS_PATHS[1]) && !StartsWith(id, "models/")
    ensures Slug(provider, path + id, display) == Slug(provider, id, display)
  {
    PathSplits(provider, path, id);
    SameNameSameSlug(provider, provider, path + id, id, display, display);
  }

  lemma RegionIsPlain(region: string)
    requires Lower(region) in BEDROCK_REGIONS
    ensures region != [] && NoSpace(region) && '.' !in region && '/' !in region
  {
    var lower := Lower(region);
    RegionsArePlain(lower);
    hide BEDROCK_REGIONS;
    forall i | 0 <= i < |region| ensures !Space(region[i]) && region[i] != '.' && region[i] != '/' {
      assert lower[i] == LowerChar(region[i]);
    }
  }

  lemma RegionsArePlain(region: string)
    requires region in BEDROCK_REGIONS
    ensures region != [] && forall i :: 0 <= i < |region| ==> Letter(region[i]) || region[i] == '-'
    ensures region !in KNOWN_MAKERS
  {
  }

  /** `maker.name` with a known maker. */
  predicate Dotted(id: string) {
    && NoSpace(id) && '/' !in id && '.' in id && Lower(Cut(id, '.').value.0) in KNOWN_MAKERS
  }

  lemma RegionPeels(region: string, id: string)
    requires Lower(region) in BEDROCK_REGIONS && Dotted(id)
    ensures SplitDotted(region + "." + id) == SplitDotted(id)
  {
    RegionIsPlain(region);
    CutPrefix(region, '.', id);
    MakerIsNoRegion(Lower(Cut(id, '.').value.0));
    hide BEDROCK_REGIONS, KNOWN_MAKERS, Cut, Lower, NoSpace;
  }

  lemma PlainDotted(id: string)
    requires NoSpace(id) && '/' !in id
    ensures PeelMaker(StripPath(Trim(id, Space))) == SplitDotted(id)
  {
    hide Trim, NoSpace, SplitDotted, StripPath, CutLast;
    TrimPlain(id);
    NoPath(id);
  }

  lemma SamePeeled(provider: string, a: string, b: string)
    requires PeelMaker(StripPath(Trim(a, Space))) == PeelMaker(StripPath(Trim(b, Space)))
    ensures SplitMaker(provider, a) == SplitMaker(provider, b)
  {
    hide StripPath, Trim, PeelMaker, StripLane, StripVersion;
  }

  lemma RegionSplits(provider: string, region: string, id: string)
    requires Lower(region) in BEDROCK_REGIONS && Dotted(id)
    ensures SplitMaker(provider, region + "." + id) == SplitMaker(provider, id)
  {
    RegionIsPlain(region);
    var longer := region + "." + id;
    assert '/' !in longer && NoSpace(longer);
    RegionPeels(region, id);
    hide BEDROCK_REGIONS, KNOWN_MAKERS, SplitMaker, PeelMaker, SplitDotted, Cut, Trim, StripPath, NoSpace;
    PlainDotted(longer);
    PlainDotted(id);
    SamePeeled(provider, longer, id);
  }

  lemma MakerIsNoRegion(maker: string)
    requires maker in KNOWN_MAKERS
    ensures maker !in BEDROCK_REGIONS
  {
  }

  lemma NoPath(id: string)
    requires '/' !in id
    ensures StripPath(id) == id && CutLast(id, '/').None?
  {
    var long, short := FIREWORKS_PATHS[0], FIREWORKS_PATHS[1];
    assert long[8] == '/' && short[8] == '/';
    if StartsWith(id, long) {
      StartsWithHas(id, long, 8);
    } else if StartsWith(id, short) {
      StartsWithHas(id, short, 8);
    }
  }

  /** A cross-region prefix in front of `maker.name` changes nothing. */
  lemma RegionIsInvisible(provider: string, region: string, id: string, display: string)
    requires Lower(region) in BEDROCK_REGIONS && Dotted(id)
    ensures Slug(provider, region + "." + id, display) == Slug(provider, id, display)
  {
    RegionSplits(provider, region, id);
    hide *;
    SameNameSameSlug(provider, provider, region + "." + id, id, display, display);
  }

  // Version suffixes ---------------------------------------------------------

  /** One or more digits. */
  predicate Digits(s: string) {
    s != [] && forall i :: 0 <= i < |s| ==> Digit(s[i])
  }

  lemma {:induction false} TrailingDigitsOf(s: string, d: string)
    requires (s != [] ==> !Digit(s[|s| - 1])) && forall i :: 0 <= i < |d| ==> Digit(d[i])
    ensures TrailingDigits(s + d) == |d|
  {
    if d != [] {
      assert (s + d)[..|s + d| - 1] == s + d[..|d| - 1];
      TrailingDigitsOf(s, d[..|d| - 1]);
    } else {
      assert s + d == s;
    }
  }

  lemma MarkFound(s: string, mark: string, d: string)
    requires mark != [] && !Digit(mark[|mark| - 1]) && Digits(d)
    ensures MarkBefore(s + mark + d, mark) == Some(|s|)
  {
    TrailingDigitsOf(s + mark, d);
    assert (s + mark + d)[|s|..|s| + |mark|] == mark;
  }

  /** A marked version is stripped whole, and the name in front of it stays. */
  lemma StripMarked(name: string, major: string, minor: string)
    requires Digits(major) && Digits(minor)
    ensures StripVersion(name + "-v" + major + ":" + minor) == name
  {
    var base := name + "-v" + major;
    MarkFound(base, ":", minor);
    MarkFound(name, "-v", major);
    hide MarkBefore;
    assert (base + ":" + minor)[..|base|] == base;
    assert base[..|name|] == name;
  }

  /** A bare minor takes a version-like end of the name with it. */
  lemma StripBare(name: string, minor: string)
    requires Digits(minor)
    ensures StripVersion(name + ":" + minor) == match MarkBefore(name, "-v") case None => name case Some(v) => name[..v]
    ensures StripVersion(name + ":" + minor) == name <==> MarkBefore(name, "-v").None?
  {
    MarkFound(name, ":", minor);
    assert (name + ":" + minor)[..|name|] == name;
    var v := MarkBefore(name, "-v");
    hide MarkBefore;
    assert v.Some? ==> |name[..v.value]| < |name|;
  }

  /** What may be hung on an id without touching how its maker is found. */
  predicate Tail(suffix: string) {
    NoSpace(suffix) && '/' !in suffix && '.' !in suffix
  }

  lemma TailAfterPath(id: string, suffix: string)
    requires Tail(suffix)
    ensures StripPath(id + suffix) == StripPath(id) + suffix
  {
    PathBeforeTail(id, suffix, FIREWORKS_PATHS[0]);
    PathBeforeTail(id, suffix, FIREWORKS_PATHS[1]);
  }

  lemma PathBeforeTail(id: string, suffix: string, path: string)
    requires Tail(suffix) && path != [] && path[|path| - 1] == '/'
    ensures StartsWith(id + suffix, path) <==> StartsWith(id, path)
    ensures StartsWith(id, path) ==> (id + suffix)[|path|..] == id[|path|..] + suffix
  {
    if |path| <= |id| {
      assert (id + suffix)[..|path|] == id[..|path|];
    } else if |path| <= |id + suffix| {
      assert (id + suffix)[..|path|][|path| - 1] == suffix[|path| - 1 - |id|];
    }
  }

  lemma TailAfterMaker(id: string, suffix: string)
    requires Tail(suffix) && PeelMaker(id).0.Some?
    ensures PeelMaker(id + suffix) == (PeelMaker(id).0, PeelMaker(id).1 + suffix)
  {
    hide KNOWN_MAKERS, BEDROCK_REGIONS, VendorKey, Lower, NoSpace;
    match CutLast(id, '/') {
      case Some((vendor, name)) =>
        CutLastSuffix(vendor, '/', name + suffix);
        assert vendor + ['/'] + (name + suffix) == id + suffix;
      case None =>
        assert '/' !in id + suffix;
        TailAfterDotted(id, suffix);
    }
  }

  lemma CutWithTail(id: string, suffix: string)
    requires '.' in id && '.' !in suffix
    ensures Cut(id + suffix, '.') == Some((Cut(id, '.').value.0, Cut(id, '.').value.1 + suffix))
  {
    var (head, rest) := Cut(id, '.').value;
    CutPrefix(head, '.', rest + suffix);
    hide Cut;
    Reassociate(id, head, rest, suffix);
  }

  lemma Reassociate(id: string, head: string, rest: string, suffix: string)
    requires id == head + ['.'] + rest
    ensures id + suffix == head + ['.'] + (rest + suffix)
  {
  }

  lemma TailAfterDotted(id: string, suffix: string)
    requires Tail(suffix) && SplitDotted(id).0.Some?
    ensures SplitDotted(id + suffix) == (SplitDotted(id).0, SplitDotted(id).1 + suffix)
  {
    hide KNOWN_MAKERS, BEDROCK_REGIONS, Lower, NoSpace;
    CutWithTail(id, suffix);
    var (head, rest) := Cut(id, '.').value;
    assert '.' in rest + suffix <==> '.' in rest;
    if '.' in rest {
      CutWithTail(rest, suffix);
    }
    hide Cut;
  }

  /** The name a suffix lands on: what is left of the id once its maker is peeled. */
  function Peeled(id: string): (Option<string>, string) {
    PeelMaker(StripPath(Trim(id, Space)))
  }

  lemma TailSplits(provider: string, id: string, suffix: string)
    requires NoSpace(id) && Tail(suffix) && Peeled(id).0.Some?
    ensures SplitMaker(provider, id + suffix)
         == (Peeled(id).0, StripVersion(StripLane(provider, Peeled(id).1 + suffix)))
    ensures SplitMaker(provider, id) == (Peeled(id).0, StripVersion(StripLane(provider, Peeled(id).1)))
  {
    hide PeelMaker, StripPath, StripLane, StripVersion, Trim, NoSpace;
    TrimPlain(id);
    assert NoSpace(id + suffix) by {
      NoSpaceAppend(id, suffix);
    }
    TrimPlain(id + suffix);
    TailAfterPath(id, suffix);
    TailAfterMaker(StripPath(id), suffix);
  }

  lemma NoSpaceAppend(a: string, b: string)
    requires NoSpace(a) && NoSpace(b)
    ensures NoSpace(a + b)
  {
  }

  lemma VersionTails(major: string, minor: string)
    requires Digits(major) && Digits(minor)
    ensures Tail("-v" + major + ":" + minor) && Tail(":" + minor)
  {
  }

  /** Azure's lane marker, which a suffix may complete or uncover. */
  predicate Marker(provider: string, name: string) {
    provider == AZURE && (Lower(name) == "fw" || Lower(name) == "fw-")
  }

  /** A suffix can complete the marker only behind its first two letters. */
  lemma ShortStart(name: string, rest: string)
    requires |name| < 3 && rest != [] && (rest[0] == '-' || rest[0] == ':')
    requires StartsWith(Lower(name + rest), "fw-")
    ensures Lower(name) == "fw" && rest[0] == '-'
  {
    var lower := Lower(name + rest);
    assert lower[0] == lower[..3][0] && lower[1] == lower[..3][1] && lower[2] == lower[..3][2];
    assert forall i :: 0 <= i < |name| ==> lower[i] == Lower(name)[i];
    assert lower[|name|] == LowerChar(rest[0]);
  }

  lemma LaneBeforeTail(provider: string, name: string, rest: string)
    requires rest != [] && (rest[0] == '-' || rest[0] == ':')
    requires provider == AZURE ==> Lower(name) != "fw-" && (Lower(name) == "fw" ==> rest[0] != '-')
    ensures StripLane(provider, name + rest) == StripLane(provider, name) + rest
  {
    var lower := Lower(name + rest);
    if provider == AZURE && |name| >= 3 {
      assert lower[..3] == Lower(name)[..3];
      assert |name| == 3 ==> Lower(name) == Lower(name)[..3];
      assert (name + rest)[3..] == name[3..] + rest;
    } else if provider == AZURE && StartsWith(lower, "fw-") {
      ShortStart(name, rest);
    }
  }

  lemma SuffixHasNoVersion(pre: string, name: string)
    requires MarkBefore(pre + name, ":").None?
    ensures StripVersion(name) == name
  {
    var at := MarkBefore(name, ":");
    if at.Some? {
      var head, d := name[..at.value], name[at.value + 1..];
      assert name == head + ":" + d;
      assert pre + name == (pre + head) + ":" + d;
      MarkFound(pre + head, ":", d);
    }
  }

  lemma LaneKeepsNoVersion(provider: string, name: string)
    requires MarkBefore(name, ":").None?
    ensures StripVersion(StripLane(provider, name)) == StripLane(provider, name)
  {
    var stripped := StripLane(provider, name);
    var pre := name[..|name| - |stripped|];
    assert pre + stripped == name;
    SuffixHasNoVersion(pre, stripped);
  }

  /** An id with a known maker and no colon version of its own. */
  predicate Versionless(id: string) {
    NoSpace(id) && Peeled(id).0.Some? && MarkBefore(Peeled(id).1, ":").None?
  }

  lemma MarkedOnLane(provider: string, name: string, major: string, minor: string)
    requires Digits(major) && Digits(minor)
    ensures StripVersion(StripLane(provider, name + ("-v" + major + ":" + minor))) == StripLane(provider, name)
       <==> !Marker(provider, name)
  {
    var suffix := "-v" + major + ":" + minor;
    assert suffix[0] == '-';
    if Marker(provider, name) {
      MarkerMeetsVersion(name, major, minor);
    } else {
      LaneBeforeTail(provider, name, suffix);
      hide StripLane, StripVersion;
      var left := StripLane(provider, name);
      assert left + suffix == left + "-v" + major + ":" + minor;
      StripMarked(left, major, minor);
    }
  }

  /** `-v<major>:<minor>` leaves maker and name alone exactly when it does not meet
      Azure's bare lane marker. */
  lemma MarkedVersionExactly(provider: string, id: string, major: string, minor: string)
    requires Versionless(id) && Digits(major) && Digits(minor)
    ensures SplitMaker(provider, id + ("-v" + major + ":" + minor)) == SplitMaker(provider, id)
       <==> !Marker(provider, Peeled(id).1)
  {
    hide SplitMaker, Peeled, NoSpace, Tail, StripVersion, StripLane, Marker, MarkBefore, Digits;
    VersionTails(major, minor);
    TailSplits(provider, id, "-v" + major + ":" + minor);
    LaneKeepsNoVersion(provider, Peeled(id).1);
    MarkedOnLane(provider, Peeled(id).1, major, minor);
  }

  lemma MarkerMeetsVersion(name: string, major: string, minor: string)
    requires Lower(name) == "fw" || Lower(name) == "fw-"
    requires Digits(major) && Digits(minor)
    ensures StripVersion(StripLane(AZURE, name + ("-v" + major + ":" + minor))) != StripLane(AZURE, name)
  {
    var suffix := "-v" + major + ":" + minor;
    var whole := name + suffix;
    var lower := Lower(whole);
    assert forall i :: 0 <= i < |name| ==> lower[i] == Lower(name)[i];
    assert name[0] != 'v' by {
      assert Lower(name)[0] == 'f';
    }
    if Lower(name) == "fw" {
      assert lower[..3] == "fw-";
      assert whole[3..] == "v" + major + ":" + minor;
      StripBare("v" + major, minor);
      TrailingDigitsOf("v", major);
    } else {
      assert lower[..3] == "fw-";
      assert whole[3..] == suffix == "" + "-v" + major + ":" + minor;
      StripMarked("", major, minor);
    }
  }

  lemma BareOnLane(provider: string, name: string, minor: string)
    requires Digits(minor)
    ensures StripVersion(StripLane(provider, name + (":" + minor))) == StripLane(provider, name)
       <==> !(provider == AZURE && Lower(name) == "fw-") && MarkBefore(StripLane(provider, name), "-v").None?
  {
    var suffix := ":" + minor;
    assert suffix[0] == ':';
    if provider == AZURE && Lower(name) == "fw-" {
      MarkerMeetsBare(name, minor);
    } else {
      LaneBeforeTail(provider, name, suffix);
      hide StripLane, StripVersion, MarkBefore;
      var left := StripLane(provider, name);
      assert left + suffix == left + ":" + minor;
      StripBare(left, minor);
    }
  }

  /** A bare `:<minor>` leaves them alone exactly when the name does not itself end
      in a version, and is not Azure's lane marker. */
  lemma BareVersionExactly(provider: string, id: string, minor: string)
    requires Versionless(id) && Digits(minor)
    ensures SplitMaker(provider, id + (":" + minor)) == SplitMaker(provider, id)
       <==> !(provider == AZURE && Lower(Peeled(id).1) == "fw-")
            && MarkBefore(StripLane(provider, Peeled(id).1), "-v").None?
  {
    hide SplitMaker, Peeled, NoSpace, Tail, StripVersion, StripLane, MarkBefore, Digits, Lower;
    VersionTails(minor, minor);
    TailSplits(provider, id, ":" + minor);
    LaneKeepsNoVersion(provider, Peeled(id).1);
    BareOnLane(provider, Peeled(id).1, minor);
  }

  lemma MarkerMeetsBare(name: string, minor: string)
    requires Lower(name) == "fw-" && Digits(minor)
    ensures StripVersion(StripLane(AZURE, name + (":" + minor))) != StripLane(AZURE, name)
  {
    var whole := name + (":" + minor);
    assert Lower(whole)[..3] == Lower(name);
    assert whole[3..] == ":" + minor == "" + ":" + minor;
    StripBare("", minor);
  }

  /** The colon version is invisible in the slug, away from Azure's bare marker. */
  lemma VersionIsInvisible(provider: string, id: string, major: string, minor: string, display: string)
    requires Versionless(id) && Digits(major) && Digits(minor) && !Marker(provider, Peeled(id).1)
    ensures Slug(provider, id + ("-v" + major + ":" + minor), display) == Slug(provider, id, display)
  {
    hide *;
    MarkedVersionExactly(provider, id, major, minor);
    SameNameSameSlug(provider, provider, id + ("-v" + major + ":" + minor), id, display, display);
  }

  // Versions in the slug -------------------------------------------------------

  function FoldOne(c: char, inRun: bool): string {
    if Word(c) then [c] else if inRun then [] else ['-']
  }

  lemma FoldFirst(s: string, inRun: bool)
    ensures Fold(s, inRun) == if s == [] then [] else FoldOne(s[0], inRun) + Fold(s[1..], !Word(s[0]))
  {
  }

  lemma {:induction false} FoldAppend(a: string, b: string, inRun: bool)
    ensures Fold(a + b, inRun) == Fold(a, inRun) + Fold(b, if a == [] then inRun else !Word(a[|a| - 1]))
  {
    hide *;
    FoldFirst(a, inRun);
    if a == [] {
      assert a + b == b;
      assert [] + Fold(b, inRun) == Fold(b, inRun);
    } else {
      assert (a + b)[0] == a[0] && (a + b)[1..] == a[1..] + b;
      FoldFirst(a + b, inRun);
      FoldAppend(a[1..], b, !Word(a[0]));
      assert a[1..] != [] ==> a[1..][|a[1..]| - 1] == a[|a| - 1];
      Reassociated(FoldOne(a[0], inRun), Fold(a[1..], !Word(a[0])), Fold(b, !Word(a[|a| - 1])));
    }
  }

  function DotOne(c: char, inRun: bool): string {
    if c != '.' then [c] else if inRun then [] else ['.']
  }

  lemma JoinDotsFirst(s: string, inRun: bool)
    ensures JoinDots(s, inRun) == if s == [] then [] else DotOne(s[0], inRun) + JoinDots(s[1..], s[0] == '.')
  {
  }

  lemma {:induction false} JoinDotsAppend(a: string, b: string, inRun: bool)
    ensures JoinDots(a + b, inRun) == JoinDots(a, inRun) + JoinDots(b, if a == [] then inRun else a[|a| - 1] == '.')
  {
    hide *;
    JoinDotsFirst(a, inRun);
    if a == [] {
      assert a + b == b;
      assert [] + JoinDots(b, inRun) == JoinDots(b, inRun);
    } else {
      assert (a + b)[0] == a[0] && (a + b)[1..] == a[1..] + b;
      JoinDotsFirst(a + b, inRun);
      JoinDotsAppend(a[1..], b, a[0] == '.');
      assert a[1..] != [] ==> a[1..][|a[1..]| - 1] == a[|a| - 1];
      Reassociated(DotOne(a[0], inRun), JoinDots(a[1..], a[0] == '.'), JoinDots(b, a[|a| - 1] == '.'));
    }
  }

  lemma {:induction false} TrimLeftAppend(a: string, b: string, drop: char -> bool)
    requires b != [] && !drop(b[0])
    ensures TrimLeft(a + b, drop) == TrimLeft(a, drop) + b
  {
    if a == [] {
      assert a + b == b;
    } else {
      assert (a + b)[1..] == a[1..] + b;
      TrimLeftAppend(a[1..], b, drop);
    }
  }

  lemma {:induction false} TrimLeftEdge(a: string, c: char, drop: char -> bool)
    requires drop(c)
    ensures TrimLeft(a + [c], drop) == if TrimLeft(a, drop) == [] then [] else TrimLeft(a, drop) + [c]
  {
    if a == [] {
      assert a + [c] == [c] && [c][1..] == [];
    } else {
      assert (a + [c])[1..] == a[1..] + [c];
      TrimLeftEdge(a[1..], c, drop);
    }
  }

  lemma {:induction false} TrimRightKeeps(s: string, i: nat, drop: char -> bool)
    requires i < |s| && !drop(s[i])
    ensures |TrimRight(s, drop)| > i
  {
    if drop(s[|s| - 1]) {
      TrimRightKeeps(s[..|s| - 1], i, drop);
    }
  }

  lemma {:induction false} TrimRightDrops(s: string, n: nat, drop: char -> bool)
    requires n <= |s| && forall i :: n <= i < |s| ==> drop(s[i])
    ensures TrimRight(s, drop) == TrimRight(s[..n], drop)
  {
    if n < |s| {
      var front := s[..|s| - 1];
      TrimRightDrops(front, n, drop);
      assert front[..n] == s[..n];
    } else {
      assert s[..n] == s;
    }
  }

  lemma VersionFolds(major: string, inRun: bool)
    requires Digits(major)
    ensures Lower("-v" + major) == "-v" + major
    ensures Fold("-v" + major, inRun) == (if inRun then "" else "-") + ("v" + major)
    ensures JoinDots("v" + major, false) == "v" + major
  {
    LowerFixes("-v" + major);
    FoldFixes("v" + major, true);
    FoldFixes("v" + major, false);
    JoinDotsFixes("v" + major, false);
    assert ("-v" + major)[1..] == "v" + major;
  }

  lemma LowerAppend(a: string, b: string)
    ensures Lower(a + b) == Lower(a) + Lower(b)
  {
  }

  /** Before the ends are trimmed, a version behind a name only adds to it. */
  lemma VersionAdds(base: string, major: string) returns (dash: string)
    requires Digits(major)
    ensures dash == "" || dash == "-"
    ensures JoinDots(Fold(Lower(base + ("-v" + major)), false), false)
            == JoinDots(Fold(Lower(base), false), false) + dash + ("v" + major)
  {
    hide *;
    dash := FoldedVersion(base, major);
    JoinedVersion(Fold(Lower(base), false), dash, major);
  }

  lemma FoldedVersion(base: string, major: string) returns (dash: string)
    requires Digits(major)
    ensures dash == "" || dash == "-"
    ensures Fold(Lower(base + ("-v" + major)), false) == Fold(Lower(base), false) + dash + ("v" + major)
  {
    var lower := Lower(base);
    hide *;
    var inRun := lower != [] && !Word(lower[|lower| - 1]);
    LowerAppend(base, "-v" + major);
    FoldAppend(lower, "-v" + major, false);
    VersionFolds(major, inRun);
    dash := if inRun then "" else "-";
    Reassociated(Fold(lower, false), dash, "v" + major);
  }

  lemma Reassociated(a: string, b: string, c: string)
    ensures a + (b + c) == a + b + c
  {
  }

  lemma JoinedVersion(folded: string, dash: string, major: string)
    requires Digits(major) && (dash == "" || dash == "-")
    ensures JoinDots(folded + dash + ("v" + major), false) == JoinDots(folded, false) + dash + ("v" + major)
  {
    hide *;
    var front := folded + dash;
    JoinDotsAppend(folded, dash, false);
    JoinDotsAppend(front, "v" + major, false);
    DashJoins(folded != [] && folded[|folded| - 1] == '.');
    VersionJoins(major, front != [] && front[|front| - 1] == '.');
  }

  lemma DashJoins(inRun: bool)
    ensures JoinDots("-", inRun) == "-" && JoinDots("", inRun) == ""
  {
    assert "-"[1..] == "";
  }

  lemma VersionJoins(major: string, inRun: bool)
    requires Digits(major)
    ensures JoinDots("v" + major, inRun) == "v" + major
  {
    JoinDotsFixes("v" + major, inRun);
  }

  /** The normalised name with its version is the name's, some separators, and the
      version. */
  lemma NormalizeWithVersion(base: string, major: string) returns (head: string)
    requires Digits(major)
    ensures Normalize(base + ("-v" + major)) == head + ("v" + major)
    ensures Normalize(base) == TrimRight(head, Edge)
    ensures head != [] ==> !Edge(head[0])
  {
    var dash := VersionAdds(base, major);
    hide Lower, Fold, JoinDots, Digits;
    head := TrimmedVersion(JoinDots(Fold(Lower(base), false), false), dash, major);
    hide Trim, TrimRight;
  }

  lemma TrimmedVersion(joined: string, dash: string, major: string) returns (head: string)
    requires Digits(major) && (dash == "" || dash == "-")
    ensures Trim(joined + dash + ("v" + major), Edge) == head + ("v" + major)
    ensures Trim(joined, Edge) == TrimRight(head, Edge)
    ensures head != [] ==> !Edge(head[0])
  {
    head := TrimLeft(joined + dash, Edge);
    TrimLeftAppend(joined + dash, "v" + major, Edge);
    EndsInDigit(head, major);
    hide TrimLeft;
    if dash == "" {
      assert joined + dash == joined;
    } else {
      TrimLeftEdge(joined, '-', Edge);
      TrimRightOne(TrimLeft(joined, Edge), '-');
    }
    hide TrimRight;
  }

  lemma TrimRightOne(s: string, c: char)
    requires Edge(c)
    ensures TrimRight(s + [c], Edge) == TrimRight(s, Edge)
  {
    assert (s + [c])[..|s|] == s;
  }

  lemma EndsInDigit(head: string, major: string)
    requires Digits(major)
    ensures TrimRight(head + ("v" + major), Edge) == head + ("v" + major)
  {
    assert Digit(major[|major| - 1]);
  }

  /** Something more behind a string shows in the slug exactly when it starts before
      the cut. */
  lemma ClipApart(whole: string, kept: string, tail: string)
    requires tail != [] && !SlugEdge(tail[0])
    requires |kept| <= |whole| && whole[..|kept|] == kept && forall i :: |kept| <= i < |whole| ==> SlugEdge(whole[i])
    ensures Clip(whole + tail) == Clip(kept) <==> |whole| >= SLUG_MAX
  {
    var long := whole + tail;
    hide SlugEdge;
    if |whole| >= SLUG_MAX {
      var cut := long[..SLUG_MAX];
      if |kept| >= SLUG_MAX {
        assert forall i :: 0 <= i < SLUG_MAX ==> kept[i] == whole[..|kept|][i] == long[i];
        assert kept[..SLUG_MAX] == cut;
      } else {
        assert cut[..|kept|] == kept == kept[..|kept|] by {
          assert forall i :: 0 <= i < |kept| ==> kept[i] == whole[..|kept|][i];
        }
        TrimRightDrops(cut, |kept|, SlugEdge);
      }
    } else {
      var n := if |long| < SLUG_MAX then |long| else SLUG_MAX;
      assert long[..n][|whole|] == tail[0];
      TrimRightKeeps(long[..n], |whole|, SlugEdge);
    }
  }

  /** How far behind the start of the slug the version's `v` stands. */
  function VersionAt(provider: string, maker: Option<string>, left: string, major: string): int {
    |LetterFirst(Normalize(left), maker, provider)| - 1 - |major|
  }

  /** A name and the same name with a version share a slug exactly when the version
      lies behind the cut, or, where nothing of the name survives normalising, when
      the display name stands in for it with that very version. */
  lemma VersionShows(provider: string, maker: Option<string>, base: string, major: string, display: string)
    requires Digits(major)
    ensures var left := base + ("-v" + major);
            SlugOf(provider, maker, base, display) == SlugOf(provider, maker, left, display)
            <==> if Normalize(base) == [] then SlugOf(provider, maker, "", display) == Clip("v" + major)
                 else VersionAt(provider, maker, left, major) >= SLUG_MAX
  {
    var head := NormalizeWithVersion(base, major);
    hide Normalize, Digits, LetterFirst, TrimRight, Clip;
    if Normalize(base) == [] {
      NothingTrims(head);
      NormalizeNothing();
      assert head + ("v" + major) == "v" + major;
      VersionIsLetterFirst(major, maker, provider);
    } else {
      SamePrefix(head, major, maker, provider);
    }
  }

  lemma NothingTrims(head: string)
    requires TrimRight(head, Edge) == [] && (head != [] ==> !Edge(head[0]))
    ensures head == []
  {
    if head != [] {
      TrimRightStops(head, Edge);
    }
  }

  lemma VersionIsLetterFirst(major: string, maker: Option<string>, provider: string)
    ensures LetterFirst("v" + major, maker, provider) == "v" + major
  {
  }

  lemma SamePrefix(head: string, major: string, maker: Option<string>, provider: string)
    requires TrimRight(head, Edge) != []
    ensures Clip(LetterFirst(TrimRight(head, Edge), maker, provider)) == Clip(LetterFirst(head + ("v" + major), maker, provider))
       <==> |LetterFirst(head + ("v" + major), maker, provider)| - 1 - |major| >= SLUG_MAX
  {
    hide *;
    var kept, version := TrimRight(head, Edge), "v" + major;
    var prefix := Namespace(head[0], maker, provider);
    TrimmedAreEdges(head);
    assert kept[0] == head[..|kept|][0];
    InNamespace(kept, maker, provider);
    InNamespace(head + version, maker, provider);
    Reassociated(prefix, head, version);
    VersionIsNoEdge(version);
    Prefixed(prefix, head, kept);
    ClipApart(prefix + head, prefix + kept, version);
  }

  /** What a slug puts in front of a name that starts with this character. */
  function Namespace(first: char, maker: Option<string>, provider: string): string {
    if Letter(first) then "" else (if maker.Some? then maker.value else provider) + "-"
  }

  lemma InNamespace(name: string, maker: Option<string>, provider: string)
    requires name != []
    ensures LetterFirst(name, maker, provider) == Namespace(name[0], maker, provider) + name
  {
  }

  lemma VersionIsNoEdge(version: string)
    ensures version != [] && version[0] == 'v' ==> !SlugEdge(version[0])
  {
  }

  lemma Prefixed(prefix: string, head: string, kept: string)
    requires |kept| <= |head| && head[..|kept|] == kept && forall i :: |kept| <= i < |head| ==> SlugEdge(head[i])
    ensures (prefix + head)[..|prefix + kept|] == prefix + kept
    ensures forall i :: |prefix + kept| <= i < |prefix + head| ==> SlugEdge((prefix + head)[i])
  {
    hide SlugEdge;
    forall i | |prefix + kept| <= i < |prefix + head| ensures SlugEdge((prefix + head)[i]) {
      assert (prefix + head)[i] == head[i - |prefix|];
    }
  }

  lemma NormalizeNothing()
    ensures Normalize("") == ""
  {
    NormalIsFixed("");
  }

  lemma {:induction false} TrimmedAreEdges(s: string)
    ensures forall i :: |TrimRight(s, Edge)| <= i < |s| ==> SlugEdge(s[i])
  {
    if s != [] && Edge(s[|s| - 1]) {
      TrimmedAreEdges(s[..|s| - 1]);
    }
  }

  lemma MarkerNormalizes(name: string)
    requires Lower(name) == "fw" || Lower(name) == "fw-"
    ensures Normalize(name) == "fw"
  {
    hide *;
    MarkerFolds(Lower(name));
    MarkerCore(Lower(name));
    NormalizesTo(name, "fw");
  }

  lemma MarkerCore(marker: string)
    requires marker == "fw" || marker == "fw-"
    ensures marker == "fw" || marker == "fw" + ['-']
    ensures !Edge("fw"[0]) && !Edge("fw"[|"fw"| - 1])
  {
  }

  lemma NormalizesTo(name: string, core: string)
    requires JoinDots(Fold(Lower(name), false), false) == Lower(name)
    requires core != [] && !Edge(core[0]) && !Edge(core[|core| - 1])
    requires Lower(name) == core || Lower(name) == core + ['-']
    ensures Normalize(name) == core
  {
    hide *;
    NormalizeIs(name);
    TrimsTo(Lower(name), core);
  }

  lemma NormalizeIs(name: string)
    ensures Normalize(name) == Trim(JoinDots(Fold(Lower(name), false), false), Edge)
  {
  }

  lemma MarkerFolds(marker: string)
    requires marker == "fw" || marker == "fw-"
    ensures JoinDots(Fold(marker, false), false) == marker
  {
    assert Folded(marker, false) && SingleDots(marker, false);
    hide *;
    FoldFixes(marker, false);
    JoinDotsFixes(marker, false);
  }

  lemma TrimsTo(marker: string, core: string)
    requires core != [] && !Edge(core[0]) && !Edge(core[|core| - 1])
    requires marker == core || marker == core + ['-']
    ensures Trim(marker, Edge) == core
  {
    TrimFixes(core, Edge);
    TrimDash(core);
  }

  lemma TrimDash(s: string)
    requires s != [] && !Edge(s[0]) && !Edge(s[|s| - 1])
    ensures Trim(s + ['-'], Edge) == s
  {
    TrimRightOne(s, '-');
  }

  lemma MarkerSlug(provider: string, maker: Option<string>, name: string, display: string)
    requires Lower(name) == "fw" || Lower(name) == "fw-"
    ensures SlugOf(provider, maker, name, display) == "fw"
  {
    MarkerNormalizes(name);
    hide Normalize, Lower;
    ShortSlug("fw");
    hide Clip;
  }

  lemma ShortSlug(slug: string)
    requires 0 < |slug| <= SLUG_MAX && !SlugEdge(slug[|slug| - 1])
    ensures Clip(slug) == slug
  {
    assert slug[..|slug|] == slug;
  }

  /** On slugs: `-v<major>:<minor>` is invisible exactly away from Azure's bare lane
      marker, or where the display name reads `fw` as well. */
  lemma MarkedVersionOnSlugs(provider: string, id: string, major: string, minor: string, display: string)
    requires Versionless(id) && Digits(major) && Digits(minor)
    ensures var (maker, name) := Peeled(id);
            Slug(provider, id + ("-v" + major + ":" + minor), display) == Slug(provider, id, display)
            <==> !Marker(provider, name) || (Lower(name) == "fw-" && SlugOf(provider, maker, "", display) == "fw")
  {
    hide *;
    var suffix := "-v" + major + ":" + minor;
    var (maker, name) := Peeled(id);
    VersionlessIs(id);
    MarkedVersionExactly(provider, id, major, minor);
    VersionTails(major, minor);
    TailSplits(provider, id, suffix);
    LaneKeepsNoVersion(provider, name);
    SlugIs(provider, id, display);
    SlugIs(provider, id + suffix, display);
    MarkerIs(provider, name);
    if Marker(provider, name) {
      MarkerSlug(provider, maker, name, display);
      MarkerLane(name, major, minor);
      VersionSlug(provider, maker, major, display);
    }
  }

  lemma VersionlessIs(id: string)
    ensures Versionless(id) <==> NoSpace(id) && Peeled(id).0.Some? && MarkBefore(Peeled(id).1, ":").None?
  {
  }

  lemma SlugIs(provider: string, id: string, display: string)
    ensures Slug(provider, id, display) == SlugOf(provider, SplitMaker(provider, id).0, SplitMaker(provider, id).1, display)
  {
    hide SplitMaker, SlugOf;
  }

  lemma MarkerIs(provider: string, name: string)
    ensures Marker(provider, name) <==> provider == AZURE && (Lower(name) == "fw" || Lower(name) == "fw-")
  {
  }

  /** What the marker leaves of itself, alone and with a version behind it. */
  lemma MarkerLane(name: string, major: string, minor: string)
    requires Lower(name) == "fw" || Lower(name) == "fw-"
    requires Digits(major) && Digits(minor)
    ensures StripLane(AZURE, name) == name
    ensures StripVersion(StripLane(AZURE, name + ("-v" + major + ":" + minor))) == if Lower(name) == "fw" then "v" + major else ""
  {
    var suffix := "-v" + major + ":" + minor;
    var whole := name + suffix;
    var lower := Lower(whole);
    assert forall i :: 0 <= i < |name| ==> lower[i] == Lower(name)[i];
    assert lower[..3] == "fw-";
    if Lower(name) == "fw" {
      assert whole[3..] == "v" + major + ":" + minor;
      StripBare("v" + major, minor);
      TrailingDigitsOf("v", major);
    } else {
      assert whole[3..] == suffix == "" + "-v" + major + ":" + minor;
      StripMarked("", major, minor);
    }
  }

  lemma VersionSlug(provider: string, maker: Option<string>, major: string, display: string)
    requires Digits(major)
    ensures SlugOf(provider, maker, "v" + major, display) != "fw"
  {
    VersionIsNormal(major);
    VersionIsLetterFirst(major, maker, provider);
    VersionClips(major);
    hide Normalize, Clip, Digits, LetterFirst;
  }

  lemma VersionIsNormal(major: string)
    requires Digits(major)
    ensures Normalize("v" + major) == "v" + major
  {
    assert Normal("v" + major);
    hide Normal, Normalize;
    NormalIsFixed("v" + major);
  }

  lemma VersionClips(major: string)
    ensures Clip("v" + major) != "fw"
  {
    var slug := "v" + major;
    var cut := slug[..if |slug| < SLUG_MAX then |slug| else SLUG_MAX];
    assert cut[0] == 'v' && !SlugEdge('v');
    TrimRightKeeps(cut, 0, SlugEdge);
    hide TrimRight;
    assert TrimRight(cut, SlugEdge) == cut[..|TrimRight(cut, SlugEdge)|];
  }

  /** Whether a bare minor behind `left` goes unnoticed in the slug. */
  predicate BareUnnoticed(provider: string, maker: Option<string>, left: string, display: string) {
    match MarkBefore(left, "-v")
    case None => true
    case Some(v) =>
      var major := left[v + 2..];
      if Normalize(left[..v]) == [] then SlugOf(provider, maker, "", display) == Clip("v" + major)
      else VersionAt(provider, maker, left, major) >= SLUG_MAX
  }

  /** On slugs: a bare `:<minor>` is invisible exactly when the name does not end in
      a version that shows; behind Azure's lane marker, only where the display name
      reads `fw` as well. */
  lemma BareVersionOnSlugs(provider: string, id: string, minor: string, display: string)
    requires Versionless(id) && Digits(minor)
    ensures var (maker, name) := Peeled(id);
            Slug(provider, id + (":" + minor), display) == Slug(provider, id, display)
            <==> if provider == AZURE && Lower(name) == "fw-" then SlugOf(provider, maker, "", display) == "fw"
                 else BareUnnoticed(provider, maker, StripLane(provider, name), display)
  {
    hide *;
    var (maker, name) := Peeled(id);
    VersionlessIs(id);
    VersionTails(minor, minor);
    TailSplits(provider, id, ":" + minor);
    LaneKeepsNoVersion(provider, name);
    SlugIs(provider, id, display);
    SlugIs(provider, id + (":" + minor), display);
    if provider == AZURE && Lower(name) == "fw-" {
      MarkerSlug(provider, maker, name, display);
      MarkerBare(name, minor);
    } else {
      BareLeaves(provider, name, minor);
      BareOnSlugs(provider, maker, StripLane(provider, name), display);
    }
  }

  lemma MarkerBare(name: string, minor: string)
    requires Lower(name) == "fw-" && Digits(minor)
    ensures StripLane(AZURE, name) == name
    ensures StripVersion(StripLane(AZURE, name + (":" + minor))) == ""
  {
    var whole := name + (":" + minor);
    assert Lower(whole)[..3] == Lower(name);
    assert whole[3..] == ":" + minor == "" + ":" + minor;
    StripBare("", minor);
  }

  /** What a bare minor leaves of a name. */
  function BareLeft(left: string): string {
    match MarkBefore(left, "-v")
    case None => left
    case Some(v) => left[..v]
  }

  lemma BareLeaves(provider: string, name: string, minor: string)
    requires Digits(minor) && !(provider == AZURE && Lower(name) == "fw-")
    ensures StripVersion(StripLane(provider, name + (":" + minor))) == BareLeft(StripLane(provider, name))
  {
    var suffix := ":" + minor;
    assert suffix[0] == ':';
    LaneBeforeTail(provider, name, suffix);
    hide StripLane, StripVersion, MarkBefore;
    var left := StripLane(provider, name);
    assert left + suffix == left + ":" + minor;
    StripBare(left, minor);
  }

  lemma BareOnSlugs(provider: string, maker: Option<string>, left: string, display: string)
    ensures SlugOf(provider, maker, BareLeft(left), display) == SlugOf(provider, maker, left, display)
       <==> BareUnnoticed(provider, maker, left, display)
  {
    hide SlugOf, Normalize, VersionAt, Clip, MarkBefore, Digits;
    var v := MarkBefore(left, "-v");
    if v.Some? {
      MarkSplits(left);
      VersionShows(provider, maker, left[..v.value], left[v.value + 2..], display);
    }
  }

  lemma MarkSplits(left: string)
    requires MarkBefore(left, "-v").Some?
    ensures var v := MarkBefore(left, "-v").value;
            v + 2 < |left| && left == left[..v] + ("-v" + left[v + 2..]) && Digits(left[v + 2..])
  {
    hide MarkBefore;
  }

  /** A real version at the end of the name is lost to a bare minor: two different
      models would share one slug. */
  lemma BareVersionMerges()
    ensures Slug("bedrock", "deepseek.deepseek-v3", "") == "deepseek-v3"
    ensures Slug("bedrock", "deepseek.deepseek-v3:0", "") == "deepseek"
  {
    hide *;
    var maker, name := "deepseek", "deepseek-v3";
    DeepSeekNames();
    DeepSeekVersion();
    DottedSplits(maker, name);
    var id := maker + "." + name;
    DottedIsPlain(id);
    PlainSplit("bedrock", id, maker, name);
    BareSplit("bedrock", id, maker, name, "0");
    assert id == "deepseek.deepseek-v3" && id + (":" + "0") == "deepseek.deepseek-v3:0";
    PlainSlug("bedrock", id, name);
    PlainSlug("bedrock", id + (":" + "0"), maker);
  }

  lemma DeepSeekNames()
    ensures "deepseek" in KNOWN_MAKERS && '/' !in "deepseek-v3" && "bedrock" != AZURE
    ensures NoSpace("deepseek-v3") && Normal("deepseek") && Normal("deepseek-v3")
    ensures Letter("deepseek"[0]) && Letter("deepseek-v3"[0]) && |"deepseek"| <= |"deepseek-v3"| <= SLUG_MAX
  {
    hide Space;
    PlainChars();
  }

  /** A bare minor behind a name that ends in a version takes that version too. */
  lemma BareTakesVersion(base: string, major: string, minor: string)
    requires Digits(major) && Digits(minor)
    ensures MarkBefore(base + "-v" + major, ":").None?
    ensures StripVersion(base + "-v" + major + (":" + minor)) == base
  {
    hide TrailingDigits, Digits;
    var name := base + "-v" + major;
    NoColonAfter(base + "-v", major);
    MarkFound(base, "-v", major);
    hide StripVersion, MarkBefore;
    StripBare(name, minor);
    assert name[..|base|] == base;
    assert name + ":" + minor == name + (":" + minor);
  }

  lemma DeepSeekVersion()
    ensures MarkBefore("deepseek-v3", ":").None? && Digits("0") && StripVersion("deepseek-v3" + (":" + "0")) == "deepseek"
  {
    assert Digits("3") && Digits("0");
    hide *;
    BareTakesVersion("deepseek", "3", "0");
    assert "deepseek-v3" == "deepseek" + "-v" + "3";
  }

  lemma NoColonAfter(name: string, d: string)
    requires name != [] && !Digit(name[|name| - 1]) && name[|name| - 1] != ':' && Digits(d)
    ensures MarkBefore(name + d, ":").None?
  {
    TrailingDigitsOf(name, d);
    hide TrailingDigits;
    assert (name + d)[|name| - 1] == name[|name| - 1];
  }

  lemma DottedIsPlain(id: string)
    requires Dotted(id)
    ensures NoSpace(id)
  {
  }

  lemma BareSplit(p: string, id: string, maker: string, name: string, minor: string)
    requires NoSpace(id) && Peeled(id) == (Some(maker), name) && p != AZURE && Digits(minor)
    ensures SplitMaker(p, id + (":" + minor)) == (Some(maker), StripVersion(name + (":" + minor)))
  {
    VersionTails(minor, minor);
    TailSplits(p, id, ":" + minor);
    hide SplitMaker, Peeled, StripVersion, NoSpace;
  }

  /** A normal, letter-first, short name is its own slug. */
  lemma PlainSlug(provider: string, id: string, name: string)
    requires SplitMaker(provider, id).1 == name
    requires Normal(name) && name != [] && Letter(name[0]) && |name| <= SLUG_MAX
    ensures Slug(provider, id, "") == name
  {
    hide SplitMaker, Normalize;
    NormalIsFixed(name);
    assert !SlugEdge(name[|name| - 1]);
    hide Normal, Letter, SlugEdge;
    assert name[..|name|] == name;
  }

  lemma {:induction false} VendorKeyFixes(s: string)
    requires forall i :: 0 <= i < |s| ==> Word(s[i])
    ensures VendorKey(s) == s
  {
    if s != [] {
      VendorKeyFixes(s[1..]);
    }
  }

  lemma MakerChars(maker: string)
    requires maker in KNOWN_MAKERS
    ensures maker != [] && forall i :: 0 <= i < |maker| ==> Letter(maker[i]) || Digit(maker[i])
    ensures maker != "accounts" && maker != "models"
  {
  }

  lemma MakerIsPlain(maker: string)
    requires maker in KNOWN_MAKERS
    ensures VendorKey(maker) == maker == Lower(maker) && NoSpace(maker) && '/' !in maker && '.' !in maker
  {
    hide KNOWN_MAKERS, Space;
    MakerChars(maker);
    PlainChars();
    VendorKeyFixes(maker);
    LowerFixes(maker);
    hide VendorKey, Lower;
  }

  lemma VendorHasNoPath(maker: string, name: string)
    requires maker in KNOWN_MAKERS && '/' !in name
    ensures !StartsWith(maker + "/" + name, FIREWORKS_PATHS[1]) && !StartsWith(maker + "/" + name, "models/")
  {
    hide KNOWN_MAKERS, Lower, VendorKey, NoSpace, StartsWith;
    MakerChars(maker);
    MakerIsPlain(maker);
    SlashAt(maker, name, "accounts", "fireworks/");
    SlashAt(maker, name, "models", "");
    assert FIREWORKS_PATHS[1] == "accounts" + "/" + "fireworks/" && "models/" == "models" + "/" + "";
  }

  lemma SlashAt(maker: string, name: string, head: string, more: string)
    requires '/' !in maker && '/' !in head && maker != head
    ensures !StartsWith(maker + "/" + name, head + "/" + more)
  {
    var s, prefix := maker + "/" + name, head + "/" + more;
    assert s[|maker|] == '/' && prefix[|head|] == '/';
    if |maker| < |head| {
      assert prefix[|maker|] == head[|maker|] != s[|maker|];
      Differs(s, prefix, |maker|);
    } else if |head| < |maker| {
      assert s[|head|] == maker[|head|] != prefix[|head|];
      Differs(s, prefix, |head|);
    } else {
      var i :| 0 <= i < |maker| && maker[i] != head[i];
      Differs(s, prefix, i);
    }
  }

  lemma Differs(s: string, prefix: string, i: nat)
    requires i < |s| && i < |prefix| && s[i] != prefix[i]
    ensures !StartsWith(s, prefix)
  {
    if |prefix| <= |s| {
      assert s[..|prefix|][i] == s[i];
    }
  }

  lemma JoinPlain(maker: string, mid: string, name: string)
    requires NoSpace(maker) && NoSpace(name) && (mid == "/" || mid == ".")
    ensures NoSpace(maker + mid + name)
  {
    hide Space;
    PlainChars();
  }

  lemma VendorSplits(maker: string, name: string)
    requires maker in KNOWN_MAKERS && NoSpace(name) && '/' !in name
    ensures var id := maker + "/" + name; NoSpace(id) && Peeled(id) == (Some(maker), name)
  {
    hide KNOWN_MAKERS, Trim, CutLast, VendorKey, NoSpace, Lower, StartsWith;
    var id := maker + "/" + name;
    MakerIsPlain(maker);
    VendorHasNoPath(maker, name);
    JoinPlain(maker, "/", name);
    TrimPlain(id);
    assert FIREWORKS_PATHS[0] == FIREWORKS_PATHS[1] + "models/";
    StartsWithTwo(id, FIREWORKS_PATHS[1], "models/");
    CutLastSuffix(maker, '/', name);
  }

  lemma DottedSplits(maker: string, name: string)
    requires maker in KNOWN_MAKERS && NoSpace(name) && '/' !in name
    ensures var id := maker + "." + name; Dotted(id) && Peeled(id) == (Some(maker), name)
  {
    hide KNOWN_MAKERS, BEDROCK_REGIONS, Cut, Trim, NoSpace, PeelMaker, StripPath, VendorKey, Lower;
    var id := maker + "." + name;
    MakerIsPlain(maker);
    MakerIsNoRegion(maker);
    CutPrefix(maker, '.', name);
    JoinPlain(maker, ".", name);
    PlainDotted(id);
  }

  /** One model, one slug: the vendor spelling, the same behind a Fireworks path, and
      the Bedrock spelling with region and version meet, on any lanes but Azure's. */
  lemma OneModelOneSlug(p: string, q: string, r: string, maker: string, name: string,
                        path: string, region: string, major: string, minor: string, display: string, shown: string)
    requires maker in KNOWN_MAKERS && NoSpace(name) && '/' !in name
    requires Normalize(name) != [] && MarkBefore(name, ":").None?
    requires path in FIREWORKS_PATHS && Lower(region) in BEDROCK_REGIONS && Digits(major) && Digits(minor)
    requires p != AZURE && q != AZURE && r != AZURE
    ensures Slug(p, maker + "/" + name, display) == Slug(q, path + (maker + "/" + name), shown)
    ensures Slug(p, maker + "/" + name, display)
         == Slug(r, region + "." + (maker + "." + name + ("-v" + major + ":" + minor)), shown)
  {
    hide *;
    var vendor, dotted, suffix := maker + "/" + name, maker + "." + name, "-v" + major + ":" + minor;
    VendorSplits(maker, name);
    VendorHasNoPath(maker, name);
    PathSplits(q, path, vendor);
    VersionTails(major, minor);
    DottedSplits(maker, name);
    DottedIsPlain(dotted);
    NameWithTail(maker, name, suffix);
    RegionSplits(r, region, dotted + suffix);
    PlainSplit(p, vendor, maker, name);
    PlainSplit(q, vendor, maker, name);
    VersionedSplit(r, dotted, maker, name, major, minor);
    SameNameSameSlug(p, q, vendor, path + vendor, display, shown);
    SameNameSameSlug(p, r, vendor, region + "." + (dotted + suffix), display, shown);
  }

  lemma PlainSplit(p: string, id: string, maker: string, name: string)
    requires NoSpace(id) && Peeled(id) == (Some(maker), name) && MarkBefore(name, ":").None? && p != AZURE
    ensures SplitMaker(p, id) == (Some(maker), name)
  {
    hide MarkBefore, Peeled, NoSpace, SplitMaker, StripVersion, Tail;
    NoTail();
    TailSplits(p, id, "");
    LaneKeepsNoVersion(p, name);
  }

  lemma NoTail()
    ensures Tail("")
  {
  }

  lemma VersionedSplit(r: string, id: string, maker: string, name: string, major: string, minor: string)
    requires NoSpace(id) && Peeled(id) == (Some(maker), name) && MarkBefore(name, ":").None? && r != AZURE
    requires Digits(major) && Digits(minor)
    ensures SplitMaker(r, id + ("-v" + major + ":" + minor)) == (Some(maker), name)
  {
    PlainSplit(r, id, maker, name);
    hide SplitMaker, MarkBefore, Peeled, NoSpace;
    MarkedVersionExactly(r, id, major, minor);
  }

  lemma NameWithTail(maker: string, name: string, suffix: string)
    requires maker in KNOWN_MAKERS && NoSpace(name) && '/' !in name && Tail(suffix)
    ensures Dotted(maker + "." + name + suffix)
  {
    hide KNOWN_MAKERS, NoSpace, Peeled, Dotted;
    NoSpaceAppend(name, suffix);
    DottedSplits(maker, name + suffix);
    assert maker + "." + name + suffix == maker + "." + (name + suffix);
  }
}

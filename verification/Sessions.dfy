/** Coding-agent sessions from scanned log files: every turn is counted once, for
    the session that made it. */
module Sessions {
  import opened Prelude
  import opened OrderedDict
  import opened Grouping
  import opened Sorting

  datatype Source = ClaudeCode | Codex

  /** `at` is the parsed timestamp, None when it cannot be parsed. */
  datatype Turn = Turn(
    eventId: string, at: Option<int>, model: string, input: nat, cached: nat, output: nat, reasoning: nat)

  datatype Scan = Scan(source: Source, sessionId: string, fileStem: string, turns: seq<Turn>)

  datatype Key = Key(source: Source, stem: string, eventId: string)

  datatype SessionKey = SessionKey(source: Source, sessionId: string)

  type Dated = Dict<Key, (int, Turn)>

  /** Claude ids are global; Codex ids belong to their file. */
  function TurnKey(scan: Scan, turn: Turn): Key {
    match scan.source
    case ClaudeCode => Key(ClaudeCode, "", turn.eventId)
    case Codex => Key(Codex, scan.fileStem, turn.eventId)
  }

  // Dated turns of one session -----------------------------------------------

  function AddTurn(d: Dated, scan: Scan, turn: Turn): Dated {
    if Find(d, TurnKey(scan, turn)).Some? || turn.at.None? then d
    else d + [(TurnKey(scan, turn), (turn.at.value, turn))]
  }

  function AddTurns(d: Dated, scan: Scan, turns: seq<Turn>): Dated {
    if turns == [] then d
    else
      var n := |turns| - 1;
      AddTurn(AddTurns(d, scan, turns[..n]), scan, turns[n])
  }

  function DatedTurns(scans: seq<Scan>): Dated {
    if scans == [] then []
    else
      var n := |scans| - 1;
      AddTurns(DatedTurns(scans[..n]), scans[n], scans[n].turns)
  }

  method CollectDatedTurns(scans: seq<Scan>) returns (dated: Dated)
    ensures dated == DatedTurns(scans)
    ensures Distinct(dated) && FirstCopies(dated, Logged(scans))
  {
    DatedTurnsKeys(scans);
    FirstCopyCounts(scans);
    hide FirstCopies, Distinct;
    dated := [];
    var i := 0;
    while i < |scans|
      invariant i <= |scans| && dated == DatedTurns(scans[..i])
    {
      var scan := scans[i];
      ghost var before := dated;
      var j := 0;
      while j < |scan.turns|
        invariant j <= |scan.turns| && dated == AddTurns(before, scan, scan.turns[..j])
      {
        var turn := scan.turns[j];
        assert scan.turns[..j + 1][..j] == scan.turns[..j];
        if Find(dated, TurnKey(scan, turn)).None? && turn.at.Some? {
          dated := dated + [(TurnKey(scan, turn), (turn.at.value, turn))];
        }
        j := j + 1;
      }
      assert scan.turns[..j] == scan.turns;
      assert scans[..i + 1][..i] == scans[..i];
      i := i + 1;
    }
    assert scans[..i] == scans;
  }

  function Keys(d: Dated): set<Key> {
    set e | e in d :: e.0
  }

  /** The identities of all dated turns. */
  function DatedKeys(scans: seq<Scan>): set<Key> {
    set scan, turn | scan in scans && turn in scan.turns && turn.at.Some? :: TurnKey(scan, turn)
  }

  function TurnKeys(scan: Scan, turns: seq<Turn>): set<Key> {
    set turn | turn in turns && turn.at.Some? :: TurnKey(scan, turn)
  }

  /** Every entry is one of the scans' own turns, under its own identity. */
  ghost predicate Genuine(d: Dated, scans: seq<Scan>) {
    forall e :: e in d ==> GenuineEntry(e, scans)
  }

  ghost predicate GenuineEntry(e: (Key, (int, Turn)), scans: seq<Scan>) {
    exists scan :: scan in scans && e.1.1 in scan.turns && e.0 == TurnKey(scan, e.1.1) && e.1.1.at == Some(e.1.0)
  }

  lemma KeysSnoc(d: Dated, e: (Key, (int, Turn)))
    ensures Keys(d + [e]) == Keys(d) + {e.0}
  {
    var t := d + [e];
    assert e in t;
    forall k | k in Keys(d) ensures k in Keys(t) {
      var x :| x in d && x.0 == k;
      assert x in t;
    }
  }

  lemma KeysFind(d: Dated, k: Key)
    ensures k in Keys(d) <==> Find(d, k).Some?
  {
    if k in Keys(d) {
      var e :| e in d && e.0 == k;
      var i :| 0 <= i < |d| && d[i] == e;
      assert Has(d, k);
    }
    assert Find(d, k).Some? ==> (k, Find(d, k).value) in d;
  }

  lemma AddTurnKeys(d: Dated, scan: Scan, turn: Turn)
    requires Distinct(d)
    ensures Distinct(AddTurn(d, scan, turn))
    ensures Keys(AddTurn(d, scan, turn)) == Keys(d) + if turn.at.Some? then {TurnKey(scan, turn)} else {}
  {
    var k := TurnKey(scan, turn);
    KeysFind(d, k);
    if Find(d, k).None? && turn.at.Some? {
      KeysSnoc(d, (k, (turn.at.value, turn)));
      assert !Has(d, k);
    }
    hide Find, Keys;
  }

  lemma {:induction false} AddTurnsKeys(d: Dated, scan: Scan, turns: seq<Turn>)
    requires Distinct(d)
    ensures Distinct(AddTurns(d, scan, turns))
    ensures Keys(AddTurns(d, scan, turns)) == Keys(d) + TurnKeys(scan, turns)
  {
    hide Keys, AddTurn, Distinct;
    if turns != [] {
      var n := |turns| - 1;
      AddTurnsKeys(d, scan, turns[..n]);
      AddTurnKeys(AddTurns(d, scan, turns[..n]), scan, turns[n]);
      assert turns == turns[..n] + [turns[n]];
      TurnKeysSnoc(scan, turns[..n], turns[n]);
    } else {
      assert TurnKeys(scan, []) == {};
    }
  }

  lemma TurnKeysSnoc(scan: Scan, turns: seq<Turn>, turn: Turn)
    ensures TurnKeys(scan, turns + [turn]) == TurnKeys(scan, turns) + if turn.at.Some? then {TurnKey(scan, turn)} else {}
  {
    hide TurnKey;
    var all := turns + [turn];
    assert turn in all;
    assert forall t :: t in turns ==> t in all;
  }

  lemma DatedKeysSnoc(scans: seq<Scan>, scan: Scan)
    ensures DatedKeys(scans + [scan]) == DatedKeys(scans) + TurnKeys(scan, scan.turns)
  {
    hide TurnKey;
    var all := scans + [scan];
    assert scan in all;
    assert forall s :: s in scans ==> s in all;
  }

  /** A session's dated turns: one entry for each identity with a dated turn. */
  lemma {:induction false} DatedTurnsKeys(scans: seq<Scan>)
    ensures Distinct(DatedTurns(scans)) && Keys(DatedTurns(scans)) == DatedKeys(scans)
  {
    if scans != [] {
      var n := |scans| - 1;
      assert scans == scans[..n] + [scans[n]];
      DatedTurnsKeys(scans[..n]);
      AddTurnsKeys(DatedTurns(scans[..n]), scans[n], scans[n].turns);
      DatedKeysSnoc(scans[..n], scans[n]);
    }
    hide Keys, Distinct, AddTurns;
  }

  lemma AddTurnGenuine(d: Dated, scan: Scan, turn: Turn, scans: seq<Scan>)
    requires Genuine(d, scans) && scan in scans && turn in scan.turns
    ensures Genuine(AddTurn(d, scan, turn), scans)
  {
    hide TurnKey, Find;
    assert turn.at.Some? ==> GenuineEntry((TurnKey(scan, turn), (turn.at.value, turn)), scans);
  }

  lemma {:induction false} AddTurnsGenuine(d: Dated, scan: Scan, turns: seq<Turn>, scans: seq<Scan>)
    requires Genuine(d, scans) && scan in scans && forall t :: t in turns ==> t in scan.turns
    ensures Genuine(AddTurns(d, scan, turns), scans)
  {
    hide Genuine, AddTurn;
    if turns != [] {
      AddTurnsGenuine(d, scan, turns[..|turns| - 1], scans);
      AddTurnGenuine(AddTurns(d, scan, turns[..|turns| - 1]), scan, turns[|turns| - 1], scans);
    }
  }

  /** What is dated is one of the session's own turns, under its own identity. */
  lemma {:induction false} DatedTurnsGenuine(scans: seq<Scan>)
    ensures Genuine(DatedTurns(scans), scans)
  {
    if scans != [] {
      var n := |scans| - 1;
      DatedTurnsGenuine(scans[..n]);
      MoreScans(DatedTurns(scans[..n]), scans[..n], scans);
      hide Genuine, AddTurns;
      AddTurnsGenuine(DatedTurns(scans[..n]), scans[n], scans[n].turns, scans);
    }
  }

  lemma MoreScans(d: Dated, some: seq<Scan>, all: seq<Scan>)
    requires Genuine(d, some) && forall s :: s in some ==> s in all
    ensures Genuine(d, all)
  {
    forall e | e in d ensures GenuineEntry(e, all) {
      assert GenuineEntry(e, some);
    }
  }

  // The first copy of a turn counts ----------------------------------------------

  ghost function Pairs(scan: Scan, turns: seq<Turn>): (r: seq<(Scan, Turn)>)
    ensures |r| == |turns|
  {
    seq(|turns|, i requires 0 <= i < |turns| => (scan, turns[i]))
  }

  /** Every turn with its scan, scan by scan, in the order logged. */
  ghost function Logged(scans: seq<Scan>): seq<(Scan, Turn)> {
    if scans == [] then []
    else
      var n := |scans| - 1;
      Logged(scans[..n]) + Pairs(scans[n], scans[n].turns)
  }

  ghost predicate IsTurn(k: Key, p: (Scan, Turn)) {
    k.source == p.0.source && k.eventId == p.1.eventId && k.stem == if p.0.source.Codex? then p.0.fileStem else ""
  }

  ghost predicate FirstAt(e: (Key, (int, Turn)), logged: seq<(Scan, Turn)>, n: nat) {
    && n < |logged| && logged[n].1 == e.1.1 && IsTurn(e.0, logged[n]) && e.1.1.at == Some(e.1.0)
    && forall m :: 0 <= m < n && logged[m].1.at.Some? ==> !IsTurn(e.0, logged[m])
  }

  /** Each entry is the first dated copy of its turn, and every dated turn has one. */
  ghost predicate FirstCopies(d: Dated, logged: seq<(Scan, Turn)>) {
    && (forall e :: e in d ==> exists n :: FirstAt(e, logged, n))
    && (forall p :: p in logged && p.1.at.Some? ==> exists e :: e in d && IsTurn(e.0, p))
  }

  lemma KeyIs(k: Key, scan: Scan, turn: Turn)
    ensures IsTurn(k, (scan, turn)) <==> k == TurnKey(scan, turn)
  {
  }

  lemma CopyStays(e: (Key, (int, Turn)), logged: seq<(Scan, Turn)>, n: nat, p: (Scan, Turn))
    requires FirstAt(e, logged, n)
    ensures FirstAt(e, logged + [p], n)
  {
    hide IsTurn;
  }

  /** A dated turn whose identity is not there yet is the first of its copies. */
  lemma NewCopy(d: Dated, logged: seq<(Scan, Turn)>, scan: Scan, turn: Turn)
    requires FirstCopies(d, logged) && TurnKey(scan, turn) !in Keys(d) && turn.at.Some?
    ensures FirstAt((TurnKey(scan, turn), (turn.at.value, turn)), logged + [(scan, turn)], |logged|)
  {
    var k, all := TurnKey(scan, turn), logged + [(scan, turn)];
    KeyIs(k, scan, turn);
    hide IsTurn, TurnKey;
    forall m | 0 <= m < |logged| && logged[m].1.at.Some? ensures !IsTurn(k, all[m]) {
      assert logged[m] in logged;
      var x :| x in d && IsTurn(x.0, logged[m]);
      SameTurn(k, x.0, logged[m]);
      assert x.0 in Keys(d);
    }
  }

  lemma OneMoreCopy(d: Dated, logged: seq<(Scan, Turn)>, scan: Scan, turn: Turn)
    requires FirstCopies(d, logged)
    ensures FirstCopies(AddTurn(d, scan, turn), logged + [(scan, turn)])
  {
    var k, next, all := TurnKey(scan, turn), AddTurn(d, scan, turn), logged + [(scan, turn)];
    KeysFind(d, k);
    KeyIs(k, scan, turn);
    hide IsTurn, TurnKey, Find, FirstAt;
    forall e | e in next ensures exists n :: FirstAt(e, all, n) {
      if e in d {
        var n :| FirstAt(e, logged, n);
        CopyStays(e, logged, n, (scan, turn));
      } else {
        NewCopy(d, logged, scan, turn);
      }
    }
    forall p | p in all && p.1.at.Some? ensures exists e :: e in next && IsTurn(e.0, p) {
      CopyCovers(d, logged, scan, turn, p);
    }
  }

  lemma CopyCovers(d: Dated, logged: seq<(Scan, Turn)>, scan: Scan, turn: Turn, p: (Scan, Turn))
    requires FirstCopies(d, logged) && p in logged + [(scan, turn)] && p.1.at.Some?
    ensures exists e :: e in AddTurn(d, scan, turn) && IsTurn(e.0, p)
  {
    var k, next := TurnKey(scan, turn), AddTurn(d, scan, turn);
    KeysFind(d, k);
    KeyIs(k, scan, turn);
    hide IsTurn, TurnKey, Find, FirstAt;
    assert forall e :: e in d ==> e in next;
    if p in logged {
      var e :| e in d && IsTurn(e.0, p);
    } else if k in Keys(d) {
      var e :| e in d && e.0 == k;
      assert IsTurn(e.0, p);
    } else {
      assert next[|d|] in next && IsTurn(next[|d|].0, p);
    }
  }

  lemma SameTurn(a: Key, b: Key, p: (Scan, Turn))
    requires IsTurn(b, p)
    ensures IsTurn(a, p) <==> a == b
  {
  }

  lemma {:induction false} MoreCopies(d: Dated, logged: seq<(Scan, Turn)>, scan: Scan, turns: seq<Turn>)
    requires FirstCopies(d, logged)
    ensures FirstCopies(AddTurns(d, scan, turns), logged + Pairs(scan, turns))
  {
    hide FirstCopies, AddTurn;
    if turns == [] {
      assert logged + Pairs(scan, []) == logged;
    } else {
      var n := |turns| - 1;
      MoreCopies(d, logged, scan, turns[..n]);
      OneMoreCopy(AddTurns(d, scan, turns[..n]), logged + Pairs(scan, turns[..n]), scan, turns[n]);
      assert logged + Pairs(scan, turns) == logged + Pairs(scan, turns[..n]) + [(scan, turns[n])];
    }
  }

  /** Of the copies of a turn within a session the first dated one counts. */
  lemma {:induction false} FirstCopyCounts(scans: seq<Scan>)
    ensures FirstCopies(DatedTurns(scans), Logged(scans))
  {
    if scans != [] {
      var n := |scans| - 1;
      FirstCopyCounts(scans[..n]);
      hide FirstCopies, AddTurns;
      MoreCopies(DatedTurns(scans[..n]), Logged(scans[..n]), scans[n], scans[n].turns);
    }
  }

  // Candidates ---------------------------------------------------------------

  function Earliest(d: Dated): (t: int)
    requires d != []
    ensures forall e :: e in d ==> t <= e.1.0
    ensures exists e :: e in d && e.1.0 == t
  {
    if |d| == 1 then
      assert d[0] in d;
      d[0].1.0
    else
      var rest := Earliest(d[1..]);
      assert forall e :: e in d ==> e == d[0] || e in d[1..];
      assert d[0] in d;
      if d[0].1.0 <= rest then d[0].1.0 else rest
  }

  /** A session with dated turns; `position` is its place among all groups. */
  datatype Candidate = Candidate(
    earliest: int, count: nat, position: nat, session: SessionKey, group: seq<Scan>, dated: Dated)

  function Candidates(groups: Dict<SessionKey, seq<Scan>>): seq<Candidate> {
    if groups == [] then []
    else
      var n := |groups| - 1;
      var dated := DatedTurns(groups[n].1);
      Candidates(groups[..n])
      + if dated == [] then [] else [Candidate(Earliest(dated), |dated|, n, groups[n].0, groups[n].1, dated)]
  }

  /** `item[0], item[1]` of the prepared tuples. */
  predicate Before(a: Candidate, b: Candidate) {
    a.earliest < b.earliest || (a.earliest == b.earliest && a.count <= b.count)
  }

  function Position(c: Candidate): int {
    c.position
  }

  lemma BeforeIsPreorder()
    ensures Preorder(Before)
  {
  }

  ghost predicate FromGroup(c: Candidate, groups: Dict<SessionKey, seq<Scan>>) {
    && c.position < |groups| && groups[c.position] == (c.session, c.group)
    && c.dated == DatedTurns(c.group) && c.dated != []
    && c.earliest == Earliest(c.dated) && c.count == |c.dated|
  }

  lemma {:induction false} CandidatesFacts(groups: Dict<SessionKey, seq<Scan>>)
    ensures forall c :: c in Candidates(groups) ==> FromGroup(c, groups)
    ensures forall i, j :: 0 <= i < j < |Candidates(groups)| ==> Position(Candidates(groups)[i]) < Position(Candidates(groups)[j])
  {
    hide DatedTurns, Earliest;
    if groups != [] {
      var n := |groups| - 1;
      var front := Candidates(groups[..n]);
      CandidatesFacts(groups[..n]);
      forall c | c in front ensures FromGroup(c, groups) && c.position < n {
        assert FromGroup(c, groups[..n]);
      }
      assert forall i :: 0 <= i < |front| ==> front[i] in front;
    }
  }

  lemma {:induction false} EveryGroupIsCandidate(groups: Dict<SessionKey, seq<Scan>>, p: nat)
    requires p < |groups| && DatedTurns(groups[p].1) != []
    ensures exists c :: c in Candidates(groups) && c.position == p
  {
    hide DatedTurns, Earliest;
    var n := |groups| - 1;
    if p < n {
      EveryGroupIsCandidate(groups[..n], p);
      var c :| c in Candidates(groups[..n]) && c.position == p;
      assert c in Candidates(groups);
    } else {
      assert Candidates(groups)[|Candidates(groups[..n])|].position == p;
    }
  }

  // Claims -------------------------------------------------------------------

  function Unclaimed(d: Dated, claimed: set<Key>): Dated {
    if d == [] then []
    else (if d[0].0 in claimed then [] else [d[0]]) + Unclaimed(d[1..], claimed)
  }

  /** What each candidate owns, in claim order. */
  function Claims(cs: seq<Candidate>, claimed: set<Key>): (owned: seq<Dated>)
    ensures |owned| == |cs|
    decreases |cs|
  {
    if cs == [] then []
    else [Unclaimed(cs[0].dated, claimed)] + Claims(cs[1..], claimed + Keys(cs[0].dated))
  }

  function AllKeys(cs: seq<Candidate>): set<Key> {
    if cs == [] then {} else Keys(cs[0].dated) + AllKeys(cs[1..])
  }

  lemma {:induction false} UnclaimedMembers(d: Dated, claimed: set<Key>)
    ensures forall e :: e in Unclaimed(d, claimed) <==> e in d && e.0 !in claimed
  {
    if d != [] {
      UnclaimedMembers(d[1..], claimed);
      assert forall e :: e in d <==> e == d[0] || e in d[1..];
      var rest := Unclaimed(d[1..], claimed);
      assert forall e :: e in [d[0]] + rest <==> e == d[0] || e in rest;
      assert [] + rest == rest;
    }
  }

  lemma PrependDistinct(d: Dated, rest: Dated)
    requires d != [] && Distinct(d) && Distinct(rest) && forall e :: e in rest ==> e in d[1..]
    ensures Distinct([d[0]] + rest)
  {
    forall i | 0 <= i < |rest| ensures rest[i].0 != d[0].0 {
      assert rest[i] in rest;
    }
  }

  lemma {:induction false} UnclaimedDistinct(d: Dated, claimed: set<Key>)
    requires Distinct(d)
    ensures Distinct(Unclaimed(d, claimed))
  {
    if d != [] {
      UnclaimedDistinct(d[1..], claimed);
      UnclaimedMembers(d[1..], claimed);
      var rest := Unclaimed(d[1..], claimed);
      assert [] + rest == rest;
      PrependDistinct(d, rest);
    }
  }

  lemma UnclaimedFacts(d: Dated, claimed: set<Key>)
    requires Distinct(d)
    ensures Distinct(Unclaimed(d, claimed)) && Keys(Unclaimed(d, claimed)) == Keys(d) - claimed
  {
    UnclaimedDistinct(d, claimed);
    UnclaimedMembers(d, claimed);
    hide Unclaimed, Distinct;
  }

  lemma DisjointAppend(a: Dated, b: Dated)
    requires Distinct(a) && Distinct(b) && Keys(a) !! Keys(b)
    ensures Distinct(a + b) && Keys(a + b) == Keys(a) + Keys(b)
  {
    var s := a + b;
    forall i, j | 0 <= i < j < |s| ensures s[i].0 != s[j].0 {
      if i < |a| <= j {
        assert a[i].0 in Keys(a) && b[j - |a|].0 in Keys(b);
      }
    }
    forall k ensures k in Keys(s) <==> k in Keys(a) || k in Keys(b) {
      assert forall e :: e in s <==> e in a || e in b;
    }
  }

  /** Claiming partitions: what is owned, all together, has each unclaimed identity once. */
  lemma {:induction false} ClaimsPartition(cs: seq<Candidate>, claimed: set<Key>)
    requires forall c :: c in cs ==> Distinct(c.dated)
    ensures Distinct(Flatten(Claims(cs, claimed))) && Keys(Flatten(Claims(cs, claimed))) == AllKeys(cs) - claimed
    decreases |cs|
  {
    hide Keys, Distinct, Unclaimed;
    if cs != [] {
      var d, later := cs[0].dated, claimed + Keys(cs[0].dated);
      assert cs[0] in cs;
      UnclaimedFacts(d, claimed);
      ClaimsPartition(cs[1..], later);
      var mine, rest := Unclaimed(d, claimed), Claims(cs[1..], later);
      assert Claims(cs, claimed)[0] == mine && Claims(cs, claimed)[1..] == rest;
      DisjointAppend(mine, Flatten(rest));
    } else {
      NoKeys();
    }
  }

  lemma NoKeys()
    ensures Distinct<Key, (int, Turn)>([]) && Keys([]) == {}
  {
  }

  /** A turn is owned by the first candidate that contains it. */
  lemma {:induction false} OwnedByFirst(cs: seq<Candidate>, claimed: set<Key>, i: nat, k: Key)
    requires i < |cs|
    ensures k in Keys(Claims(cs, claimed)[i])
       <==> k in Keys(cs[i].dated) && k !in claimed && forall j :: 0 <= j < i ==> k !in Keys(cs[j].dated)
    decreases i
  {
    UnclaimedMembers(cs[0].dated, claimed);
    if i > 0 {
      OwnedByFirst(cs[1..], claimed + Keys(cs[0].dated), i - 1, k);
      assert forall j :: 0 <= j < i - 1 ==> cs[1..][j] == cs[j + 1];
      assert forall j :: 1 <= j < i ==> cs[j] == cs[1..][j - 1];
      hide Keys, Unclaimed;
    }
  }

  /** Among the candidates that contain a turn, the owner starts earliest; on a tie
      it has the fewest dated turns; and on a tie again it was seen first. */
  lemma OwnerIsLeast(groups: Dict<SessionKey, seq<Scan>>, i: nat, j: nat, k: Key)
    requires var cs := Sort(Candidates(groups), Before);
             && i < |cs| && j < |cs| && i != j
             && k in Keys(Claims(cs, {})[i]) && k in Keys(cs[j].dated)
    ensures var a, b := Sort(Candidates(groups), Before)[i], Sort(Candidates(groups), Before)[j];
            || a.earliest < b.earliest
            || (a.earliest == b.earliest && a.count < b.count)
            || (a.earliest == b.earliest && a.count == b.count && a.position < b.position)
  {
    var cs := Sort(Candidates(groups), Before);
    CandidatesFacts(groups);
    BeforeIsPreorder();
    SortIsStable(Candidates(groups), Before, Position);
    OwnedByFirst(cs, {}, i, k);
    hide Sort, Candidates, Claims, Keys;
    assert StableAt(cs[i], cs[j], Before, Position);
  }

  // Rollups ------------------------------------------------------------------

  datatype Session = Session(
    key: SessionKey, models: seq<string>, requestCount: nat,
    input: nat, cached: nat, output: nat, reasoning: nat, cost: nat, started: int, ended: int)

  /** Catalogue price of a turn, by model and token counts. */
  type Price = (string, nat, nat, nat) -> nat

  datatype Measure = Requests | Input | Cached | Output | Reasoning | Cost

  function OfTurn(m: Measure, turn: Turn, price: Price): nat {
    match m
    case Requests => 1
    case Input => turn.input
    case Cached => turn.cached
    case Output => turn.output
    case Reasoning => turn.reasoning
    case Cost => price(turn.model, turn.input, turn.cached, turn.output)
  }

  function OfSession(m: Measure, s: Session): nat {
    match m
    case Requests => s.requestCount
    case Input => s.input
    case Cached => s.cached
    case Output => s.output
    case Reasoning => s.reasoning
    case Cost => s.cost
  }

  function Values(d: Dated): seq<(int, Turn)> {
    seq(|d|, i requires 0 <= i < |d| => d[i].1)
  }

  function Weigh(m: Measure, price: Price): ((int, Turn)) -> nat {
    (v: (int, Turn)) => OfTurn(m, v.1, price)
  }

  function Total(m: Measure, values: seq<(int, Turn)>, price: Price): nat {
    Sum(values, Weigh(m, price))
  }

  predicate Earlier(a: (int, Turn), b: (int, Turn)) {
    a.0 <= b.0
  }

  lemma EarlierIsPreorder()
    ensures Preorder(Earlier)
  {
  }

  function Models(values: seq<(int, Turn)>): seq<string> {
    if values == [] then []
    else
      var models := Models(values[..|values| - 1]);
      var model := values[|values| - 1].1.model;
      if model in models then models else models + [model]
  }

  function Fold(key: SessionKey, owned: Dated, price: Price): Session
    requires owned != []
  {
    var dated := Sort(Values(owned), Earlier);
    SortKeepsAll(Values(owned), Earlier);
    Session(key, Models(dated), |dated|,
            Total(Input, dated, price), Total(Cached, dated, price), Total(Output, dated, price),
            Total(Reasoning, dated, price), Total(Cost, dated, price),
            dated[0].0, dated[|dated| - 1].0)
  }

  lemma NoTurns(price: Price)
    ensures Models([]) == [] && forall m :: Total(m, [], price) == 0
  {
  }

  lemma NextTurn(values: seq<(int, Turn)>, i: nat, price: Price)
    requires i < |values|
    ensures forall m :: Total(m, values[..i + 1], price) == Total(m, values[..i], price) + OfTurn(m, values[i].1, price)
    ensures Models(values[..i + 1])
         == Models(values[..i]) + if values[i].1.model in Models(values[..i]) then [] else [values[i].1.model]
  {
    assert values[..i + 1][..i] == values[..i];
    assert Models(values[..i]) + [] == Models(values[..i]);
  }

  method FoldSession(key: SessionKey, owned: Dated, price: Price) returns (session: Session)
    requires owned != []
    ensures session == Fold(key, owned, price)
  {
    var dated := Sort(Values(owned), Earlier);
    SortKeepsAll(Values(owned), Earlier);
    hide Sort, Total, Models;
    NoTurns(price);
    assert dated[..0] == [];
    var models: seq<string> := [];
    var input, cached, output, reasoning, cost := 0, 0, 0, 0, 0;
    var i := 0;
    while i < |dated|
      invariant i <= |dated| && models == Models(dated[..i])
      invariant input == Total(Input, dated[..i], price) && cached == Total(Cached, dated[..i], price)
      invariant output == Total(Output, dated[..i], price) && reasoning == Total(Reasoning, dated[..i], price)
      invariant cost == Total(Cost, dated[..i], price)
    {
      var turn := dated[i].1;
      NextTurn(dated, i, price);
      if turn.model !in models {
        models := models + [turn.model];
      }
      input := input + turn.input;
      cached := cached + turn.cached;
      output := output + turn.output;
      reasoning := reasoning + turn.reasoning;
      cost := cost + price(turn.model, turn.input, turn.cached, turn.output);
      i := i + 1;
    }
    assert dated[..i] == dated;
    session := Session(key, models, |dated|, input, cached, output, reasoning, cost, dated[0].0, dated[|dated| - 1].0);
  }

  lemma {:induction false} RequestsAreLength(s: seq<(int, Turn)>, price: Price)
    ensures Total(Requests, s, price) == |s|
  {
    if s != [] {
      RequestsAreLength(s[..|s| - 1], price);
    }
  }

  /** A rollup measures exactly what it owns, and spans it. */
  lemma FoldMeasures(key: SessionKey, owned: Dated, price: Price, m: Measure)
    requires owned != []
    ensures OfSession(m, Fold(key, owned, price)) == Total(m, Values(owned), price)
  {
    var dated := Sort(Values(owned), Earlier);
    SortKeepsAll(Values(owned), Earlier);
    SumSort(Values(owned), Earlier, Weigh(m, price));
    RequestsAreLength(dated, price);
  }

  lemma FoldSpans(key: SessionKey, owned: Dated, price: Price, e: (Key, (int, Turn)))
    requires owned != [] && e in owned
    ensures var s := Fold(key, owned, price); s.started <= e.1.0 <= s.ended && e.1.1.model in s.models
  {
    var dated := Sort(Values(owned), Earlier);
    EarlierIsPreorder();
    SortSorts(Values(owned), Earlier);
    SortKeepsAll(Values(owned), Earlier);
    hide Sort, Models;
    var i :| 0 <= i < |owned| && owned[i] == e;
    assert Values(owned)[i] == e.1;
    hide Values;
    Spans(dated, e.1);
  }

  lemma Spans(values: seq<(int, Turn)>, v: (int, Turn))
    requires Ordered(values, Earlier) && v in values
    ensures values[0].0 <= v.0 <= values[|values| - 1].0 && v.1.model in Models(values)
  {
    hide Models;
    var j :| 0 <= j < |values| && values[j] == v;
    ModelListed(values, j);
    assert j > 0 ==> Earlier(values[0], values[j]);
    assert j < |values| - 1 ==> Earlier(values[j], values[|values| - 1]);
  }

  lemma {:induction false} ModelListed(values: seq<(int, Turn)>, j: nat)
    requires j < |values|
    ensures values[j].1.model in Models(values)
  {
    if j < |values| - 1 {
      ModelListed(values[..|values| - 1], j);
    }
  }

  // All sessions -------------------------------------------------------------

  function SessionOf(scan: Scan): SessionKey {
    SessionKey(scan.source, scan.sessionId)
  }

  function WithTurns(scans: seq<Scan>): (r: seq<Scan>)
    ensures forall s :: s in r <==> s in scans && s.turns != []
  {
    if scans == [] then []
    else
      var n := |scans| - 1;
      WithTurns(scans[..n]) + if scans[n].turns == [] then [] else [scans[n]]
  }

  /** The candidates in claim order. */
  function ClaimOrder(scans: seq<Scan>): seq<Candidate> {
    Sort(Candidates(Grouped(WithTurns(scans), SessionOf)), Before)
  }

  /** Every owned turn of every session, in claim order. */
  function Ledger(scans: seq<Scan>): Dated {
    Flatten(Claims(ClaimOrder(scans), {}))
  }

  function Rollups(cs: seq<Candidate>, owned: seq<Dated>, price: Price): seq<Session>
    requires |owned| == |cs|
  {
    if cs == [] then []
    else
      var n := |cs| - 1;
      Rollups(cs[..n], owned[..n], price)
      + if owned[n] == [] then [] else [Fold(cs[n].session, owned[n], price)]
  }

  predicate LatestFirst(a: Session, b: Session) {
    a.ended >= b.ended
  }

  function AllSessions(scans: seq<Scan>, price: Price): seq<Session> {
    var cs := ClaimOrder(scans);
    Sort(Rollups(cs, Claims(cs, {}), price), LatestFirst)
  }

  method PrepareCandidates(groups: Dict<SessionKey, seq<Scan>>) returns (prepared: seq<Candidate>)
    ensures prepared == Candidates(groups)
  {
    prepared := [];
    var i := 0;
    while i < |groups|
      invariant i <= |groups| && prepared == Candidates(groups[..i])
    {
      assert groups[..i + 1][..i] == groups[..i];
      var dated := CollectDatedTurns(groups[i].1);
      if dated != [] {
        prepared := prepared + [Candidate(Earliest(dated), |dated|, i, groups[i].0, groups[i].1, dated)];
      }
      i := i + 1;
    }
    assert groups[..i] == groups;
  }

  lemma {:induction false} ClaimsSnoc(cs: seq<Candidate>, claimed: set<Key>, i: nat)
    requires i < |cs|
    ensures Claims(cs[..i + 1], claimed)
         == Claims(cs[..i], claimed) + [Unclaimed(cs[i].dated, claimed + AllKeys(cs[..i]))]
    decreases i
  {
    hide Unclaimed, Keys;
    if i == 0 {
      assert cs[..1] == [cs[0]] && claimed + {} == claimed;
      assert Claims(cs[..1][1..], claimed + Keys(cs[0].dated)) == [];
    } else {
      ClaimsSnoc(cs[1..], claimed + Keys(cs[0].dated), i - 1);
      assert cs[..i + 1][1..] == cs[1..][..i] && cs[..i][1..] == cs[1..][..i - 1];
      assert claimed + Keys(cs[0].dated) + AllKeys(cs[1..][..i - 1]) == claimed + AllKeys(cs[..i]);
    }
  }

  lemma {:induction false} AllKeysSnoc(cs: seq<Candidate>, i: nat)
    requires i < |cs|
    ensures AllKeys(cs[..i + 1]) == AllKeys(cs[..i]) + Keys(cs[i].dated)
    decreases i
  {
    hide Keys;
    if i > 0 {
      AllKeysSnoc(cs[1..], i - 1);
      assert cs[..i + 1][1..] == cs[1..][..i] && cs[..i][1..] == cs[1..][..i - 1];
    } else {
      assert cs[..1] == [cs[0]] && cs[..1][1..] == [];
    }
  }

  lemma RollupsSnoc(cs: seq<Candidate>, i: nat, price: Price)
    requires i < |cs|
    ensures Rollups(cs[..i + 1], Claims(cs[..i + 1], {}), price)
         == Rollups(cs[..i], Claims(cs[..i], {}), price)
          + var owned := Unclaimed(cs[i].dated, AllKeys(cs[..i]));
            if owned == [] then [] else [Fold(cs[i].session, owned, price)]
  {
    ClaimsSnoc(cs, {}, i);
    assert {} + AllKeys(cs[..i]) == AllKeys(cs[..i]);
    assert cs[..i + 1][..i] == cs[..i];
    hide Claims, AllKeys, Unclaimed, Fold;
    assert (Claims(cs[..i], {}) + [Unclaimed(cs[i].dated, AllKeys(cs[..i]))])[..i] == Claims(cs[..i], {});
  }

  /** Folds file scans into sessions, most recently active first. */
  method BuildSessions(scans: seq<Scan>, price: Price) returns (sessions: seq<Session>)
    ensures sessions == AllSessions(scans, price)
    ensures Sum(sessions, (s: Session) => s.requestCount) == |DistinctTurns(scans)|
    ensures forall i, j :: 0 <= i < j < |sessions| ==> sessions[i].ended >= sessions[j].ended && sessions[i].key != sessions[j].key
    ensures forall s :: s in sessions ==> Explained(s, scans, price)
  {
    hide *;
    SessionsExplained(scans, price);
    var nonEmpty: seq<Scan> := [];
    var i := 0;
    NoScans();
    while i < |scans|
      invariant i <= |scans| && nonEmpty == WithTurns(scans[..i])
    {
      WithTurnsSnoc(scans, i);
      if scans[i].turns != [] {
        nonEmpty := nonEmpty + [scans[i]];
      }
      i := i + 1;
    }
    assert scans[..i] == scans;
    var grouped := GroupBy(nonEmpty, SessionOf);
    var prepared := PrepareCandidates(grouped);
    prepared := Sort(prepared, Before);
    var claimed: set<Key> := {};
    sessions := [];
    NoRollups(price);
    i := 0;
    while i < |prepared|
      invariant i <= |prepared| && claimed == AllKeys(prepared[..i])
      invariant sessions == Rollups(prepared[..i], Claims(prepared[..i], {}), price)
    {
      AllKeysSnoc(prepared, i);
      RollupsSnoc(prepared, i, price);
      var owned := Unclaimed(prepared[i].dated, claimed);
      claimed := claimed + Keys(prepared[i].dated);
      if owned != [] {
        var session := FoldSession(prepared[i].session, owned, price);
        sessions := sessions + [session];
      }
      i := i + 1;
    }
    assert prepared[..i] == prepared;
    sessions := Sort(sessions, LatestFirst);
    SessionsAre(scans, price);
  }

  lemma NoScans()
    ensures WithTurns([]) == []
    ensures forall s: seq<Scan> :: s[..0] == []
  {
  }

  lemma WithTurnsSnoc(scans: seq<Scan>, i: nat)
    requires i < |scans|
    ensures WithTurns(scans[..i + 1]) == WithTurns(scans[..i]) + if scans[i].turns == [] then [] else [scans[i]]
  {
    assert scans[..i + 1][..i] == scans[..i];
  }

  lemma NoRollups(price: Price)
    ensures Rollups([], Claims([], {}), price) == [] && AllKeys([]) == {}
    ensures forall s: seq<Candidate> :: s[..0] == []
  {
  }

  lemma SessionsAre(scans: seq<Scan>, price: Price)
    ensures var cs := Sort(Candidates(Grouped(WithTurns(scans), SessionOf)), Before);
            AllSessions(scans, price) == Sort(Rollups(cs, Claims(cs, {}), price), LatestFirst)
  {
    hide Sort, Candidates, Grouped, WithTurns, Rollups, Claims;
  }

  // Every turn once ----------------------------------------------------------

  lemma {:induction false} AllKeysAre(cs: seq<Candidate>, k: Key)
    ensures k in AllKeys(cs) <==> exists c :: c in cs && k in Keys(c.dated)
  {
    hide Keys;
    if cs != [] {
      AllKeysAre(cs[1..], k);
      assert forall c :: c in cs <==> c == cs[0] || c in cs[1..];
    }
  }

  lemma SomeKey(d: Dated, k: Key)
    requires k in Keys(d)
    ensures d != []
  {
  }

  lemma TurnIsClaimed(scans: seq<Scan>, scan: Scan, turn: Turn)
    requires scan in scans && turn in scan.turns && turn.at.Some?
    ensures TurnKey(scan, turn) in AllKeys(ClaimOrder(scans))
  {
    var k := TurnKey(scan, turn);
    var nonEmpty := WithTurns(scans);
    var groups := Grouped(nonEmpty, SessionOf);
    hide TurnKey, Grouped, Candidates, Sort, WithTurns, AllKeys, Keys, DatedTurns;
    var i := InSomeGroup(nonEmpty, SessionOf, scan);
    var group := groups[i].1;
    assert k in DatedKeys(group);
    DatedTurnsKeys(group);
    SomeKey(DatedTurns(group), k);
    EveryGroupIsCandidate(groups, i);
    var c :| c in Candidates(groups) && c.position == i;
    CandidatesFacts(groups);
    assert FromGroup(c, groups);
    SortKeepsAll(Candidates(groups), Before);
    AllKeysAre(ClaimOrder(scans), k);
  }

  lemma ClaimedIsTurn(scans: seq<Scan>, k: Key)
    requires k in AllKeys(ClaimOrder(scans))
    ensures k in DatedKeys(scans)
  {
    var nonEmpty := WithTurns(scans);
    var groups := Grouped(nonEmpty, SessionOf);
    hide TurnKey, Grouped, Candidates, Sort, AllKeys, Keys, DatedTurns;
    AllKeysAre(ClaimOrder(scans), k);
    var c :| c in ClaimOrder(scans) && k in Keys(c.dated);
    SortKeepsAll(Candidates(groups), Before);
    CandidatesFacts(groups);
    assert FromGroup(c, groups);
    DatedTurnsKeys(c.group);
    GroupEntry(nonEmpty, SessionOf, c.position);
    var scan, turn :| scan in c.group && turn in scan.turns && turn.at.Some? && TurnKey(scan, turn) == k;
    assert scan in nonEmpty && scan in scans;
  }

  lemma CandidatesAreDistinct(scans: seq<Scan>)
    ensures forall c :: c in ClaimOrder(scans) ==> Distinct(c.dated)
  {
    var groups := Grouped(WithTurns(scans), SessionOf);
    hide Grouped, Candidates, Sort, DatedTurns, Distinct, WithTurns;
    SortKeepsAll(Candidates(groups), Before);
    CandidatesFacts(groups);
    forall c | c in ClaimOrder(scans) ensures Distinct(c.dated) {
      assert FromGroup(c, groups);
      DatedTurnsKeys(c.group);
    }
  }

  /** Attribution is a partition: the sessions together own each distinct dated turn
      exactly once, and nothing else. */
  lemma EveryTurnOnce(scans: seq<Scan>)
    ensures Distinct(Ledger(scans)) && Keys(Ledger(scans)) == DatedKeys(scans)
  {
    hide *;
    var cs := ClaimOrder(scans);
    CandidatesAreDistinct(scans);
    ClaimsPartition(cs, {});
    LedgerIs(scans);
    assert AllKeys(cs) - {} == AllKeys(cs);
    AllClaimed(scans);
    forall k | k in AllKeys(cs) ensures k in DatedKeys(scans) {
      ClaimedIsTurn(scans, k);
    }
  }

  lemma LedgerIs(scans: seq<Scan>)
    ensures Ledger(scans) == Flatten(Claims(ClaimOrder(scans), {}))
  {
    hide Flatten, Claims, ClaimOrder;
  }

  lemma AllClaimed(scans: seq<Scan>)
    ensures DatedKeys(scans) <= AllKeys(ClaimOrder(scans))
  {
    hide ClaimOrder, AllKeys;
    forall k | k in DatedKeys(scans) ensures k in AllKeys(ClaimOrder(scans)) {
      var scan, turn :| scan in scans && turn in scan.turns && turn.at.Some? && TurnKey(scan, turn) == k;
      TurnIsClaimed(scans, scan, turn);
    }
  }

  function WeighSession(m: Measure): Session -> nat {
    (s: Session) => OfSession(m, s)
  }

  lemma ValuesAppend(a: Dated, b: Dated)
    ensures Values(a + b) == Values(a) + Values(b)
  {
  }

  lemma FlattenSnoc<T>(parts: seq<seq<T>>, n: nat)
    requires |parts| == n + 1
    ensures Flatten(parts) == Flatten(parts[..n]) + parts[n]
  {
    FlattenAppend(parts[..n], [parts[n]]);
    assert parts == parts[..n] + [parts[n]];
    assert [parts[n]][1..] == [];
    assert parts[n] + [] == parts[n];
  }

  lemma {:induction false} RollupsMeasure(cs: seq<Candidate>, owned: seq<Dated>, price: Price, m: Measure)
    requires |owned| == |cs|
    ensures Sum(Rollups(cs, owned, price), WeighSession(m)) == Total(m, Values(Flatten(owned)), price)
  {
    if cs != [] {
      var n := |cs| - 1;
      RollupsMeasure(cs[..n], owned[..n], price, m);
      FlattenSnoc(owned, n);
      ValuesAppend(Flatten(owned[..n]), owned[n]);
      SumAppend(Values(Flatten(owned[..n])), Values(owned[n]), Weigh(m, price));
      var front := Rollups(cs[..n], owned[..n], price);
      if owned[n] != [] {
        FoldMeasures(cs[n].session, owned[n], price, m);
        var last := Fold(cs[n].session, owned[n], price);
        assert (front + [last])[..|front|] == front;
      } else {
        assert front + [] == front;
      }
      hide Fold, Flatten, Values;
    }
  }

  /** Counts, tokens and cost are conserved: summed over the sessions, each measure
      is its sum over the distinct dated turns. */
  lemma TotalsConserved(scans: seq<Scan>, price: Price, m: Measure)
    ensures Sum(AllSessions(scans, price), WeighSession(m)) == Total(m, Values(Ledger(scans)), price)
  {
    var cs := ClaimOrder(scans);
    var owned := Claims(cs, {});
    SumSort(Rollups(cs, owned, price), LatestFirst, WeighSession(m));
    RollupsMeasure(cs, owned, price, m);
    hide ClaimOrder, Claims, Rollups, Sort, Values, Flatten, Total, Sum;
  }

  lemma {:induction false} KeysSize(d: Dated)
    requires Distinct(d)
    ensures |Keys(d)| == |d|
  {
    if d != [] {
      var n := |d| - 1;
      KeysSize(d[..n]);
      assert d == d[..n] + [d[n]];
      KeysSnoc(d[..n], d[n]);
      assert d[n].0 !in Keys(d[..n]);
    }
  }

  /** The request counts sum to the number of distinct dated turns. */
  lemma RequestsCountTurns(scans: seq<Scan>, price: Price)
    ensures Sum(AllSessions(scans, price), WeighSession(Requests)) == |DatedKeys(scans)|
  {
    hide *;
    TotalsConserved(scans, price, Requests);
    EveryTurnOnce(scans);
    KeysSize(Ledger(scans));
    RequestsAreLength(Values(Ledger(scans)), price);
    ValuesLength(Ledger(scans));
  }

  lemma ValuesLength(d: Dated)
    ensures |Values(d)| == |d|
  {
  }

  // What the sessions say of the scans -----------------------------------------

  /** A dated turn is told from another by its source and event id, and in Codex logs
      by its file as well. */
  function DistinctTurns(scans: seq<Scan>): set<(Source, string, string)> {
    set scan, turn | scan in scans && turn in scan.turns && turn.at.Some? ::
      (scan.source, turn.eventId, if scan.source.Codex? then scan.fileStem else "")
  }

  function Triple(k: Key): (Source, string, string) {
    (k.source, k.eventId, k.stem)
  }

  lemma {:induction false} TriplesSize(keys: set<Key>)
    ensures |set k | k in keys :: Triple(k)| == |keys|
  {
    if keys != {} {
      var k :| k in keys;
      TriplesSize(keys - {k});
      assert (set x | x in keys :: Triple(x)) == (set x | x in keys - {k} :: Triple(x)) + {Triple(k)};
    } else {
      assert (set x | x in keys :: Triple(x)) == {};
    }
  }

  /** Identities merge exactly the turns that are one. */
  lemma KeysAreTurns(scans: seq<Scan>)
    ensures |DatedKeys(scans)| == |DistinctTurns(scans)|
  {
    TriplesSize(DatedKeys(scans));
    forall t ensures t in DistinctTurns(scans) <==> t in set k | k in DatedKeys(scans) :: Triple(k) {
      if t in DistinctTurns(scans) {
        var scan, turn :| scan in scans && turn in scan.turns && turn.at.Some?
                          && t == (scan.source, turn.eventId, if scan.source.Codex? then scan.fileStem else "");
        assert TurnKey(scan, turn) in DatedKeys(scans) && Triple(TurnKey(scan, turn)) == t;
      }
    }
    assert DistinctTurns(scans) == set k | k in DatedKeys(scans) :: Triple(k);
  }

  /** A turn as its session sees it: one of its own scans', at its instant. */
  ghost predicate OwnTurn(e: (Key, (int, Turn)), key: SessionKey, scans: seq<Scan>) {
    exists scan ::
      && scan in scans && scan.source == key.source && scan.sessionId == key.sessionId
      && e.1.1 in scan.turns && e.1.1.at == Some(e.1.0)
      && e.0 == Key(scan.source, if scan.source.Codex? then scan.fileStem else "", e.1.1.eventId)
  }

  /** One request a turn, and every counter and the cost the turns' sums. */
  ghost predicate AddsUp(s: Session, values: seq<(int, Turn)>, price: Price) {
    && s.requestCount == |values|
    && s.input == Sum(values, (v: (int, Turn)) => v.1.input)
    && s.cached == Sum(values, (v: (int, Turn)) => v.1.cached)
    && s.output == Sum(values, (v: (int, Turn)) => v.1.output)
    && s.reasoning == Sum(values, (v: (int, Turn)) => v.1.reasoning)
    && s.cost == Sum(values, (v: (int, Turn)) => price(v.1.model, v.1.input, v.1.cached, v.1.output))
  }

  lemma {:induction false} SumAgrees<T(!new)>(s: seq<T>, f: T -> nat, g: T -> nat)
    requires forall x :: f(x) == g(x)
    ensures Sum(s, f) == Sum(s, g)
  {
    if s != [] {
      SumAgrees(s[..|s| - 1], f, g);
    }
  }

  lemma TotalsAddUp(s: Session, values: seq<(int, Turn)>, price: Price)
    requires forall m :: OfSession(m, s) == Total(m, values, price)
    ensures AddsUp(s, values, price)
  {
    RequestsAreLength(values, price);
    assert s.requestCount == OfSession(Requests, s);
    assert s.input == OfSession(Input, s) && s.cached == OfSession(Cached, s);
    assert s.output == OfSession(Output, s) && s.reasoning == OfSession(Reasoning, s) && s.cost == OfSession(Cost, s);
    SumAgrees(values, Weigh(Input, price), (v: (int, Turn)) => v.1.input);
    SumAgrees(values, Weigh(Cached, price), (v: (int, Turn)) => v.1.cached);
    SumAgrees(values, Weigh(Output, price), (v: (int, Turn)) => v.1.output);
    SumAgrees(values, Weigh(Reasoning, price), (v: (int, Turn)) => v.1.reasoning);
    SumAgrees(values, Weigh(Cost, price), (v: (int, Turn)) => price(v.1.model, v.1.input, v.1.cached, v.1.output));
  }

  /** A rollup adds up distinct turns of its own scans, spans them and names their
      models. */
  ghost predicate RollsUp(s: Session, owned: Dated, scans: seq<Scan>, price: Price) {
    && owned != [] && Distinct(owned) && (forall e :: e in owned ==> OwnTurn(e, s.key, scans))
    && AddsUp(s, Values(owned), price)
    && (forall e :: e in owned ==> s.started <= e.1.0 <= s.ended)
    && (exists e :: e in owned && e.1.0 == s.started) && (exists e :: e in owned && e.1.0 == s.ended)
    && NoDuplicates(s.models) && (forall model :: model in s.models <==> exists e :: e in owned && e.1.1.model == model)
  }

  ghost predicate Explained(s: Session, scans: seq<Scan>, price: Price) {
    exists owned :: RollsUp(s, owned, scans, price)
  }

  lemma {:induction false} ModelsAre(values: seq<(int, Turn)>)
    ensures NoDuplicates(Models(values))
    ensures forall model :: model in Models(values) <==> exists v :: v in values && v.1.model == model
  {
    if values != [] {
      var n := |values| - 1;
      ModelsAre(values[..n]);
      assert values == values[..n] + [values[n]];
      assert forall v :: v in values <==> v in values[..n] || v == values[n];
    }
  }

  lemma ValuesMembers(d: Dated, v: (int, Turn))
    ensures v in Values(d) <==> exists e :: e in d && e.1 == v
  {
    if v in Values(d) {
      var i :| 0 <= i < |d| && Values(d)[i] == v;
      assert d[i] in d;
    }
    if exists e :: e in d && e.1 == v {
      var e :| e in d && e.1 == v;
      var i :| 0 <= i < |d| && d[i] == e;
      assert Values(d)[i] == v;
    }
  }

  lemma FoldRollsUp(key: SessionKey, owned: Dated, scans: seq<Scan>, price: Price)
    requires owned != [] && Distinct(owned) && forall e :: e in owned ==> OwnTurn(e, key, scans)
    ensures RollsUp(Fold(key, owned, price), owned, scans, price)
  {
    var s, values := Fold(key, owned, price), Sort(Values(owned), Earlier);
    SortKeepsAll(Values(owned), Earlier);
    ModelsAre(values);
    forall m ensures OfSession(m, s) == Total(m, Values(owned), price) {
      FoldMeasures(key, owned, price, m);
    }
    TotalsAddUp(s, Values(owned), price);
    forall e | e in owned ensures s.started <= e.1.0 <= s.ended {
      FoldSpans(key, owned, price, e);
    }
    forall v ensures v in Values(owned) <==> exists e :: e in owned && e.1 == v {
      ValuesMembers(owned, v);
    }
    hide Sort, Models, Values, OwnTurn, Distinct, Total, OfSession, NoDuplicates, AddsUp;
    assert values[0] in values && values[|values| - 1] in values;
  }

  /** What a candidate has, and so what it owns, comes from its own scans. */
  lemma CandidateIsOwn(scans: seq<Scan>, c: Candidate)
    requires c in ClaimOrder(scans)
    ensures Distinct(c.dated) && forall e :: e in c.dated ==> OwnTurn(e, c.session, scans)
  {
    var nonEmpty := WithTurns(scans);
    var groups := Grouped(nonEmpty, SessionOf);
    CandidatesAreDistinct(scans);
    SortKeepsAll(Candidates(groups), Before);
    CandidatesFacts(groups);
    hide Grouped, Candidates, Sort, DatedTurns, Distinct, WithTurns;
    assert FromGroup(c, groups);
    GroupEntry(nonEmpty, SessionOf, c.position);
    DatedTurnsGenuine(c.group);
    forall e | e in c.dated ensures OwnTurn(e, c.session, scans) {
      assert GenuineEntry(e, c.group);
      var scan :| scan in c.group && e.1.1 in scan.turns && e.0 == TurnKey(scan, e.1.1) && e.1.1.at == Some(e.1.0);
      assert scan in nonEmpty && SessionOf(scan) == c.session;
    }
  }

  lemma {:induction false} OwnedOfCandidate(cs: seq<Candidate>, claimed: set<Key>, i: nat)
    requires i < |cs| && forall c :: c in cs ==> Distinct(c.dated)
    ensures Distinct(Claims(cs, claimed)[i]) && forall e :: e in Claims(cs, claimed)[i] ==> e in cs[i].dated
    decreases i
  {
    assert cs[0] in cs;
    UnclaimedFacts(cs[0].dated, claimed);
    UnclaimedMembers(cs[0].dated, claimed);
    hide Unclaimed, Keys, Distinct;
    if i > 0 {
      OwnedOfCandidate(cs[1..], claimed + Keys(cs[0].dated), i - 1);
    }
  }

  lemma {:induction false} RollupsExplained(cs: seq<Candidate>, owned: seq<Dated>, scans: seq<Scan>, price: Price)
    requires |owned| == |cs|
    requires forall i :: 0 <= i < |cs| ==> Distinct(owned[i]) && forall e :: e in owned[i] ==> OwnTurn(e, cs[i].session, scans)
    ensures forall s :: s in Rollups(cs, owned, price) ==> Explained(s, scans, price)
  {
    hide Distinct, OwnTurn, RollsUp;
    if cs != [] {
      var n := |cs| - 1;
      RollupsExplained(cs[..n], owned[..n], scans, price);
      if owned[n] != [] {
        FoldRollsUp(cs[n].session, owned[n], scans, price);
        FoldKey(cs[n].session, owned[n], price);
      }
      hide Fold;
    }
  }

  lemma FoldKey(key: SessionKey, owned: Dated, price: Price)
    requires owned != []
    ensures Fold(key, owned, price).key == key
  {
  }

  ghost predicate OneEach(cs: seq<Candidate>) {
    forall i, j :: 0 <= i < j < |cs| ==> cs[i].session != cs[j].session
  }

  ghost predicate KeysOnce(sessions: seq<Session>) {
    forall i, j :: 0 <= i < j < |sessions| ==> sessions[i].key != sessions[j].key
  }

  ghost predicate KeyFrom(s: Session, cs: seq<Candidate>) {
    exists i :: 0 <= i < |cs| && s.key == cs[i].session
  }

  lemma KeyFromMore(s: Session, cs: seq<Candidate>)
    requires cs != [] && KeyFrom(s, cs[..|cs| - 1])
    ensures KeyFrom(s, cs)
    ensures OneEach(cs) ==> s.key != cs[|cs| - 1].session
  {
    var i :| 0 <= i < |cs| - 1 && s.key == cs[..|cs| - 1][i].session;
    assert s.key == cs[i].session;
  }

  lemma {:induction false} RollupKeys(cs: seq<Candidate>, owned: seq<Dated>, price: Price)
    requires |owned| == |cs|
    ensures forall s :: s in Rollups(cs, owned, price) ==> KeyFrom(s, cs)
  {
    if cs != [] {
      var n := |cs| - 1;
      RollupKeys(cs[..n], owned[..n], price);
      forall s | s in Rollups(cs[..n], owned[..n], price) ensures KeyFrom(s, cs) {
        KeyFromMore(s, cs);
      }
      if owned[n] != [] {
        FoldKey(cs[n].session, owned[n], price);
      }
      hide Fold;
    }
  }

  lemma {:induction false} RollupsOnce(cs: seq<Candidate>, owned: seq<Dated>, price: Price)
    requires |owned| == |cs| && OneEach(cs)
    ensures KeysOnce(Rollups(cs, owned, price))
  {
    if cs != [] {
      var n := |cs| - 1;
      RollupsOnce(cs[..n], owned[..n], price);
      RollupKeys(cs[..n], owned[..n], price);
      var front := Rollups(cs[..n], owned[..n], price);
      if owned[n] != [] {
        FoldKey(cs[n].session, owned[n], price);
      }
      forall s | s in front ensures s.key != cs[n].session {
        KeyFromMore(s, cs);
      }
      hide Fold, KeyFrom, OneEach;
      assert forall i :: 0 <= i < |front| ==> front[i] in front;
    }
  }

  /** One candidate for each session. */
  lemma CandidatesOnce(scans: seq<Scan>)
    ensures OneEach(ClaimOrder(scans))
  {
    var nonEmpty := WithTurns(scans);
    var groups := Grouped(nonEmpty, SessionOf);
    var all, cs := Candidates(groups), ClaimOrder(scans);
    CandidatesFacts(groups);
    SortKeepsAll(all, Before);
    GroupsDistinct(nonEmpty);
    hide Grouped, Candidates, Sort, WithTurns, DatedTurns, Distinct;
    PositionsOnce(all);
    SameMultisetOnce(all, cs);
    hide OneEach, FromGroup, ClaimOrder;
    OneEachByPosition(groups, all, cs);
  }

  lemma GroupsDistinct(scans: seq<Scan>)
    ensures Distinct(Grouped(scans, SessionOf))
  {
    var groups := Grouped(scans, SessionOf);
    if groups != [] {
      GroupedHolds(scans, SessionOf, groups[0].0);
    }
    hide Grouped;
  }

  lemma PositionsOnce(all: seq<Candidate>)
    requires forall i, j :: 0 <= i < j < |all| ==> Position(all[i]) < Position(all[j])
    ensures NoDuplicates(all)
  {
    forall i, j | 0 <= i < j < |all| ensures all[i] != all[j] {
      assert Position(all[i]) < Position(all[j]);
    }
  }

  lemma OneEachByPosition(groups: Dict<SessionKey, seq<Scan>>, all: seq<Candidate>, cs: seq<Candidate>)
    requires Distinct(groups) && NoDuplicates(cs) && forall c :: c in cs ==> c in all && FromGroup(c, groups)
    requires forall i, j :: 0 <= i < j < |all| ==> Position(all[i]) < Position(all[j])
    ensures OneEach(cs)
  {
    hide DatedTurns, Earliest;
    forall i, j | 0 <= i < j < |cs| ensures cs[i].session != cs[j].session {
      assert cs[i] in cs && cs[j] in cs;
      assert FromGroup(cs[i], groups) && FromGroup(cs[j], groups);
      PositionsDiffer(groups, all, cs[i], cs[j]);
    }
  }

  lemma PositionsDiffer(groups: Dict<SessionKey, seq<Scan>>, all: seq<Candidate>, a: Candidate, b: Candidate)
    requires a in all && b in all && a != b
    requires forall i, j :: 0 <= i < j < |all| ==> Position(all[i]) < Position(all[j])
    ensures a.position != b.position
  {
    var i :| 0 <= i < |all| && all[i] == a;
    var j :| 0 <= j < |all| && all[j] == b;
    assert i < j || j < i;
  }

  /** What the result tells about the scans, without the machinery that made it: each
      distinct dated turn is one request; sessions come once each, latest first; and
      each rolls up turns of its own scans. */
  lemma SessionsExplained(scans: seq<Scan>, price: Price)
    ensures var sessions := AllSessions(scans, price);
            && Sum(sessions, (s: Session) => s.requestCount) == |DistinctTurns(scans)|
            && (forall i, j :: 0 <= i < j < |sessions| ==> sessions[i].ended >= sessions[j].ended && sessions[i].key != sessions[j].key)
            && (forall s :: s in sessions ==> Explained(s, scans, price))
  {
    var cs := ClaimOrder(scans);
    var owned, rollups := Claims(cs, {}), Rollups(cs, Claims(cs, {}), price);
    var sessions := AllSessions(scans, price);
    RequestsCountTurns(scans, price);
    KeysAreTurns(scans);
    LatestSessionsFirst(scans, price);
    SameSum(sessions);
    CandidatesAreDistinct(scans);
    hide Claims, ClaimOrder, Rollups, Sum, DatedKeys, DistinctTurns, Explained, Distinct;
    forall i | 0 <= i < |cs|
      ensures Distinct(owned[i]) && forall e :: e in owned[i] ==> OwnTurn(e, cs[i].session, scans)
    {
      OwnedOfCandidate(cs, {}, i);
      CandidateIsOwn(scans, cs[i]);
    }
    RollupsExplained(cs, owned, scans, price);
    CandidatesOnce(scans);
    RollupsOnce(cs, owned, price);
    SortKeepsAll(rollups, LatestFirst);
    SortedOnce(rollups, sessions);
    hide Sort;
  }

  lemma {:induction false} SameSum(sessions: seq<Session>)
    ensures Sum(sessions, (s: Session) => s.requestCount) == Sum(sessions, WeighSession(Requests))
  {
    if sessions != [] {
      SameSum(sessions[..|sessions| - 1]);
    }
  }

  lemma SortedOnce(rollups: seq<Session>, sessions: seq<Session>)
    requires multiset(rollups) == multiset(sessions) && KeysOnce(rollups)
    ensures KeysOnce(sessions)
  {
    assert NoDuplicates(rollups);
    SameMultisetOnce(rollups, sessions);
    forall i, j | 0 <= i < j < |sessions| ensures sessions[i].key != sessions[j].key {
      assert sessions[i] in multiset(sessions) && sessions[j] in multiset(sessions);
      var a :| 0 <= a < |rollups| && rollups[a] == sessions[i];
      var b :| 0 <= b < |rollups| && rollups[b] == sessions[j];
      assert a < b || b < a;
    }
  }

  /** Sessions come most recently active first. */
  lemma LatestSessionsFirst(scans: seq<Scan>, price: Price)
    ensures Ordered(AllSessions(scans, price), LatestFirst)
  {
    var cs := ClaimOrder(scans);
    assert Preorder(LatestFirst);
    SortSorts(Rollups(cs, Claims(cs, {}), price), LatestFirst);
    hide Sort, Rollups, Claims, ClaimOrder;
  }
}

/** The prompt-capture drain: claim a batch, ship it, release the claim when a
    destination fails, until the queue is drained or the tick budget is spent. */
module Broadcast {
  import opened Prelude
  import opened OrderedDict
  import opened Grouping

  type Org = nat

  /** A captured prompt; the request id is the table's primary key. */
  datatype Row = Row(requestId: nat, orgId: Org)

  datatype Kind = Braintrust | Langfuse | Phoenix | Langsmith | PostHog

  const DESTINATION_KINDS: seq<Kind> := [Braintrust, Langfuse, Phoenix, Langsmith, PostHog]

  const BATCH_LIMIT: nat := 100

  // The queue ----------------------------------------------------------------

  /** Rows the export query selects, oldest first. */
  function Eligible(rows: seq<Row>, exported: set<Row>, consent: set<Org>, excluded: set<Org>): (r: seq<Row>)
    ensures forall x :: x in r <==> x in rows && x !in exported && x.orgId in consent && x.orgId !in excluded
    ensures NoDuplicates(rows) ==> NoDuplicates(r)
  {
    if rows == [] then []
    else
      var rest := Eligible(rows[1..], exported, consent, excluded);
      if rows[0] !in exported && rows[0].orgId in consent && rows[0].orgId !in excluded then [rows[0]] + rest else rest
  }

  ghost predicate MayExport(row: Row, exported: set<Row>, consent: set<Org>, excluded: set<Org>) {
    row !in exported && row.orgId in consent && row.orgId !in excluded
  }

  /** `all` are the rows at these places, and these are all that may be exported. */
  ghost predicate Selected(rows: seq<Row>, exported: set<Row>, consent: set<Org>, excluded: set<Org>, all: seq<Row>, at: seq<nat>) {
    && |at| == |all| && (forall i, j :: 0 <= i < j < |at| ==> at[i] < at[j])
    && (forall i :: 0 <= i < |at| ==> at[i] < |rows| && all[i] == rows[at[i]])
    && (forall p: nat :: p < |rows| && MayExport(rows[p], exported, consent, excluded) <==> p in at)
  }

  /** A batch: of all rows that may be exported, in the order stored, the first up to
      the limit. */
  ghost predicate IsBatch(rows: seq<Row>, exported: set<Row>, consent: set<Org>, excluded: set<Org>, limit: nat, batch: seq<Row>) {
    exists all, at :: Selected(rows, exported, consent, excluded, all, at)
      && batch <= all && |batch| == if |all| < limit then |all| else limit
  }

  ghost function OneLater(at: seq<nat>): (r: seq<nat>)
    ensures |r| == |at| && forall i :: 0 <= i < |at| ==> r[i] == at[i] + 1
    ensures forall p: nat :: p in r <==> p > 0 && p - 1 in at
  {
    var r := seq(|at|, i requires 0 <= i < |at| => at[i] + 1);
    assert forall i :: 0 <= i < |at| ==> r[i] == at[i] + 1;
    assert forall p: nat :: p > 0 && p - 1 in at ==> p in r by {
      forall p: nat | p > 0 && p - 1 in at ensures p in r {
        var i :| 0 <= i < |at| && at[i] == p - 1;
        assert r[i] == p;
      }
    }
    r
  }

  lemma PlacesShift(rows: seq<Row>, exported: set<Row>, consent: set<Org>, excluded: set<Org>, rest: seq<nat>, at: seq<nat>)
    requires rows != [] && at == (if MayExport(rows[0], exported, consent, excluded) then [0] else []) + OneLater(rest)
    requires forall p: nat :: p < |rows[1..]| && MayExport(rows[1..][p], exported, consent, excluded) <==> p in rest
    ensures forall p: nat :: p < |rows| && MayExport(rows[p], exported, consent, excluded) <==> p in at
  {
    hide MayExport;
    var later := OneLater(rest);
    hide OneLater;
    forall p: nat ensures p < |rows| && MayExport(rows[p], exported, consent, excluded) <==> p in at {
      if p > 0 {
        assert p < |rows| ==> rows[p] == rows[1..][p - 1];
        assert p in at <==> p in later;
      }
    }
  }

  lemma ValueShifts(rows: seq<Row>, tail: seq<Row>, rest: seq<nat>, first: bool, i: nat)
    requires rows != [] && |rest| == |tail| && (forall k :: 0 <= k < |rest| ==> rest[k] < |rows[1..]| && tail[k] == rows[1..][rest[k]])
    requires i < |tail| + if first then 1 else 0
    ensures var all, at := (if first then [rows[0]] else []) + tail, (if first then [0] else []) + OneLater(rest);
            |at| == |all| && at[i] < |rows| && all[i] == rows[at[i]]
  {
  }

  lemma OrderShifts(rest: seq<nat>, first: bool, i: nat, j: nat)
    requires forall k, l :: 0 <= k < l < |rest| ==> rest[k] < rest[l]
    requires i < j < |rest| + if first then 1 else 0
    ensures var at := (if first then [0] else []) + OneLater(rest); at[i] < at[j]
  {
  }

  lemma FirstShifts(rows: seq<Row>, exported: set<Row>, consent: set<Org>, excluded: set<Org>, tail: seq<Row>, rest: seq<nat>)
    requires rows != [] && Selected(rows[1..], exported, consent, excluded, tail, rest)
    ensures var first := MayExport(rows[0], exported, consent, excluded);
            Selected(rows, exported, consent, excluded, (if first then [rows[0]] else []) + tail, (if first then [0] else []) + OneLater(rest))
  {
    var first := MayExport(rows[0], exported, consent, excluded);
    var all, at := (if first then [rows[0]] else []) + tail, (if first then [0] else []) + OneLater(rest);
    PlacesShift(rows, exported, consent, excluded, rest, at);
    hide OneLater, MayExport;
    forall i | 0 <= i < |at| ensures at[i] < |rows| && all[i] == rows[at[i]] {
      ValueShifts(rows, tail, rest, first, i);
    }
    forall i, j | 0 <= i < j < |at| ensures at[i] < at[j] {
      OrderShifts(rest, first, i, j);
    }
  }

  lemma {:induction false} EligibleIs(rows: seq<Row>, exported: set<Row>, consent: set<Org>, excluded: set<Org>) returns (at: seq<nat>)
    ensures Selected(rows, exported, consent, excluded, Eligible(rows, exported, consent, excluded), at)
  {
    if rows == [] {
      at := [];
    } else {
      var rest := EligibleIs(rows[1..], exported, consent, excluded);
      FirstShifts(rows, exported, consent, excluded, Eligible(rows[1..], exported, consent, excluded), rest);
      at := (if MayExport(rows[0], exported, consent, excluded) then [0] else []) + OneLater(rest);
      hide Selected, OneLater;
    }
  }

  lemma FetchIsBatch(rows: seq<Row>, exported: set<Row>, consent: set<Org>, excluded: set<Org>, limit: nat)
    ensures IsBatch(rows, exported, consent, excluded, limit, FirstOf(Eligible(rows, exported, consent, excluded), limit))
  {
    var at := EligibleIs(rows, exported, consent, excluded);
    hide Selected, Eligible;
  }

  /** `[row for row in rows if row.request_id in claimed_set]`. */
  function Among(rows: seq<Row>, claimed: set<Row>): (r: seq<Row>)
    ensures forall x :: x in r <==> x in rows && x in claimed
    ensures NoDuplicates(rows) ==> NoDuplicates(r)
  {
    if rows == [] then []
    else if rows[0] in claimed then [rows[0]] + Among(rows[1..], claimed)
    else Among(rows[1..], claimed)
  }

  function Claimable(batch: seq<Row>, exported: set<Row>, consent: set<Org>): set<Row> {
    set r | r in batch && r !in exported && r.orgId in consent
  }

  lemma ClaimOfOneOrg(batch: seq<Row>, exported: set<Row>, consent: set<Org>, org: Org)
    requires forall r :: r in batch ==> r !in exported && r.orgId == org
    ensures Claimable(batch, exported, consent) == if org in consent then Elements(batch) else {}
  {
  }

  function FirstOf<T>(s: seq<T>, limit: nat): seq<T> {
    if |s| <= limit then s else s[..limit]
  }

  /** The organisations among these rows that do not consent. */
  function Withheld(rows: seq<Row>, consent: set<Org>): set<Org> {
    set r | r in rows && r.orgId !in consent :: r.orgId
  }

  /** The capture table. Consent is an organisation's own switch: it may have
      changed by the time of any call. */
  class CaptureQueue {
    const rows: seq<Row>
    var consent: set<Org>
    var exported: set<Row>
    /** Rows ever claimed, each under the consent of that moment. */
    ghost var everClaimed: set<Row>
    /** How often the queue was read. */
    ghost var fetches: nat
    /** Organisations the last fetch found without consent. */
    ghost var absent: set<Org>
    /** Organisations whose claims were refused for want of consent. */
    ghost var withdrawn: set<Org>

    constructor (rows: seq<Row>, consent: set<Org>, exported: set<Row>)
      ensures this.rows == rows && this.consent == consent && this.exported == exported
      ensures everClaimed == {} && fetches == 0 && absent == {} && withdrawn == {}
    {
      this.rows, this.consent, this.exported := rows, consent, exported;
      everClaimed, fetches, absent, withdrawn := {}, 0, {}, {};
    }

    method ToExport(limit: nat, excluded: set<Org>) returns (batch: seq<Row>)
      modifies this`consent, this`fetches, this`absent
      ensures fetches == old(fetches) + 1 && absent == Withheld(rows, consent)
      ensures batch == FirstOf(Eligible(rows, exported, consent, excluded), limit)
      ensures IsBatch(rows, exported, consent, excluded, limit, batch)
    {
      consent := *;
      FetchIsBatch(rows, exported, consent, excluded, limit);
      fetches, absent := fetches + 1, Withheld(rows, consent);
      batch := FirstOf(Eligible(rows, exported, consent, excluded), limit);
    }

    /** Claims what the organisations' current consent still allows. */
    method MarkExported(batch: seq<Row>) returns (claimed: seq<Row>)
      requires NoDuplicates(batch)
      modifies this`consent, this`exported, this`everClaimed, this`withdrawn
      ensures withdrawn == old(withdrawn) + Withheld(batch, consent)
      ensures NoDuplicates(claimed)
      ensures Elements(claimed) == Claimable(batch, old(exported), consent)
      ensures exported == old(exported) + Elements(claimed)
      ensures everClaimed == old(everClaimed) + Elements(claimed)
    {
      consent := *;
      withdrawn := withdrawn + Withheld(batch, consent);
      claimed := Eligible(batch, exported, consent, {});
      assert Elements(claimed) == Claimable(batch, exported, consent);
      exported := exported + Elements(claimed);
      everClaimed := everClaimed + Elements(claimed);
    }

    method UnmarkExported(claimed: seq<Row>)
      modifies this`exported
      ensures exported == old(exported) - Elements(claimed)
    {
      exported := exported - Elements(claimed);
    }
  }

  // Destinations -------------------------------------------------------------

  datatype Connection = Connection(enabled: bool, privacyMode: bool)

  /** What the connection store answered for one destination kind. */
  datatype Answer = Answer(org: Org, kind: Kind, connection: Option<Connection>)

  predicate SwitchedOn(a: Answer) {
    a.connection.Some? && a.connection.value.enabled
  }

  /** What came back from outside during a run, in order: every answer about a
      connection, and the organisation of every refused credential or delivery. */
  class Journal {
    ghost var answers: seq<Answer>
    ghost var refusals: seq<Org>

    constructor ()
      ensures answers == [] && refusals == []
    {
      answers, refusals := [], [];
    }
  }

  function Noting(refusals: seq<Org>, org: Org, refused: bool): seq<Org> {
    if refused then refusals + [org] else refusals
  }

  /** Stored connections; any answer may come back at any time. */
  class TraceConnections {
    const journal: Journal

    constructor (journal: Journal)
      ensures this.journal == journal
    {
      this.journal := journal;
    }

    method FindConnection(org: Org, kind: Kind) returns (connection: Option<Connection>)
      modifies journal`answers
      ensures journal.answers == old(journal.answers) + [Answer(org, kind, connection)]
    {
      connection := *;
      journal.answers := journal.answers + [Answer(org, kind, connection)];
    }

    method ReleaseCredential(org: Org, kind: Kind) returns (released: bool)
      modifies journal`refusals
      ensures journal.refusals == Noting(old(journal.refusals), org, !released)
    {
      released := *;
      if !released {
        journal.refusals := journal.refusals + [org];
      }
    }
  }

  /** One answer for each destination kind, all about `org`. */
  ghost predicate Sweep(s: seq<Answer>, org: Org) {
    |s| == |DESTINATION_KINDS| && forall i :: 0 <= i < |s| ==> s[i].org == org && s[i].kind == DESTINATION_KINDS[i]
  }

  /** The kinds answered as switched on, in the order they were asked for. */
  function EnabledIn(s: seq<Answer>): (kinds: seq<Kind>)
    ensures forall k :: k in kinds <==> exists a :: a in s && a.kind == k && SwitchedOn(a)
  {
    if s == [] then []
    else
      var a := s[|s| - 1];
      EnabledIn(s[..|s| - 1]) + if SwitchedOn(a) then [a.kind] else []
  }

  /** Between the two logs lies one sweep for `org`, and it found `enabled`. */
  ghost predicate SweptFor(before: seq<Answer>, after: seq<Answer>, org: Org, enabled: seq<Kind>) {
    && |before| <= |after| && after[..|before|] == before
    && Sweep(after[|before|..], org) && enabled == EnabledIn(after[|before|..])
  }

  /** The kinds whose connection of `org` is found with broadcast switched on. */
  method EnabledDestinations(connections: TraceConnections, org: Org) returns (enabled: seq<Kind>)
    modifies connections.journal`answers
    ensures SweptFor(old(connections.journal.answers), connections.journal.answers, org, enabled)
    ensures NoDuplicates(enabled)
    ensures FoundOn(connections.journal.answers[|old(connections.journal.answers)|..], enabled)
  {
    hide *;
    enabled := [];
    var i := 0;
    ghost var before, found := connections.journal.answers, [];
    AskedNone(org);
    while i < |DESTINATION_KINDS|
      invariant i == |found| <= |DESTINATION_KINDS|
      invariant connections.journal.answers == before + found
      invariant Asked(found, org, enabled)
    {
      var connection := connections.FindConnection(org, DESTINATION_KINDS[i]);
      ghost var a := Answer(org, DESTINATION_KINDS[i], connection);
      AskedNext(found, org, enabled, a);
      found := found + [a];
      if connection.Some? && connection.value.enabled {
        enabled := enabled + [DESTINATION_KINDS[i]];
      }
      i := i + 1;
    }
    AskedAll(before, found, org, enabled);
    SweptFinds(before, before + found, org, enabled);
  }

  /** A kind is on if and only if a connection was found for it and is enabled. */
  ghost predicate FoundOn(answers: seq<Answer>, enabled: seq<Kind>) {
    forall k :: k in enabled <==>
      exists c: Connection, org :: c.enabled && Answer(org, k, Some(c)) in answers
  }

  lemma SweptFinds(before: seq<Answer>, after: seq<Answer>, org: Org, enabled: seq<Kind>)
    requires SweptFor(before, after, org, enabled)
    ensures FoundOn(after[|before|..], enabled)
  {
    hide EnabledIn, Sweep;
    var answers := after[|before|..];
    forall k ensures k in enabled <==> exists c: Connection, org :: c.enabled && Answer(org, k, Some(c)) in answers {
      if k in enabled {
        var a :| a in answers && a.kind == k && SwitchedOn(a);
        assert Answer(a.org, k, Some(a.connection.value)) in answers;
      }
      if c: Connection, org :| c.enabled && Answer(org, k, Some(c)) in answers {
        assert SwitchedOn(Answer(org, k, Some(c)));
      }
    }
  }

  /** A sweep under way. */
  ghost predicate Asked(found: seq<Answer>, org: Org, enabled: seq<Kind>) {
    && |found| <= |DESTINATION_KINDS|
    && (forall i :: 0 <= i < |found| ==> found[i].org == org && found[i].kind == DESTINATION_KINDS[i])
    && enabled == EnabledIn(found) && NoDuplicates(enabled)
  }

  lemma AskedNone(org: Org)
    ensures Asked([], org, [])
  {
  }

  lemma AskedNext(found: seq<Answer>, org: Org, enabled: seq<Kind>, a: Answer)
    requires Asked(found, org, enabled) && |found| < |DESTINATION_KINDS|
    requires a.org == org && a.kind == DESTINATION_KINDS[|found|]
    ensures Asked(found + [a], org, if a.connection.Some? && a.connection.value.enabled then enabled + [a.kind] else enabled)
  {
    assert (found + [a])[..|found|] == found;
    assert forall b :: b in found ==> b.kind != a.kind by {
      forall j | 0 <= j < |found| ensures found[j].kind != a.kind {
        assert DESTINATION_KINDS[j] != DESTINATION_KINDS[|found|];
      }
    }
    assert a.kind !in enabled;
    assert EnabledIn(found + [a]) == enabled + if SwitchedOn(a) then [a.kind] else [];
  }

  lemma AskedAll(before: seq<Answer>, found: seq<Answer>, org: Org, enabled: seq<Kind>)
    requires Asked(found, org, enabled) && |found| == |DESTINATION_KINDS|
    ensures SweptFor(before, before + found, org, enabled) && NoDuplicates(enabled)
  {
    assert (before + found)[|before|..] == found;
  }

  /** What external destinations hold. */
  class Outside {
    const journal: Journal
    /** Rows whose content left the platform, delivered or not. */
    ghost var handed: set<Row>
    ghost var accepted: set<(Row, Kind)>

    constructor (journal: Journal)
      ensures this.journal == journal && handed == {} && accepted == {}
    {
      this.journal := journal;
      handed, accepted := {}, {};
    }

    method Deliver(queue: CaptureQueue, org: Org, kind: Kind, batch: seq<Row>) returns (ok: bool)
      requires Elements(batch) <= queue.exported && Elements(batch) <= queue.everClaimed
      modifies this, journal`refusals
      ensures handed == old(handed) + Elements(batch)
      ensures old(accepted) <= accepted
      ensures ok ==> forall r :: r in batch ==> (r, kind) in accepted
      ensures journal.refusals == Noting(old(journal.refusals), org, !ok)
    {
      ok := *;
      handed := handed + Elements(batch);
      if ok {
        accepted := accepted + set r | r in batch :: (r, kind);
      } else {
        journal.refusals := journal.refusals + [org];
      }
    }
  }

  predicate AcceptedByAll(accepted: set<(Row, Kind)>, row: Row, enabled: seq<Kind>) {
    forall k :: k in enabled ==> (row, k) in accepted
  }

  /** Delivers one claimed batch everywhere; stops at the first refusal, and only
      a refusal stops it. */
  method ShipOrgRows(queue: CaptureQueue, connections: TraceConnections, outside: Outside,
                     org: Org, enabled: seq<Kind>, batch: seq<Row>)
    returns (ok: bool)
    requires Elements(batch) <= queue.exported && Elements(batch) <= queue.everClaimed
    requires connections.journal == outside.journal
    modifies outside, outside.journal`refusals
    ensures outside.handed <= old(outside.handed) + Elements(batch)
    ensures old(outside.accepted) <= outside.accepted
    ensures outside.journal.refusals == Noting(old(outside.journal.refusals), org, !ok)
    ensures ok ==> forall r :: r in batch ==> AcceptedByAll(outside.accepted, r, enabled)
  {
    var i := 0;
    while i < |enabled|
      invariant i <= |enabled|
      invariant outside.handed <= old(outside.handed) + Elements(batch)
      invariant old(outside.accepted) <= outside.accepted
      invariant outside.journal.refusals == old(outside.journal.refusals)
      invariant forall r :: r in batch ==> AcceptedByAll(outside.accepted, r, enabled[..i])
    {
      var released := connections.ReleaseCredential(org, enabled[i]);
      if !released {
        return false;
      }
      assert enabled[..i + 1] == enabled[..i] + [enabled[i]];
      ok := outside.Deliver(queue, org, enabled[i], batch);
      if !ok {
        return false;
      }
      i := i + 1;
    }
    assert enabled[..i] == enabled;
    return true;
  }

  // One organisation of a batch ----------------------------------------------

  datatype Outcome = Skipped | NothingClaimed | ShipFailed | Shipped

  /** Sweeps the connections, claims, ships. The claim takes every row if the
      organisation still consents and none otherwise; which of the four outcomes
      it is follows from the sweep, the claim and whether anything was refused. */
  method DrainOrg(queue: CaptureQueue, connections: TraceConnections, outside: Outside, org: Org, orgRows: seq<Row>)
    returns (outcome: Outcome, count: nat, ghost claimed: set<Row>, ghost enabled: seq<Kind>)
    requires NoDuplicates(orgRows)
    requires forall r :: r in orgRows ==> r !in queue.exported && r.orgId == org
    requires connections.journal == outside.journal
    modifies queue`consent, queue`exported, queue`everClaimed, queue`withdrawn, outside, outside.journal
    ensures SweptFor(old(outside.journal.answers), outside.journal.answers, org, enabled)
    ensures claimed == if org in queue.consent then Elements(orgRows) else {}
    ensures count == |claimed|
    ensures outcome.Skipped? <==> enabled == []
    ensures outcome.NothingClaimed? <==> enabled != [] && claimed == {}
    ensures outside.journal.refusals == Noting(old(outside.journal.refusals), org, outcome.ShipFailed?)
    ensures outcome.Shipped? ==> forall r :: r in claimed ==> AcceptedByAll(outside.accepted, r, enabled)
    ensures queue.exported == old(queue.exported) + if outcome.Shipped? || outcome.Skipped? then claimed else {}
    ensures queue.everClaimed == old(queue.everClaimed) + claimed
    ensures queue.withdrawn == old(queue.withdrawn) + Withheld(orgRows, queue.consent)
    ensures outside.handed <= old(outside.handed) + if enabled == [] then {} else claimed
    ensures old(outside.accepted) <= outside.accepted
  {
    hide *;
    var destinations := EnabledDestinations(connections, org);
    enabled := destinations;
    outcome, count, claimed := ClaimAndShip(queue, connections, outside, org, destinations, orgRows);
  }

  method ClaimAndShip(queue: CaptureQueue, connections: TraceConnections, outside: Outside,
                      org: Org, enabled: seq<Kind>, orgRows: seq<Row>)
    returns (outcome: Outcome, count: nat, ghost claimed: set<Row>)
    requires NoDuplicates(orgRows)
    requires forall r :: r in orgRows ==> r !in queue.exported && r.orgId == org
    requires connections.journal == outside.journal
    modifies queue`consent, queue`exported, queue`everClaimed, queue`withdrawn, outside, outside.journal`refusals
    ensures claimed == if org in queue.consent then Elements(orgRows) else {}
    ensures count == |claimed|
    ensures outcome.Skipped? <==> enabled == []
    ensures outcome.NothingClaimed? <==> enabled != [] && claimed == {}
    ensures outside.journal.refusals == Noting(old(outside.journal.refusals), org, outcome.ShipFailed?)
    ensures outcome.Shipped? ==> forall r :: r in claimed ==> AcceptedByAll(outside.accepted, r, enabled)
    ensures queue.exported == old(queue.exported) + if outcome.Shipped? || outcome.Skipped? then claimed else {}
    ensures queue.everClaimed == old(queue.everClaimed) + claimed
    ensures queue.withdrawn == old(queue.withdrawn) + Withheld(orgRows, queue.consent)
    ensures outside.handed <= old(outside.handed) + if enabled == [] then {} else claimed
    ensures old(outside.accepted) <= outside.accepted
  {
    hide *;
    var claimedRows := queue.MarkExported(orgRows);
    claimed, count := Elements(claimedRows), |claimedRows|;
    ElementsSize(claimedRows);
    ClaimOfOneOrg(orgRows, old(queue.exported), queue.consent, org);
    NothingNoted(outside.journal.refusals, org);
    if enabled == [] {
      outcome := Skipped;
    } else if claimedRows == [] {
      EmptyElements<Row>();
      outcome := NothingClaimed;
    } else {
      SomeElement(claimedRows);
      TakeBack(old(queue.exported), orgRows, claimed);
      var ok;
      ok, count := ShipClaimed(queue, connections, outside, org, enabled, orgRows, claimedRows);
      outcome := if ok then Shipped else ShipFailed;
    }
  }

  /** Ships the claimed rows of an organisation; a refusal releases the claim. */
  method ShipClaimed(queue: CaptureQueue, connections: TraceConnections, outside: Outside,
                     org: Org, enabled: seq<Kind>, orgRows: seq<Row>, claimedRows: seq<Row>)
    returns (ok: bool, count: nat)
    requires NoDuplicates(orgRows) && Elements(claimedRows) <= Elements(orgRows)
    requires Elements(claimedRows) <= queue.exported && Elements(claimedRows) <= queue.everClaimed
    requires connections.journal == outside.journal
    modifies queue`exported, outside, outside.journal`refusals
    ensures count == |Elements(claimedRows)|
    ensures queue.exported == old(queue.exported) - if ok then {} else Elements(claimedRows)
    ensures outside.journal.refusals == Noting(old(outside.journal.refusals), org, !ok)
    ensures outside.handed <= old(outside.handed) + Elements(claimedRows)
    ensures old(outside.accepted) <= outside.accepted
    ensures ok ==> forall r :: r in Elements(claimedRows) ==> AcceptedByAll(outside.accepted, r, enabled)
  {
    hide *;
    var shipRows := Among(orgRows, Elements(claimedRows));
    AmongAll(orgRows, Elements(claimedRows));
    ElementsSize(shipRows);
    ok := ShipOrgRows(queue, connections, outside, org, enabled, shipRows);
    if !ok {
      queue.UnmarkExported(claimedRows);
    }
    count := |shipRows|;
  }

  lemma NothingNoted(refusals: seq<Org>, org: Org)
    ensures Noting(refusals, org, false) == refusals
  {
  }

  lemma EmptyElements<T>()
    ensures Elements<T>([]) == {}
  {
  }

  lemma SomeElement<T>(s: seq<T>)
    requires s != []
    ensures Elements(s) != {}
  {
    assert s[0] in Elements(s);
  }

  lemma AmongAll(batch: seq<Row>, claimed: set<Row>)
    requires claimed <= Elements(batch)
    ensures Elements(Among(batch, claimed)) == claimed
    ensures forall r :: r in Among(batch, claimed) <==> r in claimed
  {
  }

  lemma TakeBack(exported: set<Row>, batch: seq<Row>, claimed: set<Row>)
    requires claimed <= Elements(batch) && forall r :: r in batch ==> r !in exported
    ensures exported + claimed - claimed == exported + {}
    ensures exported + claimed - {} == exported + claimed
  {
  }

  function OrgOf(row: Row): Org {
    row.orgId
  }

  // The books of a tick ------------------------------------------------------

  /** Which rows ended where, the organisations that failed in order, and the
      destinations read for each claimed row. */
  datatype Tally = Tally(
    shipped: set<Row>, skipped: set<Row>, failed: set<Row>, failures: seq<Org>, due: map<Row, seq<Kind>>)

  function Credit(t: Tally, outcome: Outcome, org: Org, claimed: set<Row>, enabled: seq<Kind>): Tally {
    var due := t.due + map r | r in claimed :: enabled;
    match outcome
    case Skipped => t.(skipped := t.skipped + claimed, due := due)
    case NothingClaimed => t
    case ShipFailed => t.(failed := t.failed + claimed, failures := t.failures + [org])
    case Shipped => t.(shipped := t.shipped + claimed, due := due)
  }

  /** The exported rows are those exported before plus, disjointly, the shipped
      and the skipped ones; failed rows are back in the queue. */
  ghost predicate Conserved(t: Tally, before: set<Row>, exported: set<Row>) {
    && exported == before + t.shipped + t.skipped
    && before !! t.shipped && before !! t.skipped && t.shipped !! t.skipped
    && t.failed !! exported
  }

  /** Shipped rows were accepted by every destination read for them, and there was
      one; skipped rows had none. */
  ghost predicate Delivered(t: Tally, accepted: set<(Row, Kind)>) {
    && (forall r :: r in t.shipped ==> r in t.due && t.due[r] != [] && AcceptedByAll(accepted, r, t.due[r]))
    && (forall r :: r in t.skipped ==> r in t.due && t.due[r] == [])
  }

  ghost predicate Extends(log: seq<Answer>, earlier: seq<Answer>) {
    |earlier| <= |log| && log[..|earlier|] == earlier
  }

  /** Some sweep for `org` from position `since` on found just these kinds. */
  ghost predicate ReadAs(answers: seq<Answer>, since: nat, org: Org, kinds: seq<Kind>) {
    exists p: nat :: since <= p <= |answers| - |DESTINATION_KINDS| && FoundAt(answers, p, org, kinds)
  }

  ghost predicate FoundAt(answers: seq<Answer>, p: nat, org: Org, kinds: seq<Kind>)
    requires p <= |answers| - |DESTINATION_KINDS|
  {
    var sweep := answers[p..p + |DESTINATION_KINDS|];
    Sweep(sweep, org) && kinds == EnabledIn(sweep)
  }

  /** Destinations noted beyond `was` are what a sweep for the row's own
      organisation found, from position `since` of the answers on. */
  ghost predicate Grounded(due: map<Row, seq<Kind>>, was: map<Row, seq<Kind>>, answers: seq<Answer>, since: nat) {
    forall r :: r in due ==> (r in was && due[r] == was[r]) || ReadAs(answers, since, r.orgId, due[r])
  }

  lemma SameSlice(log: seq<Answer>, more: seq<Answer>, p: nat, q: nat)
    requires p <= q <= |log| <= |more| && more[..|log|] == log
    ensures more[p..q] == log[p..q]
  {
    assert forall i :: p <= i < q ==> more[i] == more[..|log|][i];
  }

  lemma ReadAsKeeps(answers: seq<Answer>, since: nat, more: seq<Answer>, from: nat, org: Org, kinds: seq<Kind>)
    requires ReadAs(answers, since, org, kinds) && from <= since
    requires |answers| <= |more| && more[..|answers|] == answers
    ensures ReadAs(more, from, org, kinds)
  {
    hide EnabledIn, Sweep;
    var p: nat :| since <= p <= |answers| - |DESTINATION_KINDS| && FoundAt(answers, p, org, kinds);
    SameSlice(answers, more, p, p + |DESTINATION_KINDS|);
    assert FoundAt(more, p, org, kinds);
  }

  lemma CreditGrounds(t: Tally, was: map<Row, seq<Kind>>, start: seq<Answer>, answers: seq<Answer>, after: seq<Answer>,
                      outcome: Outcome, org: Org, claimed: set<Row>, enabled: seq<Kind>)
    requires Grounded(t.due, was, answers, |start|) && Extends(answers, start)
    requires SweptFor(answers, after, org, enabled)
    requires forall r :: r in claimed ==> r.orgId == org
    ensures Grounded(Credit(t, outcome, org, claimed, enabled).due, was, after, |start|)
  {
    var since := |start|;
    hide EnabledIn;
    var due := Credit(t, outcome, org, claimed, enabled).due;
    assert FoundAt(after, |answers|, org, enabled) by {
      assert after[|answers|..|answers| + |DESTINATION_KINDS|] == after[|answers|..];
    }
    hide FoundAt;
    assert ReadAs(after, since, org, enabled);
    forall r | r in due && !(r in was && due[r] == was[r]) ensures ReadAs(after, since, r.orgId, due[r]) {
      if r in t.due && due[r] == t.due[r] {
        ReadAsKeeps(answers, since, after, since, r.orgId, due[r]);
      }
    }
  }

  ghost predicate FailOnce(t: Tally, failedOrgs: set<Org>) {
    && NoDuplicates(t.failures) && Elements(t.failures) == failedOrgs
    && (forall r :: r in t.failed ==> r.orgId in failedOrgs)
  }

  predicate Counted(t: Tally, broadcast: nat, skipped: nat, failed: nat) {
    broadcast == |t.shipped| && skipped == |t.skipped| && failed == |t.failed|
  }

  lemma CreditConserves(t: Tally, before: set<Row>, exported: set<Row>, after: set<Row>,
                        outcome: Outcome, org: Org, claimed: set<Row>, enabled: seq<Kind>)
    requires Conserved(t, before, exported)
    requires claimed !! exported
    requires forall r :: r in t.failed ==> r !in claimed
    requires after == exported + if outcome.Shipped? || outcome.Skipped? then claimed else {}
    ensures Conserved(Credit(t, outcome, org, claimed, enabled), before, after)
  {
  }

  lemma CreditDelivers(t: Tally, before: set<Row>, exported: set<Row>, accepted: set<(Row, Kind)>, now: set<(Row, Kind)>,
                       outcome: Outcome, org: Org, claimed: set<Row>, enabled: seq<Kind>)
    requires Delivered(t, accepted) && accepted <= now
    requires Conserved(t, before, exported) && claimed !! exported
    requires outcome.Skipped? <==> enabled == []
    requires outcome.Shipped? ==> forall r :: r in claimed ==> AcceptedByAll(now, r, enabled)
    ensures Delivered(Credit(t, outcome, org, claimed, enabled), now)
  {
    var u := Credit(t, outcome, org, claimed, enabled);
    forall r | r in t.shipped ensures r in u.due && u.due[r] == t.due[r] && AcceptedByAll(now, r, t.due[r]) {
    }
    forall r | r in t.skipped ensures r in u.due && u.due[r] == t.due[r] {
    }
  }

  lemma CreditFailsOnce(t: Tally, failedOrgs: set<Org>, outcome: Outcome, org: Org, claimed: set<Row>, enabled: seq<Kind>)
    requires FailOnce(t, failedOrgs) && org !in failedOrgs
    requires forall r :: r in claimed ==> r.orgId == org
    ensures FailOnce(Credit(t, outcome, org, claimed, enabled), if outcome.ShipFailed? then failedOrgs + {org} else failedOrgs)
  {
    ElementsSnoc(t.failures, org);
  }

  lemma CreditCounts(t: Tally, before: set<Row>, exported: set<Row>, failedOrgs: set<Org>,
                     broadcast: nat, skipped: nat, failed: nat,
                     outcome: Outcome, org: Org, claimed: set<Row>, enabled: seq<Kind>)
    requires Counted(t, broadcast, skipped, failed)
    requires Conserved(t, before, exported) && claimed !! exported
    requires forall r :: r in t.failed ==> r !in claimed
    ensures Counted(Credit(t, outcome, org, claimed, enabled),
                    broadcast + if outcome.Shipped? then |claimed| else 0,
                    skipped + if outcome.Skipped? then |claimed| else 0,
                    failed + if outcome.ShipFailed? then |claimed| else 0)
  {
    DisjointSize(t.shipped, claimed);
    DisjointSize(t.skipped, claimed);
    DisjointSize(t.failed, claimed);
  }

  // Progress -----------------------------------------------------------------

  /** Rows a later fetch could still return: unstamped, of no failed organisation. */
  function Open(rows: set<Row>, exported: set<Row>, failedOrgs: set<Org>): set<Row> {
    set r | r in rows && r !in exported && r.orgId !in failedOrgs
  }

  /** A pass so far: it only touched the organisations `done`, and once anything
      moved, the open rows have shrunk. */
  ghost predicate Passed(rows: set<Row>, exported0: set<Row>, failedOrgs0: set<Org>,
                         exported: set<Row>, failedOrgs: set<Org>, done: set<Org>, moved: bool)
  {
    && exported0 <= exported && failedOrgs0 <= failedOrgs
    && (forall r :: r in exported && r !in exported0 ==> r.orgId in done)
    && failedOrgs <= failedOrgs0 + done
    && (if moved then Open(rows, exported, failedOrgs) != Open(rows, exported0, failedOrgs0)
        else exported == exported0 && failedOrgs == failedOrgs0)
  }

  lemma OpenShrinks(rows: set<Row>, exported0: set<Row>, failedOrgs0: set<Org>, exported: set<Row>, failedOrgs: set<Org>,
                    done: set<Org>)
    requires Passed(rows, exported0, failedOrgs0, exported, failedOrgs, done, true)
    ensures |Open(rows, exported, failedOrgs)| < |Open(rows, exported0, failedOrgs0)|
  {
    var was, left := Open(rows, exported0, failedOrgs0), Open(rows, exported, failedOrgs);
    assert left <= was;
    var r :| r in was && r !in left;
    SubsetSize(left, was - {r});
  }

  /** One organisation more: claiming a row, or failing with one, takes it out of
      the open rows for the rest of the tick. */
  lemma PassOne(rows: set<Row>, exported0: set<Row>, failedOrgs0: set<Org>, exported: set<Row>, failedOrgs: set<Org>,
                done: set<Org>, moved: bool, outcome: Outcome, org: Org, claimed: set<Row>,
                after: set<Row>, failedAfter: set<Org>)
    requires Passed(rows, exported0, failedOrgs0, exported, failedOrgs, done, moved)
    requires org !in done && org !in failedOrgs0
    requires forall r :: r in claimed ==> r in rows && r !in exported && r.orgId == org
    requires after == exported + if outcome.Shipped? || outcome.Skipped? then claimed else {}
    requires failedAfter == if outcome.ShipFailed? then failedOrgs + {org} else failedOrgs
    requires outcome.ShipFailed? ==> claimed != {}
    ensures Passed(rows, exported0, failedOrgs0, after, failedAfter, done + {org},
                   moved || outcome.ShipFailed? || (!outcome.NothingClaimed? && claimed != {}))
  {
    var was := Open(rows, exported0, failedOrgs0);
    if moved {
      assert Open(rows, exported, failedOrgs) <= was;
      var r :| r in was && r !in Open(rows, exported, failedOrgs);
      assert r !in Open(rows, after, failedAfter);
    } else if !outcome.NothingClaimed? && claimed != {} {
      var r :| r in claimed;
      assert r in was && r !in Open(rows, after, failedAfter);
    }
  }

  // The tick -----------------------------------------------------------------

  /** `time.monotonic()`. */
  class Clock {
    var last: int
    ghost var readings: nat

    constructor ()
      ensures readings == 0
    {
      readings := 0;
    }

    method Monotonic() returns (now: int)
      modifies this
      ensures now == last >= old(last)
      ensures readings == old(readings) + 1
    {
      now :| now >= last;
      last := now;
      readings := readings + 1;
    }
  }

  datatype Summary = Summary(broadcast: nat, skipped: nat, failed: nat)

  /** Nothing is left but what consent withholds or a failed organisation holds up. */
  ghost predicate Drained(rows: seq<Row>, exported: set<Row>, withheld: set<Org>, failedOrgs: set<Org>) {
    forall r :: r in rows ==> r in exported || r.orgId in withheld || r.orgId in failedOrgs
  }

  /** A whole batch was fetched under consent and then refused: its organisations
      withdrew in between. */
  ghost predicate Stalled(rows: seq<Row>, exported: set<Row>, withdrawn: set<Org>, failedOrgs: set<Org>) {
    exists batch: seq<Row> :: |batch| == BATCH_LIMIT && NoDuplicates(batch) &&
      forall r :: r in batch ==> r in rows && r !in exported && r.orgId in withdrawn && r.orgId !in failedOrgs
  }

  /** Every row of a batch is stamped, waits behind a failed organisation, or was
      refused for want of consent. */
  ghost predicate Handled(batch: seq<Row>, done: set<Org>, exported: set<Row>, failedOrgs: set<Org>, withdrawn: set<Org>) {
    forall r :: r in batch && r.orgId in done ==> r in exported || r.orgId in failedOrgs || r.orgId in withdrawn
  }

  /** The books, all together. */
  ghost predicate Accounts(t: Tally, before: set<Row>, exported: set<Row>, accepted: set<(Row, Kind)>,
                           failedOrgs: set<Org>, s: Summary)
  {
    Conserved(t, before, exported) && Delivered(t, accepted) && FailOnce(t, failedOrgs)
    && Counted(t, s.broadcast, s.skipped, s.failed)
  }

  function Added(s: Summary, outcome: Outcome, count: nat): Summary {
    match outcome
    case Skipped => s.(skipped := s.skipped + count)
    case NothingClaimed => s
    case ShipFailed => s.(failed := s.failed + count)
    case Shipped => s.(broadcast := s.broadcast + count)
  }

  lemma ClaimIsNew(t: Tally, exported: set<Row>, failedOrgs: set<Org>, org: Org, claimed: set<Row>)
    requires FailOnce(t, failedOrgs) && org !in failedOrgs
    requires forall r :: r in claimed ==> r !in exported && r.orgId == org
    ensures claimed !! exported
    ensures forall r :: r in claimed ==> r.orgId == org
    ensures forall r :: r in t.failed ==> r !in claimed
  {
  }

  lemma AccountOne(t: Tally, before: set<Row>, exported: set<Row>, accepted: set<(Row, Kind)>,
                   failedOrgs: set<Org>, s: Summary, outcome: Outcome, org: Org, claimed: set<Row>, enabled: seq<Kind>,
                   after: set<Row>, now: set<(Row, Kind)>, failedAfter: set<Org>)
    requires Accounts(t, before, exported, accepted, failedOrgs, s)
    requires org !in failedOrgs && accepted <= now
    requires forall r :: r in claimed ==> r !in exported && r.orgId == org
    requires after == exported + if outcome.Shipped? || outcome.Skipped? then claimed else {}
    requires failedAfter == if outcome.ShipFailed? then failedOrgs + {org} else failedOrgs
    requires outcome.Skipped? <==> enabled == []
    requires outcome.Shipped? ==> forall r :: r in claimed ==> AcceptedByAll(now, r, enabled)
    ensures Accounts(Credit(t, outcome, org, claimed, enabled), before, after, now, failedAfter,
                     Added(s, outcome, |claimed|))
  {
    hide Conserved, Delivered, FailOnce, Counted, AcceptedByAll, Credit;
    ClaimIsNew(t, exported, failedOrgs, org, claimed);
    CreditConserves(t, before, exported, after, outcome, org, claimed, enabled);
    CreditDelivers(t, before, exported, accepted, now, outcome, org, claimed, enabled);
    CreditFailsOnce(t, failedOrgs, outcome, org, claimed, enabled);
    CreditCounts(t, before, exported, failedOrgs, s.broadcast, s.skipped, s.failed, outcome, org, claimed, enabled);
  }

  lemma HandleOne(batch: seq<Row>, done: set<Org>, exported: set<Row>, failedOrgs: set<Org>, withdrawn: set<Org>,
                  outcome: Outcome, org: Org, orgRows: seq<Row>, consent: set<Org>, after: set<Row>, failedAfter: set<Org>)
    requires Handled(batch, done, exported, failedOrgs, withdrawn)
    requires forall r :: r in batch && r.orgId == org ==> r in orgRows
    requires forall r :: r in orgRows ==> r.orgId == org
    requires var claimed := if org in consent then Elements(orgRows) else {};
             && (outcome.NothingClaimed? ==> claimed == {})
             && after == exported + if outcome.Shipped? || outcome.Skipped? then claimed else {}
    requires failedAfter == if outcome.ShipFailed? then failedOrgs + {org} else failedOrgs
    ensures Handled(batch, done + {org}, after, failedAfter, withdrawn + Withheld(orgRows, consent))
  {
    forall r | r in batch && r.orgId == org
      ensures r in after || org in failedAfter || org in Withheld(orgRows, consent)
    {
      assert r in Elements(orgRows);
    }
  }

  lemma FetchedAll(rows: seq<Row>, exported0: set<Row>, failedOrgs0: set<Org>, consent: set<Org>, batch: seq<Row>,
                   done: set<Org>, exported: set<Row>, failedOrgs: set<Org>, withdrawn: set<Org>)
    requires batch == FirstOf(Eligible(rows, exported0, consent, failedOrgs0), BATCH_LIMIT) && |batch| < BATCH_LIMIT
    requires exported0 <= exported && failedOrgs0 <= failedOrgs
    requires Handled(batch, done, exported, failedOrgs, withdrawn) && forall r :: r in batch ==> r.orgId in done
    ensures Drained(rows, exported, Withheld(rows, consent) + withdrawn, failedOrgs)
  {
    assert batch == Eligible(rows, exported0, consent, failedOrgs0);
  }

  lemma NothingMoved(rows: seq<Row>, batch: seq<Row>, done: set<Org>, exported: set<Row>, failedOrgs: set<Org>, withdrawn: set<Org>)
    requires |batch| == BATCH_LIMIT && Fetched(Elements(rows), batch, exported, failedOrgs)
    requires Handled(batch, done, exported, failedOrgs, withdrawn) && forall r :: r in batch ==> r.orgId in done
    ensures Stalled(rows, exported, withdrawn, failedOrgs)
  {
    hide NoDuplicates;
  }

  ghost function OrgsOf(byOrg: Dict<Org, seq<Row>>, i: nat): set<Org>
    requires i <= |byOrg|
  {
    set e | e in byOrg[..i] :: e.0
  }

  lemma OrgsOfNext(byOrg: Dict<Org, seq<Row>>, i: nat)
    requires i < |byOrg| && Distinct(byOrg)
    ensures OrgsOf(byOrg, i + 1) == OrgsOf(byOrg, i) + {byOrg[i].0}
    ensures byOrg[i].0 !in OrgsOf(byOrg, i)
  {
    assert byOrg[..i + 1] == byOrg[..i] + [byOrg[i]];
  }

  /** The books against the journal: beyond what `was` noted, every destination
      comes from a sweep after `start`, and the refusals are the noted failures. */
  ghost predicate Kept(t: Tally, was: map<Row, seq<Kind>>, start: seq<Answer>, answers: seq<Answer>,
                       calm: seq<Org>, refusals: seq<Org>)
  {
    Extends(answers, start) && Grounded(t.due, was, answers, |start|) && refusals == calm + t.failures
  }

  lemma KeptOne(t: Tally, was: map<Row, seq<Kind>>, start: seq<Answer>, answers: seq<Answer>,
                calm: seq<Org>, refusals: seq<Org>, outcome: Outcome, org: Org, claimed: set<Row>, enabled: seq<Kind>,
                after: seq<Answer>, now: seq<Org>)
    requires Kept(t, was, start, answers, calm, refusals)
    requires SweptFor(answers, after, org, enabled) && now == Noting(refusals, org, outcome.ShipFailed?)
    requires forall r :: r in claimed ==> r.orgId == org
    ensures Kept(Credit(t, outcome, org, claimed, enabled), was, start, after, calm, now)
  {
    hide EnabledIn, Sweep, Grounded;
    CreditGrounds(t, was, start, answers, after, outcome, org, claimed, enabled);
    assert after[..|start|] == after[..|answers|][..|start|];
    assert calm + Credit(t, outcome, org, claimed, enabled).failures == Noting(calm + t.failures, org, outcome.ShipFailed?);
  }

  /** A fetched batch: distinct known rows, none stamped, none of a failed organisation. */
  ghost predicate Fetched(rows: set<Row>, batch: seq<Row>, exported: set<Row>, failedOrgs: set<Org>) {
    && NoDuplicates(batch)
    && (forall r :: r in batch ==> r in rows && r !in exported && r.orgId !in failedOrgs)
  }

  lemma FetchedEntry(rows: set<Row>, batch: seq<Row>, exported0: set<Row>, failedOrgs0: set<Org>,
                     byOrg: Dict<Org, seq<Row>>, i: nat, exported: set<Row>, failedOrgs: set<Org>, moved: bool)
    requires Fetched(rows, batch, exported0, failedOrgs0)
    requires byOrg == Grouped(batch, OrgOf) && i < |byOrg|
    requires Passed(rows, exported0, failedOrgs0, exported, failedOrgs, OrgsOf(byOrg, i), moved)
    ensures var org, orgRows := byOrg[i].0, byOrg[i].1;
            && NoDuplicates(orgRows) && Elements(orgRows) != {}
            && org !in failedOrgs && org !in failedOrgs0 && org !in OrgsOf(byOrg, i)
            && (forall r :: r in orgRows ==> r in rows && r !in exported && r.orgId == org)
            && (forall r :: r in batch && r.orgId == org ==> r in orgRows)
  {
    GroupEntry(batch, OrgOf, i);
    GroupedHolds(batch, OrgOf, byOrg[i].0);
    OrgsOfNext(byOrg, i);
    SomeElement(byOrg[i].1);
    assert byOrg[i].1[0] in byOrg[i].1;
    hide Grouped, Group, Distinct, OrgsOf, Open, NoDuplicates;
  }

  lemma StartPass(rows: set<Row>, exported: set<Row>, failedOrgs: set<Org>, batch: seq<Row>, byOrg: Dict<Org, seq<Row>>)
    ensures OrgsOf(byOrg, 0) == {}
    ensures Passed(rows, exported, failedOrgs, exported, failedOrgs, {}, false)
    ensures forall withdrawn :: Handled(batch, {}, exported, failedOrgs, withdrawn)
  {
  }

  lemma ClaimedOf(orgRows: seq<Row>, claimed: set<Row>, rows: set<Row>, exported: set<Row>, org: Org, consented: bool)
    requires claimed == if consented then Elements(orgRows) else {}
    requires forall r :: r in orgRows ==> r in rows && r !in exported && r.orgId == org
    ensures forall r :: r in claimed ==> r in rows && r !in exported && r.orgId == org
    ensures consented ==> forall r :: r in orgRows ==> r in claimed
  {
  }

  /** One pass over a fetched batch, an organisation at a time, each with a sweep
      of its own connections. */
  method DrainBatch(queue: CaptureQueue, connections: TraceConnections, outside: Outside,
                    ghost batch: seq<Row>, byOrg: Dict<Org, seq<Row>>, summary: Summary, failedOrgs: set<Org>,
                    ghost tally: Tally, ghost before: set<Row>, ghost calm: seq<Org>)
    returns (counts: Summary, failing: set<Org>, progressed: nat, newlyFailed: bool, ghost books: Tally)
    requires Fetched(Elements(queue.rows), batch, queue.exported, failedOrgs)
    requires byOrg == Grouped(batch, OrgOf)
    requires Accounts(tally, before, queue.exported, outside.accepted, failedOrgs, summary)
    requires outside.handed <= queue.everClaimed
    requires connections.journal == outside.journal
    requires outside.journal.refusals == calm + tally.failures
    modifies queue`consent, queue`exported, queue`everClaimed, queue`withdrawn, outside, outside.journal
    ensures Accounts(books, before, queue.exported, outside.accepted, failing, counts)
    ensures Kept(books, tally.due, old(outside.journal.answers), outside.journal.answers, calm, outside.journal.refusals)
    ensures outside.handed <= queue.everClaimed
    ensures Passed(Elements(queue.rows), old(queue.exported), failedOrgs, queue.exported, failing,
                   OrgsOf(byOrg, |byOrg|), progressed > 0 || newlyFailed)
    ensures Handled(batch, OrgsOf(byOrg, |byOrg|), queue.exported, failing, queue.withdrawn)
  {
    hide *;
    counts, failing, progressed, newlyFailed, books := summary, failedOrgs, 0, false, tally;
    ghost var rows, exported0 := Elements(queue.rows), queue.exported;
    ghost var journal := outside.journal;
    ghost var answers0 := journal.answers;
    KeptNothing(tally, answers0, calm);
    StartPass(rows, exported0, failedOrgs, batch, byOrg);
    var i := 0;
    while i < |byOrg|
      invariant i <= |byOrg|
      invariant Accounts(books, before, queue.exported, outside.accepted, failing, counts)
      invariant Kept(books, tally.due, answers0, journal.answers, calm, journal.refusals)
      invariant outside.handed <= queue.everClaimed
      invariant Passed(rows, exported0, failedOrgs, queue.exported, failing, OrgsOf(byOrg, i), progressed > 0 || newlyFailed)
      invariant Handled(batch, OrgsOf(byOrg, i), queue.exported, failing, queue.withdrawn)
    {
      var org, orgRows := byOrg[i].0, byOrg[i].1;
      ghost var exported, accepted, was := queue.exported, outside.accepted, failing;
      ghost var moved := progressed > 0 || newlyFailed;
      ghost var answers, refusals, withdrawn := journal.answers, journal.refusals, queue.withdrawn;
      FetchedEntry(rows, batch, exported0, failedOrgs, byOrg, i, exported, was, moved);
      GroupedHolds(batch, OrgOf, org);
      OrgsOfNext(byOrg, i);
      ghost var claimed, enabled;
      var outcome, count;
      outcome, count, claimed, enabled := DrainOrg(queue, connections, outside, org, orgRows);
      ghost var earlier := counts;
      counts := Added(counts, outcome, count);
      match outcome {
        case Skipped =>
          progressed := progressed + count;
        case NothingClaimed =>
        case ShipFailed =>
          failing := failing + {org};
          newlyFailed := true;
        case Shipped =>
          progressed := progressed + count;
      }
      ClaimedOf(orgRows, claimed, rows, exported, org, org in queue.consent);
      AccountOne(books, before, exported, accepted, was, earlier, outcome, org, claimed, enabled,
                 queue.exported, outside.accepted, failing);
      PassOne(rows, exported0, failedOrgs, exported, was, OrgsOf(byOrg, i), moved, outcome, org, claimed,
              queue.exported, failing);
      HandleOne(batch, OrgsOf(byOrg, i), exported, was, withdrawn, outcome, org, orgRows, queue.consent, queue.exported, failing);
      KeptOne(books, tally.due, answers0, answers, calm, refusals, outcome, org, claimed, enabled, journal.answers, journal.refusals);
      books := Credit(books, outcome, org, claimed, enabled);
      assert (moved || outcome.ShipFailed? || (!outcome.NothingClaimed? && claimed != {})) == (progressed > 0 || newlyFailed);
      i := i + 1;
    }
  }

  lemma FetchIsClean(rows: seq<Row>, exported: set<Row>, consent: set<Org>, failedOrgs: set<Org>, batch: seq<Row>)
    requires NoDuplicates(rows)
    requires batch == FirstOf(Eligible(rows, exported, consent, failedOrgs), BATCH_LIMIT)
    ensures Fetched(Elements(rows), batch, exported, failedOrgs)
  {
    var all := Eligible(rows, exported, consent, failedOrgs);
    assert forall r :: r in batch ==> r in all;
  }

  lemma NothingFetched(rows: seq<Row>, exported: set<Row>, consent: set<Org>, failedOrgs: set<Org>)
    requires FirstOf(Eligible(rows, exported, consent, failedOrgs), BATCH_LIMIT) == []
    ensures Drained(rows, exported, Withheld(rows, consent), failedOrgs)
  {
  }

  lemma MoreWithheld(rows: seq<Row>, exported: set<Row>, absent: set<Org>, withdrawn: set<Org>, failedOrgs: set<Org>)
    requires Drained(rows, exported, absent, failedOrgs)
    ensures Drained(rows, exported, absent + withdrawn, failedOrgs)
  {
  }

  lemma FetchLimit(rows: seq<Row>, exported: set<Row>, consent: set<Org>, failedOrgs: set<Org>, batch: seq<Row>)
    requires batch == FirstOf(Eligible(rows, exported, consent, failedOrgs), BATCH_LIMIT)
    ensures |batch| <= BATCH_LIMIT
  {
  }

  lemma PassStood(rows: set<Row>, exported0: set<Row>, failedOrgs0: set<Org>, exported: set<Row>, failedOrgs: set<Org>, done: set<Org>)
    requires Passed(rows, exported0, failedOrgs0, exported, failedOrgs, done, false)
    ensures exported == exported0 && failedOrgs == failedOrgs0
  {
  }

  lemma RowIsGrouped(batch: seq<Row>, byOrg: Dict<Org, seq<Row>>, r: Row)
    requires byOrg == Grouped(batch, OrgOf) && r in batch
    ensures r.orgId in OrgsOf(byOrg, |byOrg|)
  {
    var i := InSomeGroup(batch, OrgOf, r);
    hide Grouped;
    assert byOrg[i] in byOrg[..|byOrg|];
  }

  /** Every row of the batch belongs to a processed organisation. */
  lemma AllGrouped(batch: seq<Row>, byOrg: Dict<Org, seq<Row>>)
    requires byOrg == Grouped(batch, OrgOf)
    ensures forall r :: r in batch ==> r.orgId in OrgsOf(byOrg, |byOrg|)
  {
    hide *;
    forall r | r in batch ensures r.orgId in OrgsOf(byOrg, |byOrg|) {
      RowIsGrouped(batch, byOrg, r);
    }
  }

  lemma SomeGroup(batch: seq<Row>, byOrg: Dict<Org, seq<Row>>)
    requires batch != [] && forall r :: r in batch ==> r.orgId in OrgsOf(byOrg, |byOrg|)
    ensures byOrg != []
  {
    assert batch[0] in batch;
  }

  lemma KeptChain(t: Tally, was: Tally, start: seq<Answer>, answers: seq<Answer>, more: seq<Answer>,
                  calm: seq<Org>, refusals: seq<Org>, now: seq<Org>)
    requires Kept(was, map[], start, answers, calm, refusals) && Kept(t, was.due, answers, more, calm, now)
    ensures Kept(t, map[], start, more, calm, now) && now == calm + t.failures
  {
    hide ReadAs;
    assert more[..|start|] == more[..|answers|][..|start|];
    forall r | r in t.due ensures ReadAs(more, |start|, r.orgId, t.due[r]) {
      if r in was.due && t.due[r] == was.due[r] {
        ReadAsKeeps(answers, |start|, more, |start|, r.orgId, t.due[r]);
      } else {
        ReadAsKeeps(more, |answers|, more, |start|, r.orgId, t.due[r]);
      }
    }
  }

  lemma KeptNothing(t: Tally, answers: seq<Answer>, calm: seq<Org>)
    ensures Kept(t, t.due, answers, answers, calm, calm + t.failures)
  {
    assert answers[..|answers|] == answers;
  }

  lemma NoBooks(exported: set<Row>, accepted: set<(Row, Kind)>)
    ensures Accounts(Tally({}, {}, {}, [], map[]), exported, exported, accepted, {}, Summary(0, 0, 0))
  {
  }

  lemma PassFacts(rows: set<Row>, exported0: set<Row>, failedOrgs0: set<Org>, exported: set<Row>, failedOrgs: set<Org>,
                  done: set<Org>, moved: bool)
    requires Passed(rows, exported0, failedOrgs0, exported, failedOrgs, done, moved)
    ensures exported0 <= exported && failedOrgs0 <= failedOrgs
    ensures |Open(rows, exported, failedOrgs)| <= |Open(rows, exported0, failedOrgs0)| - if moved then 1 else 0
  {
    SubsetSize(Open(rows, exported, failedOrgs), Open(rows, exported0, failedOrgs0));
    if moved {
      OpenShrinks(rows, exported0, failedOrgs0, exported, failedOrgs, done);
    }
  }

  /** One tick. It ends even if the clock stands still, because a pass that goes
      on has shrunk the open rows; the books balance however it ends, against what
      the connections answered and what was refused; and what was sent out had been
      claimed under consent. It times out only when the budget is spent, with one
      look at the clock a pass. If the budget lasts, the queue is drained but for
      the failed organisations and what consent withholds, unless a whole batch was
      withdrawn between its fetch and its claims. */
  method RunBroadcast(queue: CaptureQueue, connections: TraceConnections, outside: Outside, clock: Clock, budget: nat)
    returns (summary: Summary, ghost tally: Tally, ghost failedOrgs: set<Org>, ghost timedOut: bool)
    requires NoDuplicates(queue.rows) && outside.handed <= queue.everClaimed
    requires connections.journal == outside.journal
    modifies queue`consent, queue`exported, queue`everClaimed, queue`fetches, queue`absent, queue`withdrawn, outside, outside.journal, clock
    ensures Accounts(tally, old(queue.exported), queue.exported, outside.accepted, failedOrgs, summary)
    ensures Kept(tally, map[], old(outside.journal.answers), outside.journal.answers,
                 old(outside.journal.refusals), outside.journal.refusals)
    ensures outside.handed <= queue.everClaimed
    ensures queue.fetches - old(queue.fetches)
            <= |Open(Elements(queue.rows), old(queue.exported), {})| - |Open(Elements(queue.rows), queue.exported, failedOrgs)|
               + if timedOut then 0 else 1
    ensures timedOut ==> clock.last >= old(clock.last) + budget
    ensures clock.readings - old(clock.readings) == queue.fetches - old(queue.fetches) + if timedOut then 2 else 1
    ensures !timedOut ==> queue.fetches > old(queue.fetches)
    ensures !timedOut ==> Drained(queue.rows, queue.exported, queue.absent + queue.withdrawn, failedOrgs)
                          || Stalled(queue.rows, queue.exported, queue.withdrawn, failedOrgs)
  {
    hide *;
    queue.withdrawn := {};
    var now := clock.Monotonic();
    var deadline := now + budget;
    var failing: set<Org> := {};
    summary, failing, tally, timedOut := Summary(0, 0, 0), {}, Tally({}, {}, {}, [], map[]), true;
    ghost var rows, journal := Elements(queue.rows), outside.journal;
    ghost var answers0, calm, fetches0 := journal.answers, journal.refusals, queue.fetches;
    NoBooks(queue.exported, outside.accepted);
    KeptNothing(tally, answers0, calm);
    assert calm + [] == calm;
    now := clock.Monotonic();
    while now < deadline
      invariant Accounts(tally, old(queue.exported), queue.exported, outside.accepted, failing, summary)
      invariant Kept(tally, map[], answers0, journal.answers, calm, journal.refusals)
      invariant journal.refusals == calm + tally.failures
      invariant outside.handed <= queue.everClaimed
      invariant timedOut && now == clock.last && deadline >= old(clock.last) + budget
      invariant clock.readings == old(clock.readings) + 2 + queue.fetches - fetches0
      invariant fetches0 <= queue.fetches
      invariant queue.fetches - fetches0 <= |Open(rows, old(queue.exported), {})| - |Open(rows, queue.exported, failing)|
      decreases |Open(rows, queue.exported, failing)|
    {
      var batch := queue.ToExport(BATCH_LIMIT, failing);
      ghost var exported0, failing0, consent := queue.exported, failing, queue.consent;
      if batch == [] {
        NothingFetched(queue.rows, exported0, consent, failing0);
        MoreWithheld(queue.rows, exported0, queue.absent, queue.withdrawn, failing0);
        timedOut := false;
        break;
      }
      FetchIsClean(queue.rows, exported0, consent, failing0, batch);
      var byOrg := GroupBy(batch, OrgOf);
      AllGrouped(batch, byOrg);
      SomeGroup(batch, byOrg);
      ghost var answers, refusals, was := journal.answers, journal.refusals, tally;
      var progressed, newlyFailed;
      summary, failing, progressed, newlyFailed, tally :=
        DrainBatch(queue, connections, outside, batch, byOrg, summary, failing, tally, old(queue.exported), calm);
      KeptChain(tally, was, answers0, answers, journal.answers, calm, refusals, journal.refusals);
      PassFacts(rows, exported0, failing0, queue.exported, failing, OrgsOf(byOrg, |byOrg|), progressed > 0 || newlyFailed);
      if |batch| < BATCH_LIMIT || (progressed == 0 && !newlyFailed) {
        if |batch| < BATCH_LIMIT {
          FetchedAll(queue.rows, exported0, failing0, consent, batch, OrgsOf(byOrg, |byOrg|), queue.exported, failing, queue.withdrawn);
        } else {
          PassStood(rows, exported0, failing0, queue.exported, failing, OrgsOf(byOrg, |byOrg|));
          FetchLimit(queue.rows, exported0, consent, failing0, batch);
          NothingMoved(queue.rows, batch, OrgsOf(byOrg, |byOrg|), queue.exported, failing, queue.withdrawn);
        }
        timedOut := false;
        break;
      }
      now := clock.Monotonic();
    }
    failedOrgs := failing;
  }

  /** A sweep for the row's own organisation, from position `since` on: every kind
      it found switched on has accepted the row. */
  ghost predicate Served(r: Row, answers: seq<Answer>, since: nat, accepted: set<(Row, Kind)>, somewhere: bool) {
    exists p: nat, kinds :: since <= p <= |answers| - |DESTINATION_KINDS| && FoundAt(answers, p, r.orgId, kinds)
      && AcceptedByAll(accepted, r, kinds) && (somewhere <==> kinds != [])
  }

  /** What balanced books say, spelled out: the newly stamped rows number broadcast
      plus skipped; a newly stamped row was accepted by every destination a sweep of
      this tick found switched on for its organisation, and it counts as broadcast if
      there was one; failed rows are back in the queue; no organisation failed twice. */
  lemma BalancedBooks(t: Tally, before: set<Row>, exported: set<Row>, accepted: set<(Row, Kind)>,
                      failedOrgs: set<Org>, s: Summary, start: seq<Answer>, answers: seq<Answer>,
                      calm: seq<Org>, refusals: seq<Org>)
    requires Accounts(t, before, exported, accepted, failedOrgs, s)
    requires Kept(t, map[], start, answers, calm, refusals)
    ensures before <= exported && |exported - before| == s.broadcast + s.skipped
    ensures exists shipped :: shipped <= exported - before && |shipped| == s.broadcast
              && forall r :: r in exported - before ==> Served(r, answers, |start|, accepted, r in shipped)
    ensures |t.failed| == s.failed && t.failed !! exported && (forall r :: r in t.failed ==> r.orgId in failedOrgs)
    ensures refusals[|calm|..] == t.failures && |t.failures| == |failedOrgs| && Elements(t.failures) == failedOrgs
  {
    NewlyStamped(t, before, exported);
    DisjointSize(t.shipped, t.skipped);
    ElementsSize(t.failures);
    forall r | r in exported - before ensures Served(r, answers, |start|, accepted, r in t.shipped) {
      hide NoDuplicates, FoundAt, Counted, FailOnce;
      ServedAsDue(t, r, answers, |start|, accepted);
    }
    hide AcceptedByAll, NoDuplicates, FoundAt, Served, Grounded;
  }

  lemma ServedAsDue(t: Tally, r: Row, answers: seq<Answer>, since: nat, accepted: set<(Row, Kind)>)
    requires Delivered(t, accepted) && Grounded(t.due, map[], answers, since)
    requires r in t.shipped + t.skipped && !(r in t.shipped && r in t.skipped)
    ensures Served(r, answers, since, accepted, r in t.shipped)
  {
    hide FoundAt, AcceptedByAll;
    var p: nat :| since <= p <= |answers| - |DESTINATION_KINDS| && FoundAt(answers, p, r.orgId, t.due[r]);
    NoneAccepts(accepted, r);
  }

  lemma NoneAccepts(accepted: set<(Row, Kind)>, r: Row)
    ensures AcceptedByAll(accepted, r, [])
  {
  }

  lemma NewlyStamped(t: Tally, before: set<Row>, exported: set<Row>)
    requires Conserved(t, before, exported)
    ensures exported - before == t.shipped + t.skipped
  {
  }
}

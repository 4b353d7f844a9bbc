/** Who may use which alias: the rows behind authorization, and the two queries
    over them, the live one per request and the listing. */
module AliasAuthority {
  import opened Prelude

  type KeyHash = nat
  type Org = nat
  type Identity = nat
  type AliasId = nat
  type RevisionId = nat

  datatype KeyRow = KeyRow(
    id: nat, org: Org, revokedAt: Option<int>, expiresAt: Option<int>, identity: Option<Identity>, captures: bool)

  /** `org` is None for the public namespace. */
  datatype AliasRow = AliasRow(aliasId: AliasId, name: string, org: Option<Org>, active: bool, revision: Option<RevisionId>)

  /** A stored target document, as far as a request reads it. */
  datatype Document = Direct(pool: string) | Project(project: string, activation: string, catalog: string) | Unreadable

  datatype Revision = Revision(target: Document, catalogSha256: string, refusalFailover: bool)

  datatype Db = Db(
    keys: map<KeyHash, KeyRow>,
    aliases: set<AliasRow>,
    revisions: map<RevisionId, Revision>,
    grants: set<(AliasId, Identity)>)
  {
    /** The schema's own constraints: alias ids are a key, names are unique per
        namespace, and a current revision refers to a stored one. */
    predicate Valid() {
      && (forall a, b :: a in aliases && b in aliases && a.aliasId == b.aliasId ==> a == b)
      && (forall a, b :: a in aliases && b in aliases && a.name == b.name && a.org == b.org ==> a == b)
      && (forall a :: a in aliases && a.revision.Some? ==> a.revision.value in revisions)
    }
  }

  // Authentication -----------------------------------------------------------

  datatype Authority = Authority(apiKey: nat, org: Org, identity: Option<Identity>, captures: bool)

  function Authenticate(db: Db, key: KeyHash, wall: int): Option<Authority> {
    if key !in db.keys then None
    else
      var row := db.keys[key];
      if row.revokedAt.Some? || (row.expiresAt.Some? && row.expiresAt.value <= wall) then None
      else Some(Authority(row.id, row.org, row.identity, row.captures))
  }

  // Names --------------------------------------------------------------------

  predicate LowerAlnum(c: char) {
    'a' <= c <= 'z' || '0' <= c <= '9'
  }

  predicate Separator(c: char) {
    c == '.' || c == '_' || c == '-'
  }

  /** `^[a-z][a-z0-9]*(?:[._-][a-z0-9]+)*$`, at most 128 long. */
  predicate WellFormed(name: string) {
    && 0 < |name| <= 128
    && 'a' <= name[0] <= 'z'
    && (forall i :: 0 <= i < |name| ==> LowerAlnum(name[i]) || Separator(name[i]))
    && (forall i :: 0 <= i < |name| && Separator(name[i]) ==> i + 1 < |name| && LowerAlnum(name[i + 1]))
  }

  /** The grammar the pattern stands for: words of lower-case letters and digits, the
      first led by a letter, joined by single separators. */
  predicate IsWord(word: string) {
    word != [] && forall c :: c in word ==> 'a' <= c <= 'z' || '0' <= c <= '9'
  }

  ghost predicate IsTail(tail: seq<(char, string)>) {
    forall t :: t in tail ==> t.0 in {'.', '_', '-'} && IsWord(t.1)
  }

  function Spelled(first: string, tail: seq<(char, string)>): string {
    if tail == [] then first
    else Spelled(first, tail[..|tail| - 1]) + [tail[|tail| - 1].0] + tail[|tail| - 1].1
  }

  lemma {:induction false} SpelledIsWellFormed(first: string, tail: seq<(char, string)>)
    requires IsWord(first) && 'a' <= first[0] <= 'z' && IsTail(tail) && |Spelled(first, tail)| <= 128
    ensures WellFormed(Spelled(first, tail))
    ensures LowerAlnum(Spelled(first, tail)[|Spelled(first, tail)| - 1])
  {
    if tail == [] {
      assert forall i :: 0 <= i < |first| ==> first[i] in first;
    } else {
      var n := |tail| - 1;
      var front := Spelled(first, tail[..n]);
      var (sep, word) := tail[n];
      assert tail[n] in tail && forall t :: t in tail[..n] ==> t in tail;
      SpelledIsWellFormed(first, tail[..n]);
      assert forall i :: 0 <= i < |word| ==> word[i] in word;
      var name := front + [sep] + word;
      forall i | 0 <= i < |name| && Separator(name[i]) ensures i + 1 < |name| && LowerAlnum(name[i + 1]) {
        if i < |front| {
          assert name[i] == front[i] && i + 1 < |front|;
        } else {
          assert i == |front| && name[i + 1] == word[0];
        }
      }
    }
  }

  lemma {:induction false} WellFormedIsSpelled(name: string) returns (first: string, tail: seq<(char, string)>)
    requires WellFormed(name)
    ensures IsWord(first) && 'a' <= first[0] <= 'z' && IsTail(tail) && Spelled(first, tail) == name
    decreases |name|
  {
    var n := |name| - 1;
    assert LowerAlnum(name[n]);
    if n == 0 {
      first, tail := name, [];
    } else if Separator(name[n - 1]) {
      var front := name[..n - 1];
      assert n >= 2;
      forall i | 0 <= i < |front| && Separator(front[i]) ensures i + 1 < |front| && LowerAlnum(front[i + 1]) {
        assert Separator(name[i]) && LowerAlnum(name[i + 1]);
      }
      first, tail := WellFormedIsSpelled(front);
      var last := (name[n - 1], [name[n]]);
      assert name == front + [last.0] + last.1;
      assert (tail + [last])[..|tail|] == tail;
      tail := tail + [last];
    } else {
      var front := name[..n];
      first, tail := WellFormedIsSpelled(front);
      assert name == front + [name[n]];
      if tail == [] {
        first := name;
      } else {
        var k := |tail| - 1;
        var (sep, word) := tail[k];
        assert tail[k] in tail;
        var longer := tail[..k] + [(sep, word + [name[n]])];
        assert longer[..k] == tail[..k];
        assert Spelled(first, longer) == Spelled(first, tail[..k]) + [sep] + (word + [name[n]]);
        forall t | t in longer ensures t.0 in {'.', '_', '-'} && IsWord(t.1) {
          assert t in tail || t == (sep, word + [name[n]]);
        }
        tail := longer;
      }
    }
  }

  /** A name is well formed exactly when it is so spelled, in at most 128 characters. */
  lemma WellFormedExactly(name: string)
    ensures WellFormed(name)
       <==> |name| <= 128 && exists first, tail :: IsWord(first) && 'a' <= first[0] <= 'z' && IsTail(tail) && name == Spelled(first, tail)
  {
    if WellFormed(name) {
      var first, tail := WellFormedIsSpelled(name);
    }
    forall first, tail | IsWord(first) && 'a' <= first[0] <= 'z' && IsTail(tail) && name == Spelled(first, tail) && |name| <= 128
      ensures WellFormed(name)
    {
      SpelledIsWellFormed(first, tail);
    }
  }

  // The live query -----------------------------------------------------------

  /** What one authorization carries. */
  datatype Resolution = Resolution(revision: RevisionId, target: Document, catalogSha256: string, refusalFailover: bool)

  datatype Answer = Answer(resolution: Resolution, isPublic: bool)

  function Candidates(db: Db, org: Org, name: string): set<AliasRow> {
    set a | a in db.aliases && a.name == name && a.active && (a.org.None? || a.org == Some(org))
  }

  /** `order by (org_id is not null) desc limit 1`. */
  ghost predicate IsFirst(row: AliasRow, candidates: set<AliasRow>) {
    row in candidates && (row.org.Some? || forall a :: a in candidates ==> a.org.None?)
  }

  lemma FirstIsUnique(db: Db, org: Org, name: string, candidates: set<AliasRow>, a: AliasRow, b: AliasRow)
    requires db.Valid() && candidates <= Candidates(db, org, name) && IsFirst(a, candidates) && IsFirst(b, candidates)
    ensures a == b
  {
  }

  ghost function First(candidates: set<AliasRow>): (row: Option<AliasRow>)
    ensures row.None? <==> candidates == {}
    ensures row.Some? ==> IsFirst(row.value, candidates)
  {
    if candidates == {} then None
    else if exists a :: a in candidates && a.org.Some? then
      var a :| a in candidates && a.org.Some?;
      Some(a)
    else
      var a :| a in candidates;
      Some(a)
  }

  ghost predicate Usable(db: Db, row: AliasRow, identity: Identity) {
    row.org.None? || (row.aliasId, identity) in db.grants
  }

  /** The effective row's authorization: org row before public row, then the join
      with its revision, then public or granted. */
  ghost function Resolve(db: Db, org: Org, identity: Identity, name: string): Option<Answer> {
    var row := First(Candidates(db, org, name));
    if row.None? || row.value.revision.None? || row.value.revision.value !in db.revisions
       || !Usable(db, row.value, identity)
    then None
    else
      var revision := db.revisions[row.value.revision.value];
      Some(Answer(Resolution(row.value.revision.value, revision.target, revision.catalogSha256, revision.refusalFailover),
                  row.value.org.None?))
  }

  /** No key may be used that is unknown, revoked or expired. */
  predicate Refused(db: Db, key: KeyHash, wall: int) {
    || key !in db.keys
    || db.keys[key].revokedAt.Some?
    || (db.keys[key].expiresAt.Some? && db.keys[key].expiresAt.value <= wall)
  }

  /** An authority is a usable key's own row, and nothing else refuses a key. */
  lemma AuthorityIsRow(db: Db, key: KeyHash, wall: int)
    ensures Authenticate(db, key, wall).None? <==> Refused(db, key, wall)
    ensures Authenticate(db, key, wall).Some? ==>
              var a := Authenticate(db, key, wall).value;
              var row := db.keys[key];
              a.apiKey == row.id && a.org == row.org && a.identity == row.identity && a.captures == row.captures
  {
  }

  /** The row that answers for a name: the org's own active row, or the active public
      one where the org has none. */
  ghost predicate Answers(db: Db, org: Org, name: string, row: AliasRow) {
    && row in db.aliases && row.active && row.name == name
    && (row.org == Some(org)
        || (row.org.None? && forall a :: a in db.aliases && a.active && a.name == name ==> a.org != Some(org)))
  }

  /** What a caller is given: the answering row's own revision, where it is public or
      granted to the identity. */
  ghost predicate Gives(db: Db, org: Org, identity: Identity, name: string, answer: Answer) {
    exists row ::
      && Answers(db, org, name, row)
      && answer.isPublic == row.org.None? && (row.org.Some? ==> (row.aliasId, identity) in db.grants)
      && row.revision == Some(answer.resolution.revision) && answer.resolution.revision in db.revisions
      && var revision := db.revisions[answer.resolution.revision];
         && answer.resolution.target == revision.target && answer.resolution.catalogSha256 == revision.catalogSha256
         && answer.resolution.refusalFailover == revision.refusalFailover
  }

  lemma AnswersIsFirst(db: Db, org: Org, name: string, row: AliasRow)
    requires db.Valid()
    ensures Answers(db, org, name, row) <==> First(Candidates(db, org, name)) == Some(row)
  {
    var candidates := Candidates(db, org, name);
    if Answers(db, org, name, row) {
      assert IsFirst(row, candidates);
      FirstIs(db, org, name, candidates, row);
    }
    if First(candidates) == Some(row) && row.org.None? {
      forall a | a in db.aliases && a.active && a.name == name ensures a.org != Some(org) {
        assert a.org == Some(org) ==> a in candidates;
      }
    }
  }

  /** The live query answers exactly what the rows give. */
  lemma ResolveExactly(db: Db, org: Org, identity: Identity, name: string, answer: Answer)
    requires db.Valid()
    ensures Resolve(db, org, identity, name) == Some(answer) <==> Gives(db, org, identity, name, answer)
  {
    hide First, Answers, Candidates;
    if Resolve(db, org, identity, name) == Some(answer) {
      AnswersIsFirst(db, org, name, First(Candidates(db, org, name)).value);
    }
    if Gives(db, org, identity, name, answer) {
      var row :|
        && Answers(db, org, name, row)
        && answer.isPublic == row.org.None? && (row.org.Some? ==> (row.aliasId, identity) in db.grants)
        && row.revision == Some(answer.resolution.revision) && answer.resolution.revision in db.revisions
        && var revision := db.revisions[answer.resolution.revision];
           && answer.resolution.target == revision.target && answer.resolution.catalogSha256 == revision.catalogSha256
           && answer.resolution.refusalFailover == revision.refusalFailover;
      AnswersIsFirst(db, org, name, row);
    }
  }

  /** Whether the live path accepts the name. */
  ghost predicate Accepts(db: Db, org: Org, identity: Identity, name: string) {
    WellFormed(name) && Resolve(db, org, identity, name).Some?
  }

  // The listing --------------------------------------------------------------

  function Listable(db: Db, org: Org, name: string): set<AliasRow> {
    set a | a in Candidates(db, org, name) && a.revision.Some?
  }

  /** Whether `granted_aliases` lists the name: `distinct on` picks the org row
      first, but only among rows with a revision. */
  ghost predicate Lists(db: Db, org: Org, identity: Identity, name: string) {
    var row := First(Listable(db, org, name));
    row.Some? && Usable(db, row.value, identity)
  }

  /** An active row of the org without a revision stands before an active public
      row that has one. */
  ghost predicate ShadowedByEmptyRow(db: Db, org: Org, name: string) {
    exists mine, other ::
      && mine in Candidates(db, org, name) && mine.org.Some? && mine.revision.None?
      && other in Candidates(db, org, name) && other.org.None? && other.revision.Some?
  }

  lemma FirstIs(db: Db, org: Org, name: string, candidates: set<AliasRow>, row: AliasRow)
    requires db.Valid() && candidates <= Candidates(db, org, name) && IsFirst(row, candidates)
    ensures First(candidates) == Some(row)
  {
    FirstIsUnique(db, org, name, candidates, First(candidates).value, row);
  }

  /** The two queries choose the same row unless an empty org row stands in front. */
  lemma SameChoice(db: Db, org: Org, name: string)
    requires db.Valid() && !ShadowedByEmptyRow(db, org, name)
    ensures var live, listed := First(Candidates(db, org, name)), First(Listable(db, org, name));
            listed == if live.Some? && live.value.revision.Some? then live else None
  {
    var all, some := Candidates(db, org, name), Listable(db, org, name);
    var live, listed := First(all), First(some);
    assert live.Some? && live.value.revision.Some? ==> live.value in some;
    if listed.Some? {
      assert IsFirst(listed.value, all);
      FirstIs(db, org, name, all, listed.value);
    }
  }

  lemma AcceptedIsListed(db: Db, org: Org, identity: Identity, name: string)
    requires db.Valid() && Accepts(db, org, identity, name)
    ensures Lists(db, org, identity, name)
  {
    var row := First(Candidates(db, org, name)).value;
    assert IsFirst(row, Listable(db, org, name));
    FirstIs(db, org, name, Listable(db, org, name), row);
  }

  /** For a well-formed name, the listing and the live path agree exactly when no
      empty org row shadows a usable public one: then the name is listed although
      every request for it is refused. */
  lemma ListingAgreesExactly(db: Db, org: Org, identity: Identity, name: string)
    requires db.Valid() && WellFormed(name)
    ensures (Lists(db, org, identity, name) <==> Accepts(db, org, identity, name))
       <==> !ShadowedByEmptyRow(db, org, name)
  {
    if ShadowedByEmptyRow(db, org, name) {
      EmptyRowLists(db, org, identity, name);
    } else {
      SameChoice(db, org, name);
    }
  }

  lemma EmptyRowLists(db: Db, org: Org, identity: Identity, name: string)
    requires db.Valid() && ShadowedByEmptyRow(db, org, name)
    ensures Lists(db, org, identity, name) && !Accepts(db, org, identity, name)
    ensures forall a :: a in Candidates(db, org, name) && a.org.Some? ==> a.revision.None?
  {
    var mine, other :|
      && mine in Candidates(db, org, name) && mine.org.Some? && mine.revision.None?
      && other in Candidates(db, org, name) && other.org.None? && other.revision.Some?;
    FirstIs(db, org, name, Candidates(db, org, name), mine);
    assert forall a :: a in Candidates(db, org, name) && a.org.Some? ==> a == mine;
    FirstIs(db, org, name, Listable(db, org, name), other);
  }

  const EMPTY_ORG_ROW := AliasRow(0, "a", Some(0), true, None)
  const LISTED_ROW := AliasRow(1, "a", None, true, Some(5))
  const DISAGREEING_DB := Db(map[], {EMPTY_ORG_ROW, LISTED_ROW}, map[5 := Revision(Direct("pool"), "", false)], {})

  /** An org row without a revision in front of a public row that has one: the name
      is listed, and every request for it is refused. */
  lemma ListedButRefused(identity: Identity)
    ensures DISAGREEING_DB.Valid() && WellFormed("a")
    ensures Lists(DISAGREEING_DB, 0, identity, "a") && !Accepts(DISAGREEING_DB, 0, identity, "a")
  {
    assert EMPTY_ORG_ROW in Candidates(DISAGREEING_DB, 0, "a") && LISTED_ROW in Candidates(DISAGREEING_DB, 0, "a");
    EmptyRowLists(DISAGREEING_DB, 0, identity, "a");
  }

  /** If every active alias has a current revision, listing and live path agree on
      every well-formed name. */
  lemma CompleteRowsAgree(db: Db, org: Org, identity: Identity, name: string)
    requires db.Valid() && WellFormed(name)
    requires forall a :: a in db.aliases && a.active ==> a.revision.Some?
    ensures Lists(db, org, identity, name) <==> Accepts(db, org, identity, name)
  {
    ListingAgreesExactly(db, org, identity, name);
  }

  /** An ungranted org row hides the public row of the same name: the name is
      refused, and listed only where that row has no revision to hide it with. */
  lemma UngrantedRowHides(db: Db, org: Org, identity: Identity, name: string, mine: AliasRow)
    requires db.Valid() && mine in Candidates(db, org, name) && mine.org == Some(org)
    requires (mine.aliasId, identity) !in db.grants
    ensures !Accepts(db, org, identity, name)
    ensures Lists(db, org, identity, name) <==> ShadowedByEmptyRow(db, org, name)
    ensures Lists(db, org, identity, name) ==> mine.revision.None?
  {
    FirstIs(db, org, name, Candidates(db, org, name), mine);
    if ShadowedByEmptyRow(db, org, name) {
      EmptyRowLists(db, org, identity, name);
    } else {
      SameChoice(db, org, name);
    }
  }

  /** A granted org row overrides the public row: what is served is its revision. */
  lemma OrgRowWins(db: Db, org: Org, identity: Identity, name: string, mine: AliasRow)
    requires db.Valid() && mine in Candidates(db, org, name) && mine.org == Some(org)
    ensures Resolve(db, org, identity, name).Some? ==>
              && (mine.aliasId, identity) in db.grants
              && mine.revision == Some(Resolve(db, org, identity, name).value.resolution.revision)
              && !Resolve(db, org, identity, name).value.isPublic
  {
    FirstIs(db, org, name, Candidates(db, org, name), mine);
  }
}

/** Which stored observation is published for a listing and date, and which others are shown beside it. */
module Selection {
  import opened Wrappers
  import opened Domain
  import opened ObservationTable
  import opened Governance
  import opened FirstBest

  datatype Query = Query(listing: ListingId, date: Date, kind: ObservationType)

  datatype Account = Account(source: string, scope: string)

  datatype SelectionResult = SelectionResult(selected: Row, alternatives: seq<Row>) {
    predicate HasDiscrepancy() {
      exists other | other in alternatives :: other.value.close != selected.value.close
    }
  }

  predicate Matches(row: Row, q: Query) {
    row.listing == q.listing && row.key.date == q.date && row.key.kind == q.kind
  }

  function AccountOf(row: Row): Account {
    Account(row.key.source, row.key.scope)
  }

  predicate HasRow(rows: seq<Row>, q: Query, source: string) {
    exists row | row in rows :: Matches(row, q) && row.key.source == source
  }

  predicate Publishable(rows: seq<Row>, decisions: Decisions, q: Query, source: string) {
    Authorized(decisions, source) && HasRow(rows, q, source)
  }

  /** Some enabled source is publishable: the question whether `select` succeeds, asked of the tables. */
  predicate Selectable(rows: seq<Row>, decisions: Decisions, ordered: seq<string>, q: Query) {
    exists source | source in ordered :: Publishable(rows, decisions, q, source)
  }

  // ---------------------------------------------------------------- what must be chosen

  /** No row of the same account answers the query with a higher revision. */
  predicate IsLatest(rows: seq<Row>, q: Query, row: Row) {
    && row in rows && Matches(row, q)
    && forall other | other in rows && Matches(other, q) && AccountOf(other) == AccountOf(row) :: other.revision <= row.revision
  }

  /** `row` was retrieved no earlier than a latest row of `other`'s account. */
  predicate Outlasts(rows: seq<Row>, q: Query, row: Row, other: Row) {
    exists latest | latest in rows ::
      IsLatest(rows, q, latest) && AccountOf(latest) == AccountOf(other) && latest.retrievedAt <= row.retrievedAt
  }

  /** Of the latest rows of a source's accounts, one that was retrieved no earlier than any other account's. */
  predicate IsChampion(rows: seq<Row>, q: Query, row: Row) {
    && IsLatest(rows, q, row)
    && forall other {:trigger Outlasts(rows, q, row, other)} |
         other in rows && Matches(other, q) && other.key.source == row.key.source :: Outlasts(rows, q, row, other)
  }

  /** `source` is the first of the ordered sources that is publishable. */
  predicate IsFirst(rows: seq<Row>, decisions: Decisions, ordered: seq<string>, q: Query, source: string) {
    exists i | 0 <= i < |ordered| ::
      && ordered[i] == source && Publishable(rows, decisions, q, source)
      && forall j | 0 <= j < i :: !Publishable(rows, decisions, q, ordered[j])
  }

  /** The champion of the first publishable source, with the champion of every other authorised source beside it. */
  ghost predicate IsSelection(rows: seq<Row>, decisions: Decisions, ordered: seq<string>, q: Query, r: SelectionResult) {
    && IsFirst(rows, decisions, ordered, q, r.selected.key.source)
    && IsChampion(rows, q, r.selected)
    && (forall a | a in r.alternatives ::
          a.key.source != r.selected.key.source && Authorized(decisions, a.key.source) && IsChampion(rows, q, a))
    && OnePerKey(r.alternatives, SourceOf)
    && (forall source | source != r.selected.key.source && Publishable(rows, decisions, q, source) ::
          exists a | a in r.alternatives :: a.key.source == source)
  }

  // ---------------------------------------------------------------- the two folds, in row order

  function SourceOf(row: Row): string {
    row.key.source
  }

  function RevisionOf(row: Row): int {
    row.revision
  }

  function RetrievalOf(row: Row): int {
    row.retrievedAt
  }

  function Asked(q: Query): Row -> bool {
    (row: Row) => Matches(row, q)
  }

  function Published(decisions: Decisions): Row -> bool {
    (row: Row) => Authorized(decisions, row.key.source)
  }

  function Except(selected: Row): Row -> bool {
    (row: Row) => row != selected
  }

  /** For each account its first row of the highest revision; the accounts in the order of their first rows. */
  function Latest(rows: seq<Row>, q: Query): seq<Row> {
    Best(Filter(rows, Asked(q)), AccountOf, RevisionOf)
  }

  /** For each authorised source the first of its accounts' rows that was retrieved last. */
  function BySource(latest: seq<Row>, decisions: Decisions): seq<Row> {
    Best(Filter(latest, Published(decisions)), SourceOf, RetrievalOf)
  }

  function Candidates(rows: seq<Row>, decisions: Decisions, q: Query): seq<Row> {
    BySource(Latest(rows, q), decisions)
  }

  lemma LatestSnoc(rows: seq<Row>, row: Row, q: Query)
    ensures Latest(rows + [row], q)
            == if Matches(row, q) then Put(Latest(rows, q), row, AccountOf, RevisionOf) else Latest(rows, q)
  {
    var asked := Filter(rows, Asked(q));
    FilterSnoc(rows, row, Asked(q));
    BestSnoc(asked, row, AccountOf, RevisionOf);
    assert asked + [] == asked;
  }

  lemma BySourceSnoc(latest: seq<Row>, row: Row, decisions: Decisions)
    ensures BySource(latest + [row], decisions)
            == if Authorized(decisions, row.key.source) then Put(BySource(latest, decisions), row, SourceOf, RetrievalOf)
               else BySource(latest, decisions)
  {
    var published := Filter(latest, Published(decisions));
    FilterSnoc(latest, row, Published(decisions));
    BestSnoc(published, row, SourceOf, RetrievalOf);
    assert published + [] == published;
  }

  /** The row of the first of the ordered sources that has one. */
  function Preferred(ordered: seq<string>, candidates: seq<Row>): Option<Row> {
    if ordered == [] then None
    else
      var i := Find(candidates, SourceOf, ordered[0]);
      if i < |candidates| then Some(candidates[i]) else Preferred(ordered[1..], candidates)
  }

  /** `select`, alternatives in the order of the dictionary. */
  function Selected(rows: seq<Row>, decisions: Decisions, ordered: seq<string>, q: Query): Option<SelectionResult> {
    var candidates := Candidates(rows, decisions, q);
    var selected := Preferred(ordered, candidates);
    if selected.None? then None
    else Some(SelectionResult(selected.value, Filter(candidates, Except(selected.value))))
  }

  method LatestByAccount(rows: seq<Row>, q: Query) returns (latest: seq<Row>)
    ensures latest == Latest(rows, q)
  {
    latest := [];
    for i := 0 to |rows|
      invariant latest == Latest(rows[..i], q)
    {
      var row := rows[i];
      assert rows[..i + 1] == rows[..i] + [row];
      LatestSnoc(rows[..i], row, q);
      if !Matches(row, q) {
        continue;
      }
      var k := Find(latest, AccountOf, AccountOf(row));
      if k == |latest| {
        latest := latest + [row];
      } else if row.revision > latest[k].revision {
        latest := latest[k := row];
      }
    }
    assert rows[..|rows|] == rows;
  }

  method CurrentPublishableBySource(rows: seq<Row>, decisions: Decisions, q: Query) returns (bySource: seq<Row>)
    ensures bySource == Candidates(rows, decisions, q)
  {
    var latest := LatestByAccount(rows, q);
    bySource := [];
    for i := 0 to |latest|
      invariant bySource == BySource(latest[..i], decisions)
    {
      var row := latest[i];
      assert latest[..i + 1] == latest[..i] + [row];
      BySourceSnoc(latest[..i], row, decisions);
      if !Authorized(decisions, row.key.source) {
        continue;
      }
      var k := Find(bySource, SourceOf, row.key.source);
      if k == |bySource| {
        bySource := bySource + [row];
      } else if row.retrievedAt > bySource[k].retrievedAt {
        bySource := bySource[k := row];
      }
    }
    assert latest[..|latest|] == latest;
  }

  /** Succeeds if and only if some enabled source is publishable, and then with a selection as specified. */
  method Select(rows: seq<Row>, decisions: Decisions, ordered: seq<string>, q: Query) returns (result: Option<SelectionResult>)
    ensures result == Selected(rows, decisions, ordered, q)
    ensures result.Some? <==> Selectable(rows, decisions, ordered, q)
    ensures result.Some? ==> IsSelection(rows, decisions, ordered, q, result.value)
  {
    var candidates := CurrentPublishableBySource(rows, decisions, q);
    SelectedIsSelection(rows, decisions, ordered, q);
    for i := 0 to |ordered|
      invariant Preferred(ordered[i..], candidates) == Preferred(ordered, candidates)
    {
      assert ordered[i..][0] == ordered[i] && ordered[i..][1..] == ordered[i + 1..];
      var k := Find(candidates, SourceOf, ordered[i]);
      if k < |candidates| {
        var selected := candidates[k];
        return Some(SelectionResult(selected, Filter(candidates, Except(selected))));
      }
    }
    assert ordered[|ordered|..] == [];
    return None;
  }

  // ---------------------------------------------------------------- what the folds choose

  lemma LatestIsLatest(rows: seq<Row>, q: Query, row: Row)
    requires row in Latest(rows, q)
    ensures IsLatest(rows, q, row)
  {
    var asked := Filter(rows, Asked(q));
    EntryIsBest(asked, AccountOf, RevisionOf, row, row);
    FilterMembers(rows, Asked(q), row);
    forall other | other in rows && Matches(other, q) && AccountOf(other) == AccountOf(row)
      ensures other.revision <= row.revision
    {
      FilterMembers(rows, Asked(q), other);
      EntryIsBest(asked, AccountOf, RevisionOf, row, other);
      assert RevisionOf(other) <= RevisionOf(row);
    }
  }

  lemma LatestOf(rows: seq<Row>, q: Query, row: Row) returns (latest: Row)
    requires row in rows && Matches(row, q)
    ensures latest in Latest(rows, q) && AccountOf(latest) == AccountOf(row) && IsLatest(rows, q, latest)
  {
    FilterMembers(rows, Asked(q), row);
    latest := EntryOf(Filter(rows, Asked(q)), AccountOf, RevisionOf, row);
    LatestIsLatest(rows, q, latest);
  }

  lemma CandidateIsChampion(rows: seq<Row>, decisions: Decisions, q: Query, c: Row)
    requires c in Candidates(rows, decisions, q)
    ensures IsChampion(rows, q, c) && Authorized(decisions, c.key.source)
  {
    var latest := Latest(rows, q);
    var published := Filter(latest, Published(decisions));
    EntryIsBest(published, SourceOf, RetrievalOf, c, c);
    FilterMembers(latest, Published(decisions), c);
    LatestIsLatest(rows, q, c);
    forall other | other in rows && Matches(other, q) && other.key.source == c.key.source
      ensures Outlasts(rows, q, c, other)
    {
      var l := LatestOf(rows, q, other);
      FilterMembers(latest, Published(decisions), l);
      EntryIsBest(published, SourceOf, RetrievalOf, c, l);
      assert RetrievalOf(l) <= RetrievalOf(c);
    }
  }

  lemma CandidateOf(rows: seq<Row>, decisions: Decisions, q: Query, source: string) returns (c: Row)
    requires Publishable(rows, decisions, q, source)
    ensures c in Candidates(rows, decisions, q) && c.key.source == source
  {
    var row :| row in rows && Matches(row, q) && row.key.source == source;
    var l := LatestOf(rows, q, row);
    FilterMembers(Latest(rows, q), Published(decisions), l);
    c := EntryOf(Filter(Latest(rows, q), Published(decisions)), SourceOf, RetrievalOf, l);
    assert SourceOf(c) == SourceOf(l);
  }

  /** One candidate for each publishable source, and it is a champion of that source. */
  lemma CandidatesAreChampions(rows: seq<Row>, decisions: Decisions, q: Query)
    ensures OnePerKey(Candidates(rows, decisions, q), SourceOf)
    ensures forall c | c in Candidates(rows, decisions, q) :: IsChampion(rows, q, c) && Authorized(decisions, c.key.source)
    ensures forall source | Publishable(rows, decisions, q, source) ::
      exists c | c in Candidates(rows, decisions, q) :: c.key.source == source
  {
    BestIs(Filter(Latest(rows, q), Published(decisions)), SourceOf, RetrievalOf);
    forall c | c in Candidates(rows, decisions, q)
      ensures IsChampion(rows, q, c) && Authorized(decisions, c.key.source)
    {
      CandidateIsChampion(rows, decisions, q, c);
    }
    forall source | Publishable(rows, decisions, q, source)
      ensures exists c | c in Candidates(rows, decisions, q) :: c.key.source == source
    {
      var c := CandidateOf(rows, decisions, q, source);
    }
  }

  lemma {:induction false} PreferredIsFirst(rows: seq<Row>, decisions: Decisions, ordered: seq<string>, q: Query)
    ensures
      var selected := Preferred(ordered, Candidates(rows, decisions, q));
      && (selected.Some? <==> Selectable(rows, decisions, ordered, q))
      && (selected.Some? ==>
            selected.value in Candidates(rows, decisions, q) && IsFirst(rows, decisions, ordered, q, selected.value.key.source))
    decreases |ordered|
  {
    var candidates := Candidates(rows, decisions, q);
    CandidatesAreChampions(rows, decisions, q);
    if ordered != [] {
      var i := Find(candidates, SourceOf, ordered[0]);
      assert ordered == [ordered[0]] + ordered[1..];
      if i < |candidates| {
        assert candidates[i] in candidates && candidates[i] in rows;
        assert Publishable(rows, decisions, q, ordered[0]);
      } else {
        assert !Publishable(rows, decisions, q, ordered[0]);
        PreferredIsFirst(rows, decisions, ordered[1..], q);
        var selected := Preferred(ordered, candidates);
        if selected.Some? {
          FirstOfRest(rows, decisions, ordered, q, selected.value.key.source);
        }
      }
    }
  }

  lemma FirstOfRest(rows: seq<Row>, decisions: Decisions, ordered: seq<string>, q: Query, source: string)
    requires ordered != [] && !Publishable(rows, decisions, q, ordered[0]) && IsFirst(rows, decisions, ordered[1..], q, source)
    ensures IsFirst(rows, decisions, ordered, q, source) && source in ordered
  {
    var rest := ordered[1..];
    var i :| 0 <= i < |rest| && rest[i] == source && Publishable(rows, decisions, q, source)
      && forall j | 0 <= j < i :: !Publishable(rows, decisions, q, rest[j]);
    assert ordered[i + 1] == source;
    forall j | 0 <= j < i + 1
      ensures !Publishable(rows, decisions, q, ordered[j])
    {
      if j > 0 {
        assert ordered[j] == rest[j - 1];
      }
    }
  }

  lemma {:induction false} FilterKeepsOnePerKey(entries: seq<Row>, keep: Row -> bool)
    requires OnePerKey(entries, SourceOf)
    ensures OnePerKey(Filter(entries, keep), SourceOf)
  {
    if entries != [] {
      var n := |entries| - 1;
      FilterKeepsOnePerKey(entries[..n], keep);
      var before := Filter(entries[..n], keep);
      forall i | 0 <= i < |before|
        ensures SourceOf(before[i]) != SourceOf(entries[n])
      {
        FilterMembers(entries[..n], keep, before[i]);
        var j :| 0 <= j < n && entries[..n][j] == before[i];
      }
    }
  }

  /** The folds and the walk over the enabled sources choose what is specified. */
  lemma SelectedIsSelection(rows: seq<Row>, decisions: Decisions, ordered: seq<string>, q: Query)
    ensures
      var result := Selected(rows, decisions, ordered, q);
      && (result.Some? <==> Selectable(rows, decisions, ordered, q))
      && (result.Some? ==> IsSelection(rows, decisions, ordered, q, result.value))
  {
    PreferredIsFirst(rows, decisions, ordered, q);
    var result := Selected(rows, decisions, ordered, q);
    if result.Some? {
      AlternativesAreTheOthers(rows, decisions, q, result.value.selected);
    }
  }

  lemma OnlyOnePerSource(candidates: seq<Row>, a: Row, b: Row)
    requires OnePerKey(candidates, SourceOf) && a in candidates && b in candidates && a != b
    ensures a.key.source != b.key.source
  {
    var i :| 0 <= i < |candidates| && candidates[i] == a;
    var j :| 0 <= j < |candidates| && candidates[j] == b;
    assert SourceOf(candidates[i]) != SourceOf(candidates[j]);
  }

  lemma AlternativesAreTheOthers(rows: seq<Row>, decisions: Decisions, q: Query, selected: Row)
    requires selected in Candidates(rows, decisions, q)
    ensures
      var alternatives := Filter(Candidates(rows, decisions, q), Except(selected));
      && IsChampion(rows, q, selected) && OnePerKey(alternatives, SourceOf)
      && (forall a | a in alternatives ::
            a.key.source != selected.key.source && Authorized(decisions, a.key.source) && IsChampion(rows, q, a))
      && (forall source | source != selected.key.source && Publishable(rows, decisions, q, source) ::
            exists a | a in alternatives :: a.key.source == source)
  {
    var candidates := Candidates(rows, decisions, q);
    var keep := Except(selected);
    var alternatives := Filter(candidates, keep);
    CandidatesAreChampions(rows, decisions, q);
    FilterKeepsOnePerKey(candidates, keep);
    forall a | a in alternatives
      ensures a in candidates && a.key.source != selected.key.source
    {
      FilterMembers(candidates, keep, a);
      OnlyOnePerSource(candidates, a, selected);
    }
    forall source | source != selected.key.source && Publishable(rows, decisions, q, source)
      ensures exists a | a in alternatives :: a.key.source == source
    {
      var c :| c in candidates && c.key.source == source;
      FilterMembers(candidates, keep, c);
    }
  }

  // ---------------------------------------------------------------- revocation and reinstatement

  /** A revoked source is neither selected nor shown, whatever is asked; the rows themselves are not touched. */
  lemma RevokedSourceDisappears(
      rows: seq<Row>, decisions: Decisions, source: string, capability: Capability, status: PolicyStatus,
      ordered: seq<string>, q: Query, r: SelectionResult)
    requires Versioned(decisions) && PublicationCapability(capability) && !status.Approved?
    requires IsSelection(rows, Decide(decisions, |decisions|, source, capability, status), ordered, q, r)
    ensures r.selected.key.source != source && forall a | a in r.alternatives :: a.key.source != source
  {
    RevocationSilences(decisions, source, capability, status, source);
  }

  ghost predicate SameAuthorizations(d: Decisions, e: Decisions) {
    forall s :: Authorized(d, s) <==> Authorized(e, s)
  }

  lemma FirstFollowsAuthorization(rows: seq<Row>, d: Decisions, e: Decisions, ordered: seq<string>, q: Query, source: string)
    requires SameAuthorizations(d, e) && IsFirst(rows, d, ordered, q, source)
    ensures IsFirst(rows, e, ordered, q, source)
  {
    var i :| 0 <= i < |ordered| && ordered[i] == source && Publishable(rows, d, q, source)
      && forall j | 0 <= j < i :: !Publishable(rows, d, q, ordered[j]);
    forall j | 0 <= j < i
      ensures !Publishable(rows, e, q, ordered[j])
    {
      assert !Publishable(rows, d, q, ordered[j]);
    }
    assert Publishable(rows, e, q, source);
  }

  lemma SelectionFollowsAuthorization(rows: seq<Row>, d: Decisions, e: Decisions, ordered: seq<string>, q: Query, r: SelectionResult)
    requires SameAuthorizations(d, e)
    ensures IsSelection(rows, d, ordered, q, r) ==> IsSelection(rows, e, ordered, q, r)
    ensures Selectable(rows, d, ordered, q) ==> Selectable(rows, e, ordered, q)
  {
    if IsSelection(rows, d, ordered, q, r) {
      FirstFollowsAuthorization(rows, d, e, ordered, q, r.selected.key.source);
      forall source | source != r.selected.key.source && Publishable(rows, e, q, source)
        ensures exists a | a in r.alternatives :: a.key.source == source
      {
        assert Publishable(rows, d, q, source);
      }
    }
    if Selectable(rows, d, ordered, q) {
      var source :| source in ordered && Publishable(rows, d, q, source);
      assert Publishable(rows, e, q, source);
    }
  }

  /** Approving the same capability again brings back exactly the selections of before the revocation. */
  lemma {:induction false} ReinstatedSourceReturns(
      rows: seq<Row>, decisions: Decisions, source: string, capability: Capability, status: PolicyStatus,
      ordered: seq<string>, q: Query, r: SelectionResult)
    requires Versioned(decisions) && PublicationCapability(capability)
    requires EffectiveStatus(decisions, source, capability).Approved?
    ensures
      var revoked := Decide(decisions, |decisions|, source, capability, status);
      var restored := Decide(revoked, |revoked|, source, capability, Approved);
      && (Selectable(rows, restored, ordered, q) <==> Selectable(rows, decisions, ordered, q))
      && (IsSelection(rows, restored, ordered, q, r) <==> IsSelection(rows, decisions, ordered, q, r))
  {
    var revoked := Decide(decisions, |decisions|, source, capability, status);
    var restored := Decide(revoked, |revoked|, source, capability, Approved);
    forall s
      ensures Authorized(restored, s) <==> Authorized(decisions, s)
    {
      ReinstatementRestores(decisions, source, capability, status, s);
    }
    SelectionFollowsAuthorization(rows, restored, decisions, ordered, q, r);
    SelectionFollowsAuthorization(rows, decisions, restored, ordered, q, r);
  }
}

/** When the order of the rows, which the query does not fix, matters for the selection. */
module SelectionOrder {
  import opened Wrappers
  import opened Domain
  import opened ObservationTable
  import opened Governance
  import opened FirstBest
  import opened Selection

  ghost predicate SameRows(a: seq<Row>, b: seq<Row>) {
    forall row :: row in a <==> row in b
  }

  /** The same rows in another order. */
  predicate Reorders(rows: seq<Row>, other: seq<Row>) {
    multiset(rows) == multiset(other)
  }

  lemma ReorderedRows(rows: seq<Row>, other: seq<Row>)
    requires Reorders(rows, other)
    ensures SameRows(rows, other)
  {
    forall row
      ensures row in rows <==> row in other
    {
      assert row in multiset(rows) <==> row in multiset(other);
    }
  }

  /** One external id for each account answers the query. */
  predicate OneIdPerAccount(rows: seq<Row>, q: Query) {
    forall a, b | a in rows && b in rows && Matches(a, q) && Matches(b, q) && AccountOf(a) == AccountOf(b) :: a.key == b.key
  }

  /** A latest row of an account that no other account of its source was retrieved after. */
  predicate IsTop(rows: seq<Row>, q: Query, row: Row) {
    && IsLatest(rows, q, row)
    && forall other | other in rows && IsLatest(rows, q, other) && other.key.source == row.key.source ::
         other.retrievedAt <= row.retrievedAt
  }

  /** No two accounts of an authorised source share its last retrieval. */
  predicate NoTopTies(rows: seq<Row>, decisions: Decisions, q: Query) {
    forall a, b | a in rows && b in rows && IsTop(rows, q, a) && IsTop(rows, q, b)
                  && a.key.source == b.key.source && Authorized(decisions, a.key.source) :: AccountOf(a) == AccountOf(b)
  }

  /** Every authorised source has a single champion. */
  predicate OneChampionEach(rows: seq<Row>, decisions: Decisions, q: Query) {
    forall a, b | a in rows && b in rows && IsChampion(rows, q, a) && IsChampion(rows, q, b)
                  && a.key.source == b.key.source && Authorized(decisions, a.key.source) :: a == b
  }

  lemma RevisionIdentifiesRow(rows: seq<Row>, a: Row, b: Row)
    requires Sound(rows) && a in rows && b in rows && a.key == b.key && a.revision == b.revision
    ensures a == b
  {
    HistoryMembers(rows, a.key, a);
    HistoryMembers(rows, a.key, b);
    assert Chain(History(rows, a.key));
  }

  lemma LatestIsUnique(rows: seq<Row>, q: Query, a: Row, b: Row)
    requires Sound(rows) && OneIdPerAccount(rows, q)
    requires IsLatest(rows, q, a) && IsLatest(rows, q, b) && AccountOf(a) == AccountOf(b)
    ensures a == b
  {
    RevisionIdentifiesRow(rows, a, b);
  }

  lemma ChampionIsTop(rows: seq<Row>, q: Query, a: Row)
    requires Sound(rows) && OneIdPerAccount(rows, q) && IsChampion(rows, q, a)
    ensures IsTop(rows, q, a)
  {
    forall b | b in rows && IsLatest(rows, q, b) && b.key.source == a.key.source
      ensures b.retrievedAt <= a.retrievedAt
    {
      assert Outlasts(rows, q, a, b);
      var x :| x in rows && IsLatest(rows, q, x) && AccountOf(x) == AccountOf(b) && x.retrievedAt <= a.retrievedAt;
      LatestIsUnique(rows, q, x, b);
    }
  }

  lemma TopIsChampion(rows: seq<Row>, q: Query, a: Row)
    requires IsTop(rows, q, a)
    ensures IsChampion(rows, q, a)
  {
    forall other | other in rows && Matches(other, q) && other.key.source == a.key.source
      ensures Outlasts(rows, q, a, other)
    {
      var l := LatestOf(rows, q, other);
    }
  }

  /** With one external id for each account the champions are the latest rows retrieved last, so a tie is all there is to it. */
  lemma {:induction false} OneChampionEachIff(rows: seq<Row>, decisions: Decisions, q: Query)
    requires Sound(rows) && OneIdPerAccount(rows, q)
    ensures OneChampionEach(rows, decisions, q) <==> NoTopTies(rows, decisions, q)
  {
    forall a | a in rows
      ensures IsChampion(rows, q, a) <==> IsTop(rows, q, a)
    {
      if IsChampion(rows, q, a) {
        ChampionIsTop(rows, q, a);
      }
      if IsTop(rows, q, a) {
        TopIsChampion(rows, q, a);
      }
    }
    forall a, b | a in rows && b in rows && IsTop(rows, q, a) && IsTop(rows, q, b) && AccountOf(a) == AccountOf(b)
      ensures a == b
    {
      LatestIsUnique(rows, q, a, b);
    }
  }

  lemma OrderDoesNotMatterForChampions(rows: seq<Row>, other: seq<Row>, q: Query, row: Row)
    requires SameRows(rows, other) && IsChampion(other, q, row)
    ensures IsChampion(rows, q, row)
  {
    forall o | o in rows && Matches(o, q) && o.key.source == row.key.source
      ensures Outlasts(rows, q, row, o)
    {
      assert Outlasts(other, q, row, o);
      var x :| x in other && IsLatest(other, q, x) && AccountOf(x) == AccountOf(o) && x.retrievedAt <= row.retrievedAt;
      assert IsLatest(rows, q, x);
    }
  }

  lemma FirstIsUnique(rows: seq<Row>, other: seq<Row>, decisions: Decisions, ordered: seq<string>, q: Query, s: string, t: string)
    requires SameRows(rows, other) && IsFirst(rows, decisions, ordered, q, s) && IsFirst(other, decisions, ordered, q, t)
    ensures s == t
  {
    forall source
      ensures Publishable(rows, decisions, q, source) <==> Publishable(other, decisions, q, source)
    {
    }
  }

  /** The same choice and the same alternatives, whatever their order. */
  ghost predicate SameResult(r: SelectionResult, t: SelectionResult) {
    r.selected == t.selected && SameRows(r.alternatives, t.alternatives)
  }

  /** The same rows in another order select the same observation and show the same alternatives. */
  lemma SelectionIgnoresRowOrder(
      rows: seq<Row>, other: seq<Row>, decisions: Decisions, ordered: seq<string>, q: Query, r: SelectionResult, t: SelectionResult)
    requires SameRows(rows, other) && OneChampionEach(rows, decisions, q)
    requires IsSelection(rows, decisions, ordered, q, r) && IsSelection(other, decisions, ordered, q, t)
    ensures SameResult(r, t)
  {
    FirstIsUnique(rows, other, decisions, ordered, q, r.selected.key.source, t.selected.key.source);
    OrderDoesNotMatterForChampions(rows, other, q, t.selected);
    assert Authorized(decisions, r.selected.key.source) && r.selected in rows && t.selected in rows;
    AlternativesWithin(rows, rows, other, decisions, ordered, q, r, t);
    AlternativesWithin(rows, other, rows, decisions, ordered, q, t, r);
  }

  lemma {:induction false} AlternativesWithin(
      rows: seq<Row>, x: seq<Row>, y: seq<Row>, decisions: Decisions, ordered: seq<string>, q: Query, r: SelectionResult, t: SelectionResult)
    requires SameRows(rows, x) && SameRows(rows, y) && r.selected == t.selected && OneChampionEach(rows, decisions, q)
    requires IsSelection(x, decisions, ordered, q, r) && IsSelection(y, decisions, ordered, q, t)
    ensures forall a | a in t.alternatives :: a in r.alternatives
  {
    forall a | a in t.alternatives
      ensures a in r.alternatives
    {
      assert IsChampion(y, q, a) && a in x;
      assert Publishable(x, decisions, q, a.key.source);
      var b :| b in r.alternatives && b.key.source == a.key.source;
      OrderDoesNotMatterForChampions(rows, x, q, b);
      OrderDoesNotMatterForChampions(rows, y, q, a);
      assert a in rows && b in rows;
    }
  }

  function Early(a: Row): Row -> bool {
    (row: Row) => row.retrievedAt <= a.retrievedAt
  }

  function Late(a: Row): Row -> bool {
    (row: Row) => row.retrievedAt > a.retrievedAt
  }

  /** The same rows in an order that favours one: it comes first, then those retrieved no later, then the others. */
  function Favouring(rows: seq<Row>, i: nat): seq<Row>
    requires i < |rows|
  {
    var rest := rows[..i] + rows[i + 1..];
    [rows[i]] + (Filter(rest, Early(rows[i])) + Filter(rest, Late(rows[i])))
  }

  lemma ToFrontReorders(front: seq<Row>, a: Row, back: seq<Row>, sorted: seq<Row>)
    requires multiset(sorted) == multiset(front + back)
    ensures multiset(front + [a] + back) == multiset([a] + sorted)
  {
  }

  lemma SplitAt(rows: seq<Row>, i: nat)
    requires i < |rows|
    ensures rows[..i] + [rows[i]] + rows[i + 1..] == rows
  {
  }

  lemma FavouringReorders(rows: seq<Row>, i: nat)
    requires i < |rows|
    ensures Reorders(rows, Favouring(rows, i)) && Favouring(rows, i)[0] == rows[i]
  {
    SplitAt(rows, i);
    FavouringSplits(rows, rows[..i], rows[i], rows[i + 1..]);
  }

  lemma FavouringSplits(rows: seq<Row>, front: seq<Row>, a: Row, back: seq<Row>)
    requires rows == front + [a] + back
    ensures Reorders(rows, [a] + (Filter(front + back, Early(a)) + Filter(front + back, Late(a))))
  {
    FilterSplits(front + back, Early(a), Late(a));
    ToFrontReorders(front, a, back, Filter(front + back, Early(a)) + Filter(front + back, Late(a)));
  }

  /** In that order no account's latest row comes from the late part if one of them is early. */
  lemma FirstLatestIsEarly(front: seq<Row>, back: seq<Row>, q: Query, l: Row, x: Row, a: Row)
    requires l in Latest(front + back, q) && x in front && Matches(x, q) && AccountOf(x) == AccountOf(l)
    requires IsLatest(front + back, q, x) && forall row | row in front :: row.retrievedAt <= a.retrievedAt
    ensures l.retrievedAt <= a.retrievedAt
  {
    var asked, early := Filter(front + back, Asked(q)), Filter(front, Asked(q));
    FilterConcat(front, back, Asked(q));
    FilterMembers(front, Asked(q), x);
    var j :| 0 <= j < |early| && early[j] == x;
    assert asked[j] == x;
    BestIs(asked, AccountOf, RevisionOf);
    var i :| IsFirstBest(asked, AccountOf, RevisionOf, i) && asked[i] == l;
    assert l in asked;
    FilterMembers(front + back, Asked(q), l);
    assert RevisionOf(asked[j]) <= RevisionOf(asked[i]) && RevisionOf(l) <= RevisionOf(x);
    assert i <= j;
    assert l == early[i] && l in early;
    FilterMembers(front, Asked(q), l);
  }

  lemma FavouredIsFirstLatest(rows: seq<Row>, q: Query)
    requires rows != [] && IsLatest(rows, q, rows[0])
    ensures Latest(rows, q) != [] && Latest(rows, q)[0] == rows[0]
  {
    var asked := Filter(rows, Asked(q));
    FilterHead(rows, Asked(q));
    forall other | other in asked && AccountOf(other) == AccountOf(asked[0])
      ensures RevisionOf(other) <= RevisionOf(asked[0])
    {
      FilterMembers(rows, Asked(q), other);
    }
    HeadWins(asked, AccountOf, RevisionOf);
  }

  lemma FavouredOutlasts(front: seq<Row>, back: seq<Row>, q: Query, a: Row, l: Row)
    requires a in front && IsChampion(front + back, q, a) && l in Latest(front + back, q) && l.key.source == a.key.source
    requires forall row | row in front :: row.retrievedAt <= a.retrievedAt
    requires forall row | row in back :: row.retrievedAt > a.retrievedAt
    ensures l.retrievedAt <= a.retrievedAt
  {
    var rows := front + back;
    LatestIsLatest(rows, q, l);
    assert Outlasts(rows, q, a, l);
    var x :| x in rows && IsLatest(rows, q, x) && AccountOf(x) == AccountOf(l) && x.retrievedAt <= a.retrievedAt;
    assert x in front;
    FirstLatestIsEarly(front, back, q, l, x, a);
  }

  /** Any champion of an authorised source is its candidate in the order that favours it. */
  lemma FavouredWins(rows: seq<Row>, decisions: Decisions, q: Query, i: nat)
    requires i < |rows| && IsChampion(rows, q, rows[i]) && Authorized(decisions, rows[i].key.source)
    ensures rows[i] in Candidates(Favouring(rows, i), decisions, q)
  {
    var a, other := rows[i], Favouring(rows, i);
    var rest := rows[..i] + rows[i + 1..];
    var front, back := [a] + Filter(rest, Early(a)), Filter(rest, Late(a));
    FavouringReorders(rows, i);
    ReorderedRows(rows, other);
    OrderDoesNotMatterForChampions(other, rows, q, a);
    assert other == front + back;
    forall row
      ensures row in front ==> row.retrievedAt <= a.retrievedAt
      ensures row in back ==> row.retrievedAt > a.retrievedAt
    {
      FilterMembers(rest, Early(a), row);
      FilterMembers(rest, Late(a), row);
    }
    FavouredIsFirstLatest(other, q);
    forall l | l in Latest(other, q) && l.key.source == a.key.source
      ensures l.retrievedAt <= a.retrievedAt
    {
      FavouredOutlasts(front, back, q, a, l);
    }
    FirstLatestWins(other, decisions, q);
  }

  lemma FirstLatestWins(rows: seq<Row>, decisions: Decisions, q: Query)
    requires Latest(rows, q) != [] && Authorized(decisions, Latest(rows, q)[0].key.source)
    requires forall l | l in Latest(rows, q) && l.key.source == Latest(rows, q)[0].key.source ::
      l.retrievedAt <= Latest(rows, q)[0].retrievedAt
    ensures Latest(rows, q)[0] in Candidates(rows, decisions, q)
  {
    var published := Filter(Latest(rows, q), Published(decisions));
    FilterHead(Latest(rows, q), Published(decisions));
    forall other | other in published && SourceOf(other) == SourceOf(published[0])
      ensures RetrievalOf(other) <= RetrievalOf(published[0])
    {
      FilterMembers(Latest(rows, q), Published(decisions), other);
    }
    HeadWins(published, SourceOf, RetrievalOf);
  }

  /** Everything a result shows. */
  predicate Shows(r: SelectionResult, row: Row) {
    row == r.selected || row in r.alternatives
  }

  lemma CandidateIsShown(rows: seq<Row>, decisions: Decisions, ordered: seq<string>, q: Query, c: Row)
    requires c in Candidates(rows, decisions, q) && Selected(rows, decisions, ordered, q).Some?
    ensures Shows(Selected(rows, decisions, ordered, q).value, c)
  {
    var r := Selected(rows, decisions, ordered, q).value;
    FilterMembers(Candidates(rows, decisions, q), Except(r.selected), c);
  }

  lemma ShownOncePerSource(rows: seq<Row>, decisions: Decisions, ordered: seq<string>, q: Query, r: SelectionResult, a: Row, b: Row)
    requires IsSelection(rows, decisions, ordered, q, r) && Shows(r, a) && Shows(r, b) && a.key.source == b.key.source
    ensures a == b
  {
    if a in r.alternatives && b in r.alternatives {
      var i, j :| 0 <= i < |r.alternatives| && r.alternatives[i] == a && 0 <= j < |r.alternatives| && r.alternatives[j] == b;
      assert SourceOf(r.alternatives[i]) == SourceOf(r.alternatives[j]);
    }
  }

  lemma SelectableInAnyOrder(rows: seq<Row>, other: seq<Row>, decisions: Decisions, ordered: seq<string>, q: Query)
    requires SameRows(rows, other) && Selectable(rows, decisions, ordered, q)
    ensures Selectable(other, decisions, ordered, q)
  {
    var source :| source in ordered && Publishable(rows, decisions, q, source);
    assert Publishable(other, decisions, q, source);
  }

  /**
   Between two champions of an authorised source the row order decides: each has an order of the same rows in which the
   folds select as specified and show it, and not the other.
   */
  lemma {:induction false} TieIsDecidedByRowOrder(rows: seq<Row>, decisions: Decisions, ordered: seq<string>, q: Query, i: nat, j: nat)
    requires Selectable(rows, decisions, ordered, q) && i < |rows| && j < |rows| && rows[i] != rows[j]
    requires IsChampion(rows, q, rows[i]) && IsChampion(rows, q, rows[j])
    requires rows[i].key.source == rows[j].key.source && Authorized(decisions, rows[i].key.source)
    ensures Reorders(rows, Favouring(rows, i)) && Reorders(rows, Favouring(rows, j))
    ensures
      var r := Selected(Favouring(rows, i), decisions, ordered, q);
      var t := Selected(Favouring(rows, j), decisions, ordered, q);
      && r.Some? && t.Some? && IsSelection(rows, decisions, ordered, q, r.value) && IsSelection(rows, decisions, ordered, q, t.value)
      && Shows(r.value, rows[i]) && !Shows(r.value, rows[j]) && Shows(t.value, rows[j]) && !Shows(t.value, rows[i])
  {
    FavouredIsShown(rows, decisions, ordered, q, i);
    FavouredIsShown(rows, decisions, ordered, q, j);
    var r := Selected(Favouring(rows, i), decisions, ordered, q).value;
    var t := Selected(Favouring(rows, j), decisions, ordered, q).value;
    if Shows(r, rows[j]) {
      ShownOncePerSource(rows, decisions, ordered, q, r, rows[i], rows[j]);
    }
    if Shows(t, rows[i]) {
      ShownOncePerSource(rows, decisions, ordered, q, t, rows[i], rows[j]);
    }
  }

  lemma FavouredIsShown(rows: seq<Row>, decisions: Decisions, ordered: seq<string>, q: Query, i: nat)
    requires Selectable(rows, decisions, ordered, q)
    requires i < |rows| && IsChampion(rows, q, rows[i]) && Authorized(decisions, rows[i].key.source)
    ensures Reorders(rows, Favouring(rows, i))
    ensures
      var r := Selected(Favouring(rows, i), decisions, ordered, q);
      r.Some? && IsSelection(rows, decisions, ordered, q, r.value) && Shows(r.value, rows[i])
  {
    var other := Favouring(rows, i);
    FavouringReorders(rows, i);
    ReorderedRows(rows, other);
    SelectableInAnyOrder(rows, other, decisions, ordered, q);
    SelectedIsSelection(other, decisions, ordered, q);
    FavouredWins(rows, decisions, q, i);
    CandidateIsShown(other, decisions, ordered, q, rows[i]);
    SelectionInAnyOrder(other, rows, decisions, ordered, q, Selected(other, decisions, ordered, q).value);
  }

  lemma SelectionInAnyOrder(rows: seq<Row>, other: seq<Row>, decisions: Decisions, ordered: seq<string>, q: Query, r: SelectionResult)
    requires SameRows(rows, other) && IsSelection(rows, decisions, ordered, q, r)
    ensures IsSelection(other, decisions, ordered, q, r)
  {
    FirstInAnyOrder(rows, other, decisions, ordered, q, r.selected.key.source);
    OrderDoesNotMatterForChampions(other, rows, q, r.selected);
    forall a | a in r.alternatives
      ensures IsChampion(other, q, a)
    {
      OrderDoesNotMatterForChampions(other, rows, q, a);
    }
    forall source | source != r.selected.key.source && Publishable(other, decisions, q, source)
      ensures exists a | a in r.alternatives :: a.key.source == source
    {
      assert Publishable(rows, decisions, q, source);
    }
  }

  lemma FirstInAnyOrder(rows: seq<Row>, other: seq<Row>, decisions: Decisions, ordered: seq<string>, q: Query, source: string)
    requires SameRows(rows, other) && IsFirst(rows, decisions, ordered, q, source)
    ensures IsFirst(other, decisions, ordered, q, source)
  {
    var i :| 0 <= i < |ordered| && ordered[i] == source && Publishable(rows, decisions, q, source)
      && forall j | 0 <= j < i :: !Publishable(rows, decisions, q, ordered[j]);
    forall s
      ensures Publishable(rows, decisions, q, s) <==> Publishable(other, decisions, q, s)
    {
    }
  }

  lemma SameResultsShowTheSame(r: SelectionResult, s: SelectionResult, t: SelectionResult, row: Row)
    ensures SameResult(r, s) && SameResult(r, t) ==> (Shows(s, row) <==> Shows(t, row))
  {
  }

  ghost predicate OrderIrrelevant(rows: seq<Row>, decisions: Decisions, ordered: seq<string>, q: Query) {
    forall other | Reorders(rows, other) ::
      && Selected(rows, decisions, ordered, q).Some? && Selected(other, decisions, ordered, q).Some?
      && SameResult(Selected(rows, decisions, ordered, q).value, Selected(other, decisions, ordered, q).value)
  }

  /** Exactly: every order of the rows gives the same choice and alternatives if and only if no source has two champions. */
  lemma RowOrderIrrelevantIff(rows: seq<Row>, decisions: Decisions, ordered: seq<string>, q: Query)
    requires Selectable(rows, decisions, ordered, q)
    ensures OrderIrrelevant(rows, decisions, ordered, q) <==> OneChampionEach(rows, decisions, q)
  {
    SelectedIsSelection(rows, decisions, ordered, q);
    if OneChampionEach(rows, decisions, q) {
      forall other | Reorders(rows, other)
        ensures Selected(other, decisions, ordered, q).Some?
        ensures SameResult(Selected(rows, decisions, ordered, q).value, Selected(other, decisions, ordered, q).value)
      {
        OneOrderGivesTheSame(rows, other, decisions, ordered, q);
      }
    } else {
      var a, b :| a in rows && b in rows && IsChampion(rows, q, a) && IsChampion(rows, q, b)
        && a.key.source == b.key.source && Authorized(decisions, a.key.source) && a != b;
      var i, j :| 0 <= i < |rows| && rows[i] == a && 0 <= j < |rows| && rows[j] == b;
      TwoOrdersDiffer(rows, decisions, ordered, q, i, j);
    }
  }

  lemma OneOrderGivesTheSame(rows: seq<Row>, other: seq<Row>, decisions: Decisions, ordered: seq<string>, q: Query)
    requires Reorders(rows, other) && Selectable(rows, decisions, ordered, q) && OneChampionEach(rows, decisions, q)
    ensures Selected(rows, decisions, ordered, q).Some? && Selected(other, decisions, ordered, q).Some?
    ensures SameResult(Selected(rows, decisions, ordered, q).value, Selected(other, decisions, ordered, q).value)
  {
    ReorderedRows(rows, other);
    SelectableInAnyOrder(rows, other, decisions, ordered, q);
    SelectedIsSelection(rows, decisions, ordered, q);
    SelectedIsSelection(other, decisions, ordered, q);
    SelectionIgnoresRowOrder(rows, other, decisions, ordered, q,
                             Selected(rows, decisions, ordered, q).value, Selected(other, decisions, ordered, q).value);
  }

  lemma TwoOrdersDiffer(rows: seq<Row>, decisions: Decisions, ordered: seq<string>, q: Query, i: nat, j: nat)
    requires Selectable(rows, decisions, ordered, q) && i < |rows| && j < |rows| && rows[i] != rows[j]
    requires IsChampion(rows, q, rows[i]) && IsChampion(rows, q, rows[j])
    requires rows[i].key.source == rows[j].key.source && Authorized(decisions, rows[i].key.source)
    ensures !OrderIrrelevant(rows, decisions, ordered, q)
  {
    TieIsDecidedByRowOrder(rows, decisions, ordered, q, i, j);
    SelectedIsSelection(rows, decisions, ordered, q);
    SameResultsShowTheSame(Selected(rows, decisions, ordered, q).value,
                           Selected(Favouring(rows, i), decisions, ordered, q).value,
                           Selected(Favouring(rows, j), decisions, ordered, q).value, rows[j]);
  }
}

/** Folds that keep one row for each key, in dictionaries that remember the order of insertion. */
module FirstBest {
  import opened Domain

  /** Where the dictionary holds the key, or its size. */
  function Find<K(==)>(entries: seq<Row>, key: Row -> K, k: K): (i: nat)
    ensures i <= |entries|
    ensures i < |entries| ==> key(entries[i]) == k
    ensures forall j | 0 <= j < i :: key(entries[j]) != k
  {
    if entries == [] || key(entries[0]) == k then 0 else 1 + Find(entries[1..], key, k)
  }

  /** A new key goes to the end; a known one keeps its place, with the row replaced only by one of greater rank. */
  function Put<K(==)>(entries: seq<Row>, row: Row, key: Row -> K, rank: Row -> int): seq<Row> {
    var i := Find(entries, key, key(row));
    if i == |entries| then entries + [row]
    else if rank(row) > rank(entries[i]) then entries[i := row]
    else entries
  }

  function Best<K(==)>(rows: seq<Row>, key: Row -> K, rank: Row -> int): seq<Row> {
    if rows == [] then [] else Put(Best(rows[..|rows| - 1], key, rank), rows[|rows| - 1], key, rank)
  }

  function Filter(rows: seq<Row>, keep: Row -> bool): seq<Row> {
    if rows == [] then []
    else Filter(rows[..|rows| - 1], keep) + if keep(rows[|rows| - 1]) then [rows[|rows| - 1]] else []
  }

  lemma {:induction false} FilterMembers(rows: seq<Row>, keep: Row -> bool, row: Row)
    ensures row in Filter(rows, keep) <==> row in rows && keep(row)
  {
    if rows != [] {
      FilterMembers(rows[..|rows| - 1], keep, row);
      assert rows == rows[..|rows| - 1] + [rows[|rows| - 1]];
    }
  }

  lemma {:induction false} FilterHead(rows: seq<Row>, keep: Row -> bool)
    requires rows != [] && keep(rows[0])
    ensures Filter(rows, keep) != [] && Filter(rows, keep)[0] == rows[0]
  {
    if |rows| > 1 {
      FilterHead(rows[..|rows| - 1], keep);
    }
  }

  lemma FilterSnoc(rows: seq<Row>, row: Row, keep: Row -> bool)
    ensures Filter(rows + [row], keep) == Filter(rows, keep) + if keep(row) then [row] else []
  {
    assert (rows + [row])[..|rows|] == rows;
  }

  lemma {:induction false} FilterConcat(front: seq<Row>, back: seq<Row>, keep: Row -> bool)
    ensures Filter(front + back, keep) == Filter(front, keep) + Filter(back, keep)
    decreases |back|
  {
    if back == [] {
      assert front + back == front;
    } else {
      var n := |back| - 1;
      FilterConcat(front, back[..n], keep);
      assert front + back == (front + back[..n]) + [back[n]];
      FilterSnoc(front + back[..n], back[n], keep);
    }
  }

  lemma {:induction false} FilterSplits(rows: seq<Row>, keep: Row -> bool, drop: Row -> bool)
    requires forall row :: keep(row) <==> !drop(row)
    ensures multiset(Filter(rows, keep) + Filter(rows, drop)) == multiset(rows)
  {
    if rows != [] {
      FilterSplits(rows[..|rows| - 1], keep, drop);
      assert rows == rows[..|rows| - 1] + [rows[|rows| - 1]];
    }
  }

  lemma BestSnoc<K>(rows: seq<Row>, row: Row, key: Row -> K, rank: Row -> int)
    ensures Best(rows + [row], key, rank) == Put(Best(rows, key, rank), row, key, rank)
  {
    assert (rows + [row])[..|rows|] == rows;
  }

  ghost predicate OnePerKey<K>(entries: seq<Row>, key: Row -> K) {
    forall i, j | 0 <= i < j < |entries| :: key(entries[i]) != key(entries[j])
  }

  /** Of the rows with its key, the first of those with the greatest rank. */
  ghost predicate IsFirstBest<K>(rows: seq<Row>, key: Row -> K, rank: Row -> int, i: int) {
    && 0 <= i < |rows|
    && (forall j | 0 <= j < |rows| && key(rows[j]) == key(rows[i]) :: rank(rows[j]) <= rank(rows[i]))
    && (forall j | 0 <= j < i && key(rows[j]) == key(rows[i]) :: rank(rows[j]) < rank(rows[i]))
  }

  ghost predicate HoldsFirstBest<K>(rows: seq<Row>, key: Row -> K, rank: Row -> int, entry: Row) {
    exists i :: IsFirstBest(rows, key, rank, i) && rows[i] == entry
  }

  ghost predicate HasKey<K>(entries: seq<Row>, key: Row -> K, k: K) {
    exists i | 0 <= i < |entries| :: key(entries[i]) == k
  }

  lemma FirstBestLasts<K>(rows: seq<Row>, row: Row, key: Row -> K, rank: Row -> int, entry: Row)
    requires HoldsFirstBest(rows, key, rank, entry) && (key(row) == key(entry) ==> rank(row) <= rank(entry))
    ensures HoldsFirstBest(rows + [row], key, rank, entry)
  {
    var i :| IsFirstBest(rows, key, rank, i) && rows[i] == entry;
    assert IsFirstBest(rows + [row], key, rank, i);
  }

  lemma NewFirstBest<K>(rows: seq<Row>, row: Row, key: Row -> K, rank: Row -> int)
    requires forall j | 0 <= j < |rows| && key(rows[j]) == key(row) :: rank(rows[j]) < rank(row)
    ensures HoldsFirstBest(rows + [row], key, rank, row)
  {
    assert IsFirstBest(rows + [row], key, rank, |rows|);
  }

  lemma PutKeepsOnePerKey<K>(entries: seq<Row>, row: Row, key: Row -> K, rank: Row -> int)
    requires OnePerKey(entries, key)
    ensures OnePerKey(Put(entries, row, key, rank), key)
    ensures HasKey(Put(entries, row, key, rank), key, key(row))
    ensures forall k | HasKey(entries, key, k) :: HasKey(Put(entries, row, key, rank), key, k)
  {
    var i := Find(entries, key, key(row));
    var after := Put(entries, row, key, rank);
    assert key(after[i]) == key(row);
    forall k | HasKey(entries, key, k)
      ensures HasKey(after, key, k)
    {
      var j :| 0 <= j < |entries| && key(entries[j]) == k;
      assert key(after[j]) == k;
    }
  }

  /** The fold keeps, for every key that occurs and no other, the first row of greatest rank. */
  lemma {:induction false} BestIs<K>(rows: seq<Row>, key: Row -> K, rank: Row -> int)
    ensures OnePerKey(Best(rows, key, rank), key)
    ensures forall row | row in rows :: HasKey(Best(rows, key, rank), key, key(row))
    ensures forall entry | entry in Best(rows, key, rank) :: HoldsFirstBest(rows, key, rank, entry)
  {
    if rows != [] {
      var n := |rows| - 1;
      var row := rows[n];
      var before := Best(rows[..n], key, rank);
      assert rows == rows[..n] + [row];
      BestIs(rows[..n], key, rank);
      PutKeepsOnePerKey(before, row, key, rank);
      forall r | r in rows
        ensures HasKey(Best(rows, key, rank), key, key(r))
      {
        if r in rows[..n] {
          assert HasKey(before, key, key(r));
        }
      }
      forall entry | entry in Best(rows, key, rank)
        ensures HoldsFirstBest(rows, key, rank, entry)
      {
        EntryAfterPut(rows[..n], row, key, rank, entry);
      }
    }
  }

  lemma {:induction false} EntryAfterPut<K>(rows: seq<Row>, row: Row, key: Row -> K, rank: Row -> int, entry: Row)
    requires
      var before := Best(rows, key, rank);
      && OnePerKey(before, key)
      && (forall r | r in rows :: HasKey(before, key, key(r)))
      && (forall e | e in before :: HoldsFirstBest(rows, key, rank, e))
      && entry in Put(before, row, key, rank)
    ensures HoldsFirstBest(rows + [row], key, rank, entry)
  {
    var before := Best(rows, key, rank);
    var i := Find(before, key, key(row));
    if i == |before| {
      forall j | 0 <= j < |rows|
        ensures key(rows[j]) != key(row)
      {
        assert rows[j] in rows && HasKey(before, key, key(rows[j]));
      }
      if entry in before {
        assert HoldsFirstBest(rows, key, rank, entry);
        FirstBestLasts(rows, row, key, rank, entry);
      } else {
        NewFirstBest(rows, row, key, rank);
      }
    } else if rank(row) > rank(before[i]) {
      EntryAfterReplacing(rows, row, key, rank, before, i, entry);
    } else {
      EntryAfterKeeping(rows, row, key, rank, before, i, entry);
    }
  }

  lemma EntryAfterReplacing<K>(
      rows: seq<Row>, row: Row, key: Row -> K, rank: Row -> int, before: seq<Row>, i: nat, entry: Row)
    requires OnePerKey(before, key) && forall e | e in before :: HoldsFirstBest(rows, key, rank, e)
    requires i < |before| && key(before[i]) == key(row) && rank(row) > rank(before[i]) && entry in before[i := row]
    ensures HoldsFirstBest(rows + [row], key, rank, entry)
  {
    var k :| 0 <= k < |before| && before[i := row][k] == entry;
    if k == i {
      assert before[i] in before;
      var j :| IsFirstBest(rows, key, rank, j) && rows[j] == before[i];
      NewFirstBest(rows, row, key, rank);
    } else {
      assert entry == before[k] && entry in before && key(entry) != key(row);
      FirstBestLasts(rows, row, key, rank, entry);
    }
  }

  lemma EntryAfterKeeping<K>(
      rows: seq<Row>, row: Row, key: Row -> K, rank: Row -> int, before: seq<Row>, i: nat, entry: Row)
    requires OnePerKey(before, key) && forall e | e in before :: HoldsFirstBest(rows, key, rank, e)
    requires i < |before| && key(before[i]) == key(row) && rank(row) <= rank(before[i]) && entry in before
    ensures HoldsFirstBest(rows + [row], key, rank, entry)
  {
    var k :| 0 <= k < |before| && before[k] == entry;
    assert key(entry) == key(row) ==> k == i;
    FirstBestLasts(rows, row, key, rank, entry);
  }

  /** The key of the first row comes first. */
  lemma {:induction false} BestHead<K>(rows: seq<Row>, key: Row -> K, rank: Row -> int)
    requires rows != []
    ensures Best(rows, key, rank) != [] && key(Best(rows, key, rank)[0]) == key(rows[0])
  {
    if |rows| > 1 {
      BestHead(rows[..|rows| - 1], key, rank);
    } else {
      assert Best(rows[..0], key, rank) == [];
    }
  }

  lemma EntryIsBest<K>(rows: seq<Row>, key: Row -> K, rank: Row -> int, entry: Row, other: Row)
    requires entry in Best(rows, key, rank)
    ensures entry in rows && (other in rows && key(other) == key(entry) ==> rank(other) <= rank(entry))
  {
    BestIs(rows, key, rank);
    var i :| IsFirstBest(rows, key, rank, i) && rows[i] == entry;
    if other in rows && key(other) == key(entry) {
      var j :| 0 <= j < |rows| && rows[j] == other;
    }
  }

  lemma EntryOf<K>(rows: seq<Row>, key: Row -> K, rank: Row -> int, row: Row) returns (entry: Row)
    requires row in rows
    ensures entry in Best(rows, key, rank) && key(entry) == key(row)
  {
    BestIs(rows, key, rank);
    var i :| 0 <= i < |Best(rows, key, rank)| && key(Best(rows, key, rank)[i]) == key(row);
    entry := Best(rows, key, rank)[i];
  }

  /** Of equals the first wins. */
  lemma HeadWins<K>(rows: seq<Row>, key: Row -> K, rank: Row -> int)
    requires rows != [] && forall other | other in rows && key(other) == key(rows[0]) :: rank(other) <= rank(rows[0])
    ensures Best(rows, key, rank) != [] && Best(rows, key, rank)[0] == rows[0]
  {
    BestHead(rows, key, rank);
    BestIs(rows, key, rank);
    var entry := Best(rows, key, rank)[0];
    assert HoldsFirstBest(rows, key, rank, entry);
    var i :| IsFirstBest(rows, key, rank, i) && rows[i] == entry;
    assert rows[i] in rows && key(rows[0]) == key(rows[i]);
  }
}

/** Writing to and reading from the append-only history. */
module ObservationStore {
  import opened Wrappers
  import opened Domain
  import opened ObservationTable

  datatype RecordResult = Stored(row: Row, created: bool, correction: bool) | RevisionRaceExhausted

  /** What other writers commit around each statement of one `record` call, statement by statement. */
  type Rivals = nat -> seq<ObservationInput>

  function RivalsOnly(rows: seq<Row>, rivals: Rivals, n: nat): seq<Row> {
    if n == 0 then rows else LandAll(RivalsOnly(rows, rivals, n - 1), rivals(n - 1))
  }

  predicate Alone(rivals: Rivals, n: nat) {
    forall i: nat | i < n :: rivals(i) == []
  }

  lemma {:induction false} RivalsOnlyKeepsSound(rows: seq<Row>, rivals: Rivals, n: nat)
    requires Sound(rows)
    ensures Sound(RivalsOnly(rows, rivals, n)) && rows <= RivalsOnly(rows, rivals, n)
    ensures Alone(rivals, n) ==> RivalsOnly(rows, rivals, n) == rows
  {
    if n > 0 {
      RivalsOnlyKeepsSound(rows, rivals, n - 1);
      LandAllKeepsSound(RivalsOnly(rows, rivals, n - 1), rivals(n - 1));
    }
  }

  /** Some rival's call asked for the row. */
  ghost predicate FromRivals(row: Row, rivals: Rivals) {
    exists n: nat, k: nat | k < |rivals(n)| :: RowFor(row, rivals(n)[k])
  }

  lemma {:induction false} LandAllRows(rows: seq<Row>, inputs: seq<ObservationInput>)
    ensures rows <= LandAll(rows, inputs)
    ensures forall p | |rows| <= p < |LandAll(rows, inputs)| ::
      exists k | 0 <= k < |inputs| :: RowFor(LandAll(rows, inputs)[p], inputs[k])
    decreases |inputs|
  {
    if inputs != [] {
      var n := |inputs| - 1;
      var before := LandAll(rows, inputs[..n]);
      LandAllRows(rows, inputs[..n]);
      forall p | |rows| <= p < |LandAll(rows, inputs)|
        ensures exists k | 0 <= k < |inputs| :: RowFor(LandAll(rows, inputs)[p], inputs[k])
      {
        if p < |before| {
          var k :| 0 <= k < n && RowFor(before[p], inputs[..n][k]);
          assert RowFor(LandAll(rows, inputs)[p], inputs[k]);
        } else {
          assert RowFor(LandAll(rows, inputs)[p], inputs[n]);
        }
      }
    }
  }

  /** Every row that is new when rivals are at work is a rival's. */
  lemma {:induction false} RivalsOnlyRows(rows: seq<Row>, rivals: Rivals, n: nat)
    ensures rows <= RivalsOnly(rows, rivals, n)
    ensures forall p | |rows| <= p < |RivalsOnly(rows, rivals, n)| :: FromRivals(RivalsOnly(rows, rivals, n)[p], rivals)
  {
    if n > 0 {
      var before := RivalsOnly(rows, rivals, n - 1);
      RivalsOnlyRows(rows, rivals, n - 1);
      LandAllRows(before, rivals(n - 1));
      var after := RivalsOnly(rows, rivals, n);
      forall p | |rows| <= p < |after|
        ensures FromRivals(after[p], rivals)
      {
        if p >= |before| {
          var k :| 0 <= k < |rivals(n - 1)| && RowFor(after[p], rivals(n - 1)[k]);
        } else {
          assert after[p] == before[p];
        }
      }
    }
  }

  /** Around the two statements of pass `k`. */
  lemma RivalsInOnePass(rows: seq<Row>, rivals: Rivals, k: nat)
    ensures RivalsOnly(rows, rivals, 2 * k + 1) == LandAll(RivalsOnly(rows, rivals, 2 * k), rivals(2 * k))
    ensures RivalsOnly(rows, rivals, 2 * (k + 1)) == LandAll(RivalsOnly(rows, rivals, 2 * k + 1), rivals(2 * k + 1))
    ensures Alone(rivals, 2) ==> rivals(0) == [] && rivals(1) == []
  {
  }

  /**
   A rejected insert proves that someone else added a row to the key since the read; an accepted one, that nobody
   did, and then it extends the chain.
   */
  lemma InsertAfterRead(read: seq<Row>, now: seq<Row>, data: ObservationInput)
    requires Sound(read) && Sound(now) && read <= now
    requires Current(read, data.key).Some? ==> !SameValue(Current(read, data.key).value, data)
    ensures
      var base := Current(read, data.key);
      var after := now + [Candidate(data, base)];
      if RevisionTaken(now, data.key, Candidate(data, base).revision)
      then |History(now, data.key)| > |History(read, data.key)|
      else
        && Sound(after)
        && |History(after, data.key)| == |History(now, data.key)| + 1
        && Current(after, data.key) == Some(Candidate(data, base))
        && (base.Some? <==> Candidate(data, base).revision > 1)
  {
    var base := Current(read, data.key);
    CurrentIsLast(read, data.key);
    TakenIsWithinChain(now, data.key, Candidate(data, base).revision);
    if !RevisionTaken(now, data.key, Candidate(data, base).revision) {
      PcSoundLasts(read, now, Inserting(0, base), data);
      InsertExtendsChain(now, data, base);
      HistorySnoc(now, Candidate(data, base), data.key);
      CurrentIsLast(now + [Candidate(data, base)], data.key);
    }
  }

  /** Last `session_date` stored for a listing: the recovery cursor. */
  function LastCompletedSession(rows: seq<Row>, source: string, scope: string, externalId: string, kind: ObservationType)
    : (last: Option<Date>)
    ensures last.None? ==> forall row | row in rows :: row.key != Key(source, scope, externalId, row.key.date, kind)
    ensures last.Some? ==>
      && (exists row | row in rows :: row.key == Key(source, scope, externalId, last.value, kind))
      && (forall row | row in rows && row.key == Key(source, scope, externalId, row.key.date, kind) :: row.key.date <= last.value)
  {
    if rows == [] then None
    else
      var before := LastCompletedSession(rows[..|rows| - 1], source, scope, externalId, kind);
      var row := rows[|rows| - 1];
      assert rows == rows[..|rows| - 1] + [row];
      if row.key == Key(source, scope, externalId, row.key.date, kind) && (before.None? || before.value < row.key.date)
      then Some(row.key.date)
      else before
  }

  /** The stored row carries the asked value and is the current revision; a correction is a new row after another. */
  predicate Matches(rows: seq<Row>, data: ObservationInput, result: RecordResult)
    requires result.Stored?
  {
    && result.row.key == data.key && SameValue(result.row, data)
    && Current(rows, data.key) == Some(result.row)
    && (result.correction <==> result.created && result.row.revision > 1)
    && (result.created ==> RowFor(result.row, data))
  }

  /** What `record` does when nobody else writes. */
  predicate Undisturbed(before: seq<Row>, after: seq<Row>, data: ObservationInput, result: RecordResult) {
    result.Stored? && after == Land(before, data) && (result.created <==> after != before)
  }

  class ObservationStore {
    var rows: seq<Row>

    constructor ()
      ensures rows == [] && Sound(rows)
    {
      rows := [];
    }

    /** Other writers' calls of `record`, each one complete. */
    method Interleave(inputs: seq<ObservationInput>)
      requires Sound(rows)
      modifies this
      ensures rows == LandAll(old(rows), inputs)
      ensures Sound(rows) && old(rows) <= rows
    {
      LandAllKeepsSound(rows, inputs);
      rows := LandAll(rows, inputs);
    }

    /** One pass of the loop: read, let others in, insert. `None` when the unique constraint rejects the insert. */
    method Attempt(data: ObservationInput, rivals: Rivals, k: nat, ghost start: seq<Row>)
      returns (stored: Option<RecordResult>)
      requires Sound(rows) && rows == RivalsOnly(start, rivals, 2 * k)
      modifies this
      ensures Sound(rows) && old(rows) <= rows
      ensures stored.Some? ==> stored.value.Stored? && Matches(rows, data, stored.value)
      ensures
        if stored.Some? && !stored.value.created then rows == RivalsOnly(start, rivals, 2 * k + 1)
        else if stored.Some? then rows == RivalsOnly(start, rivals, 2 * (k + 1)) + [stored.value.row]
        else rows == RivalsOnly(start, rivals, 2 * (k + 1))
      ensures
        |History(rows, data.key)| >=
          |History(old(rows), data.key)| + if stored.Some? && !stored.value.created then 0 else 1
      ensures k == 0 && Alone(rivals, 2) ==> stored.Some? && Undisturbed(start, rows, data, stored.value)
    {
      RivalsInOnePass(start, rivals, k);
      Interleave(rivals(2 * k));
      HistoryGrows(old(rows), rows, data.key);
      CurrentIsLast(rows, data.key);
      var current := Current(rows, data.key);
      if current.Some? && SameValue(current.value, data) {
        HistoryOfCurrent(rows, data.key);
        return Some(Stored(current.value, false, false));
      }
      ghost var read := rows;
      Interleave(rivals(2 * k + 1));
      HistoryGrows(read, rows, data.key);
      InsertAfterRead(read, rows, data);
      var candidate := Candidate(data, current);
      if RevisionTaken(rows, data.key, candidate.revision) {
        TakenIsWithinChain(rows, data.key, candidate.revision);
        return None;
      }
      rows := rows + [candidate];
      stored := Some(Stored(candidate, true, current.Some?));
    }

    /**
     The optimistic revision loop: read the current revision, try to insert the next one, start over when the
     unique constraint rejects it. Each failed attempt is paid for by a row that someone else added to the key,
     so running out of attempts takes at least eight of them; the call itself adds at most its own row.
     */
    method Record(data: ObservationInput, rivals: Rivals) returns (result: RecordResult, attempts: nat)
      requires Sound(rows)
      modifies this
      ensures Sound(rows) && old(rows) <= rows
      ensures 1 <= attempts <= MAX_REVISION_ATTEMPTS
      ensures
        var others := RivalsOnly(old(rows), rivals, if result.Stored? && !result.created then 2 * attempts - 1 else 2 * attempts);
        rows == if result.Stored? && result.created then others + [result.row] else others
      ensures result.Stored? ==> Matches(rows, data, result)
      ensures result.RevisionRaceExhausted? ==> attempts == MAX_REVISION_ATTEMPTS
      ensures
        |History(rows, data.key)| >=
          |History(old(rows), data.key)| + if result.Stored? && !result.created then attempts - 1 else attempts
      ensures Alone(rivals, 2) ==> attempts == 1 && Undisturbed(old(rows), rows, data, result)
    {
      attempts := 0;
      while attempts < MAX_REVISION_ATTEMPTS
        invariant 0 <= attempts <= MAX_REVISION_ATTEMPTS
        invariant Sound(rows) && old(rows) <= rows
        invariant rows == RivalsOnly(old(rows), rivals, 2 * attempts)
        invariant |History(rows, data.key)| >= |History(old(rows), data.key)| + attempts
        invariant Alone(rivals, 2) ==> attempts == 0
      {
        var stored := Attempt(data, rivals, attempts, old(rows));
        attempts := attempts + 1;
        if stored.Some? {
          result := stored.value;
          return;
        }
      }
      result := RevisionRaceExhausted;
    }

    method CurrentForKey(key: Key) returns (row: Option<Row>)
      requires Sound(rows)
      ensures row.None? <==> forall other | other in rows :: other.key != key
      ensures row.Some? ==>
        && row.value in rows && row.value.key == key
        && forall other | other in rows && other.key == key :: other.revision <= row.value.revision
    {
      row := Current(rows, key);
      HistoryOfCurrent(rows, key);
    }
  }

  lemma HistoryOfCurrent(rows: seq<Row>, key: Key)
    requires Sound(rows)
    ensures Current(rows, key).None? <==> forall other | other in rows :: other.key != key
    ensures Current(rows, key).Some? ==>
      && Current(rows, key).value in rows && Current(rows, key).value.key == key
      && forall other | other in rows && other.key == key :: other.revision <= Current(rows, key).value.revision
  {
    var h := History(rows, key);
    assert Chain(h);
    CurrentIsLast(rows, key);
    if h != [] {
      HistoryMembers(rows, key, h[|h| - 1]);
    }
    forall other | other in rows && other.key == key
      ensures other in h
    {
      HistoryMembers(rows, key, other);
    }
  }
}

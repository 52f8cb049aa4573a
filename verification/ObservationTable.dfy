/** The append-only `observations` table: its unique constraint, its queries, and one write attempt as small steps. */
module ObservationTable {
  import opened Wrappers
  import opened Domain

  const MAX_REVISION_ATTEMPTS := 8

  function UpperChar(c: char): char {
    if 'a' <= c <= 'z' then (c as int - 'a' as int + 'A' as int) as char else c
  }

  function Upper(s: string): (u: string)
    ensures |u| == |s|
  {
    seq(|s|, i requires 0 <= i < |s| => UpperChar(s[i]))
  }

  /** The value as it is stored and compared: the currency in upper case. */
  function Normal(value: Value): Value {
    value.(currency := Upper(value.currency))
  }

  /** The rows of one natural key, in the order in which they were inserted. */
  function History(rows: seq<Row>, key: Key): seq<Row> {
    if rows == [] then []
    else
      var before := History(rows[..|rows| - 1], key);
      var last := rows[|rows| - 1];
      if last.key == key then before + [last] else before
  }

  /** The row with the highest revision of the key. */
  function Current(rows: seq<Row>, key: Key): Option<Row> {
    if rows == [] then None
    else
      var before := Current(rows[..|rows| - 1], key);
      var last := rows[|rows| - 1];
      if last.key == key && (before.None? || before.value.revision < last.revision) then Some(last) else before
  }

  predicate RevisionTaken(rows: seq<Row>, key: Key, revision: nat) {
    exists row | row in rows :: row.key == key && row.revision == revision
  }

  predicate SameValue(existing: Row, data: ObservationInput) {
    existing.value == Normal(data.value)
  }

  function Candidate(data: ObservationInput, base: Option<Row>): Row {
    Row(data.key, if base.None? then 1 else base.value.revision + 1, Normal(data.value),
        data.listing, data.retrievedAt, data.retrieval, data.storage)
  }

  /** The row carries what the input asks to store. */
  predicate RowFor(row: Row, data: ObservationInput) {
    row == Candidate(data, None).(revision := row.revision)
  }

  // ---------------------------------------------------------------- one writer, read and insert apart

  /** Where one call of `record` stands. `base` is the row it read before it tries to insert. */
  datatype RecordPc =
    | Reading(attempt: nat)
    | Inserting(attempt: nat, base: Option<Row>)
    | Recorded(row: Row, created: bool, correction: bool)
    | Exhausted

  datatype Outcome = Outcome(rows: seq<Row>, pc: RecordPc)

  /** One read, or one insert that the unique constraint accepts or rejects. */
  function RecordStep(rows: seq<Row>, pc: RecordPc, data: ObservationInput): Outcome {
    match pc
    case Reading(attempt) =>
      if attempt >= MAX_REVISION_ATTEMPTS then Outcome(rows, Exhausted)
      else
        var current := Current(rows, data.key);
        if current.Some? && SameValue(current.value, data)
        then Outcome(rows, Recorded(current.value, false, false))
        else Outcome(rows, Inserting(attempt, current))
    case Inserting(attempt, base) =>
      var candidate := Candidate(data, base);
      if RevisionTaken(rows, data.key, candidate.revision)
      then Outcome(rows, Reading(attempt + 1))
      else Outcome(rows + [candidate], Recorded(candidate, true, base.Some?))
    case _ => Outcome(rows, pc)
  }

  /** One call of `record` that nobody interrupts. */
  function Land(rows: seq<Row>, data: ObservationInput): seq<Row> {
    var current := Current(rows, data.key);
    if current.Some? && SameValue(current.value, data) then rows else rows + [Candidate(data, current)]
  }

  function LandAll(rows: seq<Row>, inputs: seq<ObservationInput>): seq<Row> {
    if inputs == [] then rows
    else Land(LandAll(rows, inputs[..|inputs| - 1]), inputs[|inputs| - 1])
  }

  // ---------------------------------------------------------------- the store invariant

  /** Revisions 1, 2, ... without gap or duplicate, and no revision repeats the value before it. */
  predicate Chain(h: seq<Row>) {
    && (forall i | 0 <= i < |h| :: h[i].revision == i + 1)
    && (forall i | 0 < i < |h| :: h[i].value != h[i - 1].value)
  }

  ghost predicate Sound(rows: seq<Row>) {
    forall key :: Chain(History(rows, key))
  }

  /** What a writer read is still a row of the chain. */
  predicate Grounded(rows: seq<Row>, key: Key, base: Option<Row>) {
    var h := History(rows, key);
    base.Some? ==> 1 <= base.value.revision <= |h| && h[base.value.revision - 1] == base.value
  }

  /** A writer between its read and its insert has read a row of the chain that its own value does not repeat. */
  predicate PcSound(rows: seq<Row>, pc: RecordPc, data: ObservationInput) {
    match pc
    case Inserting(_, base) => Grounded(rows, data.key, base) && (base.Some? ==> base.value.value != Normal(data.value))
    case Recorded(row, _, _) => row in rows && row.key == data.key && row.value == Normal(data.value)
    case _ => true
  }

  lemma HistorySnoc(rows: seq<Row>, row: Row, key: Key)
    ensures History(rows + [row], key) == if row.key == key then History(rows, key) + [row] else History(rows, key)
  {
    assert (rows + [row])[..|rows|] == rows;
  }

  lemma {:induction false} HistoryMembers(rows: seq<Row>, key: Key, row: Row)
    ensures row in History(rows, key) <==> row in rows && row.key == key
  {
    if rows != [] {
      HistoryMembers(rows[..|rows| - 1], key, row);
      assert rows == rows[..|rows| - 1] + [rows[|rows| - 1]];
    }
  }

  lemma {:induction false} HistoryGrows(rows: seq<Row>, later: seq<Row>, key: Key)
    requires rows <= later
    ensures History(rows, key) <= History(later, key)
    decreases |later|
  {
    if |rows| < |later| {
      HistoryGrows(rows, later[..|later| - 1], key);
    } else {
      assert rows == later;
    }
  }

  /** The row `current_for_key` returns is the last of the chain: the highest revision is the newest row. */
  lemma {:induction false} CurrentIsLast(rows: seq<Row>, key: Key)
    requires Chain(History(rows, key))
    ensures
      var h := History(rows, key);
      Current(rows, key) == if h == [] then None else Some(h[|h| - 1])
  {
    if rows != [] {
      var h := History(rows, key);
      var before := rows[..|rows| - 1];
      var g := History(before, key);
      assert forall i | 0 <= i < |g| :: g[i] == h[i];
      CurrentIsLast(before, key);
    }
  }

  lemma TakenIsWithinChain(rows: seq<Row>, key: Key, revision: nat)
    requires Chain(History(rows, key))
    ensures RevisionTaken(rows, key, revision) <==> 1 <= revision <= |History(rows, key)|
  {
    var h := History(rows, key);
    if RevisionTaken(rows, key, revision) {
      var row :| row in rows && row.key == key && row.revision == revision;
      HistoryMembers(rows, key, row);
    }
    if 1 <= revision <= |h| {
      assert h[revision - 1] in h;
      HistoryMembers(rows, key, h[revision - 1]);
    }
  }

  /** The unique constraint lets exactly the next revision in, whatever the writer read before. */
  lemma InsertExtendsChain(rows: seq<Row>, data: ObservationInput, base: Option<Row>)
    requires Sound(rows) && PcSound(rows, Inserting(0, base), data)
    requires !RevisionTaken(rows, data.key, Candidate(data, base).revision)
    ensures base == Current(rows, data.key)
    ensures Sound(rows + [Candidate(data, base)])
  {
    var h := History(rows, data.key);
    var row := Candidate(data, base);
    TakenIsWithinChain(rows, data.key, row.revision);
    CurrentIsLast(rows, data.key);
    assert row.revision == |h| + 1;
    forall key
      ensures Chain(History(rows + [row], key))
    {
      HistorySnoc(rows, row, key);
      assert Chain(History(rows, key));
    }
  }

  /** Every small step of every writer keeps the chain, and only ever appends. */
  lemma RecordStepKeepsSound(rows: seq<Row>, pc: RecordPc, data: ObservationInput)
    requires Sound(rows) && PcSound(rows, pc, data)
    ensures
      var after := RecordStep(rows, pc, data);
      Sound(after.rows) && rows <= after.rows && PcSound(after.rows, after.pc, data)
  {
    var h := History(rows, data.key);
    CurrentIsLast(rows, data.key);
    if h != [] {
      assert h[|h| - 1] in h;
      HistoryMembers(rows, data.key, h[|h| - 1]);
    }
    if pc.Inserting? && !RevisionTaken(rows, data.key, Candidate(data, pc.base).revision) {
      InsertExtendsChain(rows, data, pc.base);
    }
  }

  /** Other writers' rows do not disturb what a writer read or wrote. */
  lemma PcSoundLasts(rows: seq<Row>, later: seq<Row>, pc: RecordPc, data: ObservationInput)
    requires PcSound(rows, pc, data) && rows <= later
    ensures PcSound(later, pc, data)
  {
    HistoryGrows(rows, later, data.key);
  }

  /** The read of a call on an undisturbed store: it ends there, or goes on with what is current. */
  lemma LandReads(rows: seq<Row>, data: ObservationInput)
    requires Sound(rows)
    ensures
      var read := RecordStep(rows, Reading(0), data);
      && read.rows == rows
      && (read.pc.Recorded? <==> Land(rows, data) == rows)
      && (read.pc.Recorded? ==> Current(rows, data.key).Some? && SameValue(Current(rows, data.key).value, data))
      && (!read.pc.Recorded? ==>
            && read.pc == Inserting(0, Current(rows, data.key)) && PcSound(rows, read.pc, data)
            && Land(rows, data) == rows + [Candidate(data, Current(rows, data.key))])
  {
    RecordStepKeepsSound(rows, Reading(0), data);
  }

  /** The insert of such a call is accepted, and its row is the current one afterwards. */
  lemma LandInserts(rows: seq<Row>, data: ObservationInput)
    requires Sound(rows) && PcSound(rows, Inserting(0, Current(rows, data.key)), data)
    ensures
      var candidate := Candidate(data, Current(rows, data.key));
      && !RevisionTaken(rows, data.key, candidate.revision)
      && Sound(rows + [candidate])
      && Current(rows + [candidate], data.key) == Some(candidate)
  {
    var candidate := Candidate(data, Current(rows, data.key));
    CurrentIsLast(rows, data.key);
    TakenIsWithinChain(rows, data.key, candidate.revision);
    InsertExtendsChain(rows, data, Current(rows, data.key));
    HistorySnoc(rows, candidate, data.key);
    CurrentIsLast(rows + [candidate], data.key);
  }

  /** An uninterrupted call is a read step followed by an insert step, and needs one attempt. */
  lemma LandIsTwoSteps(rows: seq<Row>, data: ObservationInput)
    requires Sound(rows)
    ensures Sound(Land(rows, data)) && rows <= Land(rows, data)
    ensures
      var read := RecordStep(rows, Reading(0), data);
      var done := RecordStep(read.rows, read.pc, data);
      done.rows == Land(rows, data) && done.pc.Recorded?
    ensures Current(Land(rows, data), data.key).Some?
    ensures SameValue(Current(Land(rows, data), data.key).value, data)
  {
    LandReads(rows, data);
    if !RecordStep(rows, Reading(0), data).pc.Recorded? {
      LandInserts(rows, data);
    }
  }

  lemma {:induction false} LandAllKeepsSound(rows: seq<Row>, inputs: seq<ObservationInput>)
    requires Sound(rows)
    ensures Sound(LandAll(rows, inputs)) && rows <= LandAll(rows, inputs)
    decreases |inputs|
  {
    if inputs != [] {
      LandAllKeepsSound(rows, inputs[..|inputs| - 1]);
      LandIsTwoSteps(LandAll(rows, inputs[..|inputs| - 1]), inputs[|inputs| - 1]);
    }
  }
}

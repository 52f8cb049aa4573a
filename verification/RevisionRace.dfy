/** Any number of writers inside `record` at once, their reads and inserts interleaved in any order. */
module RevisionRace {
  import opened Wrappers
  import opened Domain
  import opened ObservationTable

  type WriterId = nat

  /** One call of `record`; `since` is how many rows its key had when the call began. */
  datatype Writer = Writer(data: ObservationInput, pc: RecordPc, since: nat)

  /** `authors[i]` is the writer of `rows[i]`, or `None` for a row that was there before. */
  datatype State = State(rows: seq<Row>, authors: seq<Option<WriterId>>, writers: map<WriterId, Writer>)

  datatype Event = Begin(writer: WriterId, data: ObservationInput) | Advance(writer: WriterId)

  function Step(s: State, e: Event): State {
    match e
    case Begin(w, data) =>
      if w in s.writers then s
      else s.(writers := s.writers[w := Writer(data, Reading(0), |History(s.rows, data.key)|)])
    case Advance(w) =>
      if w !in s.writers then s
      else
        var writer := s.writers[w];
        var after := RecordStep(s.rows, writer.pc, writer.data);
        State(after.rows,
              if after.rows == s.rows then s.authors else s.authors + [Some(w)],
              s.writers[w := writer.(pc := after.pc)])
  }

  function Run(s: State, events: seq<Event>): State {
    if events == [] then s else Step(Run(s, events[..|events| - 1]), events[|events| - 1])
  }

  /** A store that earlier calls left behind, with nobody inside `record`. */
  ghost predicate Quiet(s: State) {
    Sound(s.rows) && |s.authors| == |s.rows| && s.writers == map[]
    && forall i | 0 <= i < |s.authors| :: s.authors[i].None?
  }

  /** Failed attempts so far are covered by rows that appeared on the key since the call began. */
  predicate Paid(rows: seq<Row>, writer: Writer) {
    var size := |History(rows, writer.data.key)|;
    match writer.pc
    case Reading(attempt) => attempt <= MAX_REVISION_ATTEMPTS && size >= writer.since + attempt
    case Inserting(attempt, base) =>
      && attempt < MAX_REVISION_ATTEMPTS
      && (if base.None? then 0 else base.value.revision) >= writer.since + attempt
    case Exhausted => size >= writer.since + MAX_REVISION_ATTEMPTS
    case Recorded(_, _, _) => true
  }

  predicate Authored(s: State) {
    && |s.authors| == |s.rows|
    && forall i | 0 <= i < |s.rows| && s.authors[i].Some? ::
         && s.authors[i].value in s.writers
         && s.writers[s.authors[i].value].pc.Recorded?
         && s.writers[s.authors[i].value].pc.created
         && s.writers[s.authors[i].value].pc.row == s.rows[i]
  }

  ghost predicate Inv(s: State) {
    && Sound(s.rows)
    && Authored(s)
    && forall w | w in s.writers ::
         PcSound(s.rows, s.writers[w].pc, s.writers[w].data) && Paid(s.rows, s.writers[w])
  }

  lemma AdvanceKeepsPaid(rows: seq<Row>, writer: Writer)
    requires Sound(rows) && PcSound(rows, writer.pc, writer.data) && Paid(rows, writer)
    ensures
      var after := RecordStep(rows, writer.pc, writer.data);
      Paid(after.rows, writer.(pc := after.pc))
  {
    CurrentIsLast(rows, writer.data.key);
    if writer.pc.Inserting? {
      TakenIsWithinChain(rows, writer.data.key, Candidate(writer.data, writer.pc.base).revision);
    }
  }

  lemma OthersStayPaid(rows: seq<Row>, later: seq<Row>, writer: Writer)
    requires rows <= later && PcSound(rows, writer.pc, writer.data) && Paid(rows, writer)
    ensures PcSound(later, writer.pc, writer.data) && Paid(later, writer)
  {
    PcSoundLasts(rows, later, writer.pc, writer.data);
    HistoryGrows(rows, later, writer.data.key);
  }

  lemma AdvanceKeepsAuthored(s: State, w: WriterId)
    requires Authored(s) && w in s.writers
    ensures Authored(Step(s, Advance(w)))
  {
    var t := Step(s, Advance(w));
    forall i | 0 <= i < |t.rows| && t.authors[i].Some?
      ensures
        && t.authors[i].value in t.writers
        && t.writers[t.authors[i].value].pc.Recorded?
        && t.writers[t.authors[i].value].pc.created
        && t.writers[t.authors[i].value].pc.row == t.rows[i]
    {
      if i < |s.rows| {
        assert t.authors[i] == s.authors[i] && t.rows[i] == s.rows[i];
      }
    }
  }

  lemma StepKeepsInv(s: State, e: Event)
    requires Inv(s)
    ensures Inv(Step(s, e)) && s.rows <= Step(s, e).rows
  {
    var t := Step(s, e);
    if e.Advance? && e.writer in s.writers {
      var mover := s.writers[e.writer];
      RecordStepKeepsSound(s.rows, mover.pc, mover.data);
      AdvanceKeepsPaid(s.rows, mover);
      AdvanceKeepsAuthored(s, e.writer);
      forall w | w in t.writers
        ensures PcSound(t.rows, t.writers[w].pc, t.writers[w].data) && Paid(t.rows, t.writers[w])
      {
        if w != e.writer {
          OthersStayPaid(s.rows, t.rows, s.writers[w]);
        }
      }
    }
  }

  /** However the writers interleave: no gap, no duplicate, no repeated value, no row changed. */
  lemma {:induction false} RaceKeepsTheChain(s: State, events: seq<Event>)
    requires Quiet(s)
    ensures Inv(Run(s, events)) && s.rows <= Run(s, events).rows
    decreases |events|
  {
    if events != [] {
      RaceKeepsTheChain(s, events[..|events| - 1]);
      StepKeepsInv(Run(s, events[..|events| - 1]), events[|events| - 1]);
    }
  }

  /** A writer that gave up saw at least eight rows land on its key, none of them its own. */
  lemma ExhaustionNeedsEightRivalRows(s: State, events: seq<Event>, w: WriterId)
    requires Quiet(s) && w in Run(s, events).writers && Run(s, events).writers[w].pc.Exhausted?
    ensures
      var t := Run(s, events);
      && |History(t.rows, t.writers[w].data.key)| >= t.writers[w].since + MAX_REVISION_ATTEMPTS
      && Some(w) !in t.authors
  {
    RaceKeepsTheChain(s, events);
  }

  /** Each failed attempt of a writer still at work has its own rival row. */
  lemma FailedAttemptsArePaidFor(s: State, events: seq<Event>, w: WriterId)
    requires Quiet(s) && w in Run(s, events).writers
    requires Run(s, events).writers[w].pc.Reading? || Run(s, events).writers[w].pc.Inserting?
    ensures
      var t := Run(s, events);
      && |History(t.rows, t.writers[w].data.key)| >= t.writers[w].since + t.writers[w].pc.attempt
      && Some(w) !in t.authors
  {
    RaceKeepsTheChain(s, events);
  }

  // ---------------------------------------------------------------- writers that agree

  function LastOf(h: seq<Row>): Option<Row> {
    if h == [] then None else Some(h[|h| - 1])
  }

  predicate Agrees(e: Event, key: Key, value: Value) {
    e.Begin? && e.data.key == key ==> Normal(e.data.value) == value
  }

  predicate OneMore(h: seq<Row>, value: Value, first: seq<Row>) {
    h == first || (|h| == |first| + 1 && first <= h && h[|first|].value == value)
  }

  predicate SettlesSoon(h: seq<Row>, value: Value, first: seq<Row>, writer: Writer) {
    && Normal(writer.data.value) == value
    && match writer.pc
       case Reading(attempt) => attempt == 0 || (attempt == 1 && h != first)
       case Inserting(attempt, base) => attempt == 0 && base == LastOf(first)
       case Recorded(_, _, _) => true
       case Exhausted => false
  }

  /** At most one row was added to `first`, and every writer is done after at most two reads. */
  predicate Settling(s: State, key: Key, value: Value, first: seq<Row>) {
    var h := History(s.rows, key);
    && OneMore(h, value, first)
    && forall w | w in s.writers && s.writers[w].data.key == key :: SettlesSoon(h, value, first, s.writers[w])
  }

  lemma AgreeingMover(rows: seq<Row>, writer: Writer, value: Value, first: seq<Row>)
    requires Sound(rows) && PcSound(rows, writer.pc, writer.data)
    requires OneMore(History(rows, writer.data.key), value, first)
    requires SettlesSoon(History(rows, writer.data.key), value, first, writer)
    ensures
      var after := RecordStep(rows, writer.pc, writer.data);
      var h := History(after.rows, writer.data.key);
      && OneMore(h, value, first)
      && SettlesSoon(h, value, first, writer.(pc := after.pc))
      && (History(rows, writer.data.key) != first ==> h != first)
  {
    CurrentIsLast(rows, writer.data.key);
    if writer.pc.Inserting? {
      var candidate := Candidate(writer.data, writer.pc.base);
      TakenIsWithinChain(rows, writer.data.key, candidate.revision);
      HistorySnoc(rows, candidate, writer.data.key);
    }
  }

  lemma OtherKeyUntouched(rows: seq<Row>, writer: Writer, key: Key)
    requires writer.data.key != key
    ensures History(RecordStep(rows, writer.pc, writer.data).rows, key) == History(rows, key)
  {
    if writer.pc.Inserting? {
      var candidate := Candidate(writer.data, writer.pc.base);
      assert candidate.key == writer.data.key;
      HistorySnoc(rows, candidate, key);
      assert RecordStep(rows, writer.pc, writer.data).rows in {rows, rows + [candidate]};
    }
  }

  lemma AgreeingStep(s: State, e: Event, key: Key, value: Value, first: seq<Row>)
    requires Inv(s) && Settling(s, key, value, first) && Agrees(e, key, value)
    ensures Settling(Step(s, e), key, value, first)
  {
    if e.Advance? && e.writer in s.writers {
      var mover := s.writers[e.writer];
      if mover.data.key == key {
        AgreeingMover(s.rows, mover, value, first);
      } else {
        OtherKeyUntouched(s.rows, mover, key);
      }
    }
  }

  /** Any number of writers of one value add at most one row between them, and none reads more than twice. */
  lemma {:induction false} AgreeingWritersAddOneRow(s: State, events: seq<Event>, key: Key, value: Value)
    requires Quiet(s) && forall e | e in events :: Agrees(e, key, value)
    ensures Settling(Run(s, events), key, value, History(s.rows, key))
    ensures |History(Run(s, events).rows, key)| <= |History(s.rows, key)| + 1
    decreases |events|
  {
    if events != [] {
      var before := events[..|events| - 1];
      RaceKeepsTheChain(s, before);
      AgreeingWritersAddOneRow(s, before, key, value);
      AgreeingStep(Run(s, before), events[|events| - 1], key, value, History(s.rows, key));
    }
  }
}

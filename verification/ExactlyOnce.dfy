/** What holds over whole runs of the engine: nothing is lost, nothing is doubled, and every row can be accounted for. */
module ExactlyOnce {
  import opened Wrappers
  import opened Domain
  import opened JobTable
  import opened ObservationTable
  import opened Governance
  import opened Validation
  import opened IngestionSystem
  import Q = QueueProtocol

  predicate LegalRun(events: seq<Event>) {
    forall e | e in events :: Legal(e)
  }

  function Run(s: State, events: seq<Event>): State {
    if events == [] then s else Step(Run(s, events[..|events| - 1]), events[|events| - 1])
  }

  /** Every state of every run of the engine satisfies its invariant. */
  lemma {:induction false} RunKeepsInv(s: State, events: seq<Event>)
    requires Inv(s) && LegalRun(events)
    ensures Inv(Run(s, events))
    decreases |events|
  {
    if events != [] {
      RunKeepsInv(s, events[..|events| - 1]);
      StepKeepsInv(Run(s, events[..|events| - 1]), events[|events| - 1]);
    }
  }

  // ---------------------------------------------------------------- nothing is lost

  ghost predicate Extends(before: State, after: State) {
    Evolves(before.q.jobs, after.q.jobs) && before.rows <= after.rows && before.decisions <= after.decisions
  }

  lemma GateExtends(s: State, h: Q.HolderId)
    requires LinkedRuns(s.q, s.runs)
    ensures Extends(s, Step(s, Gate(h)))
  {
  }

  lemma FetchExtends(s: State, h: Q.HolderId, response: seq<RawObservation>, now: Instant)
    requires LinkedRuns(s.q, s.runs)
    ensures Extends(s, Step(s, Fetch(h, response, now)))
  {
  }

  lemma QueueExtends(s: State, move: Q.Event)
    requires LinkedRuns(s.q, s.runs)
    ensures Extends(s, Step(s, Queue(move)))
  {
    Q.StepExtends(s.q, move);
  }

  lemma ReviewExtends(s: State, readAt: nat, source: string, capability: Capability, status: PolicyStatus)
    requires LinkedRuns(s.q, s.runs) && Versioned(s.decisions)
    ensures Extends(s, Step(s, Review(readAt, source, capability, status)))
  {
    if readAt <= |s.decisions| {
      DecideKeepsVersioned(s.decisions, readAt, source, capability, status);
    }
  }

  lemma AdvanceExtends(s: State, h: Q.HolderId)
    requires Sound(s.rows) && RunsSound(s)
    ensures Extends(s, Step(s, Advance(h)))
  {
    if Advancing(s, h) {
      AdvanceIsSound(s, h);
    }
  }

  /** A step that presents one transition, or nothing at all, and leaves store and policy log alone. */
  lemma PresentingExtends(s: State, t: State, h: Q.HolderId, update: Update)
    requires LinkedRuns(s.q, s.runs) && t.rows == s.rows && t.decisions == s.decisions
    requires t.q == s.q || t.q == Q.Step(s.q, Q.Present(h, update))
    ensures Extends(s, t)
  {
    Q.StepExtends(s.q, Q.Present(h, update));
  }

  lemma BeginExtends(s: State, h: Q.HolderId)
    requires LinkedRuns(s.q, s.runs)
    ensures Extends(s, Step(s, Begin(h)))
  {
    PresentingExtends(s, Step(s, Begin(h)), h, Start);
  }

  lemma ConcludeExtends(s: State, h: Q.HolderId, now: Instant)
    requires LinkedRuns(s.q, s.runs)
    ensures Extends(s, Step(s, Conclude(h, now)))
  {
    if h in s.runs && s.runs[h].Storing? {
      PresentingExtends(s, Step(s, Conclude(h, now)), h, Verdict(s.runs[h].recorded, s.runs[h].rejected, now));
    }
  }

  lemma {:induction false} StepExtends(s: State, e: Event)
    requires Inv(s)
    ensures Extends(s, Step(s, e))
  {
    match e
    case Queue(move) => QueueExtends(s, move);
    case Gate(h) => GateExtends(s, h);
    case Begin(h) => BeginExtends(s, h);
    case Fetch(h, response, now) => FetchExtends(s, h, response, now);
    case Advance(h) => AdvanceExtends(s, h);
    case Conclude(h, now) => ConcludeExtends(s, h, now);
    case Review(readAt, source, capability, status) => ReviewExtends(s, readAt, source, capability, status);
  }

  lemma ExtendsTransitive(a: State, b: State, c: State)
    requires Extends(a, b) && Extends(b, c)
    ensures Extends(a, c)
  {
  }

  /** No observation and no decision ever changes or goes away, and no job is lost or revived. */
  lemma {:induction false} RunExtends(s: State, events: seq<Event>)
    requires Inv(s) && LegalRun(events)
    ensures Extends(s, Run(s, events))
    decreases |events|
  {
    if events != [] {
      var before := Run(s, events[..|events| - 1]);
      RunExtends(s, events[..|events| - 1]);
      RunKeepsInv(s, events[..|events| - 1]);
      StepExtends(before, events[|events| - 1]);
      ExtendsTransitive(s, before, Run(s, events));
    }
  }

  /** A date that some job covers stays covered by that job in every later state. */
  lemma {:induction false} CoverageLasts(s: State, events: seq<Event>, id: JobId, key: Key, listing: ListingId)
    requires Inv(s) && LegalRun(events) && id in s.q.jobs && Covers(s.q.jobs[id], key, listing)
    ensures id in Run(s, events).q.jobs && Covers(Run(s, events).q.jobs[id], key, listing)
  {
    RunExtends(s, events);
  }

  /**
   A job that is DONE stays DONE, and whatever else the workers do, every admissible observation of the response
   that concluded it is in the store and stays there.
   */
  lemma {:induction false} DoneMeansStored(events: seq<Event>, later: seq<Event>, id: JobId)
    requires LegalRun(events) && LegalRun(later)
    requires id in Run(Empty, events).q.jobs && Run(Empty, events).q.jobs[id].status.Done?
    ensures
      var s := Run(Empty, events);
      var t := Run(s, later);
      && id in s.done && id in t.q.jobs && t.q.jobs[id] == s.q.jobs[id]
      && AllStored(t.rows, t.q.jobs[id], s.done[id])
  {
    var s := Run(Empty, events);
    RunKeepsInv(Empty, events);
    RunKeepsInv(s, later);
    RunExtends(s, later);
    AllStoredLasts(s.rows, Run(s, later).rows, s.q.jobs[id], s.done[id]);
  }

  // ---------------------------------------------------------------- provenance

  /**
   Every row forever names a RETRIEVE and a STORE decision of its own source, both APPROVED and both effective
   when the fetch was authorised, whatever is decided later; and some job asked for its date.
   */
  lemma {:induction false} ProvenanceLasts(events: seq<Event>, later: seq<Event>, row: Row)
    requires LegalRun(events) && LegalRun(later) && row in Run(Empty, events).rows
    ensures
      var t := Run(Run(Empty, events), later);
      && row in t.rows && row.retrieval.Some? && row.storage.Some?
      && row.retrieval.value < |t.decisions| && row.storage.value < |t.decisions|
      && (var retrieval := t.decisions[row.retrieval.value];
          Concerns(retrieval, row.key.source, Retrieve) && retrieval.status.Approved?)
      && (var storage := t.decisions[row.storage.value];
          Concerns(storage, row.key.source, Store) && storage.status.Approved?)
      && Granted(t.decisions, row.key.source, Authorization(row.retrieval.value, row.storage.value))
      && exists id | id in t.q.jobs :: Covers(t.q.jobs[id], row.key, row.listing)
  {
    var s := Run(Empty, events);
    RunKeepsInv(Empty, events);
    RunKeepsInv(s, later);
    RunExtends(s, later);
    var t := Run(s, later);
    assert RowSound(t.q.jobs, t.decisions, row);
    GrantedLasts(t.decisions, t.decisions, row.key.source, Authorization(row.retrieval.value, row.storage.value));
  }

  // ---------------------------------------------------------------- nothing is doubled

  /** What a provider answers for each natural key, if it answers it at all. */
  type Answer = Key -> Option<Value>

  predicate Faithful(job: Job, response: seq<RawObservation>, answer: Answer) {
    job.cursor.Some? ==> forall raw | raw in response && Valid(raw, job.cursor.value) ::
      answer(KeyOf(job.source, job.cursor.value, raw)) == Some(ValueOf(raw))
  }

  /** The provider's reply in this step agrees with its fixed answers. */
  predicate Answers(s: State, e: Event, answer: Answer) {
    e.Fetch? && Linked(s, e.run) ==> Faithful(JobOf(s, e.run), e.response, answer)
  }

  predicate FaithfulRun(s: State, events: seq<Event>, answer: Answer)
    decreases |events|
  {
    events == [] ||
    (var before := events[..|events| - 1];
     FaithfulRun(s, before, answer) && Answers(Run(s, before), events[|events| - 1], answer))
  }

  predicate PcPinned(job: Job, pc: Pc, answer: Answer) {
    pc.Storing? ==> Faithful(job, pc.response, answer) && (pc.rec.Inserting? ==> pc.rec.base.None?)
  }

  predicate RowPinned(row: Row, answer: Answer) {
    row.revision == 1 && answer(row.key) == Some(row.value)
  }

  predicate Pinned(s: State, answer: Answer) {
    && (forall row | row in s.rows :: RowPinned(row, answer))
    && (forall h | h in s.runs && Linked(s, h) :: PcPinned(JobOf(s, h), s.runs[h], answer))
  }

  lemma StoreOnceStaysPinned(rows: seq<Row>, decisions: Decisions, job: Job, pc: Pc, answer: Answer)
    requires job.cursor.Some? && pc.Storing? && pc.next < |pc.response|
    requires Sound(rows) && RunSound(job, rows, decisions, pc) && PcPinned(job, pc, answer)
    requires forall row | row in rows :: RowPinned(row, answer)
    ensures
      var after := StoreOnce(rows, job, pc);
      && PcPinned(job, after.1, answer)
      && forall row | row in after.0 :: RowPinned(row, answer)
  {
    var raw := pc.response[pc.next];
    if Valid(raw, job.cursor.value) {
      var data := InputOf(job, raw, pc.auth, pc.now);
      AdmittedValueIsNormal(raw, job.cursor.value);
      CurrentIsLast(rows, data.key);
      var h := History(rows, data.key);
      if h != [] {
        HistoryMembers(rows, data.key, h[|h| - 1]);
      }
    }
  }

  lemma OnlyAdvanceAddsRows(s: State, e: Event)
    requires LinkedRuns(s.q, s.runs) && !e.Advance?
    ensures Step(s, e).rows == s.rows
  {
  }

  lemma AdvanceStaysPinned(s: State, h: Q.HolderId, answer: Answer)
    requires Sound(s.rows) && RunsSound(s) && Pinned(s, answer)
    ensures forall row | row in Step(s, Advance(h)).rows :: RowPinned(row, answer)
    ensures h in s.runs ==>
      Step(s, Advance(h)).q == s.q && h in Step(s, Advance(h)).runs
      && PcPinned(JobOf(s, h), Step(s, Advance(h)).runs[h], answer)
  {
    if h in s.runs {
      var pc := s.runs[h];
      assert RunSound(JobOf(s, h), s.rows, s.decisions, pc);
      assert PcPinned(JobOf(s, h), pc, answer);
      if pc.Storing? && pc.next < |pc.response| && JobOf(s, h).cursor.Some? {
        StoreOnceStaysPinned(s.rows, s.decisions, JobOf(s, h), pc, answer);
      }
    }
  }

  /** A run of `t` that is storing was storing the same for the same job in `s`. */
  predicate SameStorage(s: State, t: State, h: Q.HolderId) {
    h in t.runs && t.runs[h].Storing? ==>
      && Linked(s, h) && s.runs[h] == t.runs[h]
      && h in t.q.holders && t.q.holders[h].job == s.q.holders[h].job
  }

  lemma QueueSameStorage(s: State, move: Q.Event, h: Q.HolderId)
    requires LinkedRuns(s.q, s.runs)
    ensures SameStorage(s, Step(s, Queue(move)), h)
  {
    if h in AfterQueue(s, move) {
      AfterQueueKeepsJobs(s, move, h);
    }
  }

  /** A step that presents a transition, or nothing, and puts no run into storing. */
  lemma PresentingSameStorage(s: State, t: State, k: Q.HolderId, update: Update, h: Q.HolderId)
    requires LinkedRuns(s.q, s.runs) && (t.q == s.q || t.q == Q.Step(s.q, Q.Present(k, update)))
    requires h in t.runs && t.runs[h].Storing? ==> h in s.runs && t.runs[h] == s.runs[h]
    ensures SameStorage(s, t, h)
  {
    PresentKeepsHolders(s.q, k, update);
  }

  lemma BeginSameStorage(s: State, k: Q.HolderId, h: Q.HolderId)
    requires LinkedRuns(s.q, s.runs)
    ensures SameStorage(s, Step(s, Begin(k)), h)
  {
    PresentingSameStorage(s, Step(s, Begin(k)), k, Start, h);
  }

  lemma ConcludeSameStorage(s: State, k: Q.HolderId, now: Instant, h: Q.HolderId)
    requires LinkedRuns(s.q, s.runs)
    ensures SameStorage(s, Step(s, Conclude(k, now)), h)
  {
    if Concluding(s, k) {
      ConcludeStep(s, k, now);
      PresentingSameStorage(s, Step(s, Conclude(k, now)), k, Verdict(s.runs[k].recorded, s.runs[k].rejected, now), h);
    }
  }

  predicate OwnStorageStep(e: Event, h: Q.HolderId) {
    (e.Fetch? || e.Advance?) && e.run == h
  }

  /** Only its own fetch and its own storage steps change what a run is storing. */
  lemma {:induction false} StepSameStorage(s: State, e: Event, h: Q.HolderId)
    requires LinkedRuns(s.q, s.runs) && !OwnStorageStep(e, h)
    ensures SameStorage(s, Step(s, e), h)
  {
    match e
    case Queue(move) => QueueSameStorage(s, move, h);
    case Begin(k) => BeginSameStorage(s, k, h);
    case Conclude(k, now) => ConcludeSameStorage(s, k, now, h);
    case _ =>
  }

  lemma FetchPins(s: State, h: Q.HolderId, response: seq<RawObservation>, now: Instant, answer: Answer)
    requires LinkedRuns(s.q, s.runs)
    requires h in s.runs ==> Faithful(JobOf(s, h), response, answer) && PcPinned(JobOf(s, h), s.runs[h], answer)
    ensures
      var t := Step(s, Fetch(h, response, now));
      && t.q == s.q && (h in t.runs <==> h in s.runs)
      && (h in s.runs ==> PcPinned(JobOf(s, h), t.runs[h], answer))
  {
  }

  lemma SameStorageStaysPinned(s: State, t: State, h: Q.HolderId, answer: Answer)
    requires Linked(t, h) && Evolves(s.q.jobs, t.q.jobs) && SameStorage(s, t, h)
    requires Linked(s, h) ==> PcPinned(JobOf(s, h), s.runs[h], answer)
    ensures PcPinned(JobOf(t, h), t.runs[h], answer)
  {
  }

  lemma {:induction false} StepStaysPinned(s: State, e: Event, answer: Answer)
    requires Inv(s) && Legal(e) && Answers(s, e, answer) && Pinned(s, answer)
    ensures LinkedRuns(Step(s, e).q, Step(s, e).runs) && Pinned(Step(s, e), answer)
  {
    StepKeepsInv(s, e);
    StepExtends(s, e);
    if e.Advance? {
      AdvanceStaysPinned(s, e.run, answer);
    } else {
      OnlyAdvanceAddsRows(s, e);
    }
    forall h | h in Step(s, e).runs {
      RunStaysPinnedByStep(s, e, h, answer);
    }
  }

  lemma {:induction false} RunStaysPinnedByStep(s: State, e: Event, h: Q.HolderId, answer: Answer)
    requires Sound(s.rows) && RunsSound(s) && Answers(s, e, answer) && Pinned(s, answer)
    requires Linked(Step(s, e), h) && Evolves(s.q.jobs, Step(s, e).q.jobs)
    ensures PcPinned(JobOf(Step(s, e), h), Step(s, e).runs[h], answer)
  {
    if !OwnStorageStep(e, h) {
      StepSameStorage(s, e, h);
      SameStorageStaysPinned(s, Step(s, e), h, answer);
    } else if e.Fetch? {
      FetchPins(s, h, e.response, e.now, answer);
    } else {
      AdvanceStaysPinned(s, h, answer);
    }
  }

  lemma {:induction false} RunStaysPinned(events: seq<Event>, answer: Answer)
    requires LegalRun(events) && FaithfulRun(Empty, events, answer)
    ensures Pinned(Run(Empty, events), answer)
    decreases |events|
  {
    if events != [] {
      var before := events[..|events| - 1];
      RunStaysPinned(before, answer);
      RunKeepsInv(Empty, before);
      StepStaysPinned(Run(Empty, before), events[|events| - 1], answer);
    }
  }

  /**
   Exactly once: under any interleaving of claims, expiries, crashes, reruns and stale workers that still write, a
   provider with fixed answers leaves at most one row per natural key, its revision is 1, its value is the answer,
   and a key the provider never answers has none.
   */
  lemma {:induction false} AtMostOneRowPerKey(events: seq<Event>, answer: Answer, key: Key)
    requires LegalRun(events) && FaithfulRun(Empty, events, answer)
    ensures
      var h := History(Run(Empty, events).rows, key);
      |h| <= 1 && (|h| == 1 ==> h[0].key == key && h[0].revision == 1 && answer(key) == Some(h[0].value))
  {
    RunStaysPinned(events, answer);
    RunKeepsInv(Empty, events);
    var rows := Run(Empty, events).rows;
    var h := History(rows, key);
    assert Chain(h);
    if |h| >= 1 {
      HistoryMembers(rows, key, h[0]);
    }
    if |h| >= 2 {
      HistoryMembers(rows, key, h[1]);
    }
  }

  /** And a DONE job has exactly that one row for each admissible observation of its response. */
  lemma {:induction false} DoneMeansExactlyOneRow(events: seq<Event>, answer: Answer, id: JobId, raw: RawObservation)
    requires LegalRun(events) && FaithfulRun(Empty, events, answer)
    requires
      var s := Run(Empty, events);
      && id in s.q.jobs && s.q.jobs[id].status.Done?
      && id in s.done && raw in s.done[id]
      && s.q.jobs[id].cursor.Some? && Valid(raw, s.q.jobs[id].cursor.value)
    ensures
      var s := Run(Empty, events);
      var key := KeyOf(s.q.jobs[id].source, s.q.jobs[id].cursor.value, raw);
      |History(s.rows, key)| == 1 && History(s.rows, key)[0].value == ValueOf(raw) && answer(key) == Some(ValueOf(raw))
  {
    var s := Run(Empty, events);
    var key := KeyOf(s.q.jobs[id].source, s.q.jobs[id].cursor.value, raw);
    AtMostOneRowPerKey(events, answer, key);
    RunKeepsInv(Empty, events);
    assert AllStored(s.rows, s.q.jobs[id], s.done[id]);
    StoredRowIsTheOne(s.rows, key, ValueOf(raw));
  }

  // ---------------------------------------------------------------- what DONE says about the provider

  /** What a provider promises of a response, given the cursor it answers. */
  type Promise = (FetchCursor, seq<RawObservation>) -> bool

  predicate Keeps(job: Job, response: seq<RawObservation>, promise: Promise) {
    job.cursor.Some? ==> promise(job.cursor.value, response)
  }

  predicate KeepsIn(s: State, e: Event, promise: Promise) {
    e.Fetch? && Linked(s, e.run) ==> Keeps(JobOf(s, e.run), e.response, promise)
  }

  /** The provider keeps its promise in every fetch of the run. */
  predicate KeepingRun(s: State, events: seq<Event>, promise: Promise)
    decreases |events|
  {
    events == [] ||
    (var before := events[..|events| - 1];
     KeepingRun(s, before, promise) && KeepsIn(Run(s, before), events[|events| - 1], promise))
  }

  predicate PcKeeps(job: Job, pc: Pc, promise: Promise) {
    pc.Storing? ==> Keeps(job, pc.response, promise)
  }

  predicate RunsKeep(s: State, promise: Promise) {
    forall h | h in s.runs && Linked(s, h) :: PcKeeps(JobOf(s, h), s.runs[h], promise)
  }

  predicate DoneKeeps(jobs: Table, done: map<JobId, seq<RawObservation>>, promise: Promise) {
    forall id | id in done :: id in jobs && Keeps(jobs[id], done[id], promise)
  }

  lemma OwnStorageKeeps(s: State, e: Event, h: Q.HolderId, promise: Promise)
    requires LinkedRuns(s.q, s.runs) && OwnStorageStep(e, h)
    requires KeepsIn(s, e, promise) && RunsKeep(s, promise)
    ensures Step(s, e).q == s.q
    ensures h in Step(s, e).runs ==> h in s.runs && PcKeeps(JobOf(s, h), Step(s, e).runs[h], promise)
  {
    if h in s.runs {
      assert PcKeeps(JobOf(s, h), s.runs[h], promise);
    }
  }

  lemma ConcludeKeepsPromises(s: State, h: Q.HolderId, now: Instant, promise: Promise)
    requires LinkedRuns(s.q, s.runs) && RunsKeep(s, promise) && DoneKeeps(s.q.jobs, s.done, promise)
    ensures DoneKeeps(s.q.jobs, Step(s, Conclude(h, now)).done, promise)
  {
    if h in s.runs {
      assert PcKeeps(JobOf(s, h), s.runs[h], promise);
    }
  }

  lemma OnlyConcludeRecordsDone(s: State, e: Event)
    requires LinkedRuns(s.q, s.runs) && !e.Conclude?
    ensures Step(s, e).done == s.done
  {
  }

  lemma {:induction false} StepKeepsPromises(s: State, e: Event, promise: Promise)
    requires Inv(s) && Legal(e) && KeepsIn(s, e, promise)
    requires RunsKeep(s, promise) && DoneKeeps(s.q.jobs, s.done, promise)
    ensures LinkedRuns(Step(s, e).q, Step(s, e).runs) && RunsKeep(Step(s, e), promise)
    ensures DoneKeeps(Step(s, e).q.jobs, Step(s, e).done, promise)
  {
    StepKeepsInv(s, e);
    StepExtends(s, e);
    if e.Conclude? {
      ConcludeKeepsPromises(s, e.run, e.now, promise);
    } else {
      OnlyConcludeRecordsDone(s, e);
    }
    forall h | h in Step(s, e).runs
      ensures PcKeeps(JobOf(Step(s, e), h), Step(s, e).runs[h], promise)
    {
      if OwnStorageStep(e, h) {
        OwnStorageKeeps(s, e, h, promise);
      } else {
        StepSameStorage(s, e, h);
      }
    }
  }

  /** Whatever a provider promises of all its responses holds of the response that made a job DONE. */
  lemma {:induction false} DoneResponsesKeepThePromise(events: seq<Event>, promise: Promise)
    requires LegalRun(events) && KeepingRun(Empty, events, promise)
    ensures RunsKeep(Run(Empty, events), promise)
    ensures DoneKeeps(Run(Empty, events).q.jobs, Run(Empty, events).done, promise)
    decreases |events|
  {
    if events != [] {
      var before := events[..|events| - 1];
      DoneResponsesKeepThePromise(before, promise);
      RunKeepsInv(Empty, before);
      StepKeepsPromises(Run(Empty, before), events[|events| - 1], promise);
    }
  }

  lemma StoredRowIsTheOne(rows: seq<Row>, key: Key, value: Value)
    requires IsStored(rows, key, value) && |History(rows, key)| <= 1
    ensures |History(rows, key)| == 1 && History(rows, key)[0].value == value
  {
    var row :| row in rows && row.key == key && row.value == value;
    HistoryMembers(rows, key, row);
  }
}

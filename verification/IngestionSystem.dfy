/**
 The ingestion engine over its tables: the queue, the observation store and the policy log, with every run of
 `process` cut into the steps at which other workers can come in between.
 */
module IngestionSystem {
  import opened Wrappers
  import opened Domain
  import opened JobTable
  import opened ObservationTable
  import opened Governance
  import opened Validation
  import Q = QueueProtocol

  /** Where one run of `process` stands; runs are numbered like the claims they hold. */
  datatype Pc =
    | Holding
    | Gated(auth: Authorization)
    | Fetching(auth: Authorization)
    | Storing(
        auth: Authorization,
        response: seq<RawObservation>,
        now: Instant,
        next: nat,
        recorded: nat,
        rejected: nat,
        rec: RecordPc)
    | Ended

  /** `done[id]` is the response whose storage the DONE mark of job `id` concluded. */
  datatype State = State(
    q: Q.State,
    rows: seq<Row>,
    decisions: Decisions,
    runs: map<Q.HolderId, Pc>,
    done: map<JobId, seq<RawObservation>>)

  datatype Event =
    | Queue(e: Q.Event)
    | Gate(run: Q.HolderId)
    | Begin(run: Q.HolderId)
    | Fetch(run: Q.HolderId, response: seq<RawObservation>, now: Instant)
    | Advance(run: Q.HolderId)
    | Conclude(run: Q.HolderId, now: Instant)
    | Review(readAt: nat, source: string, capability: Capability, status: PolicyStatus)

  /** `Start` and `Finish` are only ever presented by `Begin` and `Conclude`. */
  predicate Legal(e: Event) {
    e.Queue? ==> Q.Legal(e.e) && (e.e.Present? ==> !e.e.update.Start? && !e.e.update.Finish?)
  }

  predicate LinkedRuns(q: Q.State, runs: map<Q.HolderId, Pc>) {
    q.jobs.Keys <= q.history.Keys && forall h | h in runs :: h in q.holders && q.holders[h].job in q.jobs
  }

  predicate Linked(s: State, h: Q.HolderId) {
    h in s.runs && h in s.q.holders && s.q.holders[h].job in s.q.jobs
  }

  function JobOf(s: State, h: Q.HolderId): Job
    requires Linked(s, h)
  {
    s.q.jobs[s.q.holders[h].job]
  }

  function InputOf(job: Job, raw: RawObservation, auth: Authorization, now: Instant): ObservationInput
    requires job.cursor.Some?
  {
    ObservationInput(KeyOf(job.source, job.cursor.value, raw), ValueOf(raw), job.listing, now,
                     Some(auth.retrieval), Some(auth.storage))
  }

  function AfterQueue(s: State, e: Q.Event): map<Q.HolderId, Pc> {
    match e
    case Grant(h, id, _, _) => if Claimable(s.q.jobs, id) then s.runs[h := Holding] else s.runs
    case Crash(h) => s.runs - {h}
    case Present(h, _) => if h in s.runs then s.runs[h := Ended] else s.runs
    case _ => s.runs
  }

  /** One step of the storage loop: reject a row, or take one read or insert of `record`. */
  function StoreOnce(rows: seq<Row>, job: Job, pc: Pc): (seq<Row>, Pc)
    requires job.cursor.Some? && pc.Storing? && pc.next < |pc.response|
  {
    var raw := pc.response[pc.next];
    if !Valid(raw, job.cursor.value) then (rows, pc.(next := pc.next + 1, rejected := pc.rejected + 1, rec := Reading(0)))
    else
      var after := RecordStep(rows, pc.rec, InputOf(job, raw, pc.auth, pc.now));
      match after.pc
      case Recorded(_, created, _) =>
        (after.rows,
         pc.(next := pc.next + 1, recorded := pc.recorded + (if created then 1 else 0), rec := Reading(0)))
      case Exhausted => (after.rows, Ended)
      case _ => (after.rows, pc.(rec := after.pc))
  }

  /** DONE, unless rows were rejected and none was new. */
  function Verdict(recorded: nat, rejected: nat, now: Instant): Update {
    if rejected > 0 && recorded == 0 then Fail(0, now, "malformed") else Finish
  }

  function Step(s: State, e: Event): State {
    match e
    case Queue(move) => s.(q := Q.Step(s.q, move), runs := AfterQueue(s, move))
    case Gate(h) =>
      if !Linked(s, h) || !s.runs[h].Holding? then s
      else
        var auth := AuthorizeIngestion(s.decisions, JobOf(s, h).source);
        if auth.Some? then s.(runs := s.runs[h := Gated(auth.value)]) else s
    case Begin(h) =>
      if !Linked(s, h) || !s.runs[h].Gated? || JobOf(s, h).cursor.None? then s
      else
        var held := s.q.holders[h];
        s.(q := Q.Step(s.q, Q.Present(h, Start)),
           runs := s.runs[h := if Accepts(s.q.jobs, held.job, held.worker, held.generation, Start)
                               then Fetching(s.runs[h].auth) else Ended])
    case Fetch(h, response, now) =>
      if !Linked(s, h) || !s.runs[h].Fetching? || JobOf(s, h).cursor.None? then s
      else
        var held := s.q.holders[h];
        s.(runs := s.runs[h := if Holds(s.q.jobs, held.job, held.worker, held.generation)
                               then Storing(s.runs[h].auth, response, now, 0, 0, 0, Reading(0)) else Ended])
    case Advance(h) =>
      if !Linked(s, h) || !s.runs[h].Storing? || s.runs[h].next >= |s.runs[h].response| || JobOf(s, h).cursor.None? then s
      else
        var after := StoreOnce(s.rows, JobOf(s, h), s.runs[h]);
        s.(rows := after.0, runs := s.runs[h := after.1])
    case Conclude(h, now) =>
      if !Linked(s, h) || !s.runs[h].Storing? || s.runs[h].next < |s.runs[h].response| then s
      else
        var held := s.q.holders[h];
        var verdict := Verdict(s.runs[h].recorded, s.runs[h].rejected, now);
        s.(q := Q.Step(s.q, Q.Present(h, verdict)),
           runs := s.runs[h := Ended],
           done := if verdict.Finish? && Accepts(s.q.jobs, held.job, held.worker, held.generation, Finish)
                   then s.done[held.job := s.runs[h].response] else s.done)
    case Review(readAt, source, capability, status) =>
      if readAt > |s.decisions| then s
      else s.(decisions := Decide(s.decisions, readAt, source, capability, status))
  }

  const Empty := State(Q.Empty, [], [], map[], map[])

  // ---------------------------------------------------------------- the invariant

  predicate IsStored(rows: seq<Row>, key: Key, value: Value) {
    exists row | row in rows :: row.key == key && row.value == value
  }

  /** Every admissible observation of a response is in the store. */
  predicate AllStored(rows: seq<Row>, job: Job, response: seq<RawObservation>) {
    job.cursor.Some? && forall raw | raw in response && Valid(raw, job.cursor.value) ::
      IsStored(rows, KeyOf(job.source, job.cursor.value, raw), ValueOf(raw))
  }

  ghost predicate RunSound(job: Job, rows: seq<Row>, decisions: Decisions, pc: Pc) {
    match pc
    case Gated(auth) => Granted(decisions, job.source, auth)
    case Fetching(auth) => Granted(decisions, job.source, auth)
    case Storing(auth, response, now, next, _, _, rec) =>
      && Granted(decisions, job.source, auth)
      && next <= |response|
      && AllStored(rows, job, response[..next])
      && (rec.Reading? || rec.Inserting?)
      && (next < |response| ==> PcSound(rows, rec, InputOf(job, response[next], auth, now)))
    case _ => true
  }

  /** The job asked for this row's date, listing and account. */
  predicate Covers(job: Job, key: Key, listing: ListingId) {
    && job.cursor.Some? && job.source == key.source && job.listing == listing
    && job.cursor.value.scope == key.scope && job.cursor.value.externalId == key.externalId
    && job.cursor.value.start <= key.date <= job.cursor.value.end
  }

  ghost predicate RowSound(jobs: Table, decisions: Decisions, row: Row) {
    && row.retrieval.Some? && row.storage.Some?
    && Granted(decisions, row.key.source, Authorization(row.retrieval.value, row.storage.value))
    && exists id | id in jobs :: Covers(jobs[id], row.key, row.listing)
  }

  ghost predicate RunsSound(s: State) {
    && LinkedRuns(s.q, s.runs)
    && forall h | h in s.runs :: RunSound(JobOf(s, h), s.rows, s.decisions, s.runs[h])
  }

  /** DONE jobs and only they have a response on record, and all of it is in the store. */
  predicate DoneSound(jobs: Table, rows: seq<Row>, done: map<JobId, seq<RawObservation>>) {
    && (forall id | id in jobs && jobs[id].status.Done? :: id in done)
    && (forall id | id in done :: id in jobs && jobs[id].status.Done? && AllStored(rows, jobs[id], done[id]))
  }

  ghost predicate RowsSound(s: State) {
    forall row | row in s.rows :: RowSound(s.q.jobs, s.decisions, row)
  }

  ghost predicate Inv(s: State) {
    Q.Inv(s.q) && Sound(s.rows) && Versioned(s.decisions) && RunsSound(s) && DoneSound(s.q.jobs, s.rows, s.done) && RowsSound(s)
  }

  // ---------------------------------------------------------------- what lasts

  lemma RunSoundLasts(job: Job, rows: seq<Row>, decisions: Decisions, pc: Pc, job': Job, rows': seq<Row>, decisions': Decisions)
    requires RunSound(job, rows, decisions, pc) && SameJob(job, job') && rows <= rows' && decisions <= decisions'
    ensures RunSound(job', rows', decisions', pc)
  {
    if pc.Gated? || pc.Fetching? || pc.Storing? {
      GrantedLasts(decisions, decisions', job.source, pc.auth);
    }
    if pc.Storing? && pc.next < |pc.response| {
      PcSoundLasts(rows, rows', pc.rec, InputOf(job, pc.response[pc.next], pc.auth, pc.now));
    }
  }

  lemma RowSoundLasts(jobs: Table, decisions: Decisions, row: Row, jobs': Table, decisions': Decisions)
    requires RowSound(jobs, decisions, row) && Evolves(jobs, jobs') && decisions <= decisions'
    ensures RowSound(jobs', decisions', row)
  {
    GrantedLasts(decisions, decisions', row.key.source, Authorization(row.retrieval.value, row.storage.value));
    var id :| id in jobs && Covers(jobs[id], row.key, row.listing);
    assert Covers(jobs'[id], row.key, row.listing);
  }

  /** Nothing but an accepted `Finish` makes a job DONE. */
  lemma OnlyFinishMakesDone(jobs: Table, move: Move, id: JobId)
    requires id in Apply(jobs, move) && Apply(jobs, move)[id].status.Done?
    ensures id in jobs
    ensures jobs[id].status.Done?
            || (move.Presents? && move.id == id && move.update.Finish?
                && Accepts(jobs, id, move.worker, move.generation, Finish))
  {
  }

  lemma MoveKeepsDone(jobs: Table, rows: seq<Row>, done: map<JobId, seq<RawObservation>>, move: Move)
    requires DoneSound(jobs, rows, done) && (move.Presents? ==> !move.update.Finish?)
    ensures DoneSound(Apply(jobs, move), rows, done)
  {
    ApplyEvolves(jobs, move);
    forall id | id in Apply(jobs, move) && Apply(jobs, move)[id].status.Done?
      ensures id in done
    {
      OnlyFinishMakesDone(jobs, move, id);
    }
  }

  /** The only step that makes a job DONE puts beside it the response that was stored in full. */
  lemma FinishKeepsDone(
      jobs: Table, rows: seq<Row>, done: map<JobId, seq<RawObservation>>,
      id: JobId, worker: string, generation: nat, response: seq<RawObservation>)
    requires DoneSound(jobs, rows, done) && id in jobs && AllStored(rows, jobs[id], response)
    ensures DoneSound(Apply(jobs, Presents(id, worker, generation, Finish)), rows,
                      if Accepts(jobs, id, worker, generation, Finish) then done[id := response] else done)
  {
    var move := Presents(id, worker, generation, Finish);
    ApplyEvolves(jobs, move);
    forall k | k in Apply(jobs, move) && Apply(jobs, move)[k].status.Done?
      ensures k in done || (k == id && Accepts(jobs, id, worker, generation, Finish))
    {
      OnlyFinishMakesDone(jobs, move, k);
    }
  }

  lemma QueueKeepsDone(s: State, e: Q.Event)
    requires s.q.jobs.Keys <= s.q.history.Keys && DoneSound(s.q.jobs, s.rows, s.done) && (e.Present? ==> !e.update.Finish?)
    ensures DoneSound(Q.Step(s.q, e).jobs, s.rows, s.done)
  {
    var move := Q.MoveOf(s.q, e);
    if move.Some? {
      MoveKeepsDone(s.q.jobs, s.rows, s.done, move.value);
    }
  }

  lemma QueueKeepsRows(s: State, e: Q.Event)
    requires s.q.jobs.Keys <= s.q.history.Keys && RowsSound(s)
    ensures forall row | row in s.rows :: RowSound(Q.Step(s.q, e).jobs, s.decisions, row)
  {
    Q.StepExtends(s.q, e);
    forall row | row in s.rows
      ensures RowSound(Q.Step(s.q, e).jobs, s.decisions, row)
    {
      RowSoundLasts(s.q.jobs, s.decisions, row, Q.Step(s.q, e).jobs, s.decisions);
    }
  }

  /** A queue step leaves every run on its job, except the one it grants anew. */
  lemma QueueKeepsRuns(s: State, e: Q.Event, runs: map<Q.HolderId, Pc>)
    requires Q.Inv(s.q) && RunsSound(s) && Q.Legal(e)
    requires forall h | h in runs :: h in Q.Step(s.q, e).holders
    requires forall h | h in runs :: runs[h].Holding? || runs[h].Ended?
               || (h in s.runs && runs[h] == s.runs[h]
                   && Q.Step(s.q, e).holders[h].job == s.q.holders[h].job)
    ensures RunsSound(s.(q := Q.Step(s.q, e), runs := runs))
  {
    var q := Q.Step(s.q, e);
    Q.StepKeepsInv(s.q, e);
    Q.StepExtends(s.q, e);
    forall h | h in runs
      ensures q.holders[h].job in q.jobs
      ensures RunSound(q.jobs[q.holders[h].job], s.rows, s.decisions, runs[h])
    {
      assert Q.CopyExact(q.jobs, q.holders[h]);
      if !runs[h].Holding? && !runs[h].Ended? {
        RunSoundLasts(JobOf(s, h), s.rows, s.decisions, runs[h], q.jobs[q.holders[h].job], s.rows, s.decisions);
      }
    }
  }

  lemma AfterQueueKeepsJobs(s: State, e: Q.Event, h: Q.HolderId)
    requires LinkedRuns(s.q, s.runs) && h in AfterQueue(s, e)
    ensures h in Q.Step(s.q, e).holders
    ensures AfterQueue(s, e)[h].Holding? || AfterQueue(s, e)[h].Ended?
            || (h in s.runs && AfterQueue(s, e)[h] == s.runs[h]
                && Q.Step(s.q, e).holders[h].job == s.q.holders[h].job)
  {
  }

  lemma QueueStepKeepsInv(s: State, e: Q.Event)
    requires Inv(s) && Legal(Queue(e))
    ensures Inv(Step(s, Queue(e)))
  {
    Q.StepKeepsInv(s.q, e);
    QueueKeepsDone(s, e);
    QueueKeepsRows(s, e);
    forall h | h in AfterQueue(s, e) {
      AfterQueueKeepsJobs(s, e, h);
    }
    QueueKeepsRuns(s, e, AfterQueue(s, e));
  }

  /** Moving one run to a sound place keeps every run sound when no table changes. */
  lemma MoveRun(s: State, h: Q.HolderId, pc: Pc)
    requires RunsSound(s) && h in s.runs && RunSound(JobOf(s, h), s.rows, s.decisions, pc)
    ensures RunsSound(s.(runs := s.runs[h := pc]))
  {
    var t := s.(runs := s.runs[h := pc]);
    forall k | k in t.runs
      ensures RunSound(JobOf(t, k), t.rows, t.decisions, t.runs[k])
    {
      if k != h {
        assert RunSound(JobOf(s, k), s.rows, s.decisions, s.runs[k]);
      }
    }
  }

  lemma GateKeepsInv(s: State, h: Q.HolderId)
    requires Inv(s)
    ensures Inv(Step(s, Gate(h)))
  {
    if h in s.runs && s.runs[h].Holding? {
      var auth := AuthorizeIngestion(s.decisions, JobOf(s, h).source);
      if auth.Some? {
        GrantedNow(s.decisions, JobOf(s, h).source);
        MoveRun(s, h, Gated(auth.value));
      }
    }
  }

  lemma PresentKeepsHolders(q: Q.State, h: Q.HolderId, update: Update)
    requires q.jobs.Keys <= q.history.Keys
    ensures Q.Step(q, Q.Present(h, update)).holders == q.holders
  {
  }

  predicate Beginning(s: State, h: Q.HolderId) {
    Linked(s, h) && s.runs[h].Gated? && JobOf(s, h).cursor.Some?
  }

  function Begun(s: State, h: Q.HolderId): Pc
    requires Beginning(s, h)
  {
    var held := s.q.holders[h];
    if Accepts(s.q.jobs, held.job, held.worker, held.generation, Start) then Fetching(s.runs[h].auth) else Ended
  }

  lemma BeginStep(s: State, h: Q.HolderId)
    requires Beginning(s, h)
    ensures Step(s, Begin(h)) == s.(q := Q.Step(s.q, Q.Present(h, Start)), runs := s.runs[h := Begun(s, h)])
  {
  }

  lemma StartKeepsRuns(s: State, h: Q.HolderId)
    requires Q.Inv(s.q) && RunsSound(s)
    ensures RunsSound(s.(q := Q.Step(s.q, Q.Present(h, Start))))
  {
    PresentKeepsHolders(s.q, h, Start);
    QueueKeepsRuns(s, Q.Present(h, Start), s.runs);
  }

  lemma BeginKeepsRuns(s: State, h: Q.HolderId)
    requires Q.Inv(s.q) && RunsSound(s) && Beginning(s, h)
    ensures RunsSound(Step(s, Begin(h)))
  {
    var u := s.(q := Q.Step(s.q, Q.Present(h, Start)));
    BeginStep(s, h);
    StartKeepsRuns(s, h);
    assert RunSound(JobOf(u, h), u.rows, u.decisions, u.runs[h]);
    MoveRun(u, h, Begun(s, h));
  }

  lemma BeginKeepsInv(s: State, h: Q.HolderId)
    requires Inv(s)
    ensures Inv(Step(s, Begin(h)))
  {
    if Beginning(s, h) {
      var e := Q.Present(h, Start);
      BeginStep(s, h);
      Q.StepKeepsInv(s.q, e);
      QueueKeepsDone(s, e);
      QueueKeepsRows(s, e);
      BeginKeepsRuns(s, h);
    }
  }

  lemma FetchKeepsInv(s: State, h: Q.HolderId, response: seq<RawObservation>, now: Instant)
    requires Inv(s)
    ensures Inv(Step(s, Fetch(h, response, now)))
  {
    if h in s.runs && s.runs[h].Fetching? && JobOf(s, h).cursor.Some? {
      var auth := s.runs[h].auth;
      assert RunSound(JobOf(s, h), s.rows, s.decisions, s.runs[h]);
      assert response[..0] == [];
      MoveRun(s, h, Storing(auth, response, now, 0, 0, 0, Reading(0)));
      MoveRun(s, h, Ended);
    }
  }

  /** One step of the storage loop keeps the store and the run sound, and any new row is covered and granted. */
  lemma StoreOnceIsSound(jobs: Table, id: JobId, rows: seq<Row>, decisions: Decisions, pc: Pc)
    requires id in jobs && jobs[id].cursor.Some? && pc.Storing? && pc.next < |pc.response|
    requires Sound(rows) && RunSound(jobs[id], rows, decisions, pc)
    ensures
      var after := StoreOnce(rows, jobs[id], pc);
      && Sound(after.0) && rows <= after.0
      && RunSound(jobs[id], after.0, decisions, after.1)
      && forall row | row in after.0 && row !in rows :: RowSound(jobs, decisions, row)
  {
    var job := jobs[id];
    var raw := pc.response[pc.next];
    var after := StoreOnce(rows, job, pc);
    var done := pc.response[..pc.next];
    assert pc.response[..pc.next + 1] == done + [raw];
    if Valid(raw, job.cursor.value) {
      var data := InputOf(job, raw, pc.auth, pc.now);
      var step := RecordStep(rows, pc.rec, data);
      RecordStepKeepsSound(rows, pc.rec, data);
      AdmittedValueIsNormal(raw, job.cursor.value);
      AllStoredLasts(rows, after.0, job, done);
      if step.pc.Recorded? {
        assert IsStored(after.0, data.key, ValueOf(raw));
      }
      assert Covers(job, data.key, data.listing);
    }
  }

  lemma AllStoredLasts(rows: seq<Row>, later: seq<Row>, job: Job, response: seq<RawObservation>)
    requires AllStored(rows, job, response) && rows <= later
    ensures AllStored(later, job, response)
  {
    forall raw | raw in response && Valid(raw, job.cursor.value)
      ensures IsStored(later, KeyOf(job.source, job.cursor.value, raw), ValueOf(raw))
    {
      assert IsStored(rows, KeyOf(job.source, job.cursor.value, raw), ValueOf(raw));
    }
  }

  lemma RowsGrow(s: State, rows: seq<Row>)
    requires RunsSound(s) && DoneSound(s.q.jobs, s.rows, s.done) && s.rows <= rows
    ensures forall h | h in s.runs :: RunSound(JobOf(s, h), rows, s.decisions, s.runs[h])
    ensures DoneSound(s.q.jobs, rows, s.done)
  {
    forall h | h in s.runs
      ensures RunSound(JobOf(s, h), rows, s.decisions, s.runs[h])
    {
      RunSoundLasts(JobOf(s, h), s.rows, s.decisions, s.runs[h], JobOf(s, h), rows, s.decisions);
    }
    forall id | id in s.done
      ensures AllStored(rows, s.q.jobs[id], s.done[id])
    {
      AllStoredLasts(s.rows, rows, s.q.jobs[id], s.done[id]);
    }
  }

  predicate Advancing(s: State, h: Q.HolderId) {
    Linked(s, h) && s.runs[h].Storing? && s.runs[h].next < |s.runs[h].response| && JobOf(s, h).cursor.Some?
  }

  lemma AdvanceIsSound(s: State, h: Q.HolderId)
    requires Sound(s.rows) && RunsSound(s) && Advancing(s, h)
    ensures
      var t := Step(s, Advance(h));
      && t.q == s.q && t.decisions == s.decisions && t.done == s.done
      && h in t.runs && t.runs == s.runs[h := t.runs[h]]
      && Sound(t.rows) && s.rows <= t.rows
      && RunSound(JobOf(s, h), t.rows, s.decisions, t.runs[h])
      && forall row | row in t.rows && row !in s.rows :: RowSound(s.q.jobs, s.decisions, row)
  {
    assert RunSound(JobOf(s, h), s.rows, s.decisions, s.runs[h]);
    StoreOnceIsSound(s.q.jobs, s.q.holders[h].job, s.rows, s.decisions, s.runs[h]);
  }

  lemma AdvanceKeepsInv(s: State, h: Q.HolderId)
    requires Inv(s)
    ensures Inv(Step(s, Advance(h)))
  {
    if Advancing(s, h) {
      AdvanceIsSound(s, h);
      var t := Step(s, Advance(h));
      RowsGrow(s, t.rows);
      MovedRunIsSound(s, t, h);
    }
  }

  lemma MovedRunIsSound(s: State, t: State, h: Q.HolderId)
    requires LinkedRuns(s.q, s.runs) && h in s.runs && h in t.runs
    requires t.q == s.q && t.decisions == s.decisions && t.runs == s.runs[h := t.runs[h]]
    requires forall k | k in s.runs :: RunSound(JobOf(s, k), t.rows, s.decisions, s.runs[k])
    requires RunSound(JobOf(s, h), t.rows, s.decisions, t.runs[h])
    ensures RunsSound(t)
  {
    forall k | k in t.runs
      ensures RunSound(JobOf(t, k), t.rows, t.decisions, t.runs[k])
    {
      assert JobOf(t, k) == JobOf(s, k);
    }
  }

  lemma ConcludeKeepsDone(s: State, h: Q.HolderId, now: Instant)
    requires LinkedRuns(s.q, s.runs) && DoneSound(s.q.jobs, s.rows, s.done)
    requires h in s.runs && s.runs[h].Storing? && s.runs[h].next == |s.runs[h].response|
    requires AllStored(s.rows, JobOf(s, h), s.runs[h].response)
    ensures
      var t := Step(s, Conclude(h, now));
      DoneSound(t.q.jobs, t.rows, t.done)
  {
    var held := s.q.holders[h];
    var verdict := Verdict(s.runs[h].recorded, s.runs[h].rejected, now);
    var move := Presents(held.job, held.worker, held.generation, Q.Asked(held, verdict));
    assert Q.MoveOf(s.q, Q.Present(h, verdict)) == Some(move);
    if verdict.Finish? {
      FinishKeepsDone(s.q.jobs, s.rows, s.done, held.job, held.worker, held.generation, s.runs[h].response);
    } else {
      MoveKeepsDone(s.q.jobs, s.rows, s.done, move);
    }
  }

  lemma PresentEndsRun(s: State, h: Q.HolderId, update: Update)
    requires Q.Inv(s.q) && RunsSound(s) && h in s.runs
    ensures RunsSound(s.(q := Q.Step(s.q, Q.Present(h, update)), runs := s.runs[h := Ended]))
  {
    PresentKeepsHolders(s.q, h, update);
    QueueKeepsRuns(s, Q.Present(h, update), s.runs[h := Ended]);
  }

  /** The run has stored its response and is about to give its verdict. */
  predicate Concluding(s: State, h: Q.HolderId) {
    Linked(s, h) && s.runs[h].Storing? && s.runs[h].next >= |s.runs[h].response|
  }

  lemma ConcludingIsStored(s: State, h: Q.HolderId)
    requires RunsSound(s) && Concluding(s, h)
    ensures s.runs[h].next == |s.runs[h].response| && AllStored(s.rows, JobOf(s, h), s.runs[h].response)
  {
    assert RunSound(JobOf(s, h), s.rows, s.decisions, s.runs[h]);
    assert s.runs[h].response[..|s.runs[h].response|] == s.runs[h].response;
  }

  lemma ConcludeStep(s: State, h: Q.HolderId, now: Instant)
    requires Concluding(s, h)
    ensures
      var t := Step(s, Conclude(h, now));
      && t.q == Q.Step(s.q, Q.Present(h, Verdict(s.runs[h].recorded, s.runs[h].rejected, now)))
      && t.rows == s.rows && t.decisions == s.decisions && t.runs == s.runs[h := Ended]
  {
  }

  lemma ConcludeKeepsRuns(s: State, h: Q.HolderId, now: Instant)
    requires Q.Inv(s.q) && RunsSound(s) && Concluding(s, h)
    ensures RunsSound(Step(s, Conclude(h, now)))
  {
    var update := Verdict(s.runs[h].recorded, s.runs[h].rejected, now);
    ConcludeStep(s, h, now);
    PresentEndsRun(s, h, update);
    SameRunsSound(s.(q := Q.Step(s.q, Q.Present(h, update)), runs := s.runs[h := Ended]), Step(s, Conclude(h, now)));
  }

  /** What the runs are checked against does not include the record of responses. */
  lemma SameRunsSound(s: State, t: State)
    requires RunsSound(s) && t.q == s.q && t.rows == s.rows && t.decisions == s.decisions && t.runs == s.runs
    ensures RunsSound(t)
  {
    forall h | h in t.runs
      ensures RunSound(JobOf(t, h), t.rows, t.decisions, t.runs[h])
    {
      assert JobOf(t, h) == JobOf(s, h);
    }
  }

  lemma ConcludeKeepsRows(s: State, h: Q.HolderId, now: Instant)
    requires s.q.jobs.Keys <= s.q.history.Keys && RowsSound(s) && Concluding(s, h)
    ensures RowsSound(Step(s, Conclude(h, now)))
  {
    ConcludeStep(s, h, now);
    QueueKeepsRows(s, Q.Present(h, Verdict(s.runs[h].recorded, s.runs[h].rejected, now)));
  }

  lemma ConcludeKeepsInv(s: State, h: Q.HolderId, now: Instant)
    requires Inv(s)
    ensures Inv(Step(s, Conclude(h, now)))
  {
    if Concluding(s, h) {
      ConcludeStep(s, h, now);
      Q.StepKeepsInv(s.q, Q.Present(h, Verdict(s.runs[h].recorded, s.runs[h].rejected, now)));
      ConcludeKeepsRuns(s, h, now);
      ConcludeKeepsRows(s, h, now);
      ConcludingIsStored(s, h);
      ConcludeKeepsDone(s, h, now);
    }
  }

  lemma ReviewKeepsInv(s: State, readAt: nat, source: string, capability: Capability, status: PolicyStatus)
    requires Inv(s) && readAt <= |s.decisions|
    ensures Inv(Step(s, Review(readAt, source, capability, status)))
  {
    var t := Step(s, Review(readAt, source, capability, status));
    DecideKeepsVersioned(s.decisions, readAt, source, capability, status);
    forall h | h in t.runs
      ensures RunSound(JobOf(t, h), t.rows, t.decisions, t.runs[h])
    {
      RunSoundLasts(JobOf(s, h), s.rows, s.decisions, s.runs[h], JobOf(s, h), s.rows, t.decisions);
    }
    forall row | row in t.rows
      ensures RowSound(t.q.jobs, t.decisions, row)
    {
      RowSoundLasts(s.q.jobs, s.decisions, row, s.q.jobs, t.decisions);
    }
  }

  /** Every step of the engine keeps the invariant. */
  lemma {:induction false} StepKeepsInv(s: State, e: Event)
    requires Inv(s) && Legal(e)
    ensures Inv(Step(s, e))
  {
    match e
    case Queue(move) => QueueStepKeepsInv(s, move);
    case Gate(h) => GateKeepsInv(s, h);
    case Begin(h) => BeginKeepsInv(s, h);
    case Fetch(h, response, now) => FetchKeepsInv(s, h, response, now);
    case Advance(h) => AdvanceKeepsInv(s, h);
    case Conclude(h, now) => ConcludeKeepsInv(s, h, now);
    case Review(readAt, source, capability, status) =>
      if readAt <= |s.decisions| {
        ReviewKeepsInv(s, readAt, source, capability, status);
      }
  }
}

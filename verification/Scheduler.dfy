/** One batch of the scheduler: claim, process each job, isolate what fails, count. */
module Scheduler {
  import opened Wrappers
  import opened Domain
  import opened JobTable
  import opened JobQueue
  import opened ObservationTable
  import opened IngestionRunner

  /** What the provider of a job does when asked; `None` when it cannot even be constructed. */
  type Adapters = Job -> Option<Reply>

  /** What everybody else does while each job is processed. */
  type Crowd = JobId -> Others

  datatype ProcessOutcome = ProcessOutcome(
    claimed: nat, done: nat, waiting: nat, quotaDeferred: nat, failedTerminal: nat, retrying: nat)

  /**
   How one turn of the batch ends: with a verdict, skipped because the claim was lost, failed by the catch-all, or
   ending the whole batch because the catch-all itself finds the claim lost.
   */
  datatype Ending = Ended(deferred: bool) | Skipped(expired: bool) | Caught | Aborted

  // ---------------------------------------------------------------- one turn

  /**
   The course of one turn. `job` is the worker's copy of the row, `middle` the world when the run is RUNNING, `done` the
   one at the end of `process`, which is where the catch-all comes in.
   */
  datatype Turn = Turn(
    id: JobId, job: Job, before: World, middle: World, done: World, after: World,
    ready: Result<Lease, JobOutcome>, outcome: JobOutcome, ending: Ending)

  /** Something the loop only catches: no provider, or an exhausted revision race. */
  predicate Raises(t: Turn, adapters: Adapters) {
    adapters(t.job).None? || t.outcome.Raised?
  }

  /** The token and the count that the catch-all presents are those of the worker's copy of the row. */
  function CaughtCopy(t: Turn, adapters: Adapters): Job {
    if adapters(t.job).Some? && t.outcome.Raised? then t.outcome.copy else t.job
  }

  /** The catch-all: one failure under the worker's token, or the stale-claim error, which nothing catches. */
  ghost predicate CatchAll(t: Turn, copy: Job, worker: string, now: Instant) {
    && t.after == t.done.(jobs := t.after.jobs)
    && if t.ending.Caught?
       then RecordsFailure(t.done.jobs, t.after.jobs, t.id, worker, copy.generation, copy.attempts, now)
       else
         && t.ending.Aborted? && t.after.jobs == t.done.jobs
         && !Holds(t.done.jobs, t.id, worker, copy.generation)
  }

  /** One turn of the loop. */
  ghost predicate Runs(t: Turn, adapters: Adapters, worker: string, now: Instant, others: Others) {
    t.id in t.before.jobs &&
    match adapters(t.job)
    case None => t.done == t.before && CatchAll(t, t.job, worker, now)
    case Some(reply) =>
      && Processed(t.before, t.middle, t.done, t.id, t.job, worker, now, reply, others, t.ready, t.outcome)
      && match t.outcome
         case StaleClaim(expired) => t.ending == Skipped(expired) && t.after == t.done
         case Reached(detail, _, _) => t.ending == Ended(detail.QuotaExhausted?) && t.after == t.done
         case Raised(copy) => CatchAll(t, copy, worker, now)
  }

  /**
   Exactly when a failure interrupts the batch: when something was raised and the worker's token no longer holds on
   the table that the catch-all finds.
   */
  lemma {:induction false} TurnAbortsIff(t: Turn, adapters: Adapters, worker: string, now: Instant, others: Others)
    requires Runs(t, adapters, worker, now, others)
    ensures t.ending.Aborted? <==>
      Raises(t, adapters) && !Holds(t.done.jobs, t.id, worker, CaughtCopy(t, adapters).generation)
    ensures t.ending.Caught? <==>
      Raises(t, adapters) && Holds(t.done.jobs, t.id, worker, CaughtCopy(t, adapters).generation)
  {
  }

  /** The catch-all of a run that raised is fenced: it presents the token under which the run itself worked. */
  lemma {:induction false} RaisedTokenIsTheRuns(t: Turn, adapters: Adapters, worker: string, now: Instant, others: Others)
    requires Runs(t, adapters, worker, now, others) && adapters(t.job).Some? && t.outcome.Raised?
    ensures t.ready.Success? && CaughtCopy(t, adapters).generation == TokenOf(t.before.jobs, t.id, t.job)
    ensures t.done.jobs == Found(t.middle.jobs, others)
    ensures Holds(ApplyAll(t.middle.jobs, others.calling), t.id, worker, CaughtCopy(t, adapters).generation)
  {
  }

  lemma {:induction false} TurnEvolves(t: Turn, adapters: Adapters, worker: string, now: Instant, others: Others)
    requires Runs(t, adapters, worker, now, others)
    ensures Evolves(t.before.jobs, t.after.jobs)
  {
    if adapters(t.job).Some? {
      ProcessedEvolves(t.before, t.middle, t.done, t.id, t.job, worker, now, adapters(t.job).value, others, t.ready, t.outcome);
    }
    if t.ending.Caught? {
      var copy := CaughtCopy(t, adapters);
      FailureEvolves(t.done.jobs, t.after.jobs, t.id, worker, copy.generation, copy.attempts, now);
      EvolvesTransitive(t.before.jobs, t.done.jobs, t.after.jobs);
    }
  }

  /** A turn that ends its claim leaves the job at rest, PENDING if it was deferred. */
  lemma {:induction false} TurnRests(t: Turn, adapters: Adapters, worker: string, now: Instant, others: Others)
    requires Runs(t, adapters, worker, now, others) && (t.ending.Ended? || t.ending.Caught?)
    ensures t.id in t.after.jobs && AtRest(t.after.jobs[t.id])
    ensures t.ending.Ended? && t.ending.deferred ==> t.after.jobs[t.id].status.Pending?
  {
    if t.ending.Caught? {
      var copy := CaughtCopy(t, adapters);
      FailureRests(t.done.jobs, t.after.jobs, t.id, worker, copy.generation, copy.attempts, now);
    } else {
      VerdictRests(t.before, t.middle, t.done, t.id, t.job, worker, now, adapters(t.job).value, others, t.ready, t.outcome);
    }
  }

  /** The claim on `id` came to an end, and nothing else in the table moved. */
  predicate Closed(before: Table, after: Table, id: JobId) {
    && id in before && id in after && after == before[id := after[id]]
    && SameJob(before[id], after[id]) && after[id].generation == before[id].generation
    && AtRest(after[id])
  }

  /** The catch-all of a claim that nobody has touched costs it one attempt. */
  lemma CatchAllCloses(t: Turn, copy: Job, worker: string, now: Instant)
    requires HoldsCopy(t.before.jobs, t.id, t.job, worker) && CatchAll(t, copy, worker, now)
    requires t.done.jobs == t.before.jobs[t.id := copy] && (copy == t.job || copy == Written(t.job, Start))
    ensures t.ending.Caught? && Closed(t.before.jobs, t.after.jobs, t.id) && FailedOnce(t.job, t.after.jobs[t.id], now)
  {
    FailureIsOne(t.done.jobs, t.after.jobs, t.id, worker, copy.generation, now);
    assert t.after.jobs == t.before.jobs[t.id := t.after.jobs[t.id]];
  }

  /** With nobody else at the table the claim is closed in every case, and the catch-all costs one attempt. */
  lemma {:induction false} UndisturbedTurnCloses(t: Turn, adapters: Adapters, worker: string, now: Instant, others: Others)
    requires Runs(t, adapters, worker, now, others)
    requires HoldsCopy(t.before.jobs, t.id, t.job, worker) && others.Idle()
    ensures (t.ending.Ended? || t.ending.Caught?) && Closed(t.before.jobs, t.after.jobs, t.id)
    ensures t.ending.Caught? ==> FailedOnce(t.job, t.after.jobs[t.id], now)
  {
    if adapters(t.job).None? {
      assert t.before.jobs[t.id := t.job] == t.before.jobs;
      CatchAllCloses(t, t.job, worker, now);
    } else {
      UndisturbedRunSettles(t.before, t.middle, t.done, t.id, t.job, worker, now, adapters(t.job).value, others, t.ready, t.outcome);
      if t.outcome.Raised? {
        CatchAllCloses(t, t.outcome.copy, worker, now);
      }
    }
  }

  /** `process` with its catch-all. `job` is the worker's copy of the row. */
  method ProcessOne(
      runner: IngestionRunner, adapters: Adapters, id: JobId, job: Job, worker: string, now: Instant, others: Others)
    returns (ending: Ending, ghost t: Turn)
    requires id in runner.queue.jobs && Sound(runner.store.rows)
    modifies runner.queue, runner.store, runner.quota
    ensures Sound(runner.store.rows) && old(runner.store.rows) <= runner.store.rows
    ensures t.id == id && t.job == job && t.before == old(runner.Now()) && t.after == runner.Now() && t.ending == ending
    ensures Runs(t, adapters, worker, now, others)
  {
    ghost var before := runner.Now();
    var reply := adapters(job);
    if reply.None? {
      var failed := runner.queue.OwnedTransition(id, worker, job.generation, Fail(job.attempts, now, "adapter"));
      ending := if failed then Caught else Aborted;
      t := Turn(id, job, before, before, before, runner.Now(), Failure(StaleClaim(false)), StaleClaim(false), ending);
      return;
    }
    var outcome, middle, ready := runner.Process(id, job, worker, now, reply.value, others);
    ghost var done := runner.Now();
    match outcome {
      case StaleClaim(expired) => ending := Skipped(expired);
      case Reached(detail, _, _) => ending := Ended(detail.QuotaExhausted?);
      case Raised(copy) =>
        var failed := runner.queue.OwnedTransition(id, worker, copy.generation, Fail(copy.attempts, now, "unexpected"));
        ending := if failed then Caught else Aborted;
    }
    t := Turn(id, job, before, middle, done, runner.Now(), ready, outcome, ending);
  }

  // ---------------------------------------------------------------- the batch

  /** Some lost claim has expired the copies of all rows, so that later turns read their row again. */
  predicate Rereads(turns: seq<Turn>) {
    exists i | 0 <= i < |turns| :: turns[i].ending == Skipped(true)
  }

  lemma RereadsSnoc(turns: seq<Turn>)
    requires turns != []
    ensures Rereads(turns) <==> Rereads(turns[..|turns| - 1]) || turns[|turns| - 1].ending == Skipped(true)
  {
    var earlier := turns[..|turns| - 1];
    if Rereads(earlier) {
      var i :| 0 <= i < |earlier| && earlier[i].ending == Skipped(true);
      assert turns[i].ending == Skipped(true);
    }
    if Rereads(turns) {
      var i :| 0 <= i < |turns| && turns[i].ending == Skipped(true);
      assert i < |earlier| ==> earlier[i].ending == Skipped(true);
    }
  }

  predicate Aborts(turns: seq<Turn>) {
    turns != [] && turns[|turns| - 1].ending.Aborted?
  }

  /**
   The `i`-th turn: on the world that the one before it left, and with the copy of the row that the claim returned, or,
   once the copies have expired, with the row as it then is.
   */
  ghost predicate OnCourse(
      claimed: seq<JobId>, start: World, turns: seq<Turn>, i: int, adapters: Adapters, worker: string, now: Instant, crowd: Crowd)
    requires 0 <= i < |turns|
  {
    var t := turns[i];
    && i < |claimed| && t.id == claimed[i] && t.id in start.jobs
    && t.before == (if i == 0 then start else turns[i - 1].after) && (i > 0 ==> !turns[i - 1].ending.Aborted?)
    && Runs(t, adapters, worker, now, crowd(t.id))
    && t.job == if Rereads(turns[..i]) then t.before.jobs[t.id] else start.jobs[t.id]
  }

  /** The course of a batch: one turn after the other. */
  ghost predicate Course(
      claimed: seq<JobId>, start: World, turns: seq<Turn>, end: World, adapters: Adapters, worker: string, now: Instant, crowd: Crowd)
  {
    && (forall i | 0 <= i < |turns| :: OnCourse(claimed, start, turns, i, adapters, worker, now, crowd))
    && end == if turns == [] then start else turns[|turns| - 1].after
  }

  /** A turn that meets a lost claim with something raised. */
  predicate Lost(t: Turn, adapters: Adapters, worker: string) {
    Raises(t, adapters) && !Holds(t.done.jobs, t.id, worker, CaughtCopy(t, adapters).generation)
  }

  /** What a turn means for the batch. */
  ghost predicate Facts(t: Turn, adapters: Adapters, worker: string, others: Others) {
    && Evolves(t.before.jobs, t.after.jobs)
    && (t.ending.Ended? || t.ending.Caught? ==> t.id in t.after.jobs && AtRest(t.after.jobs[t.id]))
    && (t.ending.Ended? && t.ending.deferred ==> t.after.jobs[t.id].status.Pending?)
    && (t.ending.Aborted? <==> Lost(t, adapters, worker))
    && (HoldsCopy(t.before.jobs, t.id, t.job, worker) && others.Idle() ==>
          (t.ending.Ended? || t.ending.Caught?) && Closed(t.before.jobs, t.after.jobs, t.id))
  }

  lemma {:induction false} TurnFacts(t: Turn, adapters: Adapters, worker: string, now: Instant, others: Others)
    requires Runs(t, adapters, worker, now, others)
    ensures Facts(t, adapters, worker, others)
  {
    TurnEvolves(t, adapters, worker, now, others);
    TurnAbortsIff(t, adapters, worker, now, others);
    if t.ending.Ended? || t.ending.Caught? {
      TurnRests(t, adapters, worker, now, others);
    }
    if HoldsCopy(t.before.jobs, t.id, t.job, worker) && others.Idle() {
      UndisturbedTurnCloses(t, adapters, worker, now, others);
    }
  }

  /** The course of a batch, as far as its turns' meaning goes. */
  ghost predicate Steps(
      claimed: seq<JobId>, start: World, turns: seq<Turn>, end: World, adapters: Adapters, worker: string, crowd: Crowd)
    decreases |turns|
  {
    if turns == [] then end == start
    else
      var n := |turns| - 1;
      var t := turns[n];
      && n < |claimed| && t.id == claimed[n] && end == t.after
      && Steps(claimed, start, turns[..n], t.before, adapters, worker, crowd) && !Aborts(turns[..n])
      && Facts(t, adapters, worker, crowd(t.id))
      && t.id in start.jobs && (Rereads(turns[..n]) || t.job == start.jobs[t.id])
  }

  lemma {:induction false} CourseFacts(
      claimed: seq<JobId>, start: World, turns: seq<Turn>, i: nat, adapters: Adapters, worker: string, now: Instant, crowd: Crowd)
    requires i < |turns| && OnCourse(claimed, start, turns, i, adapters, worker, now, crowd)
    ensures
      var t := turns[i];
      && i < |claimed| && t.id == claimed[i] && t.id in start.jobs
      && t.before == (if i == 0 then start else turns[i - 1].after) && (i > 0 ==> !turns[i - 1].ending.Aborted?)
      && Facts(t, adapters, worker, crowd(t.id)) && (Rereads(turns[..i]) || t.job == start.jobs[t.id])
  {
    TurnFacts(turns[i], adapters, worker, now, crowd(turns[i].id));
  }

  lemma {:induction false} CourseStepsUpTo(
      claimed: seq<JobId>, start: World, turns: seq<Turn>, k: nat, adapters: Adapters, worker: string, now: Instant, crowd: Crowd)
    requires k <= |turns| && forall i | 0 <= i < |turns| :: OnCourse(claimed, start, turns, i, adapters, worker, now, crowd)
    ensures Steps(claimed, start, turns[..k], if k == 0 then start else turns[k - 1].after, adapters, worker, crowd)
    decreases k
  {
    if k > 0 {
      CourseStepsUpTo(claimed, start, turns, k - 1, adapters, worker, now, crowd);
      CourseFacts(claimed, start, turns, k - 1, adapters, worker, now, crowd);
      assert turns[..k][..k - 1] == turns[..k - 1];
    }
  }

  lemma CourseSteps(
      claimed: seq<JobId>, start: World, turns: seq<Turn>, end: World, adapters: Adapters, worker: string, now: Instant, crowd: Crowd)
    requires Course(claimed, start, turns, end, adapters, worker, now, crowd)
    ensures Steps(claimed, start, turns, end, adapters, worker, crowd)
  {
    CourseStepsUpTo(claimed, start, turns, |turns|, adapters, worker, now, crowd);
    assert turns[..|turns|] == turns;
  }

  function Total(o: ProcessOutcome): nat {
    o.done + o.waiting + o.quotaDeferred + o.failedTerminal + o.retrying
  }

  /** Counting one more turn, under quota or by the status of its job. */
  function Tick(o: ProcessOutcome, deferred: bool, status: JobStatus): ProcessOutcome {
    if deferred then o.(quotaDeferred := o.quotaDeferred + 1)
    else match status
      case Done => o.(done := o.done + 1)
      case WaitingForPublication => o.(waiting := o.waiting + 1)
      case Failed => o.(failedTerminal := o.failedTerminal + 1)
      case Pending => o.(retrying := o.retrying + 1)
      case _ => o
  }

  function StatusAfter(t: Turn): JobStatus {
    if t.id in t.after.jobs then t.after.jobs[t.id].status else Pending
  }

  function Skips(turns: seq<Turn>): nat {
    if turns == [] then 0
    else Skips(turns[..|turns| - 1]) + if turns[|turns| - 1].ending.Skipped? then 1 else 0
  }

  function Counters(claimed: nat, turns: seq<Turn>): ProcessOutcome {
    if turns == [] then ProcessOutcome(claimed, 0, 0, 0, 0, 0)
    else
      var t := turns[|turns| - 1];
      var before := Counters(claimed, turns[..|turns| - 1]);
      match t.ending
      case Ended(deferred) => Tick(before, deferred, StatusAfter(t))
      case Caught => Tick(before, false, StatusAfter(t))
      case _ => before
  }

  lemma {:induction false} StepsEvolve(
      claimed: seq<JobId>, start: World, turns: seq<Turn>, end: World, adapters: Adapters, worker: string, crowd: Crowd)
    requires Steps(claimed, start, turns, end, adapters, worker, crowd)
    ensures |turns| <= |claimed| && Evolves(start.jobs, end.jobs)
    decreases |turns|
  {
    if turns != [] {
      var t := turns[|turns| - 1];
      StepsEvolve(claimed, start, turns[..|turns| - 1], t.before, adapters, worker, crowd);
      EvolvesTransitive(start.jobs, t.before.jobs, end.jobs);
    }
  }

  /** However a batch runs, it loses no job and touches no finished one. */
  lemma CourseEvolves(
      claimed: seq<JobId>, start: World, turns: seq<Turn>, end: World, adapters: Adapters, worker: string, now: Instant, crowd: Crowd)
    requires Course(claimed, start, turns, end, adapters, worker, now, crowd)
    ensures |turns| <= |claimed| && Evolves(start.jobs, end.jobs)
  {
    CourseSteps(claimed, start, turns, end, adapters, worker, now, crowd);
    StepsEvolve(claimed, start, turns, end, adapters, worker, crowd);
  }

  lemma {:induction false} StepsCountOnce(
      claimed: seq<JobId>, start: World, turns: seq<Turn>, end: World, adapters: Adapters, worker: string, crowd: Crowd)
    requires Steps(claimed, start, turns, end, adapters, worker, crowd)
    ensures
      var o := Counters(|claimed|, turns);
      && o.claimed == |claimed| && o.waiting == 0
      && Total(o) + Skips(turns) + (if Aborts(turns) then 1 else 0) == |turns|
    decreases |turns|
  {
    if turns != [] {
      StepsCountOnce(claimed, start, turns[..|turns| - 1], turns[|turns| - 1].before, adapters, worker, crowd);
    }
  }

  /** Every turn is counted once or skipped, except one that ends the batch; the waiting counter never moves. */
  lemma {:induction false} EveryTurnCountsOnce(
      claimed: seq<JobId>, start: World, turns: seq<Turn>, end: World, adapters: Adapters, worker: string, now: Instant, crowd: Crowd)
    requires Course(claimed, start, turns, end, adapters, worker, now, crowd)
    ensures
      var o := Counters(|claimed|, turns);
      && o.claimed == |claimed| && o.waiting == 0
      && Total(o) + Skips(turns) + (if Aborts(turns) then 1 else 0) == |turns|
  {
    CourseSteps(claimed, start, turns, end, adapters, worker, now, crowd);
    StepsCountOnce(claimed, start, turns, end, adapters, worker, crowd);
  }

  lemma {:induction false} StepsAbortIff(
      claimed: seq<JobId>, start: World, turns: seq<Turn>, end: World, adapters: Adapters, worker: string, crowd: Crowd)
    requires Steps(claimed, start, turns, end, adapters, worker, crowd)
    ensures Aborts(turns) <==> exists i | 0 <= i < |turns| :: Lost(turns[i], adapters, worker)
    ensures forall i | 0 <= i < |turns| - 1 :: !Lost(turns[i], adapters, worker)
    decreases |turns|
  {
    if turns != [] {
      var n := |turns| - 1;
      StepsAbortIff(claimed, start, turns[..n], turns[n].before, adapters, worker, crowd);
      forall i | 0 <= i < n
        ensures !Lost(turns[i], adapters, worker)
      {
        assert turns[..n][i] == turns[i];
      }
    }
  }

  /**
   Exactly when a batch is interrupted: when in some turn something was raised and the token of the worker's copy no
   longer holds on the table that the catch-all finds. It is then the last turn, and the claims after it are left.
   */
  lemma {:induction false} BatchAbortsIff(
      claimed: seq<JobId>, start: World, turns: seq<Turn>, end: World, adapters: Adapters, worker: string, now: Instant, crowd: Crowd)
    requires Course(claimed, start, turns, end, adapters, worker, now, crowd)
    ensures Aborts(turns) <==> exists i | 0 <= i < |turns| :: Lost(turns[i], adapters, worker)
    ensures forall i | 0 <= i < |turns| - 1 :: !Lost(turns[i], adapters, worker)
  {
    CourseSteps(claimed, start, turns, end, adapters, worker, now, crowd);
    StepsAbortIff(claimed, start, turns, end, adapters, worker, crowd);
  }

  /**
   A turn after a lost claim works on the row as it then is, whoever claimed it: without a provider its catch-all fails
   the job exactly if someone under the same worker name owns it, and otherwise ends the batch.
   */
  lemma RereadTurnHitsTheLiveOwner(
      claimed: seq<JobId>, start: World, turns: seq<Turn>, end: World, adapters: Adapters, worker: string, now: Instant, crowd: Crowd)
    requires Course(claimed, start, turns, end, adapters, worker, now, crowd) && turns != [] && Rereads(turns[..|turns| - 1])
    requires adapters(turns[|turns| - 1].job).None?
    ensures
      var t := turns[|turns| - 1];
      && t.id in t.before.jobs && (t.ending.Caught? || t.ending.Aborted?)
      && (t.ending.Caught? <==> Owned(t.before.jobs[t.id]) && t.before.jobs[t.id].claimedBy == Some(worker))
      && (t.ending.Caught? ==> t.id in end.jobs && FailedOnce(t.before.jobs[t.id], end.jobs[t.id], now))
  {
    var t := turns[|turns| - 1];
    assert OnCourse(claimed, start, turns, |turns| - 1, adapters, worker, now, crowd);
    TurnAbortsIff(t, adapters, worker, now, crowd(t.id));
    if t.ending.Caught? {
      FailureIsOne(t.done.jobs, t.after.jobs, t.id, worker, t.job.generation, now);
    }
  }

  // ---------------------------------------------------------------- nobody else at the table

  /** Nobody else touches the job table while the batch runs. */
  ghost predicate NobodyElse(crowd: Crowd) {
    forall id :: crowd(id).Idle()
  }

  function CountOf(jobs: Table, ids: seq<JobId>, status: JobStatus): nat {
    if ids == [] then 0
    else
      var last := ids[|ids| - 1];
      CountOf(jobs, ids[..|ids| - 1], status) + if last in jobs && jobs[last].status == status then 1 else 0
  }

  lemma {:induction false} CountLooksAtItsOwnRows(jobs: Table, later: Table, ids: seq<JobId>, status: JobStatus)
    requires forall id | id in ids :: id in jobs && id in later && jobs[id].status == later[id].status
    ensures CountOf(later, ids, status) == CountOf(jobs, ids, status)
  {
    if ids != [] {
      CountLooksAtItsOwnRows(jobs, later, ids[..|ids| - 1], status);
    }
  }

  /** The counters agree with the rows of the jobs handled so far. */
  predicate Counted(jobs: Table, ids: seq<JobId>, o: ProcessOutcome) {
    && o.done == CountOf(jobs, ids, Done)
    && o.failedTerminal == CountOf(jobs, ids, Failed)
    && o.quotaDeferred + o.retrying == CountOf(jobs, ids, Pending)
    && o.waiting == 0
    && o.done + o.failedTerminal + o.quotaDeferred + o.retrying == |ids|
  }

  lemma CountedOneMore(jobs: Table, later: Table, ids: seq<JobId>, id: JobId, o: ProcessOutcome, deferred: bool)
    requires Counted(jobs, ids, o) && Closed(jobs, later, id) && id !in ids
    requires forall k | k in ids :: k in jobs
    requires deferred ==> later[id].status.Pending?
    ensures Counted(later, ids + [id], Tick(o, deferred, later[id].status))
  {
    assert (ids + [id])[..|ids|] == ids;
    CountLooksAtItsOwnRows(jobs, later, ids, Done);
    CountLooksAtItsOwnRows(jobs, later, ids, Failed);
    CountLooksAtItsOwnRows(jobs, later, ids, Pending);
  }

  /** The claim of `before` came to an end. */
  predicate ClosedRow(before: Job, after: Job) {
    SameJob(before, after) && after.generation == before.generation && AtRest(after)
  }

  /** The first `i` claims are closed and counted, the others still held, and no other row has moved. */
  predicate Handled(claimed: seq<JobId>, start: Table, i: nat, jobs: Table, o: ProcessOutcome) {
    && i <= |claimed| && Distinct(claimed) && jobs.Keys == start.Keys
    && (forall id | id in claimed :: id in start)
    && (forall k | 0 <= k < i :: ClosedRow(start[claimed[k]], jobs[claimed[k]]))
    && (forall k | i <= k < |claimed| :: jobs[claimed[k]] == start[claimed[k]])
    && (forall id | id in start && id !in claimed :: jobs[id] == start[id])
    && Counted(jobs, claimed[..i], o)
  }

  lemma HandledOneMore(
      claimed: seq<JobId>, start: Table, i: nat, jobs: Table, later: Table, o: ProcessOutcome, deferred: bool)
    requires Handled(claimed, start, i, jobs, o) && i < |claimed| && Closed(jobs, later, claimed[i])
    requires deferred ==> later[claimed[i]].status.Pending?
    ensures Handled(claimed, start, i + 1, later, Tick(o, deferred, later[claimed[i]].status))
  {
    CountedOneMore(jobs, later, claimed[..i], claimed[i], o, deferred);
    assert claimed[..i + 1] == claimed[..i] + [claimed[i]];
    assert later.Keys == jobs.Keys;
  }

  /** All the claims of the batch are the worker's own. */
  predicate AllHeld(claimed: seq<JobId>, start: Table, worker: string) {
    Distinct(claimed) && forall id | id in claimed :: id in start && HoldsCopy(start, id, start[id], worker)
  }

  lemma {:induction false} UndisturbedStep(
      claimed: seq<JobId>, start: Table, n: nat, t: Turn, o: ProcessOutcome, adapters: Adapters, worker: string, others: Others)
    requires n < |claimed| && t.id == claimed[n] && t.id in start && t.job == start[t.id]
    requires AllHeld(claimed, start, worker) && Handled(claimed, start, n, t.before.jobs, o)
    requires Facts(t, adapters, worker, others) && others.Idle()
    ensures t.ending.Ended? || t.ending.Caught?
    ensures Handled(claimed, start, n + 1, t.after.jobs, Tick(o, t.ending.Ended? && t.ending.deferred, StatusAfter(t)))
  {
    assert HoldsCopy(t.before.jobs, t.id, t.job, worker);
    HandledOneMore(claimed, start, n, t.before.jobs, t.after.jobs, o, t.ending.Ended? && t.ending.deferred);
  }

  lemma {:induction false} UndisturbedSteps(
      claimed: seq<JobId>, start: World, turns: seq<Turn>, end: World, adapters: Adapters, worker: string, crowd: Crowd)
    requires Steps(claimed, start, turns, end, adapters, worker, crowd)
    requires NobodyElse(crowd) && AllHeld(claimed, start.jobs, worker)
    ensures !Aborts(turns) && Skips(turns) == 0 && !Rereads(turns)
    ensures Handled(claimed, start.jobs, |turns|, end.jobs, Counters(|claimed|, turns))
    decreases |turns|
  {
    if turns != [] {
      var n := |turns| - 1;
      var t := turns[n];
      UndisturbedSteps(claimed, start, turns[..n], t.before, adapters, worker, crowd);
      UndisturbedStep(claimed, start.jobs, n, t, Counters(|claimed|, turns[..n]), adapters, worker, crowd(t.id));
      RereadsSnoc(turns);
    } else {
      assert claimed[..0] == [];
    }
  }

  /**
   With nobody else at the table a batch leaves none of its jobs CLAIMED, RUNNING or waiting, counts every one as its
   row then is, and touches no other row; a provider that fails stops nobody else.
   */
  lemma {:induction false} UndisturbedBatch(
      claimed: seq<JobId>, start: World, turns: seq<Turn>, end: World, adapters: Adapters, worker: string, now: Instant, crowd: Crowd)
    requires Course(claimed, start, turns, end, adapters, worker, now, crowd) && (Aborts(turns) || |turns| == |claimed|)
    requires NobodyElse(crowd) && AllHeld(claimed, start.jobs, worker)
    ensures !Aborts(turns) && Skips(turns) == 0 && end.jobs.Keys == start.jobs.Keys
    ensures forall id | id in claimed :: id in end.jobs && ClosedRow(start.jobs[id], end.jobs[id])
    ensures forall id | id in start.jobs && id !in claimed :: end.jobs[id] == start.jobs[id]
    ensures Counted(end.jobs, claimed, Counters(|claimed|, turns))
  {
    CourseSteps(claimed, start, turns, end, adapters, worker, now, crowd);
    UndisturbedSteps(claimed, start, turns, end, adapters, worker, crowd);
    assert claimed[..|claimed|] == claimed;
  }

  // ---------------------------------------------------------------- the methods

  lemma {:induction false} OnCourseLasts(
      claimed: seq<JobId>, start: World, turns: seq<Turn>, t: Turn, i: nat, adapters: Adapters, worker: string, now: Instant, crowd: Crowd)
    requires i < |turns| && OnCourse(claimed, start, turns, i, adapters, worker, now, crowd)
    ensures OnCourse(claimed, start, turns + [t], i, adapters, worker, now, crowd)
  {
    assert (turns + [t])[..i] == turns[..i] && (turns + [t])[i] == turns[i];
  }

  lemma {:induction false} OnCourseNext(
      claimed: seq<JobId>, start: World, turns: seq<Turn>, t: Turn, adapters: Adapters, worker: string, now: Instant, crowd: Crowd)
    requires |turns| < |claimed| && t.id == claimed[|turns|] && t.id in start.jobs && t.id in t.before.jobs && !Aborts(turns)
    requires t.before == if turns == [] then start else turns[|turns| - 1].after
    requires t.job == if Rereads(turns) then t.before.jobs[t.id] else start.jobs[t.id]
    requires Runs(t, adapters, worker, now, crowd(t.id))
    ensures OnCourse(claimed, start, turns + [t], |turns|, adapters, worker, now, crowd)
  {
    assert (turns + [t])[..|turns|] == turns && (turns + [t])[|turns|] == t;
  }

  lemma {:induction false} CourseOneMore(
      claimed: seq<JobId>, start: World, turns: seq<Turn>, t: Turn, adapters: Adapters, worker: string, now: Instant, crowd: Crowd)
    requires Course(claimed, start, turns, t.before, adapters, worker, now, crowd) && !Aborts(turns)
    requires |turns| < |claimed| && t.id == claimed[|turns|] && t.id in start.jobs && t.id in t.before.jobs
    requires t.job == if Rereads(turns) then t.before.jobs[t.id] else start.jobs[t.id]
    requires Runs(t, adapters, worker, now, crowd(t.id))
    ensures Course(claimed, start, turns + [t], t.after, adapters, worker, now, crowd)
    ensures Rereads(turns + [t]) <==> Rereads(turns) || t.ending == Skipped(true)
    ensures Skips(turns + [t]) == Skips(turns) + if t.ending.Skipped? then 1 else 0
    ensures Counters(|claimed|, turns + [t]) ==
      match t.ending
      case Ended(deferred) => Tick(Counters(|claimed|, turns), deferred, StatusAfter(t))
      case Caught => Tick(Counters(|claimed|, turns), false, StatusAfter(t))
      case _ => Counters(|claimed|, turns)
  {
    var all := turns + [t];
    assert all[..|turns|] == turns && all[|turns|] == t;
    forall i | 0 <= i < |all|
      ensures OnCourse(claimed, start, all, i, adapters, worker, now, crowd)
    {
      if i < |turns| {
        OnCourseLasts(claimed, start, turns, t, i, adapters, worker, now, crowd);
      } else {
        OnCourseNext(claimed, start, turns, t, adapters, worker, now, crowd);
      }
    }
    RereadsSnoc(all);
  }

  /** The loop over the claimed jobs, with the copies of their rows that the claims returned. */
  method ProcessBatch(
      runner: IngestionRunner, adapters: Adapters, claimed: seq<JobId>, worker: string, now: Instant, crowd: Crowd)
    returns (outcome: ProcessOutcome, skipped: nat, aborted: bool, ghost turns: seq<Turn>)
    requires Sound(runner.store.rows) && forall id | id in claimed :: id in runner.queue.jobs
    modifies runner.queue, runner.store, runner.quota
    ensures Sound(runner.store.rows) && old(runner.store.rows) <= runner.store.rows
    ensures Course(claimed, old(runner.Now()), turns, runner.Now(), adapters, worker, now, crowd)
    ensures aborted == Aborts(turns) && (!aborted ==> |turns| == |claimed|)
    ensures outcome == Counters(|claimed|, turns) && skipped == Skips(turns)
  {
    ghost var start := runner.Now();
    var copies := runner.queue.jobs;
    outcome, skipped, aborted, turns := ProcessOutcome(|claimed|, 0, 0, 0, 0, 0), 0, false, [];
    var reread := false;
    for i := 0 to |claimed|
      invariant Sound(runner.store.rows) && old(runner.store.rows) <= runner.store.rows
      invariant Course(claimed, start, turns, runner.Now(), adapters, worker, now, crowd) && |turns| == i
      invariant !Aborts(turns) && reread == Rereads(turns)
      invariant outcome == Counters(|claimed|, turns) && skipped == Skips(turns)
    {
      CourseEvolves(claimed, start, turns, runner.Now(), adapters, worker, now, crowd);
      var id := claimed[i];
      var job := if reread then runner.queue.jobs[id] else copies[id];
      ghost var earlier := turns;
      var ending, t := ProcessOne(runner, adapters, id, job, worker, now, crowd(id));
      CourseOneMore(claimed, start, earlier, t, adapters, worker, now, crowd);
      turns := earlier + [t];
      match ending {
        case Aborted =>
          aborted := true;
          return;
        case Skipped(expired) =>
          skipped := skipped + 1;
          reread := reread || expired;
        case Ended(deferred) =>
          TurnRests(t, adapters, worker, now, crowd(id));
          outcome := Tick(outcome, deferred, runner.queue.jobs[id].status);
        case Caught =>
          TurnRests(t, adapters, worker, now, crowd(id));
          outcome := Tick(outcome, false, runner.queue.jobs[id].status);
      }
    }
  }

  lemma ClaimsAreHeld(table: Table, now: Instant, lease: int, worker: string, batch: nat)
    ensures
      var ready := Ready(table, now, lease);
      var claimed := Take(Queue(ready, now, None), batch);
      AllHeld(claimed, ClaimEach(ready, claimed, worker, now), worker)
  {
    var ready := Ready(table, now, lease);
    var claimed := Take(Queue(ready, now, None), batch);
    QueueIsClaimable(ready, now, None);
    forall id | id in claimed
      ensures Claimable(ready, id)
    {
      assert id in Queue(ready, now, None);
    }
  }

  /** A batch: the first jobs in claim order, then one turn for each of them. */
  method ClaimAndProcess(
      runner: IngestionRunner, adapters: Adapters, worker: string, now: Instant, batch: nat, lease: int, crowd: Crowd)
    returns (claimed: seq<JobId>, outcome: ProcessOutcome, skipped: nat, aborted: bool, ghost start: World, ghost turns: seq<Turn>)
    requires Sound(runner.store.rows)
    modifies runner.queue, runner.store, runner.quota
    ensures Sound(runner.store.rows) && old(runner.store.rows) <= runner.store.rows
    ensures claimed == Take(Queue(Ready(old(runner.queue.jobs), now, lease), now, None), batch)
    ensures start == old(runner.Now()).(jobs := ClaimEach(Ready(old(runner.queue.jobs), now, lease), claimed, worker, now))
    ensures AllHeld(claimed, start.jobs, worker)
    ensures Course(claimed, start, turns, runner.Now(), adapters, worker, now, crowd)
    ensures aborted == Aborts(turns) && (!aborted ==> |turns| == |claimed|)
    ensures outcome == Counters(|claimed|, turns) && skipped == Skips(turns)
  {
    ClaimsAreHeld(runner.queue.jobs, now, lease, worker, batch);
    claimed := runner.queue.ClaimNext(worker, now, None, batch, lease);
    start := runner.Now();
    outcome, skipped, aborted, turns := ProcessBatch(runner, adapters, claimed, worker, now, crowd);
  }
}

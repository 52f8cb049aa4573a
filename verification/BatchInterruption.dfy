/** A batch that a failure interrupts, although its catch-all is there to isolate failures. */
module BatchInterruption {
  import opened Wrappers
  import opened Domain
  import opened JobTable
  import opened JobQueue
  import opened ObservationTable
  import opened ObservationStore
  import opened Governance
  import opened Quota
  import opened StorageLoop
  import opened IngestionRunner
  import opened Scheduler

  /** The provider of the first job takes longer than the lease and then fails. */
  predicate Lapses(t: Turn, adapters: Adapters, now: Instant, lease: int, others: Others) {
    && t.job.claimedAt == Some(now) && others.calling == [Recovers(now + lease, lease)]
    && adapters(t.job).Some? && adapters(t.job).value.ProviderFailed?
    && AuthorizeIngestion(t.before.decisions, t.job.source).Some? && t.job.cursor.Some? && !t.before.Spent(t.job.source)
  }

  lemma LapsedRunStarts(t: Turn, adapters: Adapters, worker: string, now: Instant, lease: int, others: Others)
    requires Runs(t, adapters, worker, now, others) && Lapses(t, adapters, now, lease, others)
    requires HoldsCopy(t.before.jobs, t.id, t.job, worker)
    ensures t.ready.Success? && t.middle.jobs == t.before.jobs[t.id := Written(t.job, Start)]
  {
    PreparedSettles(t.before, t.middle, t.id, t.job, worker, now, t.ready);
  }

  /** A recovery takes the claim away during the call; the failure is then refused, and all copies expire. */
  lemma LapsedTurnIsSkipped(t: Turn, adapters: Adapters, worker: string, now: Instant, lease: int, others: Others)
    requires Runs(t, adapters, worker, now, others) && Lapses(t, adapters, now, lease, others)
    requires HoldsCopy(t.before.jobs, t.id, t.job, worker)
    ensures t.ending == Skipped(true)
    ensures t.after.jobs == RecoverExpired(t.before.jobs[t.id := Written(t.job, Start)], now + lease, lease)
  {
    LapsedRunStarts(t, adapters, worker, now, lease, others);
    var called := ApplyAll(t.middle.jobs, others.calling);
    var recovered := RecoverExpired(t.middle.jobs, now + lease, lease);
    assert others.calling[1..] == [] && ApplyAll(recovered, []) == recovered;
    assert called == RecoverExpired(t.middle.jobs, now + lease, lease);
    assert !Owned(called[t.id]);
  }

  /** The first turn begins where the batch does, and the second where the first ends. */
  lemma FirstTwoTurns(
      claimed: seq<JobId>, start: World, turns: seq<Turn>, end: World, adapters: Adapters, worker: string, now: Instant, crowd: Crowd)
    requires Course(claimed, start, turns, end, adapters, worker, now, crowd) && |turns| >= 1
    ensures
      var t := turns[0];
      && |claimed| >= 1 && t.id == claimed[0] && t.before == start && t.id in start.jobs && t.job == start.jobs[t.id]
      && Runs(t, adapters, worker, now, crowd(t.id))
    ensures |turns| >= 2 ==>
      var t := turns[1];
      && |claimed| >= 2 && t.id == claimed[1] && t.before == turns[0].after && t.id in t.before.jobs
      && Runs(t, adapters, worker, now, crowd(t.id))
      && (turns[0].ending == Skipped(true) ==> t.job == t.before.jobs[t.id])
    ensures |turns| > 2 ==> !turns[1].ending.Aborted?
  {
    assert OnCourse(claimed, start, turns, 0, adapters, worker, now, crowd);
    if |turns| >= 2 {
      assert OnCourse(claimed, start, turns, 1, adapters, worker, now, crowd);
      RereadsSnoc(turns[..1]);
    }
    if |turns| > 2 {
      assert OnCourse(claimed, start, turns, 2, adapters, worker, now, crowd);
    }
  }

  /**
   If the first call outlasts the lease and the second job has no provider, the batch ends with its second turn: one
   claim is skipped, none is counted, and the others are left without a turn.
   */
  lemma {:induction false} LapsedBatchAborts(
      claimed: seq<JobId>, start: World, turns: seq<Turn>, end: World, adapters: Adapters, worker: string, now: Instant,
      lease: int, crowd: Crowd)
    requires Course(claimed, start, turns, end, adapters, worker, now, crowd) && (Aborts(turns) || |turns| == |claimed|)
    requires |claimed| >= 2 && AllHeld(claimed, start.jobs, worker)
    requires turns != [] ==> Lapses(turns[0], adapters, now, lease, crowd(claimed[0]))
    requires start.jobs[claimed[1]].claimedAt == Some(now)
    requires forall job | SameJob(start.jobs[claimed[1]], job) :: adapters(job).None?
    ensures |turns| == 2 && Aborts(turns) && turns[0].ending == Skipped(true)
    ensures Skips(turns) == 1 && Total(Counters(|claimed|, turns)) == 0
  {
    LapsedBatchHasTwoTurns(claimed, start, turns, end, adapters, worker, now, lease, crowd);
    EveryTurnCountsOnce(claimed, start, turns, end, adapters, worker, now, crowd);
    TwoSkips(turns);
  }

  lemma TwoSkips(turns: seq<Turn>)
    requires |turns| == 2 && turns[0].ending.Skipped? && turns[1].ending.Aborted?
    ensures Skips(turns) == 1 && Aborts(turns)
  {
    assert turns[..1][..0] == [];
    assert Skips(turns[..1]) == 1;
  }

  lemma LapsedBatchHasTwoTurns(
      claimed: seq<JobId>, start: World, turns: seq<Turn>, end: World, adapters: Adapters, worker: string, now: Instant,
      lease: int, crowd: Crowd)
    requires Course(claimed, start, turns, end, adapters, worker, now, crowd) && (Aborts(turns) || |turns| == |claimed|)
    requires |claimed| >= 2 && AllHeld(claimed, start.jobs, worker)
    requires turns != [] ==> Lapses(turns[0], adapters, now, lease, crowd(claimed[0]))
    requires start.jobs[claimed[1]].claimedAt == Some(now)
    requires forall job | SameJob(start.jobs[claimed[1]], job) :: adapters(job).None?
    ensures |turns| == 2 && turns[0].ending == Skipped(true) && turns[1].ending.Aborted?
  {
    FirstTwoTurns(claimed, start, turns, end, adapters, worker, now, crowd);
    LapsedTurnIsSkipped(turns[0], adapters, worker, now, lease, crowd(claimed[0]));
    if |turns| >= 2 {
      SecondTurnAborts(claimed, start, turns, adapters, worker, now, lease, crowd);
    }
  }

  lemma SecondTurnAborts(
      claimed: seq<JobId>, start: World, turns: seq<Turn>, adapters: Adapters, worker: string, now: Instant, lease: int, crowd: Crowd)
    requires |claimed| >= 2 && |turns| >= 2 && AllHeld(claimed, start.jobs, worker)
    requires turns[0].before == start && turns[0].id == claimed[0] && turns[0].job == start.jobs[claimed[0]]
    requires turns[0].after.jobs == RecoverExpired(start.jobs[claimed[0] := Written(turns[0].job, Start)], now + lease, lease)
    requires turns[1].before == turns[0].after && turns[1].id == claimed[1] && turns[1].id in turns[1].before.jobs
    requires turns[1].job == turns[1].before.jobs[claimed[1]] && Runs(turns[1], adapters, worker, now, crowd(claimed[1]))
    requires start.jobs[claimed[1]].claimedAt == Some(now)
    requires forall job | SameJob(start.jobs[claimed[1]], job) :: adapters(job).None?
    ensures turns[1].ending.Aborted?
  {
    var row := turns[1].before.jobs[claimed[1]];
    assert row == Expire(start.jobs[claimed[1]], now + lease);
    assert SameJob(start.jobs[claimed[1]], row) && !Owned(row);
    TurnAbortsIff(turns[1], adapters, worker, now, crowd(claimed[1]));
  }

  // ---------------------------------------------------------------- such a batch

  const SLOW := JobSpec("fake", "slow", 0, Some(FetchCursor("X", "default", EodClose, 1, 2)), -1, 5, false)
  const HOMELESS := JobSpec("gone", "homeless", 1, Some(FetchCursor("Y", "default", EodClose, 1, 2)), 0, 5, false)

  lemma TwoInOrder(table: Table, a: JobId, b: JobId)
    requires a != b && table == map[a := NewJob(SLOW), b := NewJob(HOMELESS)]
    ensures Ready(table, 0, 300) == table && Queue(table, 0, None) == [a, b]
  {
    var ids := EligibleIds(table, 0, None);
    assert ids == {a, b};
    var queue := Ordered(table, ids);
    assert queue[0] in queue && queue[1] in queue;
    OrderedIsSorted(table, ids, 0, 1);
    assert queue[0] == a && queue[1] == b;
  }

  lemma ApprovedIsAuthorized(decisions: Decisions, source: string)
    requires EffectiveStatus(decisions, source, Retrieve).Approved? && EffectiveStatus(decisions, source, Store).Approved?
    ensures AuthorizeIngestion(decisions, source).Some?
  {
  }

  function Claims(a: JobId, b: JobId): Table {
    ClaimEach(map[a := NewJob(SLOW), b := NewJob(HOMELESS)], [a, b], "scheduler", 0)
  }

  lemma ClaimsAre(a: JobId, b: JobId)
    requires a != b
    ensures Claims(a, b).Keys == {a, b}
    ensures Claims(a, b)[a] == ClaimRow(NewJob(SLOW), "scheduler", 0)
    ensures Claims(a, b)[b] == ClaimRow(NewJob(HOMELESS), "scheduler", 0)
  {
  }

  /** Only the first job has a provider, and it fails. */
  ghost predicate OnlySlowAnswers(adapters: Adapters) {
    forall job :: adapters(job) == if job.dedupeKey == "slow" then Some(ProviderFailed("timeout")) else None
  }

  lemma SlowLapses(t: Turn, a: JobId, b: JobId, adapters: Adapters, others: Others)
    requires a != b && t.job == Claims(a, b)[a] && OnlySlowAnswers(adapters) && others.calling == [Recovers(300, 300)]
    requires AuthorizeIngestion(t.before.decisions, "fake").Some? && !t.before.Spent("fake")
    ensures Lapses(t, adapters, 0, 300, others)
  {
    ClaimsAre(a, b);
  }

  lemma HomelessHasNone(a: JobId, b: JobId, adapters: Adapters)
    requires a != b && OnlySlowAnswers(adapters)
    ensures Claims(a, b)[b].claimedAt == Some(0)
    ensures forall job | SameJob(Claims(a, b)[b], job) :: adapters(job).None?
  {
    ClaimsAre(a, b);
    forall job | SameJob(Claims(a, b)[b], job)
      ensures adapters(job).None?
    {
      assert job.dedupeKey == "homeless";
      assert |"homeless"| == 8 && |"slow"| == 4;
    }
  }

  lemma BothAreClaimed(table: Table, a: JobId, b: JobId, claimed: seq<JobId>)
    requires a != b && table == map[a := NewJob(SLOW), b := NewJob(HOMELESS)]
    requires claimed == Take(Queue(Ready(table, 0, 300), 0, None), 2)
    ensures claimed == [a, b] && ClaimEach(Ready(table, 0, 300), claimed, "scheduler", 0) == Claims(a, b)
  {
    TwoInOrder(table, a, b);
  }

  lemma {:induction false} InterruptedCourse(
      claimed: seq<JobId>, a: JobId, b: JobId, start: World, turns: seq<Turn>, end: World, adapters: Adapters, crowd: Crowd)
    requires a != b && claimed == [a, b] && start.jobs == Claims(a, b) && AllHeld(claimed, start.jobs, "scheduler")
    requires AuthorizeIngestion(start.decisions, "fake").Some? && !start.Spent("fake")
    requires OnlySlowAnswers(adapters) && forall id :: crowd(id).calling == [Recovers(300, 300)]
    requires Course(claimed, start, turns, end, adapters, "scheduler", 0, crowd) && (Aborts(turns) || |turns| == |claimed|)
    ensures Aborts(turns) && Skips(turns) == 1
  {
    FirstTwoTurns(claimed, start, turns, end, adapters, "scheduler", 0, crowd);
    SlowLapses(turns[0], a, b, adapters, crowd(a));
    HomelessHasNone(a, b, adapters);
    LapsedBatchAborts(claimed, start, turns, end, adapters, "scheduler", 0, 300, crowd);
  }

  /** Two due jobs under an approved source. */
  method TwoJobs() returns (runner: IngestionRunner, a: JobId, b: JobId)
    ensures fresh(runner) && fresh(runner.queue) && fresh(runner.store) && fresh(runner.gate) && fresh(runner.quota)
    ensures a != b && runner.queue.jobs == map[a := NewJob(SLOW), b := NewJob(HOMELESS)]
    ensures AuthorizeIngestion(runner.gate.decisions, "fake").Some? && !runner.quota.Spent("fake") && Sound(runner.store.rows)
  {
    var queue := new JobQueue();
    var isNew: bool;
    a, isNew := queue.EnqueueIdempotent(SLOW);
    assert |queue.jobs[a].dedupeKey| == 4 && |HOMELESS.dedupeKey| == 8;
    b, isNew := queue.EnqueueIdempotent(HOMELESS);
    var gate := new PolicyGate();
    var _ := gate.RecordDecision("fake", Retrieve, Approved);
    DecideTakesEffect(gate.decisions, "fake", Store, Approved, "fake", Retrieve);
    var _ := gate.RecordDecision("fake", Store, Approved);
    ApprovedIsAuthorized(gate.decisions, "fake");
    var store := new ObservationStore();
    var quota := new QuotaBook(10, None);
    runner := new IngestionRunner(queue, store, gate, quota);
  }

  /** The first job's provider takes five minutes, the second has none: the batch is interrupted. */
  method InterruptedBatch() returns (skipped: nat, aborted: bool)
    ensures aborted && skipped == 1
  {
    var runner, a, b := TwoJobs();
    ghost var table := runner.queue.jobs;
    var adapters: Adapters := (job: Job) => if job.dedupeKey == "slow" then Some(ProviderFailed("timeout")) else None;
    var crowd: Crowd := id => Others([Recovers(300, 300)], [], i => n => []);
    var claimed, outcome, skips, stopped, start, turns := ClaimAndProcess(runner, adapters, "scheduler", 0, 2, 300, crowd);
    BothAreClaimed(table, a, b, claimed);
    InterruptedCourse(claimed, a, b, start, turns, runner.Now(), adapters, crowd);
    return skips, stopped;
  }
}

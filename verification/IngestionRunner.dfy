/** One run of `process`, from a claimed job to its verdict. */
module IngestionRunner {
  import opened Wrappers
  import opened Domain
  import opened JobTable
  import opened JobQueue
  import opened ObservationTable
  import opened ObservationStore
  import opened Governance
  import opened Validation
  import opened Quota
  import opened IngestionSystem
  import opened StorageLoop

  datatype Reply = Replied(response: seq<RawObservation>) | ProviderFailed(code: string)

  datatype Detail = PolicyNotAuthorized | InvalidCursor | QuotaExhausted | FetchError | AllMalformed | Completed

  /**
   A lost claim shows in a refused transition, which expires every row the session has loaded, or in a refused claim
   or fence, which does not. `Raised` is an exhausted revision race, which `process` does not catch; it leaves the
   worker with the row as the fence last loaded it.
   */
  datatype JobOutcome =
    | Reached(detail: Detail, recorded: nat, rejected: nat)
    | StaleClaim(expired: bool)
    | Raised(copy: Job)

  /**
   Everybody else: what they do to the job table during the provider call and during the storage loop, and what they
   write to the store around each statement of the `record` call for each row.
   */
  datatype Others = Others(calling: seq<Move>, storing: seq<Move>, writers: nat -> Rivals) {
    predicate Idle() {
      calling == [] && storing == []
    }

    ghost predicate Silent() {
      Quiet(writers)
    }
  }

  // ---------------------------------------------------------------- what one run does

  /** Everything a run of `process` reads and writes. */
  datatype World = World(
    jobs: Table, rows: seq<Row>, decisions: Decisions, consumed: map<string, nat>, limit: nat, resetAt: Option<Instant>)
  {
    function Used(source: string): nat {
      if source in consumed then consumed[source] else 0
    }

    predicate Spent(source: string) {
      Used(source) >= limit
    }

    function ResumeAt(now: Instant): Instant {
      if resetAt.Some? then resetAt.value else now + DEFAULT_QUOTA_DEFER_SECONDS
    }
  }

  function Taken(jobs: Table, id: JobId, job: Job, worker: string, now: Instant): Table {
    if job.status.Pending? then Claim(jobs, id, worker, now) else jobs
  }

  function TokenOf(jobs: Table, id: JobId, job: Job): nat
    requires id in jobs
  {
    if job.status.Pending? then jobs[id].generation + 1 else job.generation
  }

  function CopyOf(jobs: Table, id: JobId, job: Job): nat
    requires id in jobs
  {
    if job.status.Pending? then jobs[id].attempts else job.attempts
  }

  /** What a run holds once it is RUNNING. */
  datatype Lease = Lease(generation: nat, auth: Authorization)

  /** The provider replied and the token was still live when it did. */
  predicate Fenced(jobs: Table, id: JobId, worker: string, generation: nat, reply: Reply, others: Others) {
    reply.Replied? && Holds(ApplyAll(jobs, others.calling), id, worker, generation)
  }

  /** The job table a run finds when it has stored its response. */
  function Found(jobs: Table, others: Others): Table {
    ApplyAll(ApplyAll(jobs, others.calling), others.storing)
  }

  /** One accepted failure under the given token, counted from the given copy. */
  ghost predicate RecordsFailure(before: Table, after: Table, id: JobId, worker: string, generation: nat, copy: nat, now: Instant) {
    exists error: string :: Transition(before, id, worker, generation, Fail(copy, now, error)) == Some(after)
  }

  /** Claim if still pending, then the policy, cursor and quota gates in this order, then RUNNING. */
  ghost predicate Prepared(
      before: World, after: World, id: JobId, job: Job, worker: string, now: Instant, ready: Result<Lease, JobOutcome>)
    requires id in before.jobs
  {
    var taken := Taken(before.jobs, id, job, worker, now);
    var generation := TokenOf(before.jobs, id, job);
    var auth := AuthorizeIngestion(before.decisions, job.source);
    && after == before.(jobs := after.jobs)
    && match ready
       case Success(lease) =>
         && lease.generation == generation && auth == Some(lease.auth) && job.cursor.Some? && !before.Spent(job.source)
         && Transition(taken, id, worker, generation, Start) == Some(after.jobs)
       case Failure(Raised(_)) => false
       case Failure(StaleClaim(expired)) =>
         && after.jobs == taken && !Accepts(taken, id, worker, generation, Start)
         && (expired <==> !job.status.Pending? || Claimable(before.jobs, id))
       case Failure(Reached(detail, recorded, rejected)) =>
         && recorded == rejected == 0
         && match detail
            case PolicyNotAuthorized =>
              auth.None? && RecordsFailure(taken, after.jobs, id, worker, generation, CopyOf(before.jobs, id, job), now)
            case InvalidCursor =>
              && auth.Some? && job.cursor.None?
              && RecordsFailure(taken, after.jobs, id, worker, generation, CopyOf(before.jobs, id, job), now)
            case QuotaExhausted =>
              && auth.Some? && job.cursor.Some? && before.Spent(job.source)
              && Transition(taken, id, worker, generation, Defer(before.ResumeAt(now))) == Some(after.jobs)
            case _ => false
  }

  /**
   The storage loop and the verdict, with everybody else at work. `copy` is the worker's row, as the fence loaded it.
   */
  ghost predicate Concluded(
      before: World, after: World, id: JobId, job: Job, copy: Job, worker: string, lease: Lease, now: Instant,
      response: seq<RawObservation>, others: Others, outcome: JobOutcome)
    requires job.cursor.Some?
  {
    var found := ApplyAll(before.jobs, others.storing);
    && id in found && Sound(after.rows) && before.rows <= after.rows
    && after == before.(jobs := after.jobs, rows := after.rows)
    && match outcome
       case StaleClaim(expired) => expired && after.jobs == found && !Accepts(found, id, worker, lease.generation, Finish)
       case Raised(loaded) =>
         && loaded == copy && after.jobs == found && Raced(before.rows, after.rows, job, response)
         && exists n :: Inserted(before.rows, after.rows, job, response, lease.auth, now, others.writers, n)
       case Reached(AllMalformed, recorded, rejected) =>
         && ResponseStored(before.rows, after.rows, job, response, lease.auth, now, others.writers, recorded, rejected)
         && Verdict(recorded, rejected, now).Fail?
         && RecordsFailure(found, after.jobs, id, worker, lease.generation, copy.attempts, now)
       case Reached(Completed, recorded, rejected) =>
         && ResponseStored(before.rows, after.rows, job, response, lease.auth, now, others.writers, recorded, rejected)
         && Verdict(recorded, rejected, now).Finish?
         && Transition(found, id, worker, lease.generation, Finish) == Some(after.jobs)
       case _ => false
  }

  /** With nobody else writing, the store takes the response row by row as specified. */
  ghost predicate Undisputed(
      before: World, after: World, job: Job, lease: Lease, now: Instant, response: seq<RawObservation>, others: Others,
      outcome: JobOutcome)
    requires job.cursor.Some?
  {
    others.Silent() ==>
      var t := StoreAll(before.rows, job, response, lease.auth, now);
      && !outcome.Raised? && after.rows == t.rows
      && (outcome.Reached? ==> outcome.recorded == t.recorded && outcome.rejected == t.rejected)
  }

  /** What a run finds past the fence: the table the others left during the call, and one unit of quota spent. */
  function PastFence(before: World, source: string, others: Others): World {
    before.(jobs := ApplyAll(before.jobs, others.calling),
            consumed := if before.Spent(source) then before.consumed
                        else before.consumed[source := before.Used(source) + 1])
  }

  /** The provider call and the fence; past it, the storage loop and the verdict. */
  ghost predicate Delivered(
      before: World, after: World, id: JobId, job: Job, worker: string, lease: Lease, now: Instant, reply: Reply,
      others: Others, outcome: JobOutcome)
    requires job.cursor.Some?
  {
    var called := ApplyAll(before.jobs, others.calling);
    && id in called
    && if Fenced(before.jobs, id, worker, lease.generation, reply, others)
       then
         var fenced := PastFence(before, job.source, others);
         && Concluded(fenced, after, id, job, called[id], worker, lease, now, reply.response, others, outcome)
         && Undisputed(fenced, after, job, lease, now, reply.response, others, outcome)
       else
         && after == before.(jobs := after.jobs)
         && match outcome
            case StaleClaim(expired) =>
              && after.jobs == called && !Accepts(called, id, worker, lease.generation, Finish)
              && (expired <==> reply.ProviderFailed?)
            case Reached(FetchError, _, _) =>
              reply.ProviderFailed? && RecordsFailure(called, after.jobs, id, worker, lease.generation, called[id].attempts, now)
            case _ => false
  }

  /** One run of `process`. */
  ghost predicate Processed(
      before: World, middle: World, after: World, id: JobId, job: Job, worker: string, now: Instant, reply: Reply,
      others: Others, ready: Result<Lease, JobOutcome>, outcome: JobOutcome)
    requires id in before.jobs
  {
    && Prepared(before, middle, id, job, worker, now, ready)
    && match ready
       case Failure(error) => after == middle && outcome == error
       case Success(lease) =>
         && job.cursor.Some?
         && Delivered(middle, after, id, job, worker, lease, now, reply, others, outcome)
  }

  // ---------------------------------------------------------------- what a run means

  /**
   A row is stored or quota spent only past every gate, under a grant that was effective then, and past the fence
   under the token of this run.
   */
  lemma StoringNeedsGatesAndFence(
      before: World, middle: World, after: World, id: JobId, job: Job, worker: string, now: Instant, reply: Reply,
      others: Others, ready: Result<Lease, JobOutcome>, outcome: JobOutcome)
    requires id in before.jobs && Processed(before, middle, after, id, job, worker, now, reply, others, ready, outcome)
    requires after.rows != before.rows || after.consumed != before.consumed || outcome.Raised?
    ensures ready.Success? && Granted(before.decisions, job.source, ready.value.auth)
    ensures job.cursor.Some? && !before.Spent(job.source)
    ensures after.Used(job.source) == before.Used(job.source) + 1
    ensures
      var generation := TokenOf(before.jobs, id, job);
      var started := Transition(Taken(before.jobs, id, job, worker, now), id, worker, generation, Start);
      started.Some? && Fenced(started.value, id, worker, generation, reply, others)
  {
    GrantedNow(before.decisions, job.source);
  }

  /**
   A completed run has a DONE job and every admissible observation in the store; its count is the number of rows it
   inserted itself, whatever others inserted meanwhile, and without one nothing was malformed.
   */
  lemma CompletedMeansStored(
      before: World, middle: World, after: World, id: JobId, job: Job, worker: string, now: Instant, reply: Reply,
      others: Others, ready: Result<Lease, JobOutcome>, outcome: JobOutcome)
    requires id in before.jobs && Sound(before.rows)
    requires Processed(before, middle, after, id, job, worker, now, reply, others, ready, outcome)
    requires outcome.Reached? && outcome.detail.Completed?
    ensures id in after.jobs && after.jobs[id].status.Done? && reply.Replied?
    ensures AllStored(after.rows, job, reply.response)
    ensures ready.Success?
      && Inserted(before.rows, after.rows, job, reply.response, ready.value.auth, now, others.writers, outcome.recorded)
    ensures others.Silent() ==> outcome.recorded == |after.rows| - |before.rows|
    ensures outcome.recorded == 0 ==> forall raw | raw in reply.response :: Valid(raw, job.cursor.value)
  {
    StoreAllStores(before.rows, job, reply.response, ready.value.auth, now);
  }

  predicate FailedOnce(before: Job, after: Job, now: Instant) {
    && after.attempts == before.attempts + 1
    && after.status == (if after.attempts >= before.maxAttempts then Failed else Pending)
    && after.nextRunAt == now + BackoffSeconds(after.attempts)
  }

  lemma FailureIsOne(before: Table, after: Table, id: JobId, worker: string, generation: nat, now: Instant)
    requires id in before && RecordsFailure(before, after, id, worker, generation, before[id].attempts, now)
    ensures id in after && after == before[id := after[id]] && FailedOnce(before[id], after[id], now)
    ensures SameJob(before[id], after[id]) && after[id].generation == before[id].generation
  {
    var error: string :| Transition(before, id, worker, generation, Fail(before[id].attempts, now, error)) == Some(after);
    assert after[id] == Written(before[id], Fail(before[id].attempts, now, error));
  }

  /** A failed fetch or a response without a usable row costs the job, as the others left it, exactly one attempt. */
  lemma FailingCountsOnce(
      before: World, middle: World, after: World, id: JobId, job: Job, worker: string, now: Instant, reply: Reply,
      others: Others, ready: Result<Lease, JobOutcome>, outcome: JobOutcome)
    requires id in before.jobs && Processed(before, middle, after, id, job, worker, now, reply, others, ready, outcome)
    requires outcome.Reached? && (outcome.detail.FetchError? || outcome.detail.AllMalformed?)
    ensures
      var found := if outcome.detail.FetchError? then ApplyAll(middle.jobs, others.calling) else Found(middle.jobs, others);
      && id in found && id in after.jobs && after.jobs == found[id := after.jobs[id]]
      && FailedOnce(found[id], after.jobs[id], now)
  {
    var called := ApplyAll(middle.jobs, others.calling);
    if outcome.detail.FetchError? {
      FailureIsOne(called, after.jobs, id, worker, ready.value.generation, now);
    } else {
      HeldCountStays(called, others.storing, id);
      FailureIsOne(Found(middle.jobs, others), after.jobs, id, worker, ready.value.generation, now);
    }
  }

  /** What becomes of a claimed job when nobody else touches it; the rest of the table stays as it is. */
  predicate Settled(before: Table, after: Table, id: JobId, outcome: JobOutcome, now: Instant) {
    && id in before && id in after && after == before[id := after[id]]
    && SameJob(before[id], after[id]) && after[id].generation == before[id].generation
    && outcome.Reached?
    && match outcome.detail
       case Completed => after[id].status.Done? && after[id].attempts == before[id].attempts
       case QuotaExhausted => after[id].status.Pending? && after[id].attempts == before[id].attempts
       case _ => FailedOnce(before[id], after[id], now)
  }

  /** The worker's copy of a claim that is still its own. */
  predicate HoldsCopy(jobs: Table, id: JobId, job: Job, worker: string) {
    id in jobs && jobs[id] == job && job.status.Claimed? && job.claimedBy == Some(worker)
  }

  lemma PreparedSettles(before: World, after: World, id: JobId, job: Job, worker: string, now: Instant, ready: Result<Lease, JobOutcome>)
    requires HoldsCopy(before.jobs, id, job, worker) && Prepared(before, after, id, job, worker, now, ready)
    ensures ready.Success? ==> after.jobs == before.jobs[id := Written(job, Start)]
    ensures ready.Failure? ==> Settled(before.jobs, after.jobs, id, ready.error, now)
  {
    if ready.Failure? && ready.error.Reached? && !ready.error.detail.QuotaExhausted? {
      FailureIsOne(before.jobs, after.jobs, id, worker, job.generation, now);
    }
  }

  lemma DeliveredSettles(
      before: World, after: World, id: JobId, job: Job, worker: string, lease: Lease, now: Instant, reply: Reply,
      others: Others, outcome: JobOutcome)
    requires job.cursor.Some? && others.Idle() && Accepts(before.jobs, id, worker, lease.generation, Finish)
    requires Delivered(before, after, id, job, worker, lease, now, reply, others, outcome)
    ensures outcome.Raised? ==> after.jobs == before.jobs && outcome.copy == before.jobs[id]
    ensures !outcome.Raised? ==> Settled(before.jobs, after.jobs, id, outcome, now)
  {
    assert Found(before.jobs, others) == ApplyAll(before.jobs, others.calling) == before.jobs;
    if outcome.Reached? && (outcome.detail.FetchError? || outcome.detail.AllMalformed?) {
      FailureIsOne(before.jobs, after.jobs, id, worker, lease.generation, now);
    }
  }

  lemma StartedThenSettled(before: Table, started: Table, after: Table, id: JobId, outcome: JobOutcome, now: Instant)
    requires id in before && started == before[id := Written(before[id], Start)]
    requires Settled(started, after, id, outcome, now)
    ensures Settled(before, after, id, outcome, now)
  {
    assert before[id := after[id]] == started[id := after[id]];
  }

  /** With nobody else at the job table a claim never stays CLAIMED or RUNNING, unless the run raised. */
  lemma UndisturbedRunSettles(
      before: World, middle: World, after: World, id: JobId, job: Job, worker: string, now: Instant, reply: Reply,
      others: Others, ready: Result<Lease, JobOutcome>, outcome: JobOutcome)
    requires HoldsCopy(before.jobs, id, job, worker) && others.Idle()
    requires Processed(before, middle, after, id, job, worker, now, reply, others, ready, outcome)
    ensures outcome.Raised? ==> after.jobs == before.jobs[id := Written(job, Start)] && outcome.copy == Written(job, Start)
    ensures !outcome.Raised? ==> Settled(before.jobs, after.jobs, id, outcome, now)
  {
    PreparedSettles(before, middle, id, job, worker, now, ready);
    if ready.Success? {
      DeliveredSettles(middle, after, id, job, worker, ready.value, now, reply, others, outcome);
      if !outcome.Raised? {
        StartedThenSettled(before.jobs, middle.jobs, after.jobs, id, outcome, now);
      }
    }
  }

  lemma PresentedEvolves(before: Table, after: Table, id: JobId, worker: string, generation: nat, update: Update)
    requires Transition(before, id, worker, generation, update) == Some(after)
    ensures Evolves(before, after)
  {
    ApplyEvolves(before, Presents(id, worker, generation, update));
  }

  lemma FailureEvolves(before: Table, after: Table, id: JobId, worker: string, generation: nat, copy: nat, now: Instant)
    requires RecordsFailure(before, after, id, worker, generation, copy, now)
    ensures Evolves(before, after)
  {
    var error: string :| Transition(before, id, worker, generation, Fail(copy, now, error)) == Some(after);
    PresentedEvolves(before, after, id, worker, generation, Fail(copy, now, error));
  }

  lemma PreparedEvolves(before: World, after: World, id: JobId, job: Job, worker: string, now: Instant, ready: Result<Lease, JobOutcome>)
    requires id in before.jobs && Prepared(before, after, id, job, worker, now, ready)
    ensures Evolves(before.jobs, after.jobs)
  {
    var taken := Taken(before.jobs, id, job, worker, now);
    var generation := TokenOf(before.jobs, id, job);
    ApplyEvolves(before.jobs, Claims(id, worker, now));
    match ready
    case Success(lease) => PresentedEvolves(taken, after.jobs, id, worker, generation, Start);
    case Failure(Reached(QuotaExhausted, _, _)) =>
      PresentedEvolves(taken, after.jobs, id, worker, generation, Defer(before.ResumeAt(now)));
    case Failure(Reached(PolicyNotAuthorized, _, _)) =>
      FailureEvolves(taken, after.jobs, id, worker, generation, CopyOf(before.jobs, id, job), now);
    case Failure(Reached(InvalidCursor, _, _)) =>
      FailureEvolves(taken, after.jobs, id, worker, generation, CopyOf(before.jobs, id, job), now);
    case _ =>
    EvolvesTransitive(before.jobs, taken, after.jobs);
  }

  lemma DeliveredEvolves(
      before: World, after: World, id: JobId, job: Job, worker: string, lease: Lease, now: Instant, reply: Reply,
      others: Others, outcome: JobOutcome)
    requires job.cursor.Some? && Delivered(before, after, id, job, worker, lease, now, reply, others, outcome)
    ensures Evolves(before.jobs, after.jobs)
  {
    var called, found := ApplyAll(before.jobs, others.calling), Found(before.jobs, others);
    ApplyAllEvolves(before.jobs, others.calling);
    ApplyAllEvolves(called, others.storing);
    EvolvesTransitive(before.jobs, called, found);
    match outcome
    case Reached(FetchError, _, _) =>
      FailureEvolves(called, after.jobs, id, worker, lease.generation, called[id].attempts, now);
      EvolvesTransitive(before.jobs, called, after.jobs);
    case Reached(AllMalformed, _, _) =>
      FailureEvolves(found, after.jobs, id, worker, lease.generation, called[id].attempts, now);
      EvolvesTransitive(before.jobs, found, after.jobs);
    case Reached(Completed, _, _) =>
      PresentedEvolves(found, after.jobs, id, worker, lease.generation, Finish);
      EvolvesTransitive(before.jobs, found, after.jobs);
    case _ =>
  }

  lemma FailureRests(before: Table, after: Table, id: JobId, worker: string, generation: nat, copy: nat, now: Instant)
    requires RecordsFailure(before, after, id, worker, generation, copy, now)
    ensures id in after && (after[id].status.Pending? || after[id].status.Failed?)
  {
    var error: string :| Transition(before, id, worker, generation, Fail(copy, now, error)) == Some(after);
    assert after[id] == Written(before[id], Fail(copy, now, error));
  }

  /** Neither claimed nor waiting. */
  predicate AtRest(job: Job) {
    job.status.Done? || job.status.Pending? || job.status.Failed?
  }

  /** A run that reaches a verdict leaves its job at rest, PENDING if it was deferred. */
  lemma VerdictRests(
      before: World, middle: World, after: World, id: JobId, job: Job, worker: string, now: Instant, reply: Reply,
      others: Others, ready: Result<Lease, JobOutcome>, outcome: JobOutcome)
    requires id in before.jobs && Processed(before, middle, after, id, job, worker, now, reply, others, ready, outcome)
    requires outcome.Reached?
    ensures id in after.jobs && AtRest(after.jobs[id])
    ensures outcome.detail.QuotaExhausted? ==> after.jobs[id].status.Pending?
  {
    match outcome.detail
    case PolicyNotAuthorized =>
      FailureRests(Taken(before.jobs, id, job, worker, now), after.jobs, id, worker, TokenOf(before.jobs, id, job), CopyOf(before.jobs, id, job), now);
    case InvalidCursor =>
      FailureRests(Taken(before.jobs, id, job, worker, now), after.jobs, id, worker, TokenOf(before.jobs, id, job), CopyOf(before.jobs, id, job), now);
    case FetchError => FailingCountsOnce(before, middle, after, id, job, worker, now, reply, others, ready, outcome);
    case AllMalformed => FailingCountsOnce(before, middle, after, id, job, worker, now, reply, others, ready, outcome);
    case _ =>
  }

  /** However a run ends, it loses no job and touches no finished one. */
  lemma {:induction false} ProcessedEvolves(
      before: World, middle: World, after: World, id: JobId, job: Job, worker: string, now: Instant, reply: Reply,
      others: Others, ready: Result<Lease, JobOutcome>, outcome: JobOutcome)
    requires id in before.jobs && Processed(before, middle, after, id, job, worker, now, reply, others, ready, outcome)
    ensures Evolves(before.jobs, after.jobs)
  {
    PreparedEvolves(before, middle, id, job, worker, now, ready);
    if ready.Success? {
      DeliveredEvolves(middle, after, id, job, worker, ready.value, now, reply, others, outcome);
      EvolvesTransitive(before.jobs, middle.jobs, after.jobs);
    }
  }

  lemma DeliveredPastFence(
      before: World, after: World, id: JobId, job: Job, worker: string, lease: Lease, now: Instant, reply: Reply,
      others: Others, outcome: JobOutcome)
    requires job.cursor.Some? && id in ApplyAll(before.jobs, others.calling)
    requires Fenced(before.jobs, id, worker, lease.generation, reply, others)
    requires Concluded(PastFence(before, job.source, others), after, id, job, ApplyAll(before.jobs, others.calling)[id], worker,
                       lease, now, reply.response, others, outcome)
    requires Undisputed(PastFence(before, job.source, others), after, job, lease, now, reply.response, others, outcome)
    ensures Delivered(before, after, id, job, worker, lease, now, reply, others, outcome)
  {
  }

  lemma FoundKeepsJob(called: Table, moves: seq<Move>, id: JobId)
    requires id in called
    ensures id in ApplyAll(called, moves)
  {
    ApplyAllEvolves(called, moves);
  }

  // ---------------------------------------------------------------- the methods

  class IngestionRunner {
    const queue: JobQueue
    const store: ObservationStore
    const gate: PolicyGate
    const quota: QuotaBook

    constructor (queue: JobQueue, store: ObservationStore, gate: PolicyGate, quota: QuotaBook)
      ensures this.queue == queue && this.store == store && this.gate == gate && this.quota == quota
    {
      this.queue := queue;
      this.store := store;
      this.gate := gate;
      this.quota := quota;
    }

    ghost function Now(): World
      reads queue, store, gate, quota
    {
      World(queue.jobs, store.rows, gate.decisions, quota.consumed, quota.limit, quota.resetAt)
    }

    method Prepare(id: JobId, job: Job, worker: string, now: Instant) returns (ready: Result<Lease, JobOutcome>)
      requires id in queue.jobs
      modifies queue
      ensures Prepared(old(Now()), Now(), id, job, worker, now, ready)
    {
      var generation := job.generation;
      var attempts := job.attempts;
      if job.status.Pending? {
        var won := queue.TryClaimOne(id, worker, now);
        if !won {
          return Failure(StaleClaim(false));
        }
        generation := queue.jobs[id].generation;
        attempts := queue.jobs[id].attempts;
      }
      var auth := AuthorizeIngestion(gate.decisions, job.source);
      if auth.None? {
        var failed := queue.OwnedTransition(id, worker, generation, Fail(attempts, now, "policy_not_authorized"));
        return Failure(if failed then Reached(PolicyNotAuthorized, 0, 0) else StaleClaim(true));
      }
      if job.cursor.None? {
        var failed := queue.OwnedTransition(id, worker, generation, Fail(attempts, now, "invalid_cursor"));
        return Failure(if failed then Reached(InvalidCursor, 0, 0) else StaleClaim(true));
      }
      var status := quota.Check(job.source);
      if status.Exhausted() {
        var resumeAt := if status.resetAt.Some? then status.resetAt.value else now + DEFAULT_QUOTA_DEFER_SECONDS;
        var deferred := queue.OwnedTransition(id, worker, generation, Defer(resumeAt));
        return Failure(if deferred then Reached(QuotaExhausted, 0, 0) else StaleClaim(true));
      }
      var started := queue.OwnedTransition(id, worker, generation, Start);
      return if started then Success(Lease(generation, auth.value)) else Failure(StaleClaim(true));
    }

    method Deliver(id: JobId, job: Job, worker: string, lease: Lease, now: Instant, reply: Reply, others: Others)
      returns (outcome: JobOutcome)
      requires id in queue.jobs && job.cursor.Some? && Sound(store.rows)
      modifies queue, store, quota
      ensures Sound(store.rows) && old(store.rows) <= store.rows
      ensures Delivered(old(Now()), Now(), id, job, worker, lease, now, reply, others, outcome)
    {
      queue.Meanwhile(others.calling);
      if reply.ProviderFailed? {
        var failed := queue.OwnedTransition(id, worker, lease.generation, Fail(queue.jobs[id].attempts, now, reply.code));
        return if failed then Reached(FetchError, 0, 0) else StaleClaim(true);
      }
      var copy := queue.jobs[id];
      var owned := queue.AssertOwned(id, worker, lease.generation);
      if !owned {
        return StaleClaim(false);
      }
      var _ := quota.Consume(job.source, 1);
      assert Now() == PastFence(old(Now()), job.source, others);
      outcome := Conclude(id, job, copy, worker, lease, now, reply.response, others);
      DeliveredPastFence(old(Now()), Now(), id, job, worker, lease, now, reply, others, outcome);
    }

    method Conclude(
        id: JobId, job: Job, copy: Job, worker: string, lease: Lease, now: Instant, response: seq<RawObservation>, others: Others)
      returns (outcome: JobOutcome)
      requires id in queue.jobs && job.cursor.Some? && Sound(store.rows)
      modifies queue, store
      ensures Concluded(old(Now()), Now(), id, job, copy, worker, lease, now, response, others, outcome)
      ensures Undisputed(old(Now()), Now(), job, lease, now, response, others, outcome)
    {
      FoundKeepsJob(queue.jobs, others.storing, id);
      queue.Meanwhile(others.storing);
      var stored, recorded, rejected := StorageLoop.StoreResponse(store, job, response, lease.auth, now, others.writers);
      if !stored {
        return Raised(copy);
      }
      if rejected > 0 && recorded == 0 {
        var failed := queue.OwnedTransition(id, worker, lease.generation, Fail(copy.attempts, now, "malformed"));
        return if failed then Reached(AllMalformed, recorded, rejected) else StaleClaim(true);
      }
      var finished := queue.OwnedTransition(id, worker, lease.generation, Finish);
      return if finished then Reached(Completed, recorded, rejected) else StaleClaim(true);
    }

    /**
     `job` is the worker's copy of the row, `reply` what the provider does, `others` what everybody else does in the
     meantime.
     */
    method Process(id: JobId, job: Job, worker: string, now: Instant, reply: Reply, others: Others)
      returns (outcome: JobOutcome, ghost middle: World, ghost ready: Result<Lease, JobOutcome>)
      requires id in queue.jobs && Sound(store.rows)
      modifies queue, store, quota
      ensures Sound(store.rows) && old(store.rows) <= store.rows
      ensures Processed(old(Now()), middle, Now(), id, job, worker, now, reply, others, ready, outcome)
    {
      var prepared := Prepare(id, job, worker, now);
      ready, middle := prepared, Now();
      if prepared.Failure? {
        return prepared.error, middle, ready;
      }
      PreparedKeepsJob(old(Now()), middle, id, job, worker, now, ready);
      outcome := Deliver(id, job, worker, prepared.value, now, reply, others);
    }
  }

  lemma PreparedKeepsJob(before: World, after: World, id: JobId, job: Job, worker: string, now: Instant, ready: Result<Lease, JobOutcome>)
    requires id in before.jobs && Prepared(before, after, id, job, worker, now, ready)
    ensures id in after.jobs
  {
    PreparedEvolves(before, after, id, job, worker, now, ready);
  }
}

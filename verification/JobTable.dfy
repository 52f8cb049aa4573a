/** The statements the queue runs against the `jobs` table, each one atomic, as functions of the table. */
module JobTable {
  import opened Wrappers
  import opened Domain

  type Table = map<JobId, Job>

  const BACKOFF_BASE_SECONDS := 30
  const BACKOFF_CAP_SECONDS := 3600
  const DEFAULT_QUOTA_DEFER_SECONDS := 3600
  const CLAIM_LEASE_EXPIRED := "claim_lease_expired"

  function Pow2(n: nat): nat {
    if n == 0 then 1 else 2 * Pow2(n - 1)
  }

  function BackoffSeconds(attemptCount: int): int {
    if attemptCount <= 0 then 0
    else
      var grown := BACKOFF_BASE_SECONDS * Pow2(attemptCount - 1);
      if grown <= BACKOFF_CAP_SECONDS then grown else BACKOFF_CAP_SECONDS
  }

  predicate Owned(job: Job) {
    job.status.Claimed? || job.status.Running?
  }

  /** What an enqueue asks for; `waiting` is the publication-waiting job of a dispatch. */
  datatype JobSpec = JobSpec(
    source: string,
    dedupeKey: string,
    listing: ListingId,
    cursor: Option<FetchCursor>,
    runAt: Instant,
    maxAttempts: nat,
    waiting: bool)

  function NewJob(spec: JobSpec): Job {
    Job(spec.source, spec.dedupeKey, spec.listing, spec.cursor,
        if spec.waiting then WaitingForPublication else Pending,
        0, spec.maxAttempts, spec.runAt, None, None, 0, None)
  }

  predicate HasKey(table: Table, dedupeKey: string) {
    exists id | id in table :: table[id].dedupeKey == dedupeKey
  }

  /** The unique constraint on `dedupe_key` (and on the primary key) rejects the insert. */
  function Insert(table: Table, id: JobId, spec: JobSpec): Table {
    if id in table || HasKey(table, spec.dedupeKey) then table else table[id := NewJob(spec)]
  }

  predicate LeaseExpired(job: Job, cutoff: Instant) {
    Owned(job) && job.claimedAt.Some? && job.claimedAt.value <= cutoff
  }

  function Expire(job: Job, now: Instant): Job {
    job.(status := if job.attempts + 1 >= job.maxAttempts then Failed else Pending,
         attempts := job.attempts + 1,
         nextRunAt := now,
         claimedBy := None,
         claimedAt := None,
         generation := job.generation + 1,
         lastError := Some(CLAIM_LEASE_EXPIRED))
  }

  function RecoverExpired(table: Table, now: Instant, lease: int): Table {
    map id | id in table :: if LeaseExpired(table[id], now - lease) then Expire(table[id], now) else table[id]
  }

  predicate DueWaiting(job: Job, now: Instant) {
    job.status.WaitingForPublication? && job.nextRunAt <= now
  }

  function PromoteDue(table: Table, now: Instant): Table {
    map id | id in table :: if DueWaiting(table[id], now) then table[id].(status := Pending) else table[id]
  }

  predicate Claimable(table: Table, id: JobId) {
    id in table && table[id].status.Pending?
  }

  function ClaimRow(job: Job, worker: string, now: Instant): Job {
    job.(status := Claimed, claimedBy := Some(worker), claimedAt := Some(now), generation := job.generation + 1)
  }

  function Claim(table: Table, id: JobId, worker: string, now: Instant): Table {
    if Claimable(table, id) then table[id := ClaimRow(table[id], worker, now)] else table
  }

  /** The transitions an owner may ask for. `Fail` carries the caller's copy of `attempt_count`. */
  datatype Update =
    | Start
    | Finish
    | Wait(retryAt: Instant)
    | Defer(until: Instant)
    | Fail(copy: nat, now: Instant, error: string)

  predicate Allows(update: Update, status: JobStatus) {
    match update
    case Start => status.Claimed?
    case Finish => status.Running?
    case _ => status.Claimed? || status.Running?
  }

  /** The columns an accepted transition writes. `Fail` writes a count computed from the caller's copy. */
  function Written(job: Job, update: Update): Job {
    match update
    case Start => job.(status := Running)
    case Finish => job.(status := Done, lastError := None)
    case Wait(retryAt) =>
      job.(status := WaitingForPublication, nextRunAt := retryAt, lastError := None, claimedBy := None, claimedAt := None)
    case Defer(until) =>
      job.(status := Pending, nextRunAt := until, lastError := None, claimedBy := None, claimedAt := None)
    case Fail(copy, now, error) =>
      job.(status := if copy + 1 >= job.maxAttempts then Failed else Pending,
           attempts := copy + 1,
           nextRunAt := now + BackoffSeconds(copy + 1),
           lastError := Some(error),
           claimedBy := None,
           claimedAt := None)
  }

  /** The ownership guard shared by every transition and by the storage fence. */
  predicate Holds(table: Table, id: JobId, worker: string, generation: nat) {
    id in table && Owned(table[id]) && table[id].claimedBy == Some(worker) && table[id].generation == generation
  }

  predicate Accepts(table: Table, id: JobId, worker: string, generation: nat, update: Update) {
    Holds(table, id, worker, generation) && Allows(update, table[id].status)
  }

  /** `None` is the stale-claim error; the table is then unchanged. */
  function Transition(table: Table, id: JobId, worker: string, generation: nat, update: Update): Option<Table> {
    if Accepts(table, id, worker, generation, update)
    then Some(table[id := Written(table[id], update)])
    else None
  }

  /** One statement of some worker, whoever it is. */
  datatype Move =
    | Inserts(id: JobId, spec: JobSpec)
    | Recovers(now: Instant, lease: int)
    | Promotes(now: Instant)
    | Claims(id: JobId, worker: string, now: Instant)
    | Presents(id: JobId, worker: string, generation: nat, update: Update)

  function Apply(table: Table, move: Move): Table {
    match move
    case Inserts(id, spec) => Insert(table, id, spec)
    case Recovers(now, lease) => RecoverExpired(table, now, lease)
    case Promotes(now) => PromoteDue(table, now)
    case Claims(id, worker, now) => Claim(table, id, worker, now)
    case Presents(id, worker, generation, update) =>
      var written := Transition(table, id, worker, generation, update);
      if written.Some? then written.value else table
  }

  function ApplyAll(table: Table, moves: seq<Move>): Table
    decreases |moves|
  {
    if moves == [] then table else ApplyAll(Apply(table, moves[0]), moves[1..])
  }

  /** The columns no statement writes. */
  predicate SameJob(before: Job, after: Job) {
    && before.source == after.source
    && before.dedupeKey == after.dedupeKey
    && before.listing == after.listing
    && before.cursor == after.cursor
    && before.maxAttempts == after.maxAttempts
  }

  predicate UniqueKeys(table: Table) {
    forall i, j | i in table && j in table && table[i].dedupeKey == table[j].dedupeKey :: i == j
  }

  /** What every statement keeps of every row that is there. */
  predicate Evolves(before: Table, after: Table) {
    forall id | id in before ::
      && id in after
      && SameJob(before[id], after[id])
      && before[id].generation <= after[id].generation
      && (before[id].status.Done? || before[id].status.Failed? ==> after[id] == before[id])
  }

  lemma WrittenIsSameJob(job: Job, update: Update)
    ensures SameJob(job, Written(job, update)) && Written(job, update).generation == job.generation
  {
  }

  /** No statement loses a job, moves a generation back, or changes a finished job. */
  lemma ApplyEvolves(table: Table, move: Move)
    ensures Evolves(table, Apply(table, move))
  {
    if move.Presents? && Accepts(table, move.id, move.worker, move.generation, move.update) {
      WrittenIsSameJob(table[move.id], move.update);
    }
  }

  lemma EvolvesTransitive(a: Table, b: Table, c: Table)
    requires Evolves(a, b) && Evolves(b, c)
    ensures Evolves(a, c)
  {
  }

  lemma ApplyKeepsKeysUnique(table: Table, move: Move)
    requires UniqueKeys(table)
    ensures UniqueKeys(Apply(table, move))
  {
    ApplyEvolves(table, move);
    if move.Inserts? {
      assert HasKey(table, move.spec.dedupeKey) || forall id | id in table :: table[id].dedupeKey != move.spec.dedupeKey;
    } else {
      assert Apply(table, move).Keys == table.Keys;
    }
  }

  lemma {:induction false} ApplyAllEvolves(table: Table, moves: seq<Move>)
    ensures Evolves(table, ApplyAll(table, moves))
    ensures UniqueKeys(table) ==> UniqueKeys(ApplyAll(table, moves))
    decreases |moves|
  {
    if moves != [] {
      ApplyEvolves(table, moves[0]);
      if UniqueKeys(table) {
        ApplyKeepsKeysUnique(table, moves[0]);
      }
      ApplyAllEvolves(Apply(table, moves[0]), moves[1..]);
    }
  }

  lemma {:induction false} ApplyAllSplits(table: Table, moves: seq<Move>, i: nat)
    requires i <= |moves|
    ensures ApplyAll(ApplyAll(table, moves[..i]), moves[i..]) == ApplyAll(table, moves)
    decreases i
  {
    if i == 0 {
      assert moves[0..] == moves;
    } else {
      ApplyAllSplits(Apply(table, moves[0]), moves[1..], i - 1);
      assert moves[..i][1..] == moves[1..][..i - 1] && moves[1..][i - 1..] == moves[i..];
    }
  }

  lemma OneMoveOnOwned(table: Table, move: Move, id: JobId)
    requires id in table
    ensures
      var after := Apply(table, move);
      && id in after
      && (Owned(after[id]) && after[id].generation == table[id].generation ==>
            Owned(table[id]) && after[id].attempts == table[id].attempts && after[id].claimedBy == table[id].claimedBy)
  {
  }

  /** As long as one claim lasts, its count and its owner stay as they are. */
  lemma {:induction false} HeldCountStays(table: Table, moves: seq<Move>, id: JobId)
    requires id in table
    ensures
      var later := ApplyAll(table, moves);
      && id in later
      && (Owned(later[id]) && later[id].generation == table[id].generation ==>
            Owned(table[id]) && later[id].attempts == table[id].attempts && later[id].claimedBy == table[id].claimedBy)
    decreases |moves|
  {
    if moves != [] {
      var next := Apply(table, moves[0]);
      OneMoveOnOwned(table, moves[0], id);
      ApplyEvolves(table, moves[0]);
      ApplyAllEvolves(next, moves[1..]);
      HeldCountStays(next, moves[1..], id);
    }
  }

  /** Enqueueing twice under one dedupe key leaves the first job as it is, whatever its status. */
  lemma ReEnqueueIsNoOp(table: Table, id: JobId, spec: JobSpec, later: seq<Move>, again: JobId, other: JobSpec)
    requires other.dedupeKey == spec.dedupeKey
    ensures
      var enqueued := ApplyAll(Insert(table, id, spec), later);
      id !in table ==> Insert(enqueued, again, other) == enqueued
  {
    var first := Insert(table, id, spec);
    ApplyAllEvolves(first, later);
    if id !in table {
      assert HasKey(first, spec.dedupeKey) by {
        if !HasKey(table, spec.dedupeKey) {
          assert first[id].dedupeKey == spec.dedupeKey;
        }
      }
      var holder :| holder in first && first[holder].dedupeKey == spec.dedupeKey;
      assert ApplyAll(first, later)[holder].dedupeKey == spec.dedupeKey;
    }
  }
}

/** From a recovery plan to jobs, enqueued once each. */
module Dispatch {
  import opened Wrappers
  import opened Domain
  import opened JobTable
  import opened JobQueue
  import opened Planning
  import opened DedupeKey

  const DEFAULT_MAX_ATTEMPTS := 5

  /** One listing of one source and account. */
  datatype Target = Target(source: string, scope: string, externalId: string, kind: ObservationType, listing: ListingId)

  function CursorFor(target: Target, start: Date, end: Date): FetchCursor {
    FetchCursor(target.externalId, target.scope, target.kind, start, end)
  }

  function Request(iso: IsoFormat, target: Target, start: Date, end: Date, runAt: Instant, waiting: bool): JobSpec {
    var cursor := CursorFor(target, start, end);
    JobSpec(target.source, KeyText(iso, target.source, cursor, waiting), target.listing, Some(cursor), runAt,
            DEFAULT_MAX_ATTEMPTS, waiting)
  }

  function ChunkRequests(iso: IsoFormat, target: Target, chunks: seq<Chunk>, now: Instant): seq<JobSpec> {
    seq(|chunks|, i requires 0 <= i < |chunks| => Request(iso, target, chunks[i].start, chunks[i].end, now, false))
  }

  function WaitingRequests(iso: IsoFormat, target: Target, waiting: seq<Date>, now: Instant, retrySeconds: int): seq<JobSpec> {
    if waiting == [] then []
    else [Request(iso, target, waiting[0], waiting[|waiting| - 1], now + retrySeconds, true)]
  }

  /** What a dispatch asks for: one job for each chunk, and one for the waiting dates if there are any. */
  function RequestsOf(iso: IsoFormat, target: Target, plan: RecoveryPlan, now: Instant, retrySeconds: int): seq<JobSpec> {
    ChunkRequests(iso, target, plan.chunks, now) + WaitingRequests(iso, target, plan.waiting, now, retrySeconds)
  }

  /** `after` is `before` with a job for each request whose key was not there yet, and nothing else. */
  predicate Enqueued(before: Table, after: Table, requests: seq<JobSpec>) {
    && (forall id | id in before :: id in after && after[id] == before[id])
    && (forall r | r in requests :: HasKey(after, r.dedupeKey))
    && (forall id | id in after && id !in before ::
          exists r | r in requests :: after[id] == NewJob(r) && !HasKey(before, r.dedupeKey))
    && (UniqueKeys(before) ==> UniqueKeys(after))
  }

  lemma KeyLasts(jobs: Table, later: Table, key: string)
    requires HasKey(jobs, key) && Evolves(jobs, later)
    ensures HasKey(later, key)
  {
    var id :| id in jobs && jobs[id].dedupeKey == key;
    assert SameJob(jobs[id], later[id]);
  }

  lemma EnqueuedOneMore(before: Table, after: Table, requests: seq<JobSpec>, id: JobId, r: JobSpec)
    requires Enqueued(before, after, requests) && (id !in after || HasKey(after, r.dedupeKey))
    ensures Enqueued(before, Insert(after, id, r), requests + [r])
  {
    var now := Insert(after, id, r);
    ApplyEvolves(after, Inserts(id, r));
    if UniqueKeys(after) {
      ApplyKeepsKeysUnique(after, Inserts(id, r));
    }
    if !HasKey(after, r.dedupeKey) {
      assert now[id] == NewJob(r) && now[id].dedupeKey == r.dedupeKey;
      assert !HasKey(before, r.dedupeKey) by {
        assert forall old_ | old_ in before :: old_ in after && after[old_].dedupeKey == before[old_].dedupeKey;
      }
    }
    forall q | q in requests + [r]
      ensures HasKey(now, q.dedupeKey)
    {
      if q in requests || HasKey(after, r.dedupeKey) {
        KeyLasts(after, now, q.dedupeKey);
      } else {
        assert now[id].dedupeKey == q.dedupeKey;
      }
    }
    forall k | k in now && k !in before
      ensures exists q | q in requests + [r] :: now[k] == NewJob(q) && !HasKey(before, q.dedupeKey)
    {
      if k in after {
        var q :| q in requests && after[k] == NewJob(q) && !HasKey(before, q.dedupeKey);
        assert q in requests + [r];
      } else {
        assert r in requests + [r];
      }
    }
  }

  /** Plans the pending range of one listing and enqueues a job for each chunk and one for the waiting dates. */
  method PlanAndEnqueue(
      queue: JobQueue, iso: IsoFormat, target: Target, answer: (Date, Date) -> seq<Check>, ghost cal: Calendar,
      limits: Limits, last: Option<Date>, today: Date, now: Instant, retrySeconds: int)
    returns (plan: RecoveryPlan, created: nat)
    requires limits.maxSessionsPerChunk >= 1
    requires forall a, b :: multiset(answer(a, b)) == multiset(Checks(cal, a, b))
    modifies queue
    ensures plan == PlanFor(cal, limits, last, today)
    ensures Enqueued(old(queue.jobs), queue.jobs, RequestsOf(iso, target, plan, now, retrySeconds))
    ensures |queue.jobs| == |old(queue.jobs)| + created
  {
    plan := Plan(answer, cal, limits, last, today);
    created := 0;
    ghost var requests := ChunkRequests(iso, target, plan.chunks, now);
    for i := 0 to |plan.chunks|
      invariant Enqueued(old(queue.jobs), queue.jobs, requests[..i])
      invariant |queue.jobs| == |old(queue.jobs)| + created
    {
      var request := Request(iso, target, plan.chunks[i].start, plan.chunks[i].end, now, false);
      assert requests[..i + 1] == requests[..i] + [request];
      ghost var before := queue.jobs;
      var id, isNew := queue.EnqueueIdempotent(request);
      EnqueuedOneMore(old(queue.jobs), before, requests[..i], id, request);
      created := created + if isNew then 1 else 0;
    }
    assert requests[..|plan.chunks|] == requests;
    if plan.waiting != [] {
      var request := Request(iso, target, plan.waiting[0], plan.waiting[|plan.waiting| - 1], now + retrySeconds, true);
      ghost var before := queue.jobs;
      var id, isNew := queue.EnqueueIdempotent(request);
      EnqueuedOneMore(old(queue.jobs), before, requests, id, request);
      created := created + if isNew then 1 else 0;
    } else {
      assert requests + [] == requests;
    }
  }

  // ---------------------------------------------------------------- coverage

  /** The key is the text of the job's own source and cursor. */
  ghost predicate KeyFits(iso: IsoFormat, job: Job) {
    && job.cursor.Some? && ':' !in job.source && ':' !in job.cursor.value.scope
    && exists waiting: bool :: job.dedupeKey == KeyText(iso, job.source, job.cursor.value, waiting)
  }

  ghost predicate KeyedByCursor(iso: IsoFormat, jobs: Table) {
    forall id | id in jobs :: KeyFits(iso, jobs[id])
  }

  /** Some job fetches a range of the target that holds `d`. */
  predicate Covered(jobs: Table, target: Target, d: Date) {
    exists id | id in jobs ::
      && jobs[id].source == target.source && jobs[id].cursor.Some?
      && jobs[id].cursor.value == CursorFor(target, jobs[id].cursor.value.start, jobs[id].cursor.value.end)
      && jobs[id].cursor.value.start <= d <= jobs[id].cursor.value.end
  }

  /** The job that has the key of a range is a job for exactly that range, even if someone else enqueued it. */
  lemma {:induction false} KeyMeansRange(iso: IsoFormat, jobs: Table, target: Target, start: Date, end: Date, waiting: bool, d: Date)
    requires IsIso(iso) && KeyedByCursor(iso, jobs) && ':' !in target.source && ':' !in target.scope
    requires HasKey(jobs, KeyText(iso, target.source, CursorFor(target, start, end), waiting)) && start <= d <= end
    ensures Covered(jobs, target, d)
  {
    var id := KeyedJob(iso, jobs, target, start, end, waiting);
  }

  lemma {:induction false} KeyedJob(iso: IsoFormat, jobs: Table, target: Target, start: Date, end: Date, waiting: bool) returns (id: JobId)
    requires IsIso(iso) && KeyedByCursor(iso, jobs) && ':' !in target.source && ':' !in target.scope
    requires HasKey(jobs, KeyText(iso, target.source, CursorFor(target, start, end), waiting))
    ensures id in jobs && jobs[id].dedupeKey == KeyText(iso, target.source, CursorFor(target, start, end), waiting)
    ensures jobs[id].source == target.source && jobs[id].cursor == Some(CursorFor(target, start, end))
  {
    id :| id in jobs && jobs[id].dedupeKey == KeyText(iso, target.source, CursorFor(target, start, end), waiting);
    assert KeyFits(iso, jobs[id]);
    var w: bool :| jobs[id].dedupeKey == KeyText(iso, jobs[id].source, jobs[id].cursor.value, w);
    KeysAreInjective(iso, jobs[id].source, jobs[id].cursor.value, w, target.source, CursorFor(target, start, end), waiting);
  }

  lemma {:induction false} ChunkOfDate(expected: seq<Date>, size: nat, d: Date) returns (k: nat)
    requires size >= 1 && d in expected
    requires Ascending(expected)
    ensures k < |Chunks(expected, size)| && Chunks(expected, size)[k].start <= d <= Chunks(expected, size)[k].end
    decreases |expected|
  {
    var i :| 0 <= i < |expected| && expected[i] == d;
    if |expected| <= size {
      k := 0;
    } else if i < size {
      k := 0;
      assert expected[..size][size - 1] == expected[size - 1];
    } else {
      assert expected[size..][i - size] == d;
      k := ChunkOfDate(expected[size..], size, d);
      k := k + 1;
    }
  }

  lemma RequestFits(iso: IsoFormat, target: Target, start: Date, end: Date, runAt: Instant, waiting: bool)
    requires ':' !in target.source && ':' !in target.scope
    ensures KeyFits(iso, NewJob(Request(iso, target, start, end, runAt, waiting)))
  {
    var job := NewJob(Request(iso, target, start, end, runAt, waiting));
    assert job.dedupeKey == KeyText(iso, job.source, job.cursor.value, waiting);
  }

  lemma EnqueuedKeepsKeyed(iso: IsoFormat, before: Table, after: Table, requests: seq<JobSpec>)
    requires KeyedByCursor(iso, before) && Enqueued(before, after, requests)
    requires forall r | r in requests :: KeyFits(iso, NewJob(r))
    ensures KeyedByCursor(iso, after)
  {
  }

  lemma RequestsFit(iso: IsoFormat, target: Target, plan: RecoveryPlan, now: Instant, retrySeconds: int)
    requires ':' !in target.source && ':' !in target.scope
    ensures forall r | r in RequestsOf(iso, target, plan, now, retrySeconds) :: KeyFits(iso, NewJob(r))
  {
    var requests := RequestsOf(iso, target, plan, now, retrySeconds);
    forall i | 0 <= i < |requests|
      ensures KeyFits(iso, NewJob(requests[i]))
    {
      if i < |plan.chunks| {
        RequestFits(iso, target, plan.chunks[i].start, plan.chunks[i].end, now, false);
      } else {
        RequestFits(iso, target, plan.waiting[0], plan.waiting[|plan.waiting| - 1], now + retrySeconds, true);
      }
    }
  }

  /** Dispatches and every other statement keep each key fitting its job. */
  lemma MovesKeepKeyed(iso: IsoFormat, jobs: Table, move: Move)
    requires KeyedByCursor(iso, jobs) && !move.Inserts?
    ensures KeyedByCursor(iso, Apply(jobs, move))
  {
    ApplyEvolves(jobs, move);
    forall id | id in Apply(jobs, move)
      ensures KeyFits(iso, Apply(jobs, move)[id])
    {
      assert SameJob(jobs[id], Apply(jobs, move)[id]);
      assert KeyFits(iso, jobs[id]);
    }
  }

  /**
   After a dispatch every expected and every waiting date of the window lies in the range of some stored job, and
   so it does after whatever the workers do next.
   */
  lemma DispatchedDatesStayCovered(
      iso: IsoFormat, target: Target, cal: Calendar, limits: Limits, last: Option<Date>, today: Date, now: Instant,
      retrySeconds: int, before: Table, after: Table, moves: seq<Move>, d: Date)
    requires limits.maxSessionsPerChunk >= 1 && IsIso(iso) && KeyedByCursor(iso, before)
    requires ':' !in target.source && ':' !in target.scope
    requires Enqueued(before, after, RequestsOf(iso, target, PlanFor(cal, limits, last, today), now, retrySeconds))
    requires WindowStart(last, today, limits) <= d <= today && !cal(d).NoSession?
    ensures KeyedByCursor(iso, after) && Covered(ApplyAll(after, moves), target, d)
  {
    var plan := PlanFor(cal, limits, last, today);
    RequestsFit(iso, target, plan, now, retrySeconds);
    EnqueuedKeepsKeyed(iso, before, after, RequestsOf(iso, target, plan, now, retrySeconds));
    DateIsCovered(iso, target, cal, limits, last, today, now, retrySeconds, after, d);
    ApplyAllEvolves(after, moves);
    CoveredLasts(after, ApplyAll(after, moves), target, d);
  }

  lemma DateIsCovered(
      iso: IsoFormat, target: Target, cal: Calendar, limits: Limits, last: Option<Date>, today: Date, now: Instant,
      retrySeconds: int, jobs: Table, d: Date)
    requires limits.maxSessionsPerChunk >= 1 && IsIso(iso) && KeyedByCursor(iso, jobs)
    requires ':' !in target.source && ':' !in target.scope
    requires forall r | r in RequestsOf(iso, target, PlanFor(cal, limits, last, today), now, retrySeconds) :: HasKey(jobs, r.dedupeKey)
    requires WindowStart(last, today, limits) <= d <= today && !cal(d).NoSession?
    ensures Covered(jobs, target, d)
  {
    if cal(d).ExpectedPublished? {
      ExpectedDateIsCovered(iso, target, cal, limits, last, today, now, retrySeconds, jobs, d);
    } else {
      WaitingDateIsCovered(iso, target, cal, limits, last, today, now, retrySeconds, jobs, d);
    }
  }

  lemma CoveredLasts(jobs: Table, later: Table, target: Target, d: Date)
    requires Covered(jobs, target, d) && Evolves(jobs, later)
    ensures Covered(later, target, d)
  {
    var id :| id in jobs
      && jobs[id].source == target.source && jobs[id].cursor.Some?
      && jobs[id].cursor.value == CursorFor(target, jobs[id].cursor.value.start, jobs[id].cursor.value.end)
      && jobs[id].cursor.value.start <= d <= jobs[id].cursor.value.end;
    assert SameJob(jobs[id], later[id]);
  }

  lemma ExpectedDateIsCovered(
      iso: IsoFormat, target: Target, cal: Calendar, limits: Limits, last: Option<Date>, today: Date, now: Instant,
      retrySeconds: int, jobs: Table, d: Date)
    requires limits.maxSessionsPerChunk >= 1 && IsIso(iso) && KeyedByCursor(iso, jobs)
    requires ':' !in target.source && ':' !in target.scope
    requires forall r | r in RequestsOf(iso, target, PlanFor(cal, limits, last, today), now, retrySeconds) :: HasKey(jobs, r.dedupeKey)
    requires WindowStart(last, today, limits) <= d <= today && cal(d).ExpectedPublished?
    ensures Covered(jobs, target, d)
  {
    var plan := PlanFor(cal, limits, last, today);
    var start := WindowStart(last, today, limits);
    DatesAreTheWindow(cal, start, today, ExpectedPublished);
    var k := ChunkOfDate(Dates(cal, start, today, ExpectedPublished), limits.maxSessionsPerChunk, d);
    var requests := RequestsOf(iso, target, plan, now, retrySeconds);
    assert requests[k] == Request(iso, target, plan.chunks[k].start, plan.chunks[k].end, now, false);
    assert requests[k] in requests;
    KeyMeansRange(iso, jobs, target, plan.chunks[k].start, plan.chunks[k].end, false, d);
  }

  lemma WaitingDateIsCovered(
      iso: IsoFormat, target: Target, cal: Calendar, limits: Limits, last: Option<Date>, today: Date, now: Instant,
      retrySeconds: int, jobs: Table, d: Date)
    requires limits.maxSessionsPerChunk >= 1 && IsIso(iso) && KeyedByCursor(iso, jobs)
    requires ':' !in target.source && ':' !in target.scope
    requires forall r | r in RequestsOf(iso, target, PlanFor(cal, limits, last, today), now, retrySeconds) :: HasKey(jobs, r.dedupeKey)
    requires WindowStart(last, today, limits) <= d <= today && cal(d).WaitingPublication?
    ensures Covered(jobs, target, d)
  {
    var plan := PlanFor(cal, limits, last, today);
    DatesAreTheWindow(cal, WindowStart(last, today, limits), today, WaitingPublication);
    var w := plan.waiting;
    var i :| 0 <= i < |w| && w[i] == d;
    assert w[0] <= d <= w[|w| - 1];
    var requests := RequestsOf(iso, target, plan, now, retrySeconds);
    assert requests[|plan.chunks|] == Request(iso, target, w[0], w[|w| - 1], now + retrySeconds, true);
    assert requests[|plan.chunks|] in requests;
    KeyMeansRange(iso, jobs, target, w[0], w[|w| - 1], true, d);
  }

  // ---------------------------------------------------------------- every run

  /** The engine enqueues nothing but what a dispatch asks for. */
  ghost predicate FromDispatch(iso: IsoFormat, move: Move) {
    move.Inserts? ==> exists target: Target, start: Date, end: Date, runAt: Instant, waiting: bool ::
      ':' !in target.source && ':' !in target.scope && move.spec == Request(iso, target, start, end, runAt, waiting)
  }

  /** Some statement of the run enqueued the request, or found its key taken. */
  predicate Asked(moves: seq<Move>, r: JobSpec) {
    exists i | 0 <= i < |moves| ::
      && moves[i].Inserts? && moves[i].spec == r
      && (moves[i].id !in ApplyAll(map[], moves[..i]) || HasKey(ApplyAll(map[], moves[..i]), r.dedupeKey))
  }

  lemma MoveKeepsKeyed(iso: IsoFormat, jobs: Table, move: Move)
    requires KeyedByCursor(iso, jobs) && FromDispatch(iso, move)
    ensures KeyedByCursor(iso, Apply(jobs, move))
  {
    if move.Inserts? {
      var target: Target, start: Date, end: Date, runAt: Instant, waiting: bool :|
        ':' !in target.source && ':' !in target.scope && move.spec == Request(iso, target, start, end, runAt, waiting);
      RequestFits(iso, target, start, end, runAt, waiting);
    } else {
      MovesKeepKeyed(iso, jobs, move);
    }
  }

  lemma {:induction false} RunKeepsKeyed(iso: IsoFormat, jobs: Table, moves: seq<Move>)
    requires KeyedByCursor(iso, jobs) && forall m | m in moves :: FromDispatch(iso, m)
    ensures KeyedByCursor(iso, ApplyAll(jobs, moves))
    decreases |moves|
  {
    if moves != [] {
      MoveKeepsKeyed(iso, jobs, moves[0]);
      RunKeepsKeyed(iso, Apply(jobs, moves[0]), moves[1..]);
    }
  }

  lemma AskedHasKey(moves: seq<Move>, r: JobSpec)
    requires Asked(moves, r)
    ensures HasKey(ApplyAll(map[], moves), r.dedupeKey)
  {
    var i :| 0 <= i < |moves| && moves[i].Inserts? && moves[i].spec == r
      && (moves[i].id !in ApplyAll(map[], moves[..i]) || HasKey(ApplyAll(map[], moves[..i]), r.dedupeKey));
    var before := ApplyAll(map[], moves[..i]);
    var after := Insert(before, moves[i].id, r);
    assert HasKey(after, r.dedupeKey) by {
      if !HasKey(before, r.dedupeKey) {
        assert after[moves[i].id].dedupeKey == r.dedupeKey;
      }
    }
    ApplyAllSplits(map[], moves, i);
    assert moves[i..][0] == moves[i];
    ApplyAllEvolves(after, moves[i..][1..]);
    KeyLasts(after, ApplyAll(after, moves[i..][1..]), r.dedupeKey);
  }

  /**
   From the empty table, through any interleaving of dispatches with the statements of any workers: once everything
   a dispatch asks for has been enqueued, each expected and each waiting date of its window lies in the range of some
   job, in that state and in every later one.
   */
  lemma RunKeepsDatesCovered(
      iso: IsoFormat, moves: seq<Move>, target: Target, cal: Calendar, limits: Limits, last: Option<Date>, today: Date,
      now: Instant, retrySeconds: int, d: Date)
    requires limits.maxSessionsPerChunk >= 1 && IsIso(iso) && ':' !in target.source && ':' !in target.scope
    requires forall m | m in moves :: FromDispatch(iso, m)
    requires forall r | r in RequestsOf(iso, target, PlanFor(cal, limits, last, today), now, retrySeconds) :: Asked(moves, r)
    requires WindowStart(last, today, limits) <= d <= today && !cal(d).NoSession?
    ensures KeyedByCursor(iso, ApplyAll(map[], moves)) && Covered(ApplyAll(map[], moves), target, d)
  {
    RunKeepsKeyed(iso, map[], moves);
    forall r | r in RequestsOf(iso, target, PlanFor(cal, limits, last, today), now, retrySeconds)
      ensures HasKey(ApplyAll(map[], moves), r.dedupeKey)
    {
      AskedHasKey(moves, r);
    }
    DateIsCovered(iso, target, cal, limits, last, today, now, retrySeconds, ApplyAll(map[], moves), d);
  }
}

/** Dispatching again: what is asked for a second time, what is new, and what is never asked for again. */
module Redispatch {
  import opened Wrappers
  import opened Domain
  import opened JobTable
  import opened Planning
  import opened Replanning
  import opened DedupeKey
  import opened Dispatch
  import opened ObservationStore

  /** Dispatching the same plan again, after whatever happened to the jobs, changes nothing. */
  lemma {:induction false} RedispatchIsNoOp(before: Table, after: Table, moves: seq<Move>, requests: seq<JobSpec>, again: Table)
    requires Enqueued(before, after, requests) && Enqueued(ApplyAll(after, moves), again, requests)
    ensures again == ApplyAll(after, moves)
  {
    ApplyAllEvolves(after, moves);
    var later := ApplyAll(after, moves);
    forall r | r in requests
      ensures HasKey(later, r.dedupeKey)
    {
      KeyLasts(after, later, r.dedupeKey);
    }
    assert again.Keys == later.Keys;
  }

  /**
   Once the store holds the end of chunk `k` and nothing after it, the next dispatch of the same day asks for
   chunk jobs that all exist already, and so creates none.
   */
  lemma RedispatchAfterChunkCreatesNoChunkJob(
      iso: IsoFormat, target: Target, cal: Calendar, limits: Limits, last: Option<Date>, today: Date, now: Instant,
      after: Table, moves: seq<Move>, rows: seq<Row>, k: nat, then_: Instant)
    requires limits.maxSessionsPerChunk >= 1 && k < |PlanFor(cal, limits, last, today).chunks|
    requires
      var chunks := PlanFor(cal, limits, last, today).chunks;
      && (forall r | r in ChunkRequests(iso, target, chunks, now) :: HasKey(after, r.dedupeKey))
      && (exists row | row in rows :: row.key == Key(target.source, target.scope, target.externalId, chunks[k].end, target.kind))
      && (forall row | row in rows && row.key == Key(target.source, target.scope, target.externalId, row.key.date, target.kind) ::
            row.key.date <= chunks[k].end)
    ensures
      var completed := LastCompletedSession(rows, target.source, target.scope, target.externalId, target.kind);
      var next := PlanFor(cal, limits, completed, today);
      forall r | r in ChunkRequests(iso, target, next.chunks, then_) :: HasKey(ApplyAll(after, moves), r.dedupeKey)
  {
    var chunks := PlanFor(cal, limits, last, today).chunks;
    var completed := LastCompletedSession(rows, target.source, target.scope, target.externalId, target.kind);
    assert completed == Some(chunks[k].end);
    ReplanningContinuesAfterChunk(cal, limits, last, today, k);
    ApplyAllEvolves(after, moves);
    var next := chunks[k + 1..];
    forall i | 0 <= i < |next|
      ensures HasKey(ApplyAll(after, moves), ChunkRequests(iso, target, next, then_)[i].dedupeKey)
    {
      assert next[i] == chunks[k + 1 + i];
      assert ChunkRequests(iso, target, chunks, now)[k + 1 + i] in ChunkRequests(iso, target, chunks, now);
      KeyLasts(after, ApplyAll(after, moves), ChunkRequests(iso, target, chunks, now)[k + 1 + i].dedupeKey);
    }
  }

  // ---------------------------------------------------------------- what has been asked for

  /** One request, as its key tells it. */
  datatype Range = Range(start: Date, end: Date, waiting: bool)

  function RangeOf(plan: RecoveryPlan, i: nat): Range
    requires i < |plan.chunks| || (i == |plan.chunks| && plan.waiting != [])
  {
    if i < |plan.chunks| then Range(plan.chunks[i].start, plan.chunks[i].end, false)
    else Range(plan.waiting[0], plan.waiting[|plan.waiting| - 1], true)
  }

  /** The ranges that a dispatch of the plan asks for. */
  function RangesOf(plan: RecoveryPlan): seq<Range> {
    seq(|plan.chunks| + (if plan.waiting == [] then 0 else 1),
        i requires 0 <= i < |plan.chunks| + (if plan.waiting == [] then 0 else 1) => RangeOf(plan, i))
  }

  function RangeKey(iso: IsoFormat, target: Target, r: Range): string {
    KeyText(iso, target.source, CursorFor(target, r.start, r.end), r.waiting)
  }

  lemma RequestsAreRanges(iso: IsoFormat, target: Target, plan: RecoveryPlan, now: Instant, retrySeconds: int)
    ensures
      var requests := RequestsOf(iso, target, plan, now, retrySeconds);
      && |requests| == |RangesOf(plan)|
      && forall i | 0 <= i < |requests| :: requests[i].dedupeKey == RangeKey(iso, target, RangesOf(plan)[i])
  {
  }

  predicate OfTarget(job: Job, target: Target) {
    && job.source == target.source && job.cursor.Some?
    && job.cursor.value == CursorFor(target, job.cursor.value.start, job.cursor.value.end)
  }

  /** The target has no jobs but those that were asked for. */
  ghost predicate OnlyAsked(iso: IsoFormat, jobs: Table, target: Target, asked: seq<Range>) {
    && KeyedByCursor(iso, jobs)
    && forall id | id in jobs && OfTarget(jobs[id], target) :: exists r | r in asked :: jobs[id].dedupeKey == RangeKey(iso, target, r)
  }

  /** Whatever was asked for has a job. */
  predicate AllThere(iso: IsoFormat, jobs: Table, target: Target, asked: seq<Range>) {
    forall r | r in asked :: HasKey(jobs, RangeKey(iso, target, r))
  }

  /** A range of the target has a job exactly if it was asked for. */
  lemma ThereIffAsked(iso: IsoFormat, jobs: Table, target: Target, asked: seq<Range>, r: Range)
    requires IsIso(iso) && ':' !in target.source && ':' !in target.scope
    requires OnlyAsked(iso, jobs, target, asked) && AllThere(iso, jobs, target, asked)
    ensures HasKey(jobs, RangeKey(iso, target, r)) <==> r in asked
  {
    if HasKey(jobs, RangeKey(iso, target, r)) {
      var id := KeyedJob(iso, jobs, target, r.start, r.end, r.waiting);
      assert OfTarget(jobs[id], target);
      var a :| a in asked && jobs[id].dedupeKey == RangeKey(iso, target, a);
      KeysAreInjective(iso, target.source, CursorFor(target, a.start, a.end), a.waiting,
                       target.source, CursorFor(target, r.start, r.end), r.waiting);
    }
  }

  lemma NothingNewIff(jobs: Table, again: Table, requests: seq<JobSpec>)
    requires Enqueued(jobs, again, requests)
    ensures again == jobs <==> forall r | r in requests :: HasKey(jobs, r.dedupeKey)
  {
    if forall r | r in requests :: HasKey(jobs, r.dedupeKey) {
      assert again.Keys == jobs.Keys;
    }
  }

  lemma NothingNewIffRangesThere(
      iso: IsoFormat, jobs: Table, again: Table, target: Target, plan: RecoveryPlan, now: Instant, retrySeconds: int)
    requires Enqueued(jobs, again, RequestsOf(iso, target, plan, now, retrySeconds))
    ensures again == jobs <==> AllThere(iso, jobs, target, RangesOf(plan))
  {
    var requests := RequestsOf(iso, target, plan, now, retrySeconds);
    RequestsAreRanges(iso, target, plan, now, retrySeconds);
    NothingNewIff(jobs, again, requests);
    if AllThere(iso, jobs, target, RangesOf(plan)) {
      forall i | 0 <= i < |requests|
        ensures HasKey(jobs, requests[i].dedupeKey)
      {
        assert RangesOf(plan)[i] in RangesOf(plan);
      }
    }
    if forall r | r in requests :: HasKey(jobs, r.dedupeKey) {
      forall i | 0 <= i < |RangesOf(plan)|
        ensures HasKey(jobs, RangeKey(iso, target, RangesOf(plan)[i]))
      {
        assert requests[i] in requests;
      }
    }
  }

  /** A dispatch changes nothing exactly if each of its ranges was asked for before, by whatever dispatches. */
  lemma DispatchAddsNothingIffAsked(
      iso: IsoFormat, jobs: Table, again: Table, target: Target, asked: seq<Range>, plan: RecoveryPlan, now: Instant, retrySeconds: int)
    requires IsIso(iso) && ':' !in target.source && ':' !in target.scope
    requires OnlyAsked(iso, jobs, target, asked) && AllThere(iso, jobs, target, asked)
    requires Enqueued(jobs, again, RequestsOf(iso, target, plan, now, retrySeconds))
    ensures again == jobs <==> forall r | r in RangesOf(plan) :: r in asked
  {
    NothingNewIffRangesThere(iso, jobs, again, target, plan, now, retrySeconds);
    forall r | r in RangesOf(plan)
      ensures HasKey(jobs, RangeKey(iso, target, r)) <==> r in asked
    {
      ThereIffAsked(iso, jobs, target, asked, r);
    }
  }

  // ---------------------------------------------------------------- over whole runs

  /** The ranges of the target that a run has enqueued. */
  function AskedIn(moves: seq<Move>, target: Target): seq<Range> {
    if moves == [] then []
    else
      AskedIn(moves[..|moves| - 1], target) + AskedBy(moves[|moves| - 1], target)
  }

  /** Every enqueue of the run comes with an unused id, or finds its key taken. */
  predicate FreshIds(moves: seq<Move>) {
    forall i | 0 <= i < |moves| && moves[i].Inserts? ::
      moves[i].id !in ApplyAll(map[], moves[..i]) || HasKey(ApplyAll(map[], moves[..i]), moves[i].spec.dedupeKey)
  }

  lemma {:induction false} ApplyAllSnoc(table: Table, moves: seq<Move>)
    requires moves != []
    ensures ApplyAll(table, moves) == Apply(ApplyAll(table, moves[..|moves| - 1]), moves[|moves| - 1])
  {
    var n := |moves| - 1;
    ApplyAllSplits(table, moves, n);
    var before := ApplyAll(table, moves[..n]);
    assert moves[n..] == [moves[n]] && moves[n..][1..] == [];
    assert ApplyAll(Apply(before, moves[n]), []) == Apply(before, moves[n]);
  }

  lemma FreshIdsBefore(moves: seq<Move>)
    requires moves != [] && FreshIds(moves)
    ensures FreshIds(moves[..|moves| - 1])
  {
    var before := moves[..|moves| - 1];
    forall i | 0 <= i < |before| && before[i].Inserts?
      ensures before[i].id !in ApplyAll(map[], before[..i]) || HasKey(ApplyAll(map[], before[..i]), before[i].spec.dedupeKey)
    {
      assert before[..i] == moves[..i];
    }
  }

  lemma RequestIsItsRange(iso: IsoFormat, target: Target, spec: JobSpec, from: Target, start: Date, end: Date, runAt: Instant, waiting: bool)
    requires spec == Request(iso, from, start, end, runAt, waiting) && OfTarget(NewJob(spec), target)
    ensures spec.dedupeKey == RangeKey(iso, target, Range(start, end, waiting))
  {
  }

  /** What one statement adds to the ranges asked for. */
  function AskedBy(move: Move, target: Target): seq<Range> {
    if move.Inserts? && OfTarget(NewJob(move.spec), target)
    then [Range(move.spec.cursor.value.start, move.spec.cursor.value.end, move.spec.waiting)] else []
  }

  lemma AskedByIsItsKey(iso: IsoFormat, move: Move, target: Target)
    requires FromDispatch(iso, move) && AskedBy(move, target) != []
    ensures move.spec.dedupeKey == RangeKey(iso, target, AskedBy(move, target)[0])
  {
    var from: Target, start: Date, end: Date, runAt: Instant, waiting: bool :| move.spec == Request(iso, from, start, end, runAt, waiting);
    RequestIsItsRange(iso, target, move.spec, from, start, end, runAt, waiting);
  }

  lemma OneMoreThere(iso: IsoFormat, jobs: Table, move: Move, target: Target, asked: seq<Range>)
    requires AllThere(iso, jobs, target, asked) && FromDispatch(iso, move)
    requires move.Inserts? ==> move.id !in jobs || HasKey(jobs, move.spec.dedupeKey)
    ensures AllThere(iso, Apply(jobs, move), target, asked + AskedBy(move, target))
  {
    ApplyEvolves(jobs, move);
    if AskedBy(move, target) != [] {
      AskedByIsItsKey(iso, move, target);
      InsertHasKey(jobs, move.id, move.spec);
    }
    forall r | r in asked + AskedBy(move, target)
      ensures HasKey(Apply(jobs, move), RangeKey(iso, target, r))
    {
      if r in asked {
        KeyLasts(jobs, Apply(jobs, move), RangeKey(iso, target, r));
      }
    }
  }

  lemma OneMoreOnly(iso: IsoFormat, jobs: Table, move: Move, target: Target, asked: seq<Range>)
    requires OnlyAsked(iso, jobs, target, asked) && FromDispatch(iso, move)
    ensures OnlyAsked(iso, Apply(jobs, move), target, asked + AskedBy(move, target))
  {
    var after, more := Apply(jobs, move), AskedBy(move, target);
    MoveKeepsKeyed(iso, jobs, move);
    ApplyEvolves(jobs, move);
    if more != [] {
      AskedByIsItsKey(iso, move, target);
    }
    forall id | id in after && OfTarget(after[id], target)
      ensures exists r | r in asked + more :: after[id].dedupeKey == RangeKey(iso, target, r)
    {
      if id in jobs {
        assert SameJob(jobs[id], after[id]) && OfTarget(jobs[id], target);
        var r :| r in asked && jobs[id].dedupeKey == RangeKey(iso, target, r);
        assert r in asked + more;
      } else {
        assert after[id] == NewJob(move.spec) && more[0] in asked + more;
      }
    }
  }

  lemma InsertHasKey(jobs: Table, id: JobId, spec: JobSpec)
    requires id !in jobs || HasKey(jobs, spec.dedupeKey)
    ensures HasKey(Insert(jobs, id, spec), spec.dedupeKey)
  {
    if !HasKey(jobs, spec.dedupeKey) {
      assert Insert(jobs, id, spec)[id].dedupeKey == spec.dedupeKey;
    }
  }

  /** Through any run from the empty table, a target has jobs for just what was asked for. */
  lemma {:induction false} RunAsks(iso: IsoFormat, moves: seq<Move>, target: Target)
    requires FreshIds(moves) && forall m | m in moves :: FromDispatch(iso, m)
    ensures OnlyAsked(iso, ApplyAll(map[], moves), target, AskedIn(moves, target))
    ensures AllThere(iso, ApplyAll(map[], moves), target, AskedIn(moves, target))
    decreases |moves|
  {
    if moves != [] {
      var n := |moves| - 1;
      FreshIdsBefore(moves);
      RunAsks(iso, moves[..n], target);
      ApplyAllSnoc(map[], moves);
      OneMoreOnly(iso, ApplyAll(map[], moves[..n]), moves[n], target, AskedIn(moves[..n], target));
      OneMoreThere(iso, ApplyAll(map[], moves[..n]), moves[n], target, AskedIn(moves[..n], target));
    }
  }

  /**
   From the empty table, through any interleaving of dispatches of this and other targets with the statements of any
   workers: a dispatch of the target changes nothing exactly if each range of its plan has been asked for in the run.
   */
  lemma {:induction false} DispatchAddsNothingIff(
      iso: IsoFormat, moves: seq<Move>, again: Table, target: Target, plan: RecoveryPlan, now: Instant, retrySeconds: int)
    requires IsIso(iso) && ':' !in target.source && ':' !in target.scope
    requires FreshIds(moves) && forall m | m in moves :: FromDispatch(iso, m)
    requires Enqueued(ApplyAll(map[], moves), again, RequestsOf(iso, target, plan, now, retrySeconds))
    ensures again == ApplyAll(map[], moves) <==> forall r | r in RangesOf(plan) :: r in AskedIn(moves, target)
  {
    RunAsks(iso, moves, target);
    DispatchAddsNothingIffAsked(iso, ApplyAll(map[], moves), again, target, AskedIn(moves, target), plan, now, retrySeconds);
  }

  // ---------------------------------------------------------------- the arithmetic of it

  /** An earlier dispatch: the cursor and the day it planned with. */
  datatype Occasion = Occasion(last: Option<Date>, day: Date)

  function PlanOn(cal: Calendar, limits: Limits, o: Occasion): RecoveryPlan
    requires limits.maxSessionsPerChunk >= 1
  {
    PlanFor(cal, limits, o.last, o.day)
  }

  /** What the dispatches of the past asked for. */
  function PastRanges(cal: Calendar, limits: Limits, past: seq<Occasion>): seq<Range>
    requires limits.maxSessionsPerChunk >= 1
  {
    if past == [] then []
    else PastRanges(cal, limits, past[..|past| - 1]) + RangesOf(PlanOn(cal, limits, past[|past| - 1]))
  }

  /** Some dispatch of the past asked for the range. */
  predicate AskedOnce(cal: Calendar, limits: Limits, past: seq<Occasion>, r: Range)
    requires limits.maxSessionsPerChunk >= 1
  {
    exists o | o in past :: r in RangesOf(PlanOn(cal, limits, o))
  }

  lemma {:induction false} PastMembers(cal: Calendar, limits: Limits, past: seq<Occasion>, r: Range)
    requires limits.maxSessionsPerChunk >= 1
    ensures r in PastRanges(cal, limits, past) <==> AskedOnce(cal, limits, past, r)
    decreases |past|
  {
    if past != [] {
      var n := |past| - 1;
      assert past == past[..n] + [past[n]];
      PastMembers(cal, limits, past[..n], r);
    }
  }

  /** The earlier plan held chunk `j` of the one at hand. */
  ghost predicate ChunkHeld(cal: Calendar, limits: Limits, o: Occasion, next: Occasion, j: nat)
    requires limits.maxSessionsPerChunk >= 1
  {
    Held(Expected(cal, limits, o.last, o.day), limits.maxSessionsPerChunk,
         Dropped(cal, limits, o.last, o.day, next.last, next.day), j, Dates(cal, o.day + 1, next.day, ExpectedPublished))
  }

  ghost predicate ChunkHeldOnce(cal: Calendar, limits: Limits, past: seq<Occasion>, next: Occasion, j: nat)
    requires limits.maxSessionsPerChunk >= 1
  {
    exists o | o in past :: ChunkHeld(cal, limits, o, next, j)
  }

  predicate SameWaiting(earlier: RecoveryPlan, plan: RecoveryPlan) {
    && earlier.waiting != [] && plan.waiting != []
    && earlier.waiting[0] == plan.waiting[0] && earlier.waiting[|earlier.waiting| - 1] == plan.waiting[|plan.waiting| - 1]
  }

  predicate WaitingHeldOnce(cal: Calendar, limits: Limits, past: seq<Occasion>, next: Occasion)
    requires limits.maxSessionsPerChunk >= 1
  {
    exists o | o in past :: SameWaiting(PlanOn(cal, limits, o), PlanOn(cal, limits, next))
  }

  /**
   Each chunk of the plan is in its place in some earlier plan, whole chunks having left the window since, and full
   unless nothing has been added; and some earlier plan had waiting dates with the same first and last one.
   */
  ghost predicate AskedBefore(cal: Calendar, limits: Limits, past: seq<Occasion>, next: Occasion)
    requires limits.maxSessionsPerChunk >= 1
  {
    && (forall j | 0 <= j < |PlanOn(cal, limits, next).chunks| :: ChunkHeldOnce(cal, limits, past, next, j))
    && (PlanOn(cal, limits, next).waiting == [] || WaitingHeldOnce(cal, limits, past, next))
  }

  lemma ChunkRangeHeldIff(cal: Calendar, limits: Limits, o: Occasion, next: Occasion, j: nat)
    requires limits.maxSessionsPerChunk >= 1 && o.day <= next.day && Advances(o.last, next.last)
    requires j < |PlanOn(cal, limits, next).chunks|
    ensures RangeOf(PlanOn(cal, limits, next), j) in RangesOf(PlanOn(cal, limits, o)) <==> ChunkHeld(cal, limits, o, next, j)
  {
    EarlierPlanHeldIff(cal, limits, o.last, o.day, next.last, next.day, j);
    RangeThereIffChunkThere(cal, limits, o, next, j);
  }

  lemma RangeThereIffChunkThere(cal: Calendar, limits: Limits, o: Occasion, next: Occasion, j: nat)
    requires limits.maxSessionsPerChunk >= 1 && j < |PlanOn(cal, limits, next).chunks|
    ensures RangeOf(PlanOn(cal, limits, next), j) in RangesOf(PlanOn(cal, limits, o)) <==>
      PlanOn(cal, limits, next).chunks[j] in PlanOn(cal, limits, o).chunks
  {
    var plan, earlier := PlanOn(cal, limits, next), PlanOn(cal, limits, o);
    var r := RangeOf(plan, j);
    if r in RangesOf(earlier) {
      var k :| 0 <= k < |RangesOf(earlier)| && RangesOf(earlier)[k] == r;
      SameRangeSameChunk(cal, limits, o, next, k, j);
      assert earlier.chunks[k] in earlier.chunks;
    }
    if plan.chunks[j] in earlier.chunks {
      var k :| 0 <= k < |earlier.chunks| && earlier.chunks[k] == plan.chunks[j];
      assert RangesOf(earlier)[k] == r;
    }
  }

  lemma SameRangeSameChunk(cal: Calendar, limits: Limits, o: Occasion, next: Occasion, k: nat, j: nat)
    requires limits.maxSessionsPerChunk >= 1 && j < |PlanOn(cal, limits, next).chunks| && k < |RangesOf(PlanOn(cal, limits, o))|
    requires RangesOf(PlanOn(cal, limits, o))[k] == RangeOf(PlanOn(cal, limits, next), j)
    ensures k < |PlanOn(cal, limits, o).chunks| && PlanOn(cal, limits, o).chunks[k] == PlanOn(cal, limits, next).chunks[j]
  {
    ChunkIsItsRange(cal, WindowStart(next.last, next.day, limits), next.day, limits.maxSessionsPerChunk, j);
    ChunkIsItsRange(cal, WindowStart(o.last, o.day, limits), o.day, limits.maxSessionsPerChunk, k);
  }

  lemma WaitingRangeHeldIff(cal: Calendar, limits: Limits, o: Occasion, next: Occasion)
    requires limits.maxSessionsPerChunk >= 1 && PlanOn(cal, limits, next).waiting != []
    ensures
      var plan := PlanOn(cal, limits, next);
      RangeOf(plan, |plan.chunks|) in RangesOf(PlanOn(cal, limits, o)) <==> SameWaiting(PlanOn(cal, limits, o), plan)
  {
    var plan, earlier := PlanOn(cal, limits, next), PlanOn(cal, limits, o);
    if SameWaiting(earlier, plan) {
      assert RangesOf(earlier)[|earlier.chunks|] == RangeOf(plan, |plan.chunks|);
    }
  }

  lemma AskedBeforeIff(cal: Calendar, limits: Limits, past: seq<Occasion>, next: Occasion)
    requires limits.maxSessionsPerChunk >= 1
    requires forall o | o in past :: o.day <= next.day && Advances(o.last, next.last)
    ensures AskedBefore(cal, limits, past, next) <==>
      forall r | r in RangesOf(PlanOn(cal, limits, next)) :: r in PastRanges(cal, limits, past)
  {
    var plan := PlanOn(cal, limits, next);
    forall j: nat | j < |plan.chunks|
      ensures RangeOf(plan, j) in PastRanges(cal, limits, past) <==> ChunkHeldOnce(cal, limits, past, next, j)
    {
      ChunkInPastIff(cal, limits, past, next, j);
    }
    if plan.waiting != [] {
      WaitingInPastIff(cal, limits, past, next);
    }
    RangesAre(plan, PastRanges(cal, limits, past));
  }

  lemma RangesAre(plan: RecoveryPlan, asked: seq<Range>)
    ensures (forall r | r in RangesOf(plan) :: r in asked) <==>
      && (forall j | 0 <= j < |plan.chunks| :: RangeOf(plan, j) in asked)
      && (plan.waiting != [] ==> RangeOf(plan, |plan.chunks|) in asked)
  {
    var ranges := RangesOf(plan);
    assert forall i | 0 <= i < |ranges| :: ranges[i] == RangeOf(plan, i);
    if forall r | r in ranges :: r in asked {
      forall j | 0 <= j < |ranges|
        ensures RangeOf(plan, j) in asked
      {
        assert ranges[j] in ranges;
      }
    }
  }

  lemma ChunkInPastIff(cal: Calendar, limits: Limits, past: seq<Occasion>, next: Occasion, j: nat)
    requires limits.maxSessionsPerChunk >= 1 && j < |PlanOn(cal, limits, next).chunks|
    requires forall o | o in past :: o.day <= next.day && Advances(o.last, next.last)
    ensures RangeOf(PlanOn(cal, limits, next), j) in PastRanges(cal, limits, past) <==> ChunkHeldOnce(cal, limits, past, next, j)
  {
    PastMembers(cal, limits, past, RangeOf(PlanOn(cal, limits, next), j));
    forall o | o in past
      ensures RangeOf(PlanOn(cal, limits, next), j) in RangesOf(PlanOn(cal, limits, o)) <==> ChunkHeld(cal, limits, o, next, j)
    {
      ChunkRangeHeldIff(cal, limits, o, next, j);
    }
  }

  lemma WaitingInPastIff(cal: Calendar, limits: Limits, past: seq<Occasion>, next: Occasion)
    requires limits.maxSessionsPerChunk >= 1 && PlanOn(cal, limits, next).waiting != []
    ensures
      var plan := PlanOn(cal, limits, next);
      RangeOf(plan, |plan.chunks|) in PastRanges(cal, limits, past) <==> WaitingHeldOnce(cal, limits, past, next)
  {
    var plan := PlanOn(cal, limits, next);
    PastMembers(cal, limits, past, RangeOf(plan, |plan.chunks|));
    forall o | o in past
      ensures RangeOf(plan, |plan.chunks|) in RangesOf(PlanOn(cal, limits, o)) <==> SameWaiting(PlanOn(cal, limits, o), plan)
    {
      WaitingRangeHeldIff(cal, limits, o, next);
    }
  }

  /**
   With one calendar: after any earlier dispatches of a target, on any days and with any stored rows, the next dispatch
   changes nothing exactly under the arithmetic condition `AskedBefore`.
   */
  lemma RedispatchAddsNothingIff(
      iso: IsoFormat, jobs: Table, again: Table, target: Target, cal: Calendar, limits: Limits, past: seq<Occasion>, next: Occasion,
      now: Instant, retrySeconds: int)
    requires IsIso(iso) && ':' !in target.source && ':' !in target.scope && limits.maxSessionsPerChunk >= 1
    requires forall o | o in past :: o.day <= next.day && Advances(o.last, next.last)
    requires OnlyAsked(iso, jobs, target, PastRanges(cal, limits, past)) && AllThere(iso, jobs, target, PastRanges(cal, limits, past))
    requires Enqueued(jobs, again, RequestsOf(iso, target, PlanOn(cal, limits, next), now, retrySeconds))
    ensures again == jobs <==> AskedBefore(cal, limits, past, next)
  {
    AskedBeforeIff(cal, limits, past, next);
    DispatchAddsNothingIffAsked(iso, jobs, again, target, PastRanges(cal, limits, past), PlanOn(cal, limits, next), now, retrySeconds);
  }

  /** That it changes nothing then needs no more than that the earlier requests have their jobs. */
  lemma {:induction false} AskedBeforeAddsNothing(
      iso: IsoFormat, jobs: Table, again: Table, target: Target, cal: Calendar, limits: Limits, past: seq<Occasion>, next: Occasion,
      now: Instant, retrySeconds: int)
    requires limits.maxSessionsPerChunk >= 1 && AskedBefore(cal, limits, past, next)
    requires forall o | o in past :: o.day <= next.day && Advances(o.last, next.last)
    requires AllThere(iso, jobs, target, PastRanges(cal, limits, past))
    requires Enqueued(jobs, again, RequestsOf(iso, target, PlanOn(cal, limits, next), now, retrySeconds))
    ensures again == jobs
  {
    AskedBeforeIff(cal, limits, past, next);
    NothingNewIffRangesThere(iso, jobs, again, target, PlanOn(cal, limits, next), now, retrySeconds);
  }

  // ---------------------------------------------------------------- gaps

  predicate RowOf(row: Row, target: Target) {
    row.key == Key(target.source, target.scope, target.externalId, row.key.date, target.kind)
  }

  /** The cursor the scheduler dispatches with. */
  function Completed(rows: seq<Row>, target: Target): Option<Date> {
    LastCompletedSession(rows, target.source, target.scope, target.externalId, target.kind)
  }

  /**
   An expected date is planned exactly if it is within the look-back limit and later than every stored date of the
   target: whether it is itself recorded, and what became of its job, does not matter.
   */
  lemma StillPlannedIff(cal: Calendar, limits: Limits, rows: seq<Row>, target: Target, today: Date, d: Date)
    requires limits.maxSessionsPerChunk >= 1
    ensures d in Flatten(PlanFor(cal, limits, Completed(rows, target), today).chunks) <==>
      && cal(d).ExpectedPublished? && today - limits.maxLookbackDays <= d <= today
      && forall row | row in rows && RowOf(row, target) :: row.key.date < d
  {
    var last := Completed(rows, target);
    var start := WindowStart(last, today, limits);
    ChunksConcatenate(Dates(cal, start, today, ExpectedPublished), limits.maxSessionsPerChunk);
    DatesMembers(cal, start, today, ExpectedPublished, d);
    if last.Some? {
      var row :| row in rows && row.key == Key(target.source, target.scope, target.externalId, last.value, target.kind);
      assert RowOf(row, target);
    }
  }

  lemma ChunksStartWithin(cal: Calendar, size: nat, start: Date, end: Date, k: nat)
    requires size >= 1 && k < |Chunks(Dates(cal, start, end, ExpectedPublished), size)|
    ensures start <= Chunks(Dates(cal, start, end, ExpectedPublished), size)[k].start
  {
    var expected := Dates(cal, start, end, ExpectedPublished);
    ChunkStart(expected, size, k);
    DatesMembers(cal, start, end, ExpectedPublished, expected[Offset(k, size)]);
  }

  /**
   A gap is never closed: once a later date of the target is stored, no dispatch of any later day asks for a range
   that reaches back to an earlier date, so a date whose job ended FAILED stays without an observation.
   */
  lemma {:induction false} GapIsNeverAskedForAgain(
      iso: IsoFormat, target: Target, cal: Calendar, limits: Limits, rows: seq<Row>, later: seq<Row>, row: Row, today: Date,
      now: Instant, retrySeconds: int, d: Date, r: JobSpec)
    requires limits.maxSessionsPerChunk >= 1
    requires row in rows && RowOf(row, target) && d <= row.key.date && rows <= later
    requires r in RequestsOf(iso, target, PlanFor(cal, limits, Completed(later, target), today), now, retrySeconds)
    ensures r.cursor.Some? && d < r.cursor.value.start
  {
    var last := Completed(later, target);
    assert row in later;
    var plan := PlanFor(cal, limits, last, today);
    var start := WindowStart(last, today, limits);
    assert d < start;
    var requests := RequestsOf(iso, target, plan, now, retrySeconds);
    var i :| 0 <= i < |requests| && requests[i] == r;
    if i < |plan.chunks| {
      ChunksStartWithin(cal, limits.maxSessionsPerChunk, start, today, i);
    } else {
      DatesMembers(cal, start, today, WaitingPublication, plan.waiting[0]);
    }
  }
}

/**
 The leased, fenced job queue as a state machine. Any number of workers interleave, crash, come back late and
 present old tokens; each statement is one step. The state carries the history of every job, so that what holds
 over whole runs is a predicate of one state.
 */
module QueueProtocol {
  import opened Wrappers
  import opened Domain
  import opened JobTable

  type HolderId = nat

  /**
   What one worker remembers of one claim: its own name, the generation it was given, and its copy of
   `attempt_count`, which it may re-read at any time and which may be out of date at any other.
   */
  datatype Holder = Holder(worker: string, job: JobId, generation: nat, attempts: nat)

  /** How a claim ends: by lease expiry, or by an accepted transition other than `Start`. */
  datatype Release = Expiry | Outcome(worker: string, update: Update)

  datatype Entry = Taken(generation: nat, worker: string) | Released(generation: nat, how: Release)

  datatype State = State(jobs: Table, history: map<JobId, seq<Entry>>, holders: map<HolderId, Holder>)

  datatype Event =
    | Enqueue(id: JobId, spec: JobSpec)
    | Recover(now: Instant, lease: int)
    | Promote(now: Instant)
    | Grant(holder: HolderId, id: JobId, worker: string, now: Instant)
    | Refresh(holder: HolderId)
    | Reread(holder: HolderId)
    | Present(holder: HolderId, update: Update)
    | Crash(holder: HolderId)

  /** `mark_failed` computes its count from the worker's own copy, never from the stored row. */
  function Asked(holder: Holder, update: Update): Update {
    if update.Fail? then update.(copy := holder.attempts) else update
  }

  function MoveOf(s: State, e: Event): Option<Move> {
    match e
    case Enqueue(id, spec) => Some(Inserts(id, spec))
    case Recover(now, lease) => Some(Recovers(now, lease))
    case Promote(now) => Some(Promotes(now))
    case Grant(_, id, worker, now) => Some(Claims(id, worker, now))
    case Present(h, update) =>
      if h in s.holders
      then var held := s.holders[h];
           Some(Presents(held.job, held.worker, held.generation, Asked(held, update)))
      else None
    case _ => None
  }

  /** The entry a move adds to the history of a job that is already there. */
  function Added(jobs: Table, id: JobId, move: Move): seq<Entry>
    requires id in jobs
  {
    match move
    case Recovers(now, lease) =>
      if LeaseExpired(jobs[id], now - lease) then [Released(jobs[id].generation, Expiry)] else []
    case Claims(claimed, worker, _) =>
      if claimed == id && Claimable(jobs, id) then [Taken(jobs[id].generation + 1, worker)] else []
    case Presents(target, worker, generation, update) =>
      if target == id && Accepts(jobs, id, worker, generation, update) && !update.Start?
      then [Released(generation, Outcome(worker, update))] else []
    case _ => []
  }

  function Recorded(s: State, move: Move): map<JobId, seq<Entry>> {
    map id | id in Apply(s.jobs, move) ::
      if id in s.jobs && id in s.history then s.history[id] + Added(s.jobs, id, move) else []
  }

  function HoldersAfter(s: State, e: Event): map<HolderId, Holder> {
    match e
    case Grant(h, id, worker, _) =>
      if Claimable(s.jobs, id)
      then s.holders[h := Holder(worker, id, s.jobs[id].generation + 1, s.jobs[id].attempts)]
      else s.holders
    case Refresh(h) =>
      if h in s.holders && s.holders[h].job in s.jobs
      then s.holders[h := s.holders[h].(attempts := s.jobs[s.holders[h].job].attempts)]
      else s.holders
    case Reread(h) =>
      if h in s.holders && s.holders[h].job in s.jobs
      then var row := s.jobs[s.holders[h].job];
           s.holders[h := s.holders[h].(attempts := row.attempts, generation := row.generation)]
      else s.holders
    case Crash(h) => s.holders - {h}
    case _ => s.holders
  }

  function Step(s: State, e: Event): State {
    var move := MoveOf(s, e);
    if move.Some?
    then State(Apply(s.jobs, move.value), Recorded(s, move.value), HoldersAfter(s, e))
    else s.(holders := HoldersAfter(s, e))
  }

  const Empty := State(map[], map[], map[])

  // ---------------------------------------------------------------- the history of one job

  /** The last claim is still live. */
  predicate Open(h: seq<Entry>) {
    h != [] && h[|h| - 1].Taken?
  }

  /** What may come next: a claim with a larger token when none is live, or a release of the live one. */
  predicate Follows(h: seq<Entry>, e: Entry) {
    match e
    case Taken(generation, _) => !Open(h) && (h != [] ==> h[|h| - 1].generation < generation)
    case Released(generation, how) =>
      && Open(h)
      && h[|h| - 1].generation == generation
      && (how.Outcome? ==> how.worker == h[|h| - 1].worker)
  }

  /** Claims and releases alternate; a release carries the token of the claim before it, and tokens only grow. */
  predicate Alternates(h: seq<Entry>) {
    h == [] || (Alternates(h[..|h| - 1]) && Follows(h[..|h| - 1], h[|h| - 1]))
  }

  predicate CountsAsAttempt(e: Entry) {
    e.Released? && (e.how.Expiry? || e.how.update.Fail?)
  }

  /** Failure and lease-expiry steps in a history. */
  function Attempts(h: seq<Entry>): nat {
    if h == [] then 0
    else Attempts(h[..|h| - 1]) + if CountsAsAttempt(h[|h| - 1]) then 1 else 0
  }

  predicate Finished(e: Entry) {
    e.Released? && e.how.Outcome? && e.how.update.Finish?
  }

  predicate Shaped(job: Job) {
    && (Owned(job) ==> job.claimedBy.Some? && job.claimedAt.Some?)
    && (!Owned(job) && !job.status.Done? ==> job.claimedBy.None? && job.claimedAt.None?)
    && job.attempts <= job.maxAttempts
    && (job.status.Failed? <==> job.attempts == job.maxAttempts)
  }

  /** The queue invariant for one job and its history. */
  predicate Lawful(job: Job, h: seq<Entry>) {
    && Shaped(job)
    && Alternates(h)
    && job.attempts == Attempts(h)
    && (h != [] ==> h[|h| - 1].generation <= job.generation)
    && (Owned(job) <==> Open(h))
    && (Owned(job) ==> h[|h| - 1].generation == job.generation && job.claimedBy == Some(h[|h| - 1].worker))
    && (job.status.Done? <==> h != [] && Finished(h[|h| - 1]))
  }

  /** A worker's copy of the count is exact whenever its token is still the live one. */
  predicate CopyExact(jobs: Table, holder: Holder) {
    && holder.job in jobs
    && holder.generation <= jobs[holder.job].generation
    && (Owned(jobs[holder.job]) && holder.generation == jobs[holder.job].generation
        ==> holder.attempts == jobs[holder.job].attempts)
  }

  predicate Inv(s: State) {
    && s.history.Keys == s.jobs.Keys
    && UniqueKeys(s.jobs)
    && (forall id | id in s.jobs :: Lawful(s.jobs[id], s.history[id]))
    && (forall h | h in s.holders :: CopyExact(s.jobs, s.holders[h]))
  }

  lemma Snoc(h: seq<Entry>, e: Entry)
    ensures Attempts(h + [e]) == Attempts(h) + if CountsAsAttempt(e) then 1 else 0
    ensures Alternates(h + [e]) <==> Alternates(h) && Follows(h, e)
    ensures Open(h + [e]) <==> e.Taken?
    ensures h + [e] != [] && |h + [e]| - 1 == |h| && (h + [e])[|h|] == e
  {
    assert (h + [e])[..|h|] == h;
  }

  lemma ClaimKeepsLawful(job: Job, h: seq<Entry>, worker: string, now: Instant)
    requires Lawful(job, h) && job.status.Pending?
    ensures Lawful(ClaimRow(job, worker, now), h + [Taken(job.generation + 1, worker)])
  {
    var e := Taken(job.generation + 1, worker);
    Snoc(h, e);
  }

  lemma ExpiryKeepsLawful(job: Job, h: seq<Entry>, now: Instant)
    requires Lawful(job, h) && Owned(job)
    ensures Lawful(Expire(job, now), h + [Released(job.generation, Expiry)])
  {
    var e := Released(job.generation, Expiry);
    Snoc(h, e);
  }

  lemma UpdateKeepsLawful(job: Job, h: seq<Entry>, worker: string, update: Update)
    requires Lawful(job, h) && Owned(job) && job.claimedBy == Some(worker) && Allows(update, job.status)
    requires !update.Start?
    requires update.Fail? ==> update.copy == job.attempts
    ensures Lawful(Written(job, update), h + [Released(job.generation, Outcome(worker, update))])
  {
    var e := Released(job.generation, Outcome(worker, update));
    Snoc(h, e);
  }

  lemma RecoveryKeepsLawful(jobs: Table, id: JobId, h: seq<Entry>, now: Instant, lease: int)
    requires id in jobs && Lawful(jobs[id], h)
    ensures Lawful(RecoverExpired(jobs, now, lease)[id], h + Added(jobs, id, Recovers(now, lease)))
  {
    if LeaseExpired(jobs[id], now - lease) {
      ExpiryKeepsLawful(jobs[id], h, now);
    } else {
      assert h + [] == h;
    }
  }

  lemma GrantKeepsLawful(jobs: Table, id: JobId, h: seq<Entry>, claimed: JobId, worker: string, now: Instant)
    requires id in jobs && Lawful(jobs[id], h)
    ensures Lawful(Claim(jobs, claimed, worker, now)[id], h + Added(jobs, id, Claims(claimed, worker, now)))
  {
    if claimed == id && Claimable(jobs, id) {
      ClaimKeepsLawful(jobs[id], h, worker, now);
    } else {
      assert h + [] == h;
    }
  }

  lemma AcceptedKeepsLawful(jobs: Table, id: JobId, h: seq<Entry>, worker: string, generation: nat, update: Update)
    requires id in jobs && Lawful(jobs[id], h) && Accepts(jobs, id, worker, generation, update)
    requires update.Fail? ==> update.copy == jobs[id].attempts
    ensures Lawful(Written(jobs[id], update), h + Added(jobs, id, Presents(id, worker, generation, update)))
  {
    if update.Start? {
      assert h + [] == h;
    } else {
      UpdateKeepsLawful(jobs[id], h, worker, update);
    }
  }

  lemma PresentedKeepsLawful(
      jobs: Table, id: JobId, h: seq<Entry>, target: JobId, worker: string, generation: nat, update: Update)
    requires id in jobs && Lawful(jobs[id], h)
    requires target == id && update.Fail? && Accepts(jobs, id, worker, generation, update) ==> update.copy == jobs[id].attempts
    ensures
      var move := Presents(target, worker, generation, update);
      id in Apply(jobs, move) && Lawful(Apply(jobs, move)[id], h + Added(jobs, id, move))
  {
    if target == id && Accepts(jobs, id, worker, generation, update) {
      AcceptedKeepsLawful(jobs, id, h, worker, generation, update);
    } else {
      assert h + [] == h;
    }
  }

  lemma OthersKeepLawful(jobs: Table, id: JobId, h: seq<Entry>, move: Move)
    requires id in jobs && Lawful(jobs[id], h) && (move.Inserts? || move.Promotes?)
    ensures id in Apply(jobs, move) && Lawful(Apply(jobs, move)[id], h + Added(jobs, id, move))
  {
    assert h + [] == h;
  }

  /** One move keeps the invariant of one job, provided a failing worker's copy is exact. */
  lemma MoveKeepsLawful(jobs: Table, id: JobId, h: seq<Entry>, move: Move)
    requires id in jobs && Lawful(jobs[id], h)
    requires move.Presents? && move.id == id && move.update.Fail?
             && Accepts(jobs, id, move.worker, move.generation, move.update)
             ==> move.update.copy == jobs[id].attempts
    ensures id in Apply(jobs, move) && Lawful(Apply(jobs, move)[id], h + Added(jobs, id, move))
  {
    match move
    case Recovers(now, lease) => RecoveryKeepsLawful(jobs, id, h, now, lease);
    case Claims(claimed, worker, now) => GrantKeepsLawful(jobs, id, h, claimed, worker, now);
    case Presents(target, worker, generation, update) => PresentedKeepsLawful(jobs, id, h, target, worker, generation, update);
    case _ => OthersKeepLawful(jobs, id, h, move);
  }

  lemma NewJobLawful(spec: JobSpec)
    requires spec.maxAttempts >= 1
    ensures Lawful(NewJob(spec), [])
  {
  }

  /** `max_attempts` is at least one wherever the engine enqueues. */
  predicate Legal(e: Event) {
    e.Enqueue? ==> e.spec.maxAttempts >= 1
  }

  /** A live token stops being live before the stored count can move away from the copy beside it. */
  lemma MoveKeepsCopy(jobs: Table, move: Move, held: Holder)
    requires CopyExact(jobs, held)
    ensures CopyExact(Apply(jobs, move), held)
  {
    match move
    case Presents(id, worker, generation, update) =>
      if Accepts(jobs, id, worker, generation, update) {
        assert Owned(Written(jobs[id], update)) ==> update.Start?;
      }
    case _ =>
  }

  /** A new holder, or one that has just looked at the row, has it right. */
  lemma FreshCopyIsExact(s: State, e: Event, h: HolderId)
    requires s.jobs.Keys <= s.history.Keys && h in Step(s, e).holders
    requires h !in s.holders || Step(s, e).holders[h] != s.holders[h]
    requires h in s.holders ==> CopyExact(s.jobs, s.holders[h])
    ensures CopyExact(Step(s, e).jobs, Step(s, e).holders[h])
  {
  }

  lemma OldCopyStaysExact(s: State, e: Event, held: Holder)
    requires s.jobs.Keys <= s.history.Keys && CopyExact(s.jobs, held)
    ensures CopyExact(Step(s, e).jobs, held)
  {
    var move := MoveOf(s, e);
    if move.Some? {
      MoveKeepsCopy(s.jobs, move.value, held);
    }
  }

  lemma StepKeepsCopies(s: State, e: Event)
    requires s.jobs.Keys <= s.history.Keys && forall h | h in s.holders :: CopyExact(s.jobs, s.holders[h])
    ensures forall h | h in Step(s, e).holders :: CopyExact(Step(s, e).jobs, Step(s, e).holders[h])
  {
    var t := Step(s, e);
    forall h | h in t.holders
      ensures CopyExact(t.jobs, t.holders[h])
    {
      if h in s.holders && t.holders[h] == s.holders[h] {
        OldCopyStaysExact(s, e, s.holders[h]);
      } else {
        FreshCopyIsExact(s, e, h);
      }
    }
  }

  lemma {:induction false} StepKeepsLawful(s: State, e: Event)
    requires Inv(s) && Legal(e)
    ensures forall id | id in Step(s, e).jobs :: id in Step(s, e).history && Lawful(Step(s, e).jobs[id], Step(s, e).history[id])
  {
    var t := Step(s, e);
    var move := MoveOf(s, e);
    if move.Some? {
      forall id | id in t.jobs
        ensures Lawful(t.jobs[id], t.history[id])
      {
        if id in s.jobs {
          if e.Present? {
            assert CopyExact(s.jobs, s.holders[e.holder]);
          }
          MoveKeepsLawful(s.jobs, id, s.history[id], move.value);
        } else {
          NewJobLawful(e.spec);
        }
      }
    }
  }

  /** Every step keeps the queue invariant. */
  lemma {:induction false} StepKeepsInv(s: State, e: Event)
    requires Inv(s) && Legal(e)
    ensures Inv(Step(s, e))
  {
    var move := MoveOf(s, e);
    if move.Some? {
      ApplyKeepsKeysUnique(s.jobs, move.value);
    }
    StepKeepsLawful(s, e);
    StepKeepsCopies(s, e);
  }

  // ---------------------------------------------------------------- whole runs

  predicate LegalRun(events: seq<Event>) {
    forall e | e in events :: Legal(e)
  }

  function Run(s: State, events: seq<Event>): State {
    if events == [] then s else Step(Run(s, events[..|events| - 1]), events[|events| - 1])
  }

  /** Every state of every run satisfies the queue invariant. */
  lemma {:induction false} RunKeepsInv(s: State, events: seq<Event>)
    requires Inv(s) && LegalRun(events)
    ensures Inv(Run(s, events))
    decreases |events|
  {
    if events != [] {
      var earlier, last := events[..|events| - 1], events[|events| - 1];
      RunKeepsInv(s, earlier);
      StepKeepsInv(Run(s, earlier), last);
    }
  }

  /** What a run keeps of what was there when it began. */
  predicate Extends(before: State, after: State) {
    && Evolves(before.jobs, after.jobs)
    && (forall id | id in before.jobs ::
          id in before.history && id in after.history && before.history[id] <= after.history[id])
  }

  lemma StepExtends(s: State, e: Event)
    requires s.jobs.Keys <= s.history.Keys
    ensures Extends(s, Step(s, e))
  {
    var move := MoveOf(s, e);
    if move.Some? {
      ApplyEvolves(s.jobs, move.value);
    }
  }

  lemma ExtendsTransitive(a: State, b: State, c: State)
    requires Extends(a, b) && Extends(b, c)
    ensures Extends(a, c)
  {
    forall id | id in a.jobs
      ensures a.history[id] <= c.history[id]
    {
      assert a.history[id] <= b.history[id] <= c.history[id];
    }
  }

  /** Histories only grow, generations never decrease, and DONE and FAILED rows never change again. */
  lemma {:induction false} RunExtends(s: State, events: seq<Event>)
    requires Inv(s) && LegalRun(events)
    ensures Extends(s, Run(s, events))
    decreases |events|
  {
    if events != [] {
      var earlier, last := events[..|events| - 1], events[|events| - 1];
      RunExtends(s, earlier);
      RunKeepsInv(s, earlier);
      StepExtends(Run(s, earlier), last);
      ExtendsTransitive(s, Run(s, earlier), Run(s, events));
    }
  }

  // ---------------------------------------------------------------- fencing

  lemma {:induction false} GenerationsGrow(h: seq<Entry>, i: nat, k: nat)
    requires Alternates(h) && i < k < |h|
    ensures h[i].generation <= h[k].generation
    ensures h[i].Released? || h[k].Taken? ==> h[i].generation < h[k].generation
    decreases |h|
  {
    var g := h[..|h| - 1];
    if k < |g| {
      GenerationsGrow(g, i, k);
    } else if i < |g| - 1 {
      GenerationsGrow(g, i, |g| - 1);
    }
  }

  lemma {:induction false} ReleaseFollowsItsClaim(h: seq<Entry>, i: nat)
    requires Alternates(h) && i < |h| && h[i].Released?
    ensures i > 0 && h[i - 1].Taken? && h[i - 1].generation == h[i].generation
    ensures h[i].how.Outcome? ==> h[i].how.worker == h[i - 1].worker
  {
    if i < |h| - 1 {
      ReleaseFollowsItsClaim(h[..|h| - 1], i);
    }
  }

  /** No two claims of a job get the same token, and at most one step ever consumes a token. */
  lemma TokensAreUsedOnce(s: State, id: JobId, i: nat, k: nat)
    requires Inv(s) && id in s.jobs && i < k < |s.history[id]|
    ensures
      var h := s.history[id];
      && (h[i].Taken? && h[k].Taken? ==> h[i].generation != h[k].generation)
      && (h[i].Released? && h[k].Released? ==> h[i].generation != h[k].generation)
  {
    GenerationsGrow(s.history[id], i, k);
  }

  lemma ReleasedTokenIsBehind(job: Job, h: seq<Entry>, i: nat)
    requires Lawful(job, h) && i < |h| && h[i].Released?
    ensures Owned(job) ==> h[i].generation < job.generation
  {
    if i < |h| - 1 {
      GenerationsGrow(h, i, |h| - 1);
    }
  }

  /** A token that some step consumed is dead for every worker and every transition, then and ever after. */
  lemma {:induction false} ConsumedTokenIsDead(s: State, events: seq<Event>, id: JobId, e: Entry, worker: string, update: Update)
    requires Inv(s) && LegalRun(events)
    requires id in s.jobs && e in s.history[id] && e.Released?
    ensures id in Run(s, events).jobs
    ensures Transition(Run(s, events).jobs, id, worker, e.generation, update).None?
    ensures !Holds(Run(s, events).jobs, id, worker, e.generation)
  {
    RunExtends(s, events);
    RunKeepsInv(s, events);
    var t := Run(s, events);
    var i :| 0 <= i < |s.history[id]| && s.history[id][i] == e;
    assert Lawful(t.jobs[id], t.history[id]);
    ReleasedTokenIsBehind(t.jobs[id], t.history[id], i);
  }

  /** The storage fence passes exactly for the last claim of the history, while nothing has consumed it. */
  lemma FencePassesIffLive(s: State, id: JobId, worker: string, generation: nat)
    requires Inv(s) && id in s.jobs
    ensures Holds(s.jobs, id, worker, generation) <==>
      s.history[id] != [] && s.history[id][|s.history[id]| - 1] == Taken(generation, worker)
  {
    assert Lawful(s.jobs[id], s.history[id]);
  }

  /** Only the worker that was granted a token can consume it by a transition. */
  lemma OnlyTheClaimantReleases(s: State, id: JobId, i: nat)
    requires Inv(s) && id in s.jobs && i < |s.history[id]|
    requires s.history[id][i].Released?
    ensures i > 0 && s.history[id][i - 1].Taken?
    ensures s.history[id][i - 1].generation == s.history[id][i].generation
    ensures s.history[id][i].how.Outcome? ==> s.history[id][i].how.worker == s.history[id][i - 1].worker
  {
    ReleaseFollowsItsClaim(s.history[id], i);
  }

  // ---------------------------------------------------------------- no lost update

  /**
   In every reachable state the stored count is the number of failure and expiry steps so far, and the job is
   FAILED exactly when that number has reached its limit.
   */
  lemma AttemptCountIsExact(events: seq<Event>, id: JobId)
    requires LegalRun(events) && id in Run(Empty, events).jobs
    ensures
      var s := Run(Empty, events);
      && id in s.history && s.jobs[id].attempts == Attempts(s.history[id]) <= s.jobs[id].maxAttempts
      && (s.jobs[id].status.Failed? <==> s.jobs[id].attempts == s.jobs[id].maxAttempts)
  {
    RunKeepsInv(Empty, events);
    assert Lawful(Run(Empty, events).jobs[id], Run(Empty, events).history[id]);
  }

  /** An accepted failure adds exactly one to the stored count, although it writes an absolute number. */
  lemma FailureLosesNoUpdate(s: State, h: HolderId, now: Instant, error: string)
    requires Inv(s) && h in s.holders
    ensures
      var held := s.holders[h];
      var asked := Asked(held, Fail(0, now, error));
      var t := Step(s, Present(h, Fail(0, now, error)));
      if Accepts(s.jobs, held.job, held.worker, held.generation, asked)
      then t.jobs[held.job].attempts == s.jobs[held.job].attempts + 1
      else t.jobs == s.jobs
  {
    assert CopyExact(s.jobs, s.holders[h]);
  }

  // ---------------------------------------------------------------- the catch-all

  /**
   The scheduler's catch-all takes the generation from the row again before it records a failure. It then
   consumes the live token exactly when the job is owned under the same worker name, whoever holds it.
   */
  lemma {:induction false} CatchAllHitsTheLiveOwner(s: State, h: HolderId, now: Instant, error: string)
    requires Inv(s) && h in s.holders
    ensures
      var held := s.holders[h];
      var t := Step(Step(s, Reread(h)), Present(h, Fail(0, now, error)));
      && (t.jobs != s.jobs <==> Owned(s.jobs[held.job]) && s.jobs[held.job].claimedBy == Some(held.worker))
      && (t.jobs != s.jobs ==> t.jobs[held.job].attempts == s.jobs[held.job].attempts + 1 && !Owned(t.jobs[held.job]))
  {
    var held := s.holders[h];
    var u := Step(s, Reread(h));
    assert CopyExact(s.jobs, held);
    var asked := Asked(u.holders[h], Fail(0, now, error));
    var row := s.jobs[held.job];
    if Owned(row) && row.claimedBy == Some(held.worker) {
      assert Accepts(u.jobs, held.job, held.worker, row.generation, asked);
      assert Step(u, Present(h, Fail(0, now, error))).jobs[held.job].attempts == row.attempts + 1;
    }
  }
}

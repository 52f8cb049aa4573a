/** A run of two schedulers under one worker name, in which one fails the other's claim. */
module SharedWorkerName {
  import opened Wrappers
  import opened Domain
  import opened JobTable
  import opened QueueProtocol

  ghost predicate Reachable(s: State) {
    exists events :: LegalRun(events) && Run(Empty, events) == s
  }

  lemma StepIsReachable(s: State, e: Event)
    requires Inv(s) && Reachable(s) && Legal(e)
    ensures Inv(Step(s, e)) && Reachable(Step(s, e))
  {
    var events :| LegalRun(events) && Run(Empty, events) == s;
    StepKeepsInv(s, e);
    RunOneMore(events, e);
  }

  lemma RunOneMore(events: seq<Event>, e: Event)
    requires LegalRun(events) && Legal(e)
    ensures LegalRun(events + [e]) && Run(Empty, events + [e]) == Step(Run(Empty, events), e)
  {
    assert (events + [e])[..|events|] == events;
  }

  lemma {:induction false} EnqueueTo(s: State, id: JobId, spec: JobSpec) returns (t: State)
    requires Inv(s) && Reachable(s) && id !in s.jobs && !HasKey(s.jobs, spec.dedupeKey) && spec.maxAttempts >= 1
    ensures Inv(t) && Reachable(t) && t.holders == s.holders && t.jobs == s.jobs[id := NewJob(spec)]
  {
    t := Step(s, Enqueue(id, spec));
    StepIsReachable(s, Enqueue(id, spec));
  }

  lemma {:induction false} GrantRow(s: State, h: HolderId, id: JobId, worker: string, now: Instant) returns (t: State)
    requires Claimable(s.jobs, id)
    ensures t == Step(s, Grant(h, id, worker, now))
    ensures t.holders == s.holders[h := Holder(worker, id, s.jobs[id].generation + 1, s.jobs[id].attempts)]
    ensures t.jobs == s.jobs[id := ClaimRow(s.jobs[id], worker, now)]
  {
    t := Step(s, Grant(h, id, worker, now));
  }

  lemma {:induction false} GrantTo(s: State, h: HolderId, id: JobId, worker: string, now: Instant) returns (t: State)
    requires Inv(s) && Reachable(s) && Claimable(s.jobs, id)
    ensures Inv(t) && Reachable(t)
    ensures t.holders == s.holders[h := Holder(worker, id, s.jobs[id].generation + 1, s.jobs[id].attempts)]
    ensures t.jobs == s.jobs[id := ClaimRow(s.jobs[id], worker, now)]
  {
    t := GrantRow(s, h, id, worker, now);
    StepIsReachable(s, Grant(h, id, worker, now));
  }

  lemma {:induction false} RecoverAll(s: State, now: Instant, lease: int) returns (t: State)
    requires Inv(s) && Reachable(s)
    ensures Inv(t) && Reachable(t) && t.holders == s.holders && t.jobs == RecoverExpired(s.jobs, now, lease)
  {
    t := Step(s, Recover(now, lease));
    StepIsReachable(s, Recover(now, lease));
  }

  predicate TwoSpecs(first: JobSpec, second: JobSpec) {
    && first.dedupeKey != second.dedupeKey
    && first.maxAttempts == 5 && !first.waiting && second.maxAttempts == 5 && !second.waiting
  }

  lemma {:induction false} TwoEnqueued(first: JobSpec, second: JobSpec) returns (s: State)
    requires TwoSpecs(first, second)
    ensures Inv(s) && Reachable(s) && s.holders == map[] && s.jobs == map[0 := NewJob(first), 1 := NewJob(second)]
  {
    assert Run(Empty, []) == Empty;
    s := EnqueueTo(Empty, 0, first);
    s := EnqueueTo(s, 1, second);
  }

  lemma ReplaceFirst(a: Job, b: Job, c: Job)
    ensures map[0 := a, 1 := b][0 := c] == map[0 := c, 1 := b]
  {
  }

  lemma {:induction false} OneClaimed(first: JobSpec, second: JobSpec) returns (s: State)
    requires TwoSpecs(first, second)
    ensures Inv(s) && Reachable(s) && s.holders == map[0 := Holder("scheduler", 0, 1, 0)]
    ensures s.jobs == map[0 := ClaimRow(NewJob(first), "scheduler", 0), 1 := NewJob(second)]
  {
    var enqueued := TwoEnqueued(first, second);
    ReplaceFirst(NewJob(first), NewJob(second), ClaimRow(NewJob(first), "scheduler", 0));
    s := GrantTo(enqueued, 0, 0, "scheduler", 0);
  }

  /** One scheduler's batch of two. */
  lemma {:induction false} BatchOfTwo(first: JobSpec, second: JobSpec) returns (s: State)
    requires TwoSpecs(first, second)
    ensures Inv(s) && Reachable(s)
    ensures s.holders == map[0 := Holder("scheduler", 0, 1, 0), 1 := Holder("scheduler", 1, 1, 0)]
    ensures s.jobs == map[0 := ClaimRow(NewJob(first), "scheduler", 0), 1 := ClaimRow(NewJob(second), "scheduler", 0)]
  {
    s := OneClaimed(first, second);
    s := GrantTo(s, 1, 1, "scheduler", 0);
  }

  /** During its first call both claims lapse, and another scheduler claims the second job. */
  lemma {:induction false} LapsedBatch(first: JobSpec, second: JobSpec) returns (s: State)
    requires TwoSpecs(first, second)
    ensures Inv(s) && Reachable(s)
    ensures s.holders == map[0 := Holder("scheduler", 0, 1, 0), 1 := Holder("scheduler", 1, 1, 0), 2 := Holder("scheduler", 1, 3, 1)]
    ensures 0 in s.jobs && !Owned(s.jobs[0]) && Holds(s.jobs, 1, "scheduler", 3)
  {
    s := BatchOfTwo(first, second);
    s := RecoverAll(s, 300, 300);
    s := GrantTo(s, 2, 1, "scheduler", 300);
  }

  lemma {:induction false} CatchAllAfter(s: State, h: HolderId, now: Instant) returns (t: State)
    requires Inv(s) && h in s.holders
    requires Owned(s.jobs[s.holders[h].job]) && s.jobs[s.holders[h].job].claimedBy == Some(s.holders[h].worker)
    ensures t == Step(Step(s, Reread(h)), Present(h, Fail(0, now, "unexpected")))
    ensures s.holders[h].job in t.jobs && !Owned(t.jobs[s.holders[h].job])
  {
    CatchAllHitsTheLiveOwner(s, h, now, "unexpected");
    t := Step(Step(s, Reread(h)), Present(h, Fail(0, now, "unexpected")));
  }

  /**
   Two schedulers share one worker name, as the entry point gives them. The first has two jobs in its batch; during the
   call for the one both claims lapse, and the second scheduler claims the other. The first scheduler's transition is
   then refused, which makes it read its other row again, and its catch-all for that job fails the other's claim.
   */
  lemma {:induction false} SharedNameLetsTheCatchAllFailAnotherClaim(first: JobSpec, second: JobSpec) returns (s: State, t: State)
    requires TwoSpecs(first, second)
    ensures Inv(s) && Reachable(s)
    ensures s.holders == map[0 := Holder("scheduler", 0, 1, 0), 1 := Holder("scheduler", 1, 1, 0), 2 := Holder("scheduler", 1, 3, 1)]
    ensures forall update :: Transition(s.jobs, 0, "scheduler", 1, update).None?
    ensures Holds(s.jobs, 1, "scheduler", 3)
    ensures t == Step(Step(s, Reread(1)), Present(1, Fail(0, 301, "unexpected")))
    ensures Transition(t.jobs, 1, "scheduler", 3, Finish).None? && !Holds(t.jobs, 1, "scheduler", 3)
  {
    s := LapsedBatch(first, second);
    t := CatchAllAfter(s, 1, 301);
  }
}

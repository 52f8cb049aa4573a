/** How far apart the bounded exponential backoff keeps the attempts of one job. */
module RetrySpacing {
  import opened Wrappers
  import opened Domain
  import opened JobTable
  import opened JobQueue

  lemma {:induction false} Pow2Grows(m: nat, n: nat)
    requires m <= n
    ensures 1 <= Pow2(m) <= Pow2(n)
    decreases n
  {
    if m < n {
      Pow2Grows(m, n - 1);
    } else if n > 0 {
      Pow2Grows(m - 1, n - 1);
    }
  }

  /** The delay never shrinks with the number of attempts and never passes the cap. */
  lemma BackoffMonotoneAndCapped(m: int, n: int)
    requires m <= n
    ensures 0 <= BackoffSeconds(m) <= BackoffSeconds(n) <= BACKOFF_CAP_SECONDS
    ensures n >= 8 ==> BackoffSeconds(n) == BACKOFF_CAP_SECONDS
  {
    if m > 0 {
      Pow2Grows(m - 1, n - 1);
    }
    if n > 0 {
      Pow2Grows(0, n - 1);
    }
    if n >= 8 {
      Pow2Grows(7, n - 1);
      assert Pow2(7) == 128;
    }
  }

  /** Least time from the first failure to the claim after the `k`-th one. */
  function LeastSpacing(k: nat): int {
    if k <= 7 then BACKOFF_BASE_SECONDS * (Pow2(k) - 1) else 3810 + BACKOFF_CAP_SECONDS * (k - 7)
  }

  lemma LeastSpacingStep(k: nat)
    ensures LeastSpacing(0) == 0
    ensures LeastSpacing(k + 1) == LeastSpacing(k) + BackoffSeconds(k + 1)
  {
    if k < 7 {
      Pow2Grows(k, 6);
      assert Pow2(6) == 64;
    } else {
      BackoffMonotoneAndCapped(8, k + 1);
      assert Pow2(7) == 128;
    }
  }

  /** One claim of a due job and the failure that ends it. */
  datatype Attempt = Attempt(claimedAt: Instant, failedAt: Instant)

  function FailOnce(job: Job, a: Attempt, worker: string, error: string): Job {
    Written(ClaimRow(job, worker, a.claimedAt), Fail(job.attempts, a.failedAt, error))
  }

  function FailAll(job: Job, tries: seq<Attempt>, worker: string, error: string): Job {
    if tries == [] then job
    else FailOnce(FailAll(job, tries[..|tries| - 1], worker, error), tries[|tries| - 1], worker, error)
  }

  /** Every claim finds the job due, as `claim_next` selects it, and fails no earlier than it was claimed. */
  predicate Uninterleaved(job: Job, tries: seq<Attempt>, worker: string, error: string) {
    tries == []
    || (var before := tries[..|tries| - 1];
        var last := tries[|tries| - 1];
        && Uninterleaved(job, before, worker, error)
        && Eligible(FailAll(job, before, worker, error), last.claimedAt, None)
        && last.claimedAt <= last.failedAt)
  }

  lemma {:induction false} FailuresPushBack(job: Job, tries: seq<Attempt>, worker: string, error: string)
    requires job.attempts == 0 && tries != [] && Uninterleaved(job, tries, worker, error)
    ensures FailAll(job, tries, worker, error).attempts == |tries|
    ensures FailAll(job, tries, worker, error).nextRunAt
            == tries[|tries| - 1].failedAt + BackoffSeconds(|tries|)
    ensures FailAll(job, tries, worker, error).nextRunAt >= tries[0].failedAt + LeastSpacing(|tries|)
    decreases |tries|
  {
    var before := tries[..|tries| - 1];
    LeastSpacingStep(|before|);
    if before == [] {
      assert FailAll(job, before, worker, error) == job;
    } else {
      FailuresPushBack(job, before, worker, error);
    }
  }

  /** The claim after `k` failures comes at least `LeastSpacing(k)` after the first of them. */
  lemma RetrySpacingBound(job: Job, tries: seq<Attempt>, worker: string, error: string, now: Instant)
    requires job.attempts == 0 && tries != [] && Uninterleaved(job, tries, worker, error)
    requires Eligible(FailAll(job, tries, worker, error), now, None)
    ensures now >= tries[0].failedAt
                   + if |tries| <= 7 then 30 * (Pow2(|tries|) - 1) else 3810 + 3600 * (|tries| - 7)
  {
    FailuresPushBack(job, tries, worker, error);
  }

  /**
   The bound needs the selection: a worker that selected the job before someone else claimed and failed it wins
   the claim at once, because the claim looks at the status only.
   */
  lemma LateClaimIgnoresTheBackoff(spec: JobSpec, worker: string)
    requires spec.maxAttempts == 5 && !spec.waiting && spec.runAt == 0
    ensures
      var selected: Table := map[7 := NewJob(spec)];
      var failed := ApplyAll(selected, [Claims(7, "other", 0), Presents(7, "other", 1, Fail(0, 1, "error"))]);
      && Queue(selected, 0, None) == [7]
      && failed[7].nextRunAt == 31
      && Claim(failed, 7, worker, 1) == failed[7 := ClaimRow(failed[7], worker, 1)] != failed
  {
    var selected: Table := map[7 := NewJob(spec)];
    assert EligibleIds(selected, 0, None) == {7};
    assert Ordered(selected, {7}) == [7] by {
      assert forall id | id in Ordered(selected, {7}) :: id in {7};
    }
    var moves := [Claims(7, "other", 0), Presents(7, "other", 1, Fail(0, 1, "error"))];
    var claimed := Apply(selected, moves[0]);
    assert claimed[7] == ClaimRow(NewJob(spec), "other", 0);
    var failed := Apply(claimed, moves[1]);
    assert failed[7] == Written(claimed[7], Fail(0, 1, "error"));
    assert moves[1..] == [moves[1]] && moves[1..][1..] == [];
    assert ApplyAll(failed, []) == failed;
    assert ApplyAll(claimed, [moves[1]]) == failed;
    assert BackoffSeconds(1) == 30;
  }

  // ---------------------------------------------------------------- exactly when the spacing holds

  /** Each claim comes no earlier than the backoff of the failure before it ends. */
  predicate Spaced(job: Job, tries: seq<Attempt>) {
    && (tries != [] ==> job.nextRunAt <= tries[0].claimedAt)
    && forall i | 0 < i < |tries| :: tries[i - 1].failedAt + BackoffSeconds(i) <= tries[i].claimedAt
  }

  lemma {:induction false} AfterFailures(job: Job, tries: seq<Attempt>, worker: string, error: string)
    requires job.attempts == 0 && job.status.Pending?
    ensures
      var after := FailAll(job, tries, worker, error);
      && after.attempts == |tries| && after.maxAttempts == job.maxAttempts
      && (|tries| < job.maxAttempts ==> after.status.Pending?)
      && after.nextRunAt == if tries == [] then job.nextRunAt else tries[|tries| - 1].failedAt + BackoffSeconds(|tries|)
    decreases |tries|
  {
    if tries != [] {
      AfterFailures(job, tries[..|tries| - 1], worker, error);
    }
  }

  /** A PENDING job can be claimed at any time. Its attempts are spaced by the backoff exactly if every claim found it due. */
  lemma {:induction false} SpacedIffEachClaimWasDue(job: Job, tries: seq<Attempt>, worker: string, error: string)
    requires job.attempts == 0 && job.status.Pending? && |tries| <= job.maxAttempts
    requires forall t | t in tries :: t.claimedAt <= t.failedAt
    ensures Spaced(job, tries) <==> Uninterleaved(job, tries, worker, error)
    decreases |tries|
  {
    if tries != [] {
      var n := |tries| - 1;
      var before := tries[..n];
      SpacedIffEachClaimWasDue(job, before, worker, error);
      AfterFailures(job, before, worker, error);
      SpacedOneMore(job, tries);
      assert tries[n] in tries;
    }
  }

  lemma SpacedOneMore(job: Job, tries: seq<Attempt>)
    requires tries != []
    ensures
      var n := |tries| - 1;
      Spaced(job, tries) <==>
        && Spaced(job, tries[..n])
        && (if n == 0 then job.nextRunAt else tries[n - 1].failedAt + BackoffSeconds(n)) <= tries[n].claimedAt
  {
    var n := |tries| - 1;
    var before := tries[..n];
    assert forall i | 0 <= i < n :: before[i] == tries[i];
    if Spaced(job, tries) {
      assert forall i | 0 < i < |before| :: before[i - 1].failedAt + BackoffSeconds(i) <= before[i].claimedAt;
    }
  }

  lemma OneMoveOnPending(table: Table, move: Move, id: JobId)
    requires id in table && table[id].status.Pending?
    ensures id in Apply(table, move)
    ensures Apply(table, move)[id] == table[id] || Apply(table, move)[id].generation > table[id].generation
  {
  }

  /** Nothing but a claim touches a PENDING job, and a claim shows in the generation. */
  lemma {:induction false} UnclaimedIsUntouched(table: Table, moves: seq<Move>, id: JobId)
    requires id in table && table[id].status.Pending?
    ensures id in ApplyAll(table, moves)
    ensures ApplyAll(table, moves)[id].generation == table[id].generation ==> ApplyAll(table, moves)[id] == table[id]
    decreases |moves|
  {
    if moves != [] {
      var next := Apply(table, moves[0]);
      OneMoveOnPending(table, moves[0], id);
      if next[id] == table[id] {
        UnclaimedIsUntouched(next, moves[1..], id);
      } else {
        ApplyAllEvolves(next, moves[1..]);
      }
    }
  }

  /**
   A worker that selected the job and claims it late claims it due, whatever others did meanwhile, unless someone
   else has claimed it in between, which the generation shows.
   */
  lemma LateClaimIsDueUnlessClaimed(table: Table, moves: seq<Move>, id: JobId, now: Instant, source: Option<string>)
    requires id in table && Eligible(table[id], now, source)
    ensures
      var later := ApplyAll(table, moves);
      && id in later
      && (later[id].generation == table[id].generation ==> Claimable(later, id) && Eligible(later[id], now, source))
  {
    UnclaimedIsUntouched(table, moves, id);
  }

  /**
   When someone claimed the job and failed it at `failedAt`, and it has not been claimed since, the late claim wins
   the job, and wins it before the backoff is over exactly if it comes before `failedAt` plus the delay of the
   attempts so far.
   */
  lemma LateClaimIsEarlyIff(
      table: Table, before: seq<Move>, failing: Move, after: seq<Move>, id: JobId, worker: string, now: Instant)
    requires id in ApplyAll(table, before)
    requires failing.Presents? && failing.id == id && failing.update.Fail?
    requires Accepts(ApplyAll(table, before), id, failing.worker, failing.generation, failing.update)
    requires failing.update.copy + 1 < ApplyAll(table, before)[id].maxAttempts
    requires
      var later := ApplyAll(table, before + [failing] + after);
      id in later && later[id].generation == ApplyAll(table, before)[id].generation
    ensures
      var later := ApplyAll(table, before + [failing] + after);
      && Claim(later, id, worker, now) == later[id := ClaimRow(later[id], worker, now)]
      && later[id].attempts == failing.update.copy + 1
      && (now < later[id].nextRunAt <==> now < failing.update.now + BackoffSeconds(later[id].attempts))
  {
    var moves := before + [failing] + after;
    var held := ApplyAll(table, before);
    var failed := Apply(held, failing);
    assert failed[id] == Written(held[id], failing.update);
    ApplyAllSplits(table, moves, |before|);
    assert moves[..|before|] == before && moves[|before|..] == [failing] + after;
    assert ([failing] + after)[1..] == after;
    assert ApplyAll(table, moves) == ApplyAll(failed, after);
    UnclaimedIsUntouched(failed, after, id);
  }
}

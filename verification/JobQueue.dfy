/** The queue's use cases over its table, updated in place. */
module JobQueue {
  import opened Wrappers
  import opened Domain
  import opened JobTable

  // ---------------------------------------------------------------- candidates in claim order

  /** `ORDER BY next_run_at, id`. */
  predicate Before(table: Table, i: JobId, j: JobId)
    requires i in table && j in table
  {
    table[i].nextRunAt < table[j].nextRunAt || (table[i].nextRunAt == table[j].nextRunAt && i <= j)
  }

  predicate IsFirst(table: Table, ids: set<JobId>, m: JobId)
    requires ids <= table.Keys
  {
    m in ids && forall j | j in ids :: Before(table, m, j)
  }

  lemma {:induction false} FirstExists(table: Table, ids: set<JobId>)
    requires ids <= table.Keys && ids != {}
    ensures exists m :: IsFirst(table, ids, m)
    decreases |ids|
  {
    var i :| i in ids;
    var rest := ids - {i};
    if rest == {} {
      assert ids == {i};
      assert IsFirst(table, ids, i);
    } else {
      FirstExists(table, rest);
      var m :| IsFirst(table, rest, m);
      assert forall j | j in ids :: j in rest || j == i;
      assert IsFirst(table, ids, if Before(table, i, m) then i else m);
    }
  }

  function Ordered(table: Table, ids: set<JobId>): (queue: seq<JobId>)
    requires ids <= table.Keys
    ensures |queue| == |ids|
    ensures forall id :: id in queue <==> id in ids
    decreases |ids|
  {
    if ids == {} then []
    else
      FirstExists(table, ids);
      var m :| IsFirst(table, ids, m);
      [m] + Ordered(table, ids - {m})
  }

  /** The claim order is the strict order of `(next_run_at, id)`. */
  lemma {:induction false} OrderedIsSorted(table: Table, ids: set<JobId>, i: nat, j: nat)
    requires ids <= table.Keys && i < j < |ids|
    ensures
      var queue := Ordered(table, ids);
      queue[i] in table && queue[j] in table && Before(table, queue[i], queue[j]) && queue[i] != queue[j]
    decreases |ids|
  {
    var queue := Ordered(table, ids);
    var m := queue[0];
    var rest := Ordered(table, ids - {m});
    assert queue == [m] + rest;
    assert queue[j] == rest[j - 1] && rest[j - 1] in rest;
    if i > 0 {
      OrderedIsSorted(table, ids - {m}, i - 1, j - 1);
    }
  }

  predicate Eligible(job: Job, now: Instant, source: Option<string>) {
    job.status.Pending? && job.nextRunAt <= now && (source.Some? ==> job.source == source.value)
  }

  function EligibleIds(table: Table, now: Instant, source: Option<string>): set<JobId> {
    set id | id in table && Eligible(table[id], now, source)
  }

  /** The table as `claim_next` sees it, after recovery and promotion. */
  function Ready(table: Table, now: Instant, lease: int): Table {
    PromoteDue(RecoverExpired(table, now, lease), now)
  }

  function Queue(table: Table, now: Instant, source: Option<string>): seq<JobId> {
    Ordered(table, EligibleIds(table, now, source))
  }

  function Take<T>(items: seq<T>, n: nat): seq<T> {
    if n <= |items| then items[..n] else items
  }

  /** Exactly the listed rows claimed, every other row as it was. */
  function ClaimEach(table: Table, ids: seq<JobId>, worker: string, now: Instant): Table {
    map id | id in table :: if id in ids then ClaimRow(table[id], worker, now) else table[id]
  }

  predicate Distinct(ids: seq<JobId>) {
    forall i, k | 0 <= i < k < |ids| :: ids[i] != ids[k]
  }

  lemma QueueIsClaimable(ready: Table, now: Instant, source: Option<string>)
    ensures Distinct(Queue(ready, now, source))
    ensures forall id | id in Queue(ready, now, source) :: Claimable(ready, id)
  {
    var ids := EligibleIds(ready, now, source);
    forall i, k | 0 <= i < k < |ids|
      ensures Ordered(ready, ids)[i] != Ordered(ready, ids)[k]
    {
      OrderedIsSorted(ready, ids, i, k);
    }
  }

  lemma ClaimOneMore(table: Table, ids: seq<JobId>, i: nat, worker: string, now: Instant)
    requires i < |ids| && Distinct(ids) && Claimable(table, ids[i])
    ensures Claimable(ClaimEach(table, ids[..i], worker, now), ids[i])
    ensures Claim(ClaimEach(table, ids[..i], worker, now), ids[i], worker, now) == ClaimEach(table, ids[..i + 1], worker, now)
  {
    assert ids[..i + 1] == ids[..i] + [ids[i]];
  }

  lemma BatchEvolves(table: Table, now: Instant, lease: int, ids: seq<JobId>, worker: string)
    requires forall id | id in ids :: Claimable(Ready(table, now, lease), id)
    ensures Evolves(table, ClaimEach(Ready(table, now, lease), ids, worker, now))
  {
    var recovered := RecoverExpired(table, now, lease);
    var ready := Ready(table, now, lease);
    ApplyEvolves(table, Recovers(now, lease));
    ApplyEvolves(recovered, Promotes(now));
    EvolvesTransitive(table, recovered, ready);
    EvolvesTransitive(table, ready, ClaimEach(ready, ids, worker, now));
  }

  lemma FreshIdExists(table: Table)
    ensures exists id: JobId :: id !in table
  {
    var bound := Bound(table.Keys);
    assert bound !in table;
  }

  function Bound(ids: set<JobId>): (n: nat)
    ensures forall id | id in ids :: id < n
  {
    if ids == {} then 0
    else
      MaximumExists(ids);
      var m :| m in ids && forall id | id in ids :: id <= m;
      m + 1
  }

  lemma {:induction false} MaximumExists(ids: set<JobId>)
    requires ids != {}
    ensures exists m :: m in ids && forall id | id in ids :: id <= m
    decreases |ids|
  {
    var i :| i in ids;
    var rest := ids - {i};
    if rest == {} {
      assert forall id | id in ids :: id in rest || id == i;
    } else {
      MaximumExists(rest);
      var m :| m in rest && forall id | id in rest :: id <= m;
      assert forall id | id in ids :: id in rest || id == i;
      assert (if i <= m then m else i) in ids;
    }
  }

  class JobQueue {
    var jobs: Table

    constructor ()
      ensures jobs == map[]
    {
      jobs := map[];
    }

    /** Inserts a job under a fresh id, or finds the one that already has the key. */
    method EnqueueIdempotent(spec: JobSpec) returns (id: JobId, created: bool)
      modifies this
      ensures created <==> !HasKey(old(jobs), spec.dedupeKey)
      ensures created ==> id !in old(jobs) && jobs == old(jobs)[id := NewJob(spec)]
      ensures !created ==> id in jobs && jobs[id].dedupeKey == spec.dedupeKey && jobs == old(jobs)
      ensures jobs == Insert(old(jobs), id, spec)
    {
      if HasKey(jobs, spec.dedupeKey) {
        id :| id in jobs && jobs[id].dedupeKey == spec.dedupeKey;
        created := false;
      } else {
        FreshIdExists(jobs);
        id :| id !in jobs;
        jobs := Insert(jobs, id, spec);
        created := true;
      }
    }

    method RecoverExpired(now: Instant, lease: int) returns (recovered: nat)
      modifies this
      ensures jobs.Keys == old(jobs).Keys
      ensures forall id | id in jobs ::
        jobs[id] == if LeaseExpired(old(jobs)[id], now - lease) then Expire(old(jobs)[id], now) else old(jobs)[id]
      ensures recovered == |set id | id in old(jobs) && LeaseExpired(old(jobs)[id], now - lease)|
    {
      recovered := |set id | id in jobs && LeaseExpired(jobs[id], now - lease)|;
      jobs := JobTable.RecoverExpired(jobs, now, lease);
    }

    method PromoteDueWaiting(now: Instant) returns (promoted: nat)
      modifies this
      ensures jobs.Keys == old(jobs).Keys
      ensures forall id | id in jobs ::
        jobs[id] == if DueWaiting(old(jobs)[id], now) then old(jobs)[id].(status := Pending) else old(jobs)[id]
      ensures promoted == |set id | id in old(jobs) && DueWaiting(old(jobs)[id], now)|
    {
      promoted := |set id | id in jobs && DueWaiting(jobs[id], now)|;
      jobs := PromoteDue(jobs, now);
    }

    /** The guard is the status alone: a due time that moved since the selection is not looked at again. */
    method TryClaimOne(id: JobId, worker: string, now: Instant) returns (won: bool)
      modifies this
      ensures won <==> Claimable(old(jobs), id)
      ensures won ==> jobs == old(jobs)[id := ClaimRow(old(jobs)[id], worker, now)]
      ensures !won ==> jobs == old(jobs)
    {
      won := Claimable(jobs, id);
      jobs := Claim(jobs, id, worker, now);
    }

    /**
     With no one else at work, claims exactly the first `limit` eligible jobs in claim order; the cut at five
     times the limit never costs a claim, and every other row is as recovery and promotion left it.
     */
    method ClaimNext(worker: string, now: Instant, source: Option<string>, limit: nat, lease: int)
      returns (claimed: seq<JobId>)
      modifies this
      ensures claimed == Take(Queue(Ready(old(jobs), now, lease), now, source), limit)
      ensures jobs == ClaimEach(Ready(old(jobs), now, lease), claimed, worker, now)
    {
      var recovered := this.RecoverExpired(now, lease);
      var promoted := PromoteDueWaiting(now);
      assert jobs == Ready(old(jobs), now, lease);
      var queue := Queue(jobs, now, source);
      QueueIsClaimable(jobs, now, source);
      claimed := ClaimUpTo(Take(queue, limit * 5), worker, now, limit);
    }

    /** The claim loop: goes through the candidates until `limit` of them are won. */
    method ClaimUpTo(candidates: seq<JobId>, worker: string, now: Instant, limit: nat) returns (claimed: seq<JobId>)
      requires Distinct(candidates) && forall id | id in candidates :: Claimable(jobs, id)
      modifies this
      ensures claimed == Take(candidates, limit)
      ensures jobs == ClaimEach(old(jobs), claimed, worker, now)
    {
      claimed := [];
      for i := 0 to |candidates|
        invariant i <= limit && claimed == candidates[..i]
        invariant jobs == ClaimEach(old(jobs), claimed, worker, now)
      {
        if |claimed| >= limit {
          break;
        }
        ClaimOneMore(old(jobs), candidates, i, worker, now);
        var won := TryClaimOne(candidates[i], worker, now);
        if won {
          claimed := claimed + [candidates[i]];
        }
      }
    }

    /** Returns false, with nothing changed, where the queue raises its stale-claim error. */
    method OwnedTransition(id: JobId, worker: string, generation: nat, update: Update) returns (owned: bool)
      modifies this
      ensures owned <==> Accepts(old(jobs), id, worker, generation, update)
      ensures jobs == if owned then old(jobs)[id := Written(old(jobs)[id], update)] else old(jobs)
    {
      var written := Transition(jobs, id, worker, generation, update);
      owned := written.Some?;
      if owned {
        jobs := written.value;
      }
    }

    /** Statements of other workers. */
    method Meanwhile(moves: seq<Move>)
      modifies this
      ensures jobs == ApplyAll(old(jobs), moves)
      ensures Evolves(old(jobs), jobs)
    {
      ApplyAllEvolves(jobs, moves);
      jobs := ApplyAll(jobs, moves);
    }

    /** The storage fence. */
    method AssertOwned(id: JobId, worker: string, generation: nat) returns (owned: bool)
      ensures owned <==> Holds(jobs, id, worker, generation)
    {
      owned := Holds(jobs, id, worker, generation);
    }
  }
}

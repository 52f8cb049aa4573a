/** From a dispatched date to its row: planning, dispatch, queue, provider and store together. */
module EndToEnd {
  import opened Wrappers
  import opened Domain
  import opened JobTable
  import opened DedupeKey
  import opened Dispatch
  import opened IngestionSystem
  import ObservationTable
  import Planning
  import E = ExactlyOnce
  import F = FakeProvider
  import Q = QueueProtocol

  /** Whatever the run enqueues, some dispatch asks for. */
  ghost predicate DispatchesOnly(iso: IsoFormat, events: seq<Event>) {
    forall e | e in events && e.Queue? && e.e.Enqueue? :: FromDispatch(iso, Inserts(e.e.id, e.e.spec))
  }

  /** The statement that a step of the engine runs against the job table, if any. */
  function MoveOf(s: State, e: Event): Option<Move> {
    match e
    case Queue(move) => Q.MoveOf(s.q, move)
    case Begin(h) => Q.MoveOf(s.q, Q.Present(h, Start))
    case Conclude(h, now) =>
      if Concluding(s, h) then Q.MoveOf(s.q, Q.Present(h, Verdict(s.runs[h].recorded, s.runs[h].rejected, now))) else None
    case _ => None
  }

  lemma StepIsAMove(s: State, e: Event)
    ensures Step(s, e).q.jobs == s.q.jobs
            || (MoveOf(s, e).Some? && Step(s, e).q.jobs == Apply(s.q.jobs, MoveOf(s, e).value))
  {
  }

  lemma {:induction false} RunKeepsKeyed(iso: IsoFormat, events: seq<Event>)
    requires DispatchesOnly(iso, events)
    ensures KeyedByCursor(iso, E.Run(Empty, events).q.jobs)
    decreases |events|
  {
    if events != [] {
      var before, e := events[..|events| - 1], events[|events| - 1];
      var s := E.Run(Empty, before);
      RunKeepsKeyed(iso, before);
      StepIsAMove(s, e);
      if Step(s, e).q.jobs != s.q.jobs {
        MoveKeepsKeyed(iso, s.q.jobs, MoveOf(s, e).value);
      }
    }
  }

  /** The target's row for a date, as the provider prices it. */
  predicate PricedOnce(s: State, target: Target, price: F.Price, d: Date) {
    var h := ObservationTable.History(s.rows, Key(target.source, target.scope, target.externalId, d, EodClose));
    |h| == 1 && h[0].revision == 1 && h[0].value.close == price(target.externalId, d)
  }

  predicate CoversDate(job: Job, target: Target, d: Date) {
    && job.source == target.source && job.cursor.Some?
    && job.cursor.value == CursorFor(target, job.cursor.value.start, job.cursor.value.end)
    && job.cursor.value.start <= d <= job.cursor.value.end
  }

  /**
   With the deterministic provider and calendar, through any interleaving of dispatches, claims, expiries, crashes and
   reruns: once all that a dispatch asks for is enqueued, each of its dates is in the range of some job, and as soon as
   any such job is DONE, the date, if a weekday, has exactly one row, with revision 1 and the price of that day.
   */
  lemma {:induction false} DispatchedDateIsPricedOnce(
      iso: IsoFormat, price: F.Price, events: seq<Event>, target: Target, asset: F.AssetClass, limits: Planning.Limits,
      last: Option<Date>, today: Date, now: Instant, retrySeconds: int, d: Date)
    requires IsIso(iso) && ':' !in target.source && ':' !in target.scope && limits.maxSessionsPerChunk >= 1
    requires F.IsPrice(price) && E.LegalRun(events) && F.AnsweredByFake(price, events) && DispatchesOnly(iso, events)
    requires
      var cal := x => F.Expectation(asset, x);
      && (forall r | r in RequestsOf(iso, target, Planning.PlanFor(cal, limits, last, today), now, retrySeconds) ::
            HasKey(E.Run(Empty, events).q.jobs, r.dedupeKey))
      && Planning.WindowStart(last, today, limits) <= d <= today && !cal(d).NoSession?
    ensures
      var s := E.Run(Empty, events);
      && Covered(s.q.jobs, target, d)
      && forall id | id in s.q.jobs && CoversDate(s.q.jobs[id], target, d) && s.q.jobs[id].status.Done? && F.Weekday(d) < 5 ::
           PricedOnce(s, target, price, d)
  {
    var s := E.Run(Empty, events);
    var cal := x => F.Expectation(asset, x);
    RunKeepsKeyed(iso, events);
    DateIsCovered(iso, target, cal, limits, last, today, now, retrySeconds, s.q.jobs, d);
    forall id | id in s.q.jobs && CoversDate(s.q.jobs[id], target, d) && s.q.jobs[id].status.Done? && F.Weekday(d) < 5
      ensures PricedOnce(s, target, price, d)
    {
      F.DoneJobHasEachWeekdayOnce(price, events, id, d);
    }
  }
}

/** The deterministic provider and calendar: a concrete case of the answers the engine's results ask for. */
module FakeProvider {
  import opened Wrappers
  import opened Domain
  import opened Planning
  import opened Validation
  import opened IngestionSystem
  import ObservationTable
  import E = ExactlyOnce
  import S = ObservationStore
  import Q = QueueProtocol

  datatype AssetClass = Equity | Etf | Fund | Crypto

  /** Monday is 0; ordinal day 1 is a Monday. */
  function Weekday(d: Date): int {
    (d + 6) % 7
  }

  function Expectation(asset: AssetClass, d: Date): SessionExpectation {
    if asset.Crypto? then ExpectedPublished
    else if Weekday(d) >= 5 then NoSession
    else if asset.Fund? && Weekday(d) == 4 then WaitingPublication
    else ExpectedPublished
  }

  /** The price derived from the listing and the date, at least ten. */
  type Price = (string, Date) -> real

  ghost predicate IsPrice(price: Price) {
    forall id: string, d: Date :: price(id, d) >= 10.0
  }

  function Quote(price: Price, id: string, d: Date): RawObservation {
    var p := price(id, d);
    RawObservation(id, d, EodClose, "EUR", p, Some(p), Some(p), Some(p), Some(p))
  }

  function Quotes(price: Price, id: string, start: Date, end: Date): seq<RawObservation>
    decreases end - start
  {
    if start > end then []
    else (if Weekday(start) < 5 then [Quote(price, id, start)] else []) + Quotes(price, id, start + 1, end)
  }

  lemma {:induction false} QuotesSplit(price: Price, id: string, start: Date, mid: Date, end: Date)
    requires start <= mid + 1 && mid <= end
    ensures Quotes(price, id, start, end) == Quotes(price, id, start, mid) + Quotes(price, id, mid + 1, end)
    decreases mid - start
  {
    if start <= mid {
      QuotesSplit(price, id, start + 1, mid, end);
    }
  }

  /** Exactly the weekdays of the range, each answered by its own price. */
  lemma {:induction false} QuotesAreTheWeekdays(price: Price, id: string, start: Date, end: Date, raw: RawObservation)
    ensures raw in Quotes(price, id, start, end) <==>
      start <= raw.date <= end && Weekday(raw.date) < 5 && raw == Quote(price, id, raw.date)
    decreases end - start
  {
    if start <= end {
      QuotesAreTheWeekdays(price, id, start + 1, end, raw);
    }
  }

  method FetchRange(price: Price, id: string, start: Date, end: Date) returns (observations: seq<RawObservation>)
    ensures observations == Quotes(price, id, start, end)
  {
    observations := [];
    var current := start;
    while current <= end
      invariant current >= start && (current <= end + 1 || current == start)
      invariant observations == Quotes(price, id, start, current - 1)
    {
      QuotesSplit(price, id, start, current - 1, current);
      assert Quotes(price, id, current + 1, current) == [];
      if Weekday(current) < 5 {
        observations := observations + [Quote(price, id, current)];
      }
      current := current + 1;
    }
    if start > end {
      assert Quotes(price, id, start, end) == [];
    }
  }

  method SessionsInRange(asset: AssetClass, start: Date, end: Date) returns (checks: seq<Check>)
    ensures checks == Checks(d => Expectation(asset, d), start, end)
  {
    var cal := d => Expectation(asset, d);
    checks := [];
    var current := start;
    ChecksAt(cal, start, end);
    while current <= end
      invariant current >= start && (current <= end + 1 || current == start)
      invariant |checks| == current - start
      invariant forall i | 0 <= i < |checks| :: checks[i] == Check(start + i, Expectation(asset, start + i))
    {
      checks := checks + [Check(current, Expectation(asset, current))];
      current := current + 1;
    }
  }

  /** A session is answered, except that a crypto listing is expected on weekends as well and is not. */
  lemma ExpectedDatesAreAnsweredOnWeekdays(price: Price, asset: AssetClass, id: string, start: Date, end: Date, d: Date)
    requires start <= d <= end && Expectation(asset, d).ExpectedPublished?
    ensures Quote(price, id, d) in Quotes(price, id, start, end) <==> Weekday(d) < 5
    ensures !asset.Crypto? ==> Quote(price, id, d) in Quotes(price, id, start, end)
  {
    QuotesAreTheWeekdays(price, id, start, end, Quote(price, id, d));
  }

  // ---------------------------------------------------------------- the provider is faithful

  function FixedAnswer(price: Price): E.Answer {
    (key: Key) =>
      if key.kind.EodClose? && Weekday(key.date) < 5 then Some(ValueOf(Quote(price, key.externalId, key.date))) else None
  }

  /** Every observation of a fetched range is admissible, and its value depends on its natural key alone. */
  lemma FetchIsFaithful(price: Price, job: Job)
    requires IsPrice(price) && job.cursor.Some?
    ensures
      var cursor := job.cursor.value;
      var response := Quotes(price, cursor.externalId, cursor.start, cursor.end);
      && (forall raw | raw in response :: Valid(raw, cursor))
      && E.Faithful(job, response, FixedAnswer(price))
  {
    var cursor := job.cursor.value;
    var response := Quotes(price, cursor.externalId, cursor.start, cursor.end);
    forall raw | raw in response
      ensures Valid(raw, cursor)
      ensures FixedAnswer(price)(KeyOf(job.source, cursor, raw)) == Some(ValueOf(raw))
    {
      QuotesAreTheWeekdays(price, cursor.externalId, cursor.start, cursor.end, raw);
    }
  }

  function Replies(price: Price): E.Promise {
    (cursor: FetchCursor, response: seq<RawObservation>) =>
      response == Quotes(price, cursor.externalId, cursor.start, cursor.end)
  }

  /** Every fetch in the run is answered by this provider. */
  predicate AnsweredByFake(price: Price, events: seq<Event>) {
    E.KeepingRun(Empty, events, Replies(price))
  }

  lemma {:induction false} FakeRunsAreFaithful(price: Price, events: seq<Event>)
    requires IsPrice(price) && E.LegalRun(events) && AnsweredByFake(price, events)
    ensures E.FaithfulRun(Empty, events, FixedAnswer(price))
    decreases |events|
  {
    if events != [] {
      var before := events[..|events| - 1];
      FakeRunsAreFaithful(price, before);
      var t := E.Run(Empty, before);
      var e := events[|events| - 1];
      if e.Fetch? && Linked(t, e.run) && JobOf(t, e.run).cursor.Some? {
        FetchIsFaithful(price, JobOf(t, e.run));
      }
    }
  }

  /**
   The runner does not compare the type of an observation with the type its job asks for. This provider answers
   every fetch with EOD closes, so however the engine runs, the recovery cursor of a NAV listing never moves.
   */
  lemma {:induction false} NavRecoveryNeverAdvances(price: Price, events: seq<Event>, source: string, scope: string, id: string)
    requires IsPrice(price) && E.LegalRun(events) && AnsweredByFake(price, events)
    ensures S.LastCompletedSession(E.Run(Empty, events).rows, source, scope, id, Nav).None?
  {
    FakeRunsAreFaithful(price, events);
    E.RunStaysPinned(events, FixedAnswer(price));
    forall row | row in E.Run(Empty, events).rows
      ensures row.key.kind.EodClose?
    {
      assert E.RowPinned(row, FixedAnswer(price));
    }
  }

  /** Weekends are never stored, and every stored price is the deterministic one, once. */
  lemma {:induction false} FakeStoresEachWeekdayOnce(price: Price, events: seq<Event>, key: Key)
    requires IsPrice(price) && E.LegalRun(events) && AnsweredByFake(price, events)
    ensures
      var h := ObservationTable.History(E.Run(Empty, events).rows, key);
      && |h| <= 1
      && (|h| == 1 ==> h[0].value.close == price(key.externalId, key.date) && Weekday(key.date) < 5 && key.kind.EodClose?)
  {
    FakeRunsAreFaithful(price, events);
    E.AtMostOneRowPerKey(events, FixedAnswer(price), key);
  }

  /**
   From end to end: however the workers interleave, crash and come back, once a job is DONE every weekday of its
   range has exactly one row, with revision 1 and the price of that day, and no other date of it has any.
   */
  lemma {:induction false} DoneJobHasEachWeekdayOnce(price: Price, events: seq<Event>, id: JobId, d: Date)
    requires IsPrice(price) && E.LegalRun(events) && AnsweredByFake(price, events)
    requires id in E.Run(Empty, events).q.jobs && E.Run(Empty, events).q.jobs[id].status.Done?
    requires
      var cursor := E.Run(Empty, events).q.jobs[id].cursor;
      cursor.Some? ==> cursor.value.start <= d <= cursor.value.end
    ensures
      var s := E.Run(Empty, events);
      var job := s.q.jobs[id];
      && job.cursor.Some?
      && (var h := ObservationTable.History(s.rows, Key(job.source, job.cursor.value.scope, job.cursor.value.externalId, d, EodClose));
          if Weekday(d) < 5
          then |h| == 1 && h[0].revision == 1 && h[0].value.close == price(job.cursor.value.externalId, d)
          else h == [])
  {
    var s := E.Run(Empty, events);
    var job := s.q.jobs[id];
    E.DoneMeansStored(events, [], id);
    E.DoneResponsesKeepThePromise(events, Replies(price));
    FakeRunsAreFaithful(price, events);
    assert E.Keeps(job, s.done[id], Replies(price));
    var cursor := job.cursor.value;
    var key := Key(job.source, cursor.scope, cursor.externalId, d, EodClose);
    E.AtMostOneRowPerKey(events, FixedAnswer(price), key);
    if Weekday(d) < 5 {
      var raw := Quote(price, cursor.externalId, d);
      QuotesAreTheWeekdays(price, cursor.externalId, cursor.start, cursor.end, raw);
      FetchIsFaithful(price, job);
      assert KeyOf(job.source, cursor, raw) == key;
      E.DoneMeansExactlyOneRow(events, FixedAnswer(price), id, raw);
    }
  }
}

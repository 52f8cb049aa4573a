/** Bounded recovery planning over a calendar. */
module Planning {
  import opened Wrappers
  import opened Domain

  /** A calendar that classifies each date on its own. */
  type Calendar = Date -> SessionExpectation

  datatype Limits = Limits(maxLookbackDays: nat, maxSessionsPerChunk: nat)

  datatype Check = Check(date: Date, expectation: SessionExpectation)

  datatype Chunk = Chunk(start: Date, end: Date, dates: seq<Date>)

  datatype RecoveryPlan = RecoveryPlan(chunks: seq<Chunk>, waiting: seq<Date>, skipped: seq<Date>, nextCursor: Option<Date>)

  /** The calendar's answer for `[start, end]`, in date order. */
  function Checks(cal: Calendar, start: Date, end: Date): seq<Check>
    decreases end - start
  {
    if start > end then [] else [Check(start, cal(start))] + Checks(cal, start + 1, end)
  }

  /** The dates of `[start, end]` with one expectation, in order. */
  function Dates(cal: Calendar, start: Date, end: Date, expectation: SessionExpectation): seq<Date>
    decreases end - start
  {
    if start > end then []
    else (if cal(start) == expectation then [start] else []) + Dates(cal, start + 1, end, expectation)
  }

  function ChunkOf(group: seq<Date>): Chunk
    requires group != []
  {
    Chunk(group[0], group[|group| - 1], group)
  }

  function Chunks(expected: seq<Date>, size: nat): seq<Chunk>
    requires size >= 1
    decreases |expected|
  {
    if expected == [] then []
    else if |expected| <= size then [ChunkOf(expected)]
    else [ChunkOf(expected[..size])] + Chunks(expected[size..], size)
  }

  /** Last date of the unbroken run of days without session that begins at `start`. */
  function QuietPrefix(cal: Calendar, start: Date, end: Date, last: Option<Date>): Option<Date>
    decreases end - start
  {
    if start > end || !cal(start).NoSession? then last else QuietPrefix(cal, start + 1, end, Some(start))
  }

  function WindowStart(last: Option<Date>, today: Date, limits: Limits): Date {
    var earliest := today - limits.maxLookbackDays;
    if last.None? || last.value + 1 < earliest then earliest else last.value + 1
  }

  function PlanFor(cal: Calendar, limits: Limits, last: Option<Date>, today: Date): RecoveryPlan
    requires limits.maxSessionsPerChunk >= 1
  {
    var start := WindowStart(last, today, limits);
    RecoveryPlan(
      Chunks(Dates(cal, start, today, ExpectedPublished), limits.maxSessionsPerChunk),
      Dates(cal, start, today, WaitingPublication),
      Dates(cal, start, today, NoSession),
      QuietPrefix(cal, start, today, last))
  }

  // ---------------------------------------------------------------- the port's list, sorted by date

  predicate SortedByDate(checks: seq<Check>) {
    |checks| <= 1 || (checks[0].date <= checks[1].date && SortedByDate(checks[1..]))
  }

  /** `sorted(..., key=session_date)`: stable insertion by date. */
  function Place(check: Check, sorted: seq<Check>): seq<Check> {
    if sorted == [] || check.date <= sorted[0].date then [check] + sorted
    else [sorted[0]] + Place(check, sorted[1..])
  }

  function SortByDate(checks: seq<Check>): seq<Check> {
    if checks == [] then [] else Place(checks[0], SortByDate(checks[1..]))
  }

  lemma {:induction false} PlacePermutes(check: Check, sorted: seq<Check>)
    ensures multiset(Place(check, sorted)) == multiset{check} + multiset(sorted)
  {
    if sorted != [] && check.date > sorted[0].date {
      PlacePermutes(check, sorted[1..]);
      assert sorted == [sorted[0]] + sorted[1..];
    }
  }

  lemma {:induction false} PlaceSorts(check: Check, sorted: seq<Check>)
    requires SortedByDate(sorted)
    ensures SortedByDate(Place(check, sorted))
    ensures Place(check, sorted) != []
    ensures Place(check, sorted)[0].date == if sorted == [] || check.date <= sorted[0].date then check.date else sorted[0].date
  {
    if sorted != [] && check.date > sorted[0].date {
      PlaceSorts(check, sorted[1..]);
      assert Place(check, sorted)[1..] == Place(check, sorted[1..]);
    } else {
      assert ([check] + sorted)[1..] == sorted;
    }
  }

  lemma {:induction false} SortSorts(checks: seq<Check>)
    ensures SortedByDate(SortByDate(checks)) && multiset(SortByDate(checks)) == multiset(checks)
  {
    if checks != [] {
      SortSorts(checks[1..]);
      PlaceSorts(checks[0], SortByDate(checks[1..]));
      PlacePermutes(checks[0], SortByDate(checks[1..]));
      assert checks == [checks[0]] + checks[1..];
    }
  }

  lemma {:induction false} HeadIsLeast(sorted: seq<Check>, c: Check)
    requires SortedByDate(sorted) && c in sorted
    ensures sorted[0].date <= c.date
  {
    if c != sorted[0] {
      assert c in sorted[1..];
      HeadIsLeast(sorted[1..], c);
    }
  }

  lemma {:induction false} ChecksAt(cal: Calendar, start: Date, end: Date)
    ensures |Checks(cal, start, end)| == if start > end then 0 else end - start + 1
    ensures forall i | 0 <= i < |Checks(cal, start, end)| ::
      Checks(cal, start, end)[i] == Check(start + i, cal(start + i))
    decreases end - start
  {
    if start <= end {
      ChecksAt(cal, start + 1, end);
    }
  }

  /** The calendar's answer is the only date-sorted arrangement of its own elements. */
  lemma {:induction false} SortedAnswerIsUnique(cal: Calendar, start: Date, end: Date, sorted: seq<Check>)
    requires SortedByDate(sorted) && multiset(sorted) == multiset(Checks(cal, start, end))
    ensures sorted == Checks(cal, start, end)
    decreases end - start
  {
    var checks := Checks(cal, start, end);
    if start > end {
      assert |multiset(sorted)| == 0;
    } else {
      assert Check(start, cal(start)) in multiset(checks);
      assert sorted[0] in multiset(sorted) && sorted[0] in checks;
      HeadIsLeast(sorted, Check(start, cal(start)));
      ChecksAt(cal, start, end);
      assert sorted[0] == checks[0];
      assert checks[1..] == Checks(cal, start + 1, end);
      TailMultiset(sorted);
      TailMultiset(checks);
      SortedAnswerIsUnique(cal, start + 1, end, sorted[1..]);
      assert sorted == [sorted[0]] + sorted[1..];
    }
  }

  lemma TailMultiset(checks: seq<Check>)
    requires checks != []
    ensures multiset(checks[1..]) == multiset(checks) - multiset{checks[0]}
  {
    assert checks == [checks[0]] + checks[1..];
  }

  /** However the port orders its answer, sorting gives the calendar in date order. */
  lemma SortingRestoresTheCalendar(cal: Calendar, start: Date, end: Date, answer: seq<Check>)
    requires multiset(answer) == multiset(Checks(cal, start, end))
    ensures SortByDate(answer) == Checks(cal, start, end)
  {
    SortSorts(answer);
    SortedAnswerIsUnique(cal, start, end, SortByDate(answer));
  }

  // ---------------------------------------------------------------- the planner

  lemma {:induction false} DatesSnoc(cal: Calendar, start: Date, end: Date, expectation: SessionExpectation)
    requires start <= end + 1
    ensures Dates(cal, start, end + 1, expectation)
            == Dates(cal, start, end, expectation) + if cal(end + 1) == expectation then [end + 1] else []
    decreases end - start
  {
    var last := if cal(end + 1) == expectation then [end + 1] else [];
    if start <= end {
      DatesSnoc(cal, start + 1, end, expectation);
      var first := if cal(start) == expectation then [start] else [];
      var middle := Dates(cal, start + 1, end, expectation);
      assert first + (middle + last) == (first + middle) + last;
    } else {
      assert Dates(cal, end + 2, end + 1, expectation) == [];
      assert last + [] == last == [] + last;
    }
  }

  /** Plans from whatever list the calendar port answers, in whatever order. */
  method Plan(answer: (Date, Date) -> seq<Check>, ghost cal: Calendar, limits: Limits, last: Option<Date>, today: Date)
    returns (plan: RecoveryPlan)
    requires limits.maxSessionsPerChunk >= 1
    requires forall a, b :: multiset(answer(a, b)) == multiset(Checks(cal, a, b))
    ensures plan == PlanFor(cal, limits, last, today)
  {
    var start := WindowStart(last, today, limits);
    if start > today {
      return RecoveryPlan([], [], [], last);
    }
    var checks := SortByDate(answer(start, today));
    SortingRestoresTheCalendar(cal, start, today, answer(start, today));
    var expected, waiting, skipped := Classify(checks, cal, start, today);
    var chunks := SplitIntoChunks(expected, limits.maxSessionsPerChunk);
    var nextCursor := SafeCursor(checks, cal, start, today, last);
    return RecoveryPlan(chunks, waiting, skipped, nextCursor);
  }

  method Classify(checks: seq<Check>, ghost cal: Calendar, ghost start: Date, ghost today: Date)
    returns (expected: seq<Date>, waiting: seq<Date>, skipped: seq<Date>)
    requires start <= today && checks == Checks(cal, start, today)
    ensures expected == Dates(cal, start, today, ExpectedPublished)
    ensures waiting == Dates(cal, start, today, WaitingPublication)
    ensures skipped == Dates(cal, start, today, NoSession)
  {
    ChecksAt(cal, start, today);
    expected, waiting, skipped := [], [], [];
    for i := 0 to |checks|
      invariant expected == Dates(cal, start, start + i - 1, ExpectedPublished)
      invariant waiting == Dates(cal, start, start + i - 1, WaitingPublication)
      invariant skipped == Dates(cal, start, start + i - 1, NoSession)
    {
      DatesSnoc(cal, start, start + i - 1, ExpectedPublished);
      DatesSnoc(cal, start, start + i - 1, WaitingPublication);
      DatesSnoc(cal, start, start + i - 1, NoSession);
      match checks[i].expectation {
        case ExpectedPublished => expected := expected + [checks[i].date];
        case WaitingPublication => waiting := waiting + [checks[i].date];
        case NoSession => skipped := skipped + [checks[i].date];
      }
    }
  }

  lemma ChunksUnfold(expected: seq<Date>, size: nat, offset: nat, stop: nat)
    requires size >= 1 && offset < |expected|
    requires stop == if offset + size <= |expected| then offset + size else |expected|
    ensures Chunks(expected[offset..], size) == [ChunkOf(expected[offset..stop])] + Chunks(expected[stop..], size)
  {
    var rest := expected[offset..];
    if |rest| <= size {
      assert expected[offset..stop] == rest && expected[stop..] == [];
    } else {
      assert rest[..size] == expected[offset..stop] && rest[size..] == expected[stop..];
    }
  }

  method SplitIntoChunks(expected: seq<Date>, size: nat) returns (chunks: seq<Chunk>)
    requires size >= 1
    ensures chunks == Chunks(expected, size)
  {
    chunks := [];
    var offset := 0;
    while offset < |expected|
      invariant 0 <= offset <= |expected|
      invariant chunks + Chunks(expected[offset..], size) == Chunks(expected, size)
      decreases |expected| - offset
    {
      var stop := if offset + size <= |expected| then offset + size else |expected|;
      ChunksUnfold(expected, size, offset, stop);
      chunks := chunks + [ChunkOf(expected[offset..stop])];
      offset := stop;
    }
  }

  /** Advances over the days without session that open the window, and stops at the first other date. */
  method SafeCursor(checks: seq<Check>, ghost cal: Calendar, ghost start: Date, ghost today: Date, last: Option<Date>)
    returns (nextCursor: Option<Date>)
    requires start <= today && checks == Checks(cal, start, today)
    ensures nextCursor == QuietPrefix(cal, start, today, last)
  {
    ChecksAt(cal, start, today);
    nextCursor := last;
    for i := 0 to |checks|
      invariant QuietPrefix(cal, start + i, today, nextCursor) == QuietPrefix(cal, start, today, last)
    {
      if !checks[i].expectation.NoSession? {
        break;
      }
      nextCursor := Some(checks[i].date);
    }
  }

  // ---------------------------------------------------------------- conservation

  predicate Ascending(dates: seq<Date>) {
    forall i, j | 0 <= i < j < |dates| :: dates[i] < dates[j]
  }

  lemma {:induction false} DatesMembers(cal: Calendar, start: Date, end: Date, expectation: SessionExpectation, d: Date)
    ensures d in Dates(cal, start, end, expectation) <==> start <= d <= end && cal(d) == expectation
    decreases end - start
  {
    if start <= end {
      DatesMembers(cal, start + 1, end, expectation, d);
    }
  }

  lemma AscendingCons(first: Date, rest: seq<Date>)
    requires Ascending(rest) && forall d | d in rest :: first < d
    ensures Ascending([first] + rest)
  {
    var dates := [first] + rest;
    forall i, j | 0 <= i < j < |dates|
      ensures dates[i] < dates[j]
    {
      assert dates[j] == rest[j - 1];
      if i > 0 {
        assert dates[i] == rest[i - 1];
      } else {
        assert rest[j - 1] in rest;
      }
    }
  }

  lemma {:induction false} DatesAscend(cal: Calendar, start: Date, end: Date, expectation: SessionExpectation)
    ensures Ascending(Dates(cal, start, end, expectation))
    decreases end - start
  {
    if start <= end {
      var rest := Dates(cal, start + 1, end, expectation);
      DatesAscend(cal, start + 1, end, expectation);
      forall d | d in rest
        ensures start < d
      {
        DatesMembers(cal, start + 1, end, expectation, d);
      }
      AscendingCons(start, rest);
      assert [] + rest == rest;
    }
  }

  /** Exactly the dates of the window with the expectation, ascending and without repetition. */
  lemma DatesAreTheWindow(cal: Calendar, start: Date, end: Date, expectation: SessionExpectation)
    ensures
      var dates := Dates(cal, start, end, expectation);
      && (forall d :: d in dates <==> start <= d <= end && cal(d) == expectation)
      && Ascending(dates)
  {
    forall d
      ensures d in Dates(cal, start, end, expectation) <==> start <= d <= end && cal(d) == expectation
    {
      DatesMembers(cal, start, end, expectation, d);
    }
    DatesAscend(cal, start, end, expectation);
  }

  /** Every date of the window is expected, waiting or skipped, and only one of them. */
  lemma PlanPartitionsTheWindow(cal: Calendar, limits: Limits, last: Option<Date>, today: Date, d: Date)
    requires limits.maxSessionsPerChunk >= 1
    ensures
      var plan := PlanFor(cal, limits, last, today);
      var expected := Dates(cal, WindowStart(last, today, limits), today, ExpectedPublished);
      && (d in expected || d in plan.waiting || d in plan.skipped <==> WindowStart(last, today, limits) <= d <= today)
      && !(d in expected && d in plan.waiting) && !(d in expected && d in plan.skipped) && !(d in plan.waiting && d in plan.skipped)
  {
    var start := WindowStart(last, today, limits);
    DatesAreTheWindow(cal, start, today, ExpectedPublished);
    DatesAreTheWindow(cal, start, today, WaitingPublication);
    DatesAreTheWindow(cal, start, today, NoSession);
  }

  function Flatten(chunks: seq<Chunk>): seq<Date> {
    if chunks == [] then [] else chunks[0].dates + Flatten(chunks[1..])
  }

  /** Where chunk `k` begins among the expected dates: `k` times the chunk size. */
  function Offset(k: nat, size: nat): nat {
    if k == 0 then 0 else Offset(k - 1, size) + size
  }

  lemma {:induction false} OffsetGap(i: nat, k: nat, size: nat)
    requires i < k
    ensures Offset(i, size) + size <= Offset(k, size)
    decreases k
  {
    if i < k - 1 {
      OffsetGap(i, k - 1, size);
    }
  }

  lemma {:induction false} ChunksDrop(expected: seq<Date>, size: nat, k: nat)
    requires size >= 1 && k <= |Chunks(expected, size)|
    ensures
      var from := if Offset(k, size) <= |expected| then Offset(k, size) else |expected|;
      Chunks(expected[from..], size) == Chunks(expected, size)[k..]
    decreases k
  {
    if k == 0 {
      assert expected[0..] == expected;
    } else {
      ChunksDrop(expected, size, k - 1);
      var lo := Offset(k - 1, size);
      var from := if lo <= |expected| then lo else |expected|;
      var rest := Chunks(expected, size)[k - 1..];
      assert rest[1..] == Chunks(expected, size)[k..];
      var stop := if from + size <= |expected| then from + size else |expected|;
      ChunksUnfold(expected, size, from, stop);
      assert rest == [ChunkOf(expected[from..stop])] + Chunks(expected[stop..], size);
    }
  }

  /** Chunk `k` is the `k`-th slice of the expected dates; only the last one may be short. */
  lemma {:induction false} ChunkIsSlice(expected: seq<Date>, size: nat, k: nat)
    requires size >= 1 && k < |Chunks(expected, size)|
    ensures Offset(k, size) < |expected|
    ensures
      var chunk := Chunks(expected, size)[k];
      var lo := Offset(k, size);
      var stop := if lo + size <= |expected| then lo + size else |expected|;
      && chunk == ChunkOf(expected[lo..stop])
      && chunk.start == expected[lo] && chunk.end == expected[stop - 1]
      && (k < |Chunks(expected, size)| - 1 ==> |chunk.dates| == size && lo + size <= |expected|)
  {
    var lo := ChunkBegins(expected, size, k);
    var stop := if lo + size <= |expected| then lo + size else |expected|;
    ChunksUnfold(expected, size, lo, stop);
    SliceEnds(expected, lo, stop);
    assert |Chunks(expected[stop..], size)| == |Chunks(expected, size)| - k - 1;
  }

  lemma SliceEnds(expected: seq<Date>, lo: nat, stop: nat)
    requires lo < stop <= |expected|
    ensures ChunkOf(expected[lo..stop]) == Chunk(expected[lo], expected[stop - 1], expected[lo..stop])
  {
  }

  lemma ChunkBegins(expected: seq<Date>, size: nat, k: nat) returns (lo: nat)
    requires size >= 1 && k < |Chunks(expected, size)|
    ensures lo == Offset(k, size) < |expected|
    ensures Chunks(expected[lo..], size) == Chunks(expected, size)[k..]
  {
    ChunksDrop(expected, size, k);
    lo := Offset(k, size);
    assert expected[|expected|..] == [];
  }

  /** The chunks concatenate to the expected dates: none lost, none doubled, none out of order. */
  lemma {:induction false} ChunksConcatenate(expected: seq<Date>, size: nat)
    requires size >= 1
    ensures Flatten(Chunks(expected, size)) == expected
    decreases |expected|
  {
    if |expected| > size {
      ChunksConcatenate(expected[size..], size);
      assert Chunks(expected, size)[1..] == Chunks(expected[size..], size);
      assert expected[..size] + expected[size..] == expected;
    }
  }

  /** Ascending, disjoint ranges. */
  lemma ChunkRangesAscend(cal: Calendar, limits: Limits, last: Option<Date>, today: Date, i: nat, k: nat)
    requires limits.maxSessionsPerChunk >= 1 && i < k < |PlanFor(cal, limits, last, today).chunks|
    ensures
      var chunks := PlanFor(cal, limits, last, today).chunks;
      chunks[i].start <= chunks[i].end < chunks[k].start <= chunks[k].end
  {
    var start := WindowStart(last, today, limits);
    DatesAreTheWindow(cal, start, today, ExpectedPublished);
    SlicesAscend(Dates(cal, start, today, ExpectedPublished), limits.maxSessionsPerChunk, i, k);
  }

  lemma SlicesAscend(expected: seq<Date>, size: nat, i: nat, k: nat)
    requires size >= 1 && i < k < |Chunks(expected, size)|
    requires Ascending(expected)
    ensures
      var chunks := Chunks(expected, size);
      chunks[i].start <= chunks[i].end < chunks[k].start <= chunks[k].end
  {
    ChunkIsSlice(expected, size, i);
    ChunkIsSlice(expected, size, k);
    OffsetGap(i, k, size);
    var lo, hi := Offset(i, size), Offset(k, size);
    var stop := if hi + size <= |expected| then hi + size else |expected|;
    assert lo <= lo + size - 1 < hi <= stop - 1;
  }

  // ---------------------------------------------------------------- resumption

  lemma {:induction false} QuietPrefixSplits(cal: Calendar, start: Date, end: Date, last: Option<Date>)
    requires last.Some? ==> last.value < start
    ensures
      var cursor := QuietPrefix(cal, start, end, last);
      if cursor == last then start > end || !cal(start).NoSession?
      else
        && cursor.Some? && start <= cursor.value <= end
        && (forall d | start <= d <= cursor.value :: cal(d).NoSession?)
        && (cursor.value == end || !cal(cursor.value + 1).NoSession?)
    decreases end - start
  {
    if start <= end && cal(start).NoSession? {
      QuietPrefixSplits(cal, start + 1, end, Some(start));
    }
  }

  lemma {:induction false} QuietDatesAddNothing(cal: Calendar, start: Date, mid: Date, end: Date, expectation: SessionExpectation)
    requires start <= mid <= end + 1 && !expectation.NoSession?
    requires forall d | start <= d < mid :: cal(d).NoSession?
    ensures Dates(cal, start, end, expectation) == Dates(cal, mid, end, expectation)
    decreases mid - start
  {
    if start < mid {
      QuietDatesAddNothing(cal, start + 1, mid, end, expectation);
    }
  }

  /**
   Safe resumption: planning again the same day from `nextCursor` gives the same chunks and the same waiting dates,
   and the same cursor; the cursor never moves back and passes no date that needs data.
   */
  lemma ResumptionLosesNothing(cal: Calendar, limits: Limits, last: Option<Date>, today: Date)
    requires limits.maxSessionsPerChunk >= 1
    ensures
      var plan := PlanFor(cal, limits, last, today);
      var again := PlanFor(cal, limits, plan.nextCursor, today);
      && again.chunks == plan.chunks && again.waiting == plan.waiting && again.nextCursor == plan.nextCursor
      && (last.Some? ==> plan.nextCursor.Some? && last.value <= plan.nextCursor.value)
      && (forall d | WindowStart(last, today, limits) <= d <= today && plan.nextCursor.Some? && d <= plan.nextCursor.value ::
            cal(d).NoSession? || (last.Some? && d <= last.value))
  {
    var start := WindowStart(last, today, limits);
    var cursor := QuietPrefix(cal, start, today, last);
    QuietPrefixSplits(cal, start, today, last);
    if cursor != last {
      var mid := cursor.value + 1;
      assert WindowStart(cursor, today, limits) == mid;
      QuietDatesAddNothing(cal, start, mid, today, ExpectedPublished);
      QuietDatesAddNothing(cal, start, mid, today, WaitingPublication);
    }
  }

  lemma {:induction false} DatesAfter(cal: Calendar, start: Date, end: Date, expectation: SessionExpectation, i: nat)
    requires i < |Dates(cal, start, end, expectation)|
    ensures
      var dates := Dates(cal, start, end, expectation);
      start <= dates[i] <= end && Dates(cal, dates[i] + 1, end, expectation) == dates[i + 1..]
    decreases end - start
  {
    var rest := Dates(cal, start + 1, end, expectation);
    if cal(start) == expectation {
      assert Dates(cal, start, end, expectation) == [start] + rest;
      if i > 0 {
        DatesAfter(cal, start + 1, end, expectation, i - 1);
      }
    } else {
      assert Dates(cal, start, end, expectation) == rest;
      DatesAfter(cal, start + 1, end, expectation, i);
    }
  }

  /** Chunk alignment: planning again the same day from the end of chunk `k` gives exactly the chunks after it. */
  lemma ReplanningContinuesAfterChunk(cal: Calendar, limits: Limits, last: Option<Date>, today: Date, k: nat)
    requires limits.maxSessionsPerChunk >= 1 && k < |PlanFor(cal, limits, last, today).chunks|
    ensures
      var chunks := PlanFor(cal, limits, last, today).chunks;
      PlanFor(cal, limits, Some(chunks[k].end), today).chunks == chunks[k + 1..]
  {
    var start := WindowStart(last, today, limits);
    var expected := Dates(cal, start, today, ExpectedPublished);
    var size := limits.maxSessionsPerChunk;
    var chunks := Chunks(expected, size);
    var ends := ChunkEnds(expected, size, k);
    DatesAfter(cal, start, today, ExpectedPublished, ends);
    assert WindowStart(Some(chunks[k].end), today, limits) == chunks[k].end + 1;
  }

  lemma ChunkLast(expected: seq<Date>, size: nat, k: nat) returns (last: nat)
    requires size >= 1 && k < |Chunks(expected, size)|
    ensures last < |expected| && Chunks(expected, size)[k].end == expected[last]
    ensures last + 1 == if Offset(k + 1, size) <= |expected| then Offset(k + 1, size) else |expected|
  {
    ChunkIsSlice(expected, size, k);
    var next := Offset(k, size) + size;
    last := (if next <= |expected| then next else |expected|) - 1;
  }

  /** The dates after the last one of chunk `k` are cut into the chunks after it. */
  lemma ChunkEnds(expected: seq<Date>, size: nat, k: nat) returns (last: nat)
    requires size >= 1 && k < |Chunks(expected, size)|
    ensures last < |expected| && Chunks(expected, size)[k].end == expected[last]
    ensures Chunks(expected[last + 1..], size) == Chunks(expected, size)[k + 1..]
  {
    last := ChunkLast(expected, size, k);
    ChunksDrop(expected, size, k + 1);
  }
}

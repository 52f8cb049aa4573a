/** What a later plan keeps of an earlier one. */
module Replanning {
  import opened Wrappers
  import opened Domain
  import opened Planning

  lemma {:induction false} DatesConcatenate(cal: Calendar, start: Date, mid: Date, end: Date, expectation: SessionExpectation)
    requires start <= mid + 1 && mid <= end
    ensures Dates(cal, start, end, expectation) == Dates(cal, start, mid, expectation) + Dates(cal, mid + 1, end, expectation)
    decreases mid - start
  {
    if start <= mid {
      DatesConcatenate(cal, start + 1, mid, end, expectation);
    }
  }

  lemma {:induction false} FullChunksStay(expected: seq<Date>, more: seq<Date>, size: nat, k: nat)
    requires size >= 1 && k < |Chunks(expected, size)| && |Chunks(expected, size)[k].dates| == size
    ensures k < |Chunks(expected + more, size)| && Chunks(expected + more, size)[k] == Chunks(expected, size)[k]
    decreases k
  {
    var all := expected + more;
    assert all[..size] == expected[..size] by {
      assert |expected| >= size;
    }
    if |expected| > size {
      assert all[size..] == expected[size..] + more;
      if k > 0 {
        FullChunksStay(expected[size..], more, size, k - 1);
      }
    } else {
      assert expected == expected[..size];
    }
  }

  /** `dropped` dates are a whole number of chunks, at most `most` of them. */
  predicate CutsAtChunk(dropped: nat, size: nat, most: nat) {
    exists q: nat | q <= most :: dropped == Offset(q, size)
  }

  lemma {:induction false} OffsetsAdd(i: nat, k: nat, size: nat)
    ensures Offset(i + k, size) == Offset(i, size) + Offset(k, size)
    decreases k
  {
    if k > 0 {
      OffsetsAdd(i, k - 1, size);
    }
  }

  lemma OffsetsAreOrdered(i: nat, k: nat, size: nat)
    requires size >= 1 && Offset(i, size) <= Offset(k, size)
    ensures i <= k
  {
    if k < i {
      OffsetGap(k, i, size);
    }
  }

  function Least(a: nat, b: nat): nat {
    if a <= b then a else b
  }

  lemma ChunkStart(expected: seq<Date>, size: nat, k: nat)
    requires size >= 1 && k < |Chunks(expected, size)|
    ensures Offset(k, size) < |expected| && Chunks(expected, size)[k].start == expected[Offset(k, size)]
    ensures |Chunks(expected, size)[k].dates| == Least(size, |expected| - Offset(k, size))
  {
    ChunkIsSlice(expected, size, k);
  }

  lemma SameStartSamePlace(expected: seq<Date>, more: seq<Date>, m: nat, i: nat, j: nat)
    requires m <= |expected| && Ascending(expected + more) && i < |expected| && j < |expected[m..] + more|
    requires expected[i] == (expected[m..] + more)[j]
    ensures i == m + j
  {
    var all := expected + more;
    assert all[i] == expected[i] && all[m + j] == (expected[m..] + more)[j];
  }

  /** A chunk that both plans hold sits a whole number of chunks further on in the earlier one. */
  lemma SharedChunkIsAligned(expected: seq<Date>, more: seq<Date>, size: nat, m: nat, k: nat, j: nat)
    requires size >= 1 && m <= |expected| && Ascending(expected + more)
    requires k < |Chunks(expected, size)| && j < |Chunks(expected[m..] + more, size)|
    requires Chunks(expected, size)[k].start == Chunks(expected[m..] + more, size)[j].start
    ensures j <= k && m == Offset(k - j, size)
    ensures |Chunks(expected, size)[k].dates| == size || more == []
            || |Chunks(expected, size)[k].dates| < |Chunks(expected[m..] + more, size)[j].dates|
  {
    ChunkStart(expected, size, k);
    ChunkStart(expected[m..] + more, size, j);
    SameStartSamePlace(expected, more, m, Offset(k, size), Offset(j, size));
    OffsetsAreOrdered(j, k, size);
    OffsetsAdd(k - j, j, size);
  }

  /**
   When `m` dates leave the front of the window and `more` join its end, an earlier chunk comes back exactly if
   whole chunks left before it and it is not a short one that can still grow.
   */
  lemma ChunkStaysIff(expected: seq<Date>, more: seq<Date>, size: nat, m: nat, k: nat)
    requires size >= 1 && m <= |expected| && Ascending(expected + more) && k < |Chunks(expected, size)|
    ensures Chunks(expected, size)[k] in Chunks(expected[m..] + more, size) <==>
      CutsAtChunk(m, size, k) && (|Chunks(expected, size)[k].dates| == size || more == [])
  {
    var chunk, after := Chunks(expected, size)[k], Chunks(expected[m..] + more, size);
    if chunk in after {
      var j :| 0 <= j < |after| && after[j] == chunk;
      SharedChunkIsAligned(expected, more, size, m, k, j);
    }
    if CutsAtChunk(m, size, k) && (|chunk.dates| == size || more == []) {
      var q: nat :| q <= k && m == Offset(q, size);
      ChunksDrop(expected, size, q);
      assert Chunks(expected[m..], size)[k - q] == chunk;
      if more == [] {
        assert expected[m..] + more == expected[m..];
      } else {
        FullChunksStay(expected[m..], more, size, k - q);
      }
    }
  }

  /** The stored rows only ever move the cursor forward. */
  predicate Advances(last: Option<Date>, next: Option<Date>) {
    last.None? || (next.Some? && last.value <= next.value)
  }

  /** How many expected dates the window of a later plan leaves behind. */
  function Dropped(cal: Calendar, limits: Limits, last: Option<Date>, today: Date, next: Option<Date>, later: Date): nat {
    |Dates(cal, WindowStart(last, today, limits), WindowStart(next, later, limits) - 1, ExpectedPublished)|
  }

  lemma WindowStartMoves(limits: Limits, last: Option<Date>, today: Date, next: Option<Date>, later: Date)
    requires today <= later && Advances(last, next)
    ensures WindowStart(last, today, limits) <= WindowStart(next, later, limits)
  {
  }

  lemma RangesMove(cal: Calendar, start: Date, today: Date, then_: Date, later: Date)
    requires start <= today <= later && start <= then_
    ensures
      var expected := Dates(cal, start, today, ExpectedPublished);
      var after := Dates(cal, then_, later, ExpectedPublished);
      var more := Dates(cal, today + 1, later, ExpectedPublished);
      var m := |Dates(cal, start, then_ - 1, ExpectedPublished)|;
      && Ascending(expected + more) && (forall d | d in expected :: d <= today)
      && (then_ <= today + 1 ==> m <= |expected| && after == expected[m..] + more)
      && (then_ > today + 1 ==> m >= |expected| && forall d | d in after :: d > today)
  {
    DatesConcatenate(cal, start, today, later, ExpectedPublished);
    DatesAscend(cal, start, later, ExpectedPublished);
    DatesAreTheWindow(cal, start, today, ExpectedPublished);
    if then_ <= today + 1 {
      FrontLeaves(cal, start, then_, today);
      BackJoins(cal, then_, today, later);
    } else {
      DatesConcatenate(cal, start, today, then_ - 1, ExpectedPublished);
      DatesAreTheWindow(cal, then_, later, ExpectedPublished);
    }
  }

  lemma FrontLeaves(cal: Calendar, start: Date, then_: Date, today: Date)
    requires start <= then_ <= today + 1
    ensures
      var expected := Dates(cal, start, today, ExpectedPublished);
      var m := |Dates(cal, start, then_ - 1, ExpectedPublished)|;
      m <= |expected| && expected[m..] == Dates(cal, then_, today, ExpectedPublished)
  {
    DatesConcatenate(cal, start, then_ - 1, today, ExpectedPublished);
  }

  lemma BackJoins(cal: Calendar, then_: Date, today: Date, later: Date)
    requires then_ <= today + 1 <= later + 1
    ensures Dates(cal, then_, later, ExpectedPublished)
            == Dates(cal, then_, today, ExpectedPublished) + Dates(cal, today + 1, later, ExpectedPublished)
  {
    DatesConcatenate(cal, then_, today, later, ExpectedPublished);
  }

  /**
   On the same day or a later one, with whatever the store has meanwhile, a chunk of the earlier plan is a chunk of
   the later plan exactly if whole chunks of expected dates left the window, none of them after it, and it is full
   or no expected date has been added.
   */
  lemma LaterPlanKeepsChunkIff(
      cal: Calendar, limits: Limits, last: Option<Date>, today: Date, next: Option<Date>, later: Date, k: nat)
    requires limits.maxSessionsPerChunk >= 1 && today <= later && Advances(last, next)
    requires k < |PlanFor(cal, limits, last, today).chunks|
    ensures
      var size := limits.maxSessionsPerChunk;
      var chunk := PlanFor(cal, limits, last, today).chunks[k];
      chunk in PlanFor(cal, limits, next, later).chunks <==>
        && CutsAtChunk(Dropped(cal, limits, last, today, next, later), size, k)
        && (|chunk.dates| == size || Dates(cal, today + 1, later, ExpectedPublished) == [])
  {
    var start, then_ := WindowStart(last, today, limits), WindowStart(next, later, limits);
    WindowStartMoves(limits, last, today, next, later);
    RangesKeepChunkIff(cal, limits.maxSessionsPerChunk, start, today, then_, later, k);
  }

  lemma RangesKeepChunkIff(cal: Calendar, size: nat, start: Date, today: Date, then_: Date, later: Date, k: nat)
    requires size >= 1 && today <= later && start <= then_
    requires k < |Chunks(Dates(cal, start, today, ExpectedPublished), size)|
    ensures
      var chunk := Chunks(Dates(cal, start, today, ExpectedPublished), size)[k];
      chunk in Chunks(Dates(cal, then_, later, ExpectedPublished), size) <==>
        && CutsAtChunk(|Dates(cal, start, then_ - 1, ExpectedPublished)|, size, k)
        && (|chunk.dates| == size || Dates(cal, today + 1, later, ExpectedPublished) == [])
  {
    var expected := Dates(cal, start, today, ExpectedPublished);
    var after := Dates(cal, then_, later, ExpectedPublished);
    var more := Dates(cal, today + 1, later, ExpectedPublished);
    var m := |Dates(cal, start, then_ - 1, ExpectedPublished)|;
    assert start <= today;
    RangesMove(cal, start, today, then_, later);
    if then_ <= today + 1 {
      ChunkStaysIff(expected, more, size, m, k);
    } else {
      forall d | d in after
        ensures d > today
      {
        DatesMembers(cal, then_, later, ExpectedPublished, d);
      }
      LateWindowKeepsNothing(expected, after, size, m, k, today);
    }
  }

  lemma LateWindowKeepsNothing(expected: seq<Date>, after: seq<Date>, size: nat, m: nat, k: nat, today: Date)
    requires size >= 1 && k < |Chunks(expected, size)| && m >= |expected|
    requires (forall d | d in expected :: d <= today) && (forall d | d in after :: d > today)
    ensures Chunks(expected, size)[k] !in Chunks(after, size) && !CutsAtChunk(m, size, k)
  {
    ChunkStart(expected, size, k);
    assert expected[Offset(k, size)] in expected;
    LateChunksStartLate(after, size, today);
    forall q: nat | q <= k
      ensures Offset(q, size) <= Offset(k, size)
    {
      OffsetsAdd(q, k - q, size);
    }
  }

  lemma LateChunksStartLate(expected: seq<Date>, size: nat, today: Date)
    requires size >= 1 && forall d | d in expected :: d > today
    ensures forall chunk | chunk in Chunks(expected, size) :: chunk.start > today
  {
    forall k | 0 <= k < |Chunks(expected, size)|
      ensures Chunks(expected, size)[k].start > today
    {
      ChunkStart(expected, size, k);
      assert expected[Offset(k, size)] in expected;
    }
  }

  /** The earlier plan holds a later plan's chunk `j` as its own chunk `j + q`, `q` whole chunks having left before it. */
  predicate HeldAt(expected: seq<Date>, size: nat, m: nat, j: nat, more: seq<Date>, q: nat)
    requires size >= 1
  {
    && m == Offset(q, size) && j + q < |Chunks(expected, size)|
    && (|Chunks(expected, size)[j + q].dates| == size || more == [])
  }

  ghost predicate Held(expected: seq<Date>, size: nat, m: nat, j: nat, more: seq<Date>)
    requires size >= 1
  {
    exists q: nat :: HeldAt(expected, size, m, j, more, q)
  }

  lemma HeldAtMeansThere(expected: seq<Date>, more: seq<Date>, size: nat, m: nat, j: nat, q: nat)
    requires size >= 1 && m <= |expected| && j < |Chunks(expected[m..] + more, size)| && HeldAt(expected, size, m, j, more, q)
    ensures Chunks(expected[m..] + more, size)[j] == Chunks(expected, size)[j + q]
  {
    ChunksDrop(expected, size, q);
    assert Chunks(expected[m..], size)[j] == Chunks(expected, size)[j + q];
    if more == [] {
      assert expected[m..] + more == expected[m..];
    } else {
      FullChunksStay(expected[m..], more, size, j);
    }
  }

  lemma ChunkHeldIff(expected: seq<Date>, more: seq<Date>, size: nat, m: nat, j: nat)
    requires size >= 1 && m <= |expected| && Ascending(expected + more) && j < |Chunks(expected[m..] + more, size)|
    ensures Chunks(expected[m..] + more, size)[j] in Chunks(expected, size) <==> Held(expected, size, m, j, more)
  {
    var chunks, chunk := Chunks(expected, size), Chunks(expected[m..] + more, size)[j];
    if chunk in chunks {
      var k :| 0 <= k < |chunks| && chunks[k] == chunk;
      SharedChunkIsAligned(expected, more, size, m, k, j);
      assert HeldAt(expected, size, m, j, more, k - j);
    }
    if Held(expected, size, m, j, more) {
      var q: nat :| HeldAt(expected, size, m, j, more, q);
      HeldAtMeansThere(expected, more, size, m, j, q);
    }
  }

  /** The expected dates of a plan's window. */
  function Expected(cal: Calendar, limits: Limits, last: Option<Date>, today: Date): seq<Date> {
    Dates(cal, WindowStart(last, today, limits), today, ExpectedPublished)
  }

  /**
   Seen from the later plan: one of its chunks was asked for by an earlier plan exactly if whole chunks of expected
   dates have left the window since, it is that many chunks further on there, and it is full or nothing was added.
   */
  lemma EarlierPlanHeldIff(
      cal: Calendar, limits: Limits, last: Option<Date>, today: Date, next: Option<Date>, later: Date, j: nat)
    requires limits.maxSessionsPerChunk >= 1 && today <= later && Advances(last, next)
    requires j < |PlanFor(cal, limits, next, later).chunks|
    ensures PlanFor(cal, limits, next, later).chunks[j] in PlanFor(cal, limits, last, today).chunks <==>
      Held(Expected(cal, limits, last, today), limits.maxSessionsPerChunk,
           Dropped(cal, limits, last, today, next, later), j, Dates(cal, today + 1, later, ExpectedPublished))
  {
    WindowStartMoves(limits, last, today, next, later);
    RangesHeldIff(cal, limits.maxSessionsPerChunk, WindowStart(last, today, limits), today, WindowStart(next, later, limits), later, j);
  }

  lemma RangesHeldIff(cal: Calendar, size: nat, start: Date, today: Date, then_: Date, later: Date, j: nat)
    requires size >= 1 && today <= later && start <= then_
    requires j < |Chunks(Dates(cal, then_, later, ExpectedPublished), size)|
    ensures
      var expected := Dates(cal, start, today, ExpectedPublished);
      var m := |Dates(cal, start, then_ - 1, ExpectedPublished)|;
      Chunks(Dates(cal, then_, later, ExpectedPublished), size)[j] in Chunks(expected, size) <==>
        Held(expected, size, m, j, Dates(cal, today + 1, later, ExpectedPublished))
  {
    var expected := Dates(cal, start, today, ExpectedPublished);
    var after := Dates(cal, then_, later, ExpectedPublished);
    var more := Dates(cal, today + 1, later, ExpectedPublished);
    var m := |Dates(cal, start, then_ - 1, ExpectedPublished)|;
    if start <= today {
      RangesMove(cal, start, today, then_, later);
      if then_ <= today + 1 {
        ChunkHeldIff(expected, more, size, m, j);
      } else {
        forall d | d in after
          ensures d > today
        {
          DatesMembers(cal, then_, later, ExpectedPublished, d);
        }
        LateChunkIsNotHeld(expected, after, size, m, j, more, today);
      }
    } else {
      assert expected == [] && Chunks(expected, size) == [];
    }
  }

  lemma LateChunkIsNotHeld(expected: seq<Date>, after: seq<Date>, size: nat, m: nat, j: nat, more: seq<Date>, today: Date)
    requires size >= 1 && j < |Chunks(after, size)| && m >= |expected|
    requires (forall d | d in expected :: d <= today) && (forall d | d in after :: d > today)
    ensures Chunks(after, size)[j] !in Chunks(expected, size)
    ensures !Held(expected, size, m, j, more)
  {
    LateChunksStartLate(after, size, today);
    assert Chunks(after, size)[j] in Chunks(after, size);
    forall k | 0 <= k < |Chunks(expected, size)|
      ensures Chunks(expected, size)[k].start <= today
    {
      ChunkStart(expected, size, k);
      assert expected[Offset(k, size)] in expected;
    }
    forall q: nat
      ensures !HeldAt(expected, size, m, j, more, q)
    {
      if HeldAt(expected, size, m, j, more, q) {
        ChunkStart(expected, size, j + q);
        OffsetsAdd(j, q, size);
      }
    }
  }

  lemma CutOff(front: seq<Date>, dates: seq<Date>, lo: nat, stop: nat)
    requires lo <= stop <= |dates| && front + dates[stop..] == dates[lo..]
    ensures front == dates[lo..stop]
  {
    assert |front| == stop - lo;
    assert forall i | 0 <= i < |front| :: front[i] == (front + dates[stop..])[i];
  }

  lemma DatesFrom(cal: Calendar, start: Date, end: Date, expectation: SessionExpectation, i: nat)
    requires i < |Dates(cal, start, end, expectation)|
    ensures
      var dates := Dates(cal, start, end, expectation);
      dates[i] <= end && Dates(cal, dates[i], end, expectation) == dates[i..]
  {
    var dates := Dates(cal, start, end, expectation);
    DatesAfter(cal, start, end, expectation, i);
    DatesMembers(cal, start, end, expectation, dates[i]);
    assert dates[i..] == [dates[i]] + dates[i + 1..];
  }

  lemma DatesSlice(cal: Calendar, start: Date, end: Date, expectation: SessionExpectation, lo: nat, stop: nat)
    requires lo < stop <= |Dates(cal, start, end, expectation)|
    ensures
      var dates := Dates(cal, start, end, expectation);
      Dates(cal, dates[lo], dates[stop - 1], expectation) == dates[lo..stop]
  {
    var dates := Dates(cal, start, end, expectation);
    DatesFrom(cal, start, end, expectation, lo);
    DatesAfter(cal, start, end, expectation, stop - 1);
    DatesAscend(cal, start, end, expectation);
    assert dates[lo] <= dates[stop - 1];
    DatesConcatenate(cal, dates[lo], dates[stop - 1], end, expectation);
    CutOff(Dates(cal, dates[lo], dates[stop - 1], expectation), dates, lo, stop);
  }

  lemma ChunkIsOfSlice(expected: seq<Date>, size: nat, k: nat) returns (lo: nat, stop: nat)
    requires size >= 1 && k < |Chunks(expected, size)|
    ensures lo < stop <= |expected| && Chunks(expected, size)[k] == Chunk(expected[lo], expected[stop - 1], expected[lo..stop])
  {
    ChunkIsSlice(expected, size, k);
    lo := Offset(k, size);
    stop := if lo + size <= |expected| then lo + size else |expected|;
    SliceEnds(expected, lo, stop);
  }

  /** A chunk is known by its range: it holds the expected dates of it. */
  lemma ChunkIsItsRange(cal: Calendar, start: Date, end: Date, size: nat, k: nat)
    requires size >= 1 && k < |Chunks(Dates(cal, start, end, ExpectedPublished), size)|
    ensures
      var chunk := Chunks(Dates(cal, start, end, ExpectedPublished), size)[k];
      chunk == Chunk(chunk.start, chunk.end, Dates(cal, chunk.start, chunk.end, ExpectedPublished))
  {
    var lo, stop := ChunkIsOfSlice(Dates(cal, start, end, ExpectedPublished), size, k);
    DatesSlice(cal, start, end, ExpectedPublished, lo, stop);
  }

  lemma RepeatsIff(expected: seq<Date>, size: nat, m: nat)
    requires size >= 1 && m < |expected| && Ascending(expected)
    ensures (forall chunk | chunk in Chunks(expected[m..], size) :: chunk in Chunks(expected, size)) <==>
      CutsAtChunk(m, size, |Chunks(expected, size)|)
    ensures (forall chunk | chunk in Chunks(expected[m..], size) :: chunk in Chunks(expected, size)) <==>
      exists k | 0 <= k < |Chunks(expected, size)| :: Chunks(expected, size)[k].start == expected[m]
  {
    var chunks, again := Chunks(expected, size), Chunks(expected[m..], size);
    ChunkStart(expected[m..], size, 0);
    assert again[0] in again && again[0].start == expected[m];
    if CutsAtChunk(m, size, |chunks|) {
      var q: nat :| q <= |chunks| && m == Offset(q, size);
      ChunksDrop(expected, size, q);
      assert chunks[q..][0] == chunks[q];
    }
    forall k | 0 <= k < |chunks| && chunks[k].start == expected[m]
      ensures m == Offset(k, size)
    {
      ChunkStart(expected, size, k);
    }
  }

  lemma SameDayWindow(cal: Calendar, limits: Limits, last: Option<Date>, next: Option<Date>, today: Date) returns (m: nat)
    requires Advances(last, next)
    ensures m == Dropped(cal, limits, last, today, next, today)
    ensures
      var expected := Dates(cal, WindowStart(last, today, limits), today, ExpectedPublished);
      var after := Dates(cal, WindowStart(next, today, limits), today, ExpectedPublished);
      && Ascending(expected)
      && (after != [] ==> m <= |expected| && after == expected[m..])
  {
    m := Dropped(cal, limits, last, today, next, today);
    WindowStartMoves(limits, last, today, next, today);
    DatesAscend(cal, WindowStart(last, today, limits), today, ExpectedPublished);
    if WindowStart(next, today, limits) <= today {
      FrontLeaves(cal, WindowStart(last, today, limits), WindowStart(next, today, limits), today);
    }
  }

  /**
   Planning again the same day asks only for chunks that were asked for before exactly if nothing expected is left
   or the store has passed a whole number of chunks. A store that ends inside a chunk shifts all that follow.
   */
  lemma SameDayPlanRepeatsIff(cal: Calendar, limits: Limits, last: Option<Date>, next: Option<Date>, today: Date)
    requires limits.maxSessionsPerChunk >= 1 && Advances(last, next)
    ensures
      var chunks := PlanFor(cal, limits, last, today).chunks;
      var again := PlanFor(cal, limits, next, today).chunks;
      (forall chunk | chunk in again :: chunk in chunks) <==>
        again == [] || CutsAtChunk(Dropped(cal, limits, last, today, next, today), limits.maxSessionsPerChunk, |chunks|)
  {
    var m := SameDayWindow(cal, limits, last, next, today);
    if PlanFor(cal, limits, next, today).chunks != [] {
      RepeatsIff(Dates(cal, WindowStart(last, today, limits), today, ExpectedPublished), limits.maxSessionsPerChunk, m);
    }
  }

  /**
   Without that condition nothing is repeated: with no row stored yet, the next day's window starts one day later
   and every chunk is cut elsewhere.
   */
  lemma NextDayShiftsTheChunks(cal: Calendar)
    requires forall d: Date :: cal(d).ExpectedPublished?
    ensures
      var limits := Limits(3, 2);
      && PlanFor(cal, limits, None, 10).chunks == [Chunk(7, 8, [7, 8]), Chunk(9, 10, [9, 10])]
      && PlanFor(cal, limits, None, 11).chunks == [Chunk(8, 9, [8, 9]), Chunk(10, 11, [10, 11])]
  {
    FourDays(cal, 7);
    FourDays(cal, 8);
  }

  /** Nor the same day, once the store ends inside a chunk. */
  lemma CursorInsideChunkShiftsTheChunks(cal: Calendar)
    requires forall d: Date :: cal(d).ExpectedPublished?
    ensures
      var limits := Limits(3, 2);
      && PlanFor(cal, limits, None, 10).chunks == [Chunk(7, 8, [7, 8]), Chunk(9, 10, [9, 10])]
      && PlanFor(cal, limits, Some(7), 10).chunks == [Chunk(8, 9, [8, 9]), Chunk(10, 10, [10])]
  {
    FourDays(cal, 7);
    ThreeDays(cal, 8);
  }

  lemma ThreeDays(cal: Calendar, d: Date)
    requires forall e: Date :: cal(e).ExpectedPublished?
    ensures Chunks(Dates(cal, d, d + 2, ExpectedPublished), 2) == [Chunk(d, d + 1, [d, d + 1]), Chunk(d + 2, d + 2, [d + 2])]
  {
    assert Dates(cal, d + 3, d + 2, ExpectedPublished) == [];
    assert Dates(cal, d + 2, d + 2, ExpectedPublished) == [d + 2];
    assert Dates(cal, d + 1, d + 2, ExpectedPublished) == [d + 1, d + 2];
    var dates := Dates(cal, d, d + 2, ExpectedPublished);
    assert dates == [d, d + 1, d + 2];
    assert dates[..2] == [d, d + 1] && dates[2..] == [d + 2];
  }

  lemma FourDays(cal: Calendar, d: Date)
    requires forall e: Date :: cal(e).ExpectedPublished?
    ensures Chunks(Dates(cal, d, d + 3, ExpectedPublished), 2) == [Chunk(d, d + 1, [d, d + 1]), Chunk(d + 2, d + 3, [d + 2, d + 3])]
  {
    assert Dates(cal, d + 4, d + 3, ExpectedPublished) == [];
    assert Dates(cal, d + 3, d + 3, ExpectedPublished) == [d + 3];
    assert Dates(cal, d + 2, d + 3, ExpectedPublished) == [d + 2, d + 3];
    assert Dates(cal, d + 1, d + 3, ExpectedPublished) == [d + 1, d + 2, d + 3];
    var dates := Dates(cal, d, d + 3, ExpectedPublished);
    assert dates == [d, d + 1, d + 2, d + 3];
    assert dates[..2] == [d, d + 1] && dates[2..] == [d + 2, d + 3];
  }
}

/** Storing one response row by row, alone or with others writing around every statement. */
module StorageLoop {
  import opened Wrappers
  import opened Domain
  import opened ObservationTable
  import opened ObservationStore
  import opened Governance
  import opened Validation
  import opened IngestionSystem

  datatype Tally = Tally(rows: seq<Row>, recorded: nat, rejected: nat)

  /** Storing a response row by row with nobody else writing: invalid rows are counted, the others recorded. */
  function StoreAll(rows: seq<Row>, job: Job, response: seq<RawObservation>, auth: Authorization, now: Instant): Tally
    requires job.cursor.Some?
  {
    if response == [] then Tally(rows, 0, 0)
    else
      var before := StoreAll(rows, job, response[..|response| - 1], auth, now);
      StoreOneMore(before, job, response[|response| - 1], auth, now)
  }

  function StoreOneMore(before: Tally, job: Job, raw: RawObservation, auth: Authorization, now: Instant): Tally
    requires job.cursor.Some?
  {
    if !Valid(raw, job.cursor.value) then before.(rejected := before.rejected + 1)
    else
      var rows := Land(before.rows, InputOf(job, raw, auth, now));
      Tally(rows, before.recorded + (if rows != before.rows then 1 else 0), before.rejected)
  }

  /** Every valid row is in the store afterwards, no matter how many others were malformed. */
  lemma {:induction false} StoreAllStores(rows: seq<Row>, job: Job, response: seq<RawObservation>, auth: Authorization, now: Instant)
    requires Sound(rows) && job.cursor.Some?
    ensures
      var t := StoreAll(rows, job, response, auth, now);
      && Sound(t.rows) && rows <= t.rows && AllStored(t.rows, job, response)
      && t.recorded == |t.rows| - |rows|
      && (t.rejected > 0 <==> exists raw | raw in response :: !Valid(raw, job.cursor.value))
    decreases |response|
  {
    if response != [] {
      var last := response[|response| - 1];
      var before := response[..|response| - 1];
      assert response == before + [last];
      StoreAllStores(rows, job, before, auth, now);
      var t := StoreAll(rows, job, before, auth, now);
      if Valid(last, job.cursor.value) {
        var data := InputOf(job, last, auth, now);
        LandIsTwoSteps(t.rows, data);
        HistoryOfCurrent(Land(t.rows, data), data.key);
        AdmittedValueIsNormal(last, job.cursor.value);
        AllStoredLasts(t.rows, Land(t.rows, data), job, before);
      }
    }
  }

  // ---------------------------------------------------------------- running the same job again

  /** The admissible rows of the response give one value per date and type. */
  predicate SingleValued(job: Job, response: seq<RawObservation>)
    requires job.cursor.Some?
  {
    forall a, b | a in response && b in response && Valid(a, job.cursor.value) && Valid(b, job.cursor.value)
                  && a.date == b.date && a.kind == b.kind :: ValueOf(a) == ValueOf(b)
  }

  /** The store's current row for every admissible observation of the response carries its value. */
  predicate UpToDate(rows: seq<Row>, job: Job, response: seq<RawObservation>) {
    job.cursor.Some? && forall raw | raw in response && Valid(raw, job.cursor.value) ::
      var current := Current(rows, KeyOf(job.source, job.cursor.value, raw));
      current.Some? && current.value.value == ValueOf(raw)
  }

  lemma OneMoreStaysUpToDate(rows: seq<Row>, job: Job, done: seq<RawObservation>, raw: RawObservation, auth: Authorization, now: Instant)
    requires Sound(rows) && UpToDate(rows, job, done) && SingleValued(job, done + [raw])
    ensures UpToDate(StoreOneMore(Tally(rows, 0, 0), job, raw, auth, now).rows, job, done + [raw])
  {
    if Valid(raw, job.cursor.value) {
      var data := InputOf(job, raw, auth, now);
      var after := Land(rows, data);
      LandIsTwoSteps(rows, data);
      AdmittedValueIsNormal(raw, job.cursor.value);
      forall other | other in done + [raw] && Valid(other, job.cursor.value)
        ensures
          var current := Current(after, KeyOf(job.source, job.cursor.value, other));
          current.Some? && current.value.value == ValueOf(other)
      {
        assert raw in done + [raw];
        var key := KeyOf(job.source, job.cursor.value, other);
        if key == data.key {
          assert ValueOf(other) == ValueOf(raw);
        } else {
          assert other in done;
          if after != rows {
            assert after[..|rows|] == rows;
          }
        }
      }
    }
  }

  lemma {:induction false} StoreAllLeavesUpToDate(rows: seq<Row>, job: Job, response: seq<RawObservation>, auth: Authorization, now: Instant)
    requires Sound(rows) && job.cursor.Some? && SingleValued(job, response)
    ensures UpToDate(StoreAll(rows, job, response, auth, now).rows, job, response)
    decreases |response|
  {
    if response != [] {
      var before := response[..|response| - 1];
      assert response == before + [response[|response| - 1]];
      StoreAllLeavesUpToDate(rows, job, before, auth, now);
      StoreAllStores(rows, job, before, auth, now);
      OneMoreStaysUpToDate(StoreAll(rows, job, before, auth, now).rows, job, before, response[|response| - 1], auth, now);
    }
  }

  lemma {:induction false} StoringUpToDateAddsNothing(rows: seq<Row>, job: Job, response: seq<RawObservation>, auth: Authorization, now: Instant)
    requires UpToDate(rows, job, response)
    ensures
      var t := StoreAll(rows, job, response, auth, now);
      && t.rows == rows && t.recorded == 0
      && (t.rejected > 0 <==> exists raw | raw in response :: !Valid(raw, job.cursor.value))
    decreases |response|
  {
    if response != [] {
      var last := response[|response| - 1];
      assert response == response[..|response| - 1] + [last];
      StoringUpToDateAddsNothing(rows, job, response[..|response| - 1], auth, now);
      if Valid(last, job.cursor.value) {
        AdmittedValueIsNormal(last, job.cursor.value);
      }
    }
  }

  /** Storing adds nothing only to a store that is up to date with every admissible row. */
  lemma {:induction false} AddingNothingMeansUpToDate(rows: seq<Row>, job: Job, response: seq<RawObservation>, auth: Authorization, now: Instant)
    requires Sound(rows) && job.cursor.Some? && StoreAll(rows, job, response, auth, now).rows == rows
    ensures UpToDate(rows, job, response)
    decreases |response|
  {
    if response != [] {
      var last := response[|response| - 1];
      var before := response[..|response| - 1];
      assert response == before + [last];
      StoreAllStores(rows, job, before, auth, now);
      StoreAllStores(rows, job, response, auth, now);
      var t := StoreAll(rows, job, before, auth, now);
      assert |t.rows| <= |StoreAll(rows, job, response, auth, now).rows| && t.rows == rows;
      AddingNothingMeansUpToDate(rows, job, before, auth, now);
      if Valid(last, job.cursor.value) {
        AdmittedValueIsNormal(last, job.cursor.value);
      }
    }
  }

  /** A key has one current row, so only a response with one value for each key can be up to date. */
  lemma UpToDateIsSingleValued(rows: seq<Row>, job: Job, response: seq<RawObservation>)
    requires UpToDate(rows, job, response)
    ensures SingleValued(job, response)
  {
    forall a, b | a in response && b in response && Valid(a, job.cursor.value) && Valid(b, job.cursor.value)
                  && a.date == b.date && a.kind == b.kind
      ensures ValueOf(a) == ValueOf(b)
    {
      assert KeyOf(job.source, job.cursor.value, a) == KeyOf(job.source, job.cursor.value, b);
    }
  }

  /**
   Running a response again leaves the store as it is exactly if its admissible rows give one value per date and
   type; with two, every rerun adds rows. The rerun completes exactly if no row is malformed or it adds rows again:
   otherwise the job fails although everything admissible is in the store.
   */
  lemma RerunCompletesIff(
      rows: seq<Row>, job: Job, response: seq<RawObservation>, first: Authorization, then_: Authorization, now: Instant, later: Instant)
    requires Sound(rows) && job.cursor.Some?
    ensures
      var once := StoreAll(rows, job, response, first, now);
      var twice := StoreAll(once.rows, job, response, then_, later);
      && AllStored(twice.rows, job, response)
      && (twice.rows == once.rows <==> SingleValued(job, response))
      && (Verdict(twice.recorded, twice.rejected, later).Finish? <==>
            (forall raw | raw in response :: Valid(raw, job.cursor.value)) || !SingleValued(job, response))
  {
    StoreAllStores(rows, job, response, first, now);
    var once := StoreAll(rows, job, response, first, now);
    StoreAllStores(once.rows, job, response, then_, later);
    if SingleValued(job, response) {
      StoreAllLeavesUpToDate(rows, job, response, first, now);
      StoringUpToDateAddsNothing(once.rows, job, response, then_, later);
    }
    if StoreAll(once.rows, job, response, then_, later).rows == once.rows {
      AddingNothingMeansUpToDate(once.rows, job, response, then_, later);
      UpToDateIsSingleValued(once.rows, job, response);
    }
  }

  /** The first run of such a response is DONE, the second fails: one good row and one with a negative price. */
  lemma PartlyMalformedJobCompletesOnlyOnce(job: Job, auth: Authorization, now: Instant)
    requires job.cursor == Some(FetchCursor("X", "default", EodClose, 1, 2))
    ensures
      var good := RawObservation("X", 1, EodClose, "EUR", 10.0, None, None, None, None);
      var bad := RawObservation("X", 2, EodClose, "EUR", -1.0, None, None, None, None);
      var once := StoreAll([], job, [good, bad], auth, now);
      var twice := StoreAll(once.rows, job, [good, bad], auth, now);
      && Verdict(once.recorded, once.rejected, now).Finish?
      && Verdict(twice.recorded, twice.rejected, now).Fail?
  {
    var good := RawObservation("X", 1, EodClose, "EUR", 10.0, None, None, None, None);
    var bad := RawObservation("X", 2, EodClose, "EUR", -1.0, None, None, None, None);
    var response := [good, bad];
    assert bad in response && !Valid(bad, job.cursor.value);
    assert response[..1] == [good] && [good][..0] == [];
    assert StoreAll([], job, [], auth, now) == Tally([], 0, 0);
    var one := StoreAll([], job, [good], auth, now);
    assert one.recorded == 1 && one.rejected == 0 by {
      assert Valid(good, job.cursor.value);
      assert one == StoreOneMore(Tally([], 0, 0), job, good, auth, now);
    }
    assert StoreAll([], job, response, auth, now) == StoreOneMore(one, job, bad, auth, now);
    RerunCompletesIff([], job, response, auth, auth, now, now);
  }

  // ---------------------------------------------------------------- with others at work

  /** What becomes of one row of a response. */
  datatype Kept = Rejected | Recorded(created: bool) | Exhausted

  ghost predicate Quiet(writers: nat -> Rivals) {
    forall i: nat :: Alone(writers(i), 2)
  }

  /** The row is what a run under this grant stores of its response. */
  ghost predicate OwnRow(row: Row, job: Job, response: seq<RawObservation>, auth: Authorization, now: Instant)
    requires job.cursor.Some?
  {
    exists raw | raw in response && Valid(raw, job.cursor.value) :: RowFor(row, InputOf(job, raw, auth, now))
  }

  ghost predicate FromWriters(row: Row, writers: nat -> Rivals) {
    exists i: nat :: FromRivals(row, writers(i))
  }

  /** Of the rows that are new, those at the positions `own` are the run's and the others its rivals'. */
  ghost predicate Woven(
      before: seq<Row>, after: seq<Row>, own: set<nat>, job: Job, response: seq<RawObservation>, auth: Authorization,
      now: Instant, writers: nat -> Rivals)
    requires job.cursor.Some?
  {
    && before <= after
    && (forall p | p in own :: |before| <= p < |after| && OwnRow(after[p], job, response, auth, now))
    && (forall p | |before| <= p < |after| && p !in own :: FromWriters(after[p], writers))
  }

  /** `recorded` is the number of rows that the run itself has inserted. */
  ghost predicate Inserted(
      before: seq<Row>, after: seq<Row>, job: Job, response: seq<RawObservation>, auth: Authorization, now: Instant,
      writers: nat -> Rivals, recorded: nat)
    requires job.cursor.Some?
  {
    exists own: set<nat> :: Woven(before, after, own, job, response, auth, now, writers) && |own| == recorded
  }

  /** Every admissible row of what was read is stored, and the counter tells whether something was malformed. */
  predicate ResponseRead(rows: seq<Row>, job: Job, response: seq<RawObservation>, rejected: nat)
    requires job.cursor.Some?
  {
    && AllStored(rows, job, response)
    && (rejected > 0 <==> exists raw | raw in response :: !Valid(raw, job.cursor.value))
  }

  /** The response has been stored, and the counters say how many rows were new and whether something was malformed. */
  ghost predicate ResponseStored(
      before: seq<Row>, after: seq<Row>, job: Job, response: seq<RawObservation>, auth: Authorization, now: Instant,
      writers: nat -> Rivals, recorded: nat, rejected: nat)
    requires job.cursor.Some?
  {
    ResponseRead(after, job, response, rejected) && Inserted(before, after, job, response, auth, now, writers, recorded)
  }

  /** For some admissible row eight or more rows landed on its key. */
  ghost predicate Raced(before: seq<Row>, after: seq<Row>, job: Job, response: seq<RawObservation>)
    requires job.cursor.Some?
  {
    exists raw | raw in response && Valid(raw, job.cursor.value) ::
      var key := KeyOf(job.source, job.cursor.value, raw);
      |History(after, key)| >= |History(before, key)| + MAX_REVISION_ATTEMPTS
  }

  lemma ReadOneMore(before: seq<Row>, after: seq<Row>, job: Job, done: seq<RawObservation>, raw: RawObservation, rejected: nat, kept: Kept)
    requires job.cursor.Some? && before <= after && ResponseRead(before, job, done, rejected)
    requires !kept.Exhausted? && (kept.Rejected? <==> !Valid(raw, job.cursor.value))
    requires kept.Recorded? ==> IsStored(after, KeyOf(job.source, job.cursor.value, raw), ValueOf(raw))
    ensures ResponseRead(after, job, done + [raw], rejected + if kept.Rejected? then 1 else 0)
  {
    AllStoredLasts(before, after, job, done);
    assert raw in done + [raw];
    if rejected > 0 {
      var bad :| bad in done && !Valid(bad, job.cursor.value);
      assert bad in done + [raw];
    }
  }

  /** What one `record` call adds: rivals' rows, and its own last if it created one. */
  ghost predicate RowAdded(before: seq<Row>, after: seq<Row>, created: bool, data: ObservationInput, rivals: Rivals) {
    && before <= after
    && (created ==> |after| > |before| && RowFor(after[|after| - 1], data))
    && forall p | |before| <= p < |after| - (if created then 1 else 0) :: FromRivals(after[p], rivals)
  }

  lemma RecordAdds(before: seq<Row>, after: seq<Row>, data: ObservationInput, rivals: Rivals, n: nat, result: RecordResult)
    requires
      after == RivalsOnly(before, rivals, n) + if result.Stored? && result.created then [result.row] else []
    requires result.Stored? && result.created ==> RowFor(result.row, data)
    ensures RowAdded(before, after, result.Stored? && result.created, data, rivals)
  {
    RivalsOnlyRows(before, rivals, n);
  }

  lemma WovenOneMore(
      start: seq<Row>, before: seq<Row>, after: seq<Row>, own: set<nat>, job: Job, response: seq<RawObservation>,
      raw: RawObservation, auth: Authorization, now: Instant, writers: nat -> Rivals, i: nat, created: bool)
    requires job.cursor.Some? && raw in response && (created ==> Valid(raw, job.cursor.value))
    requires Woven(start, before, own, job, response, auth, now, writers)
    requires RowAdded(before, after, created, InputOf(job, raw, auth, now), writers(i))
    ensures
      var next := if created then own + {|after| - 1} else own;
      Woven(start, after, next, job, response, auth, now, writers) && |next| == |own| + if created then 1 else 0
  {
    var next := if created then own + {|after| - 1} else own;
    forall p | p in next
      ensures |start| <= p < |after| && OwnRow(after[p], job, response, auth, now)
    {
      if p in own {
        assert after[p] == before[p];
      }
    }
    forall p | |start| <= p < |after| && p !in next
      ensures FromWriters(after[p], writers)
    {
      if p < |before| {
        assert after[p] == before[p];
      } else {
        assert FromRivals(after[p], writers(i));
      }
    }
  }

  lemma TallyOneMore(
      start: seq<Row>, before: seq<Row>, after: seq<Row>, job: Job, done: seq<RawObservation>, raw: RawObservation,
      auth: Authorization, now: Instant, recorded: nat, rejected: nat, kept: Kept)
    requires job.cursor.Some? && Tally(before, recorded, rejected) == StoreAll(start, job, done, auth, now)
    requires StoreOneMore(Tally(before, 0, 0), job, raw, auth, now)
             == Tally(after, if kept.Recorded? && kept.created then 1 else 0, if kept.Rejected? then 1 else 0)
    ensures Tally(after, recorded + (if kept.Recorded? && kept.created then 1 else 0), rejected + if kept.Rejected? then 1 else 0)
            == StoreAll(start, job, done + [raw], auth, now)
  {
    assert (done + [raw])[..|done|] == done;
  }

  /** What one row of the loop does to the store. */
  ghost predicate RowKept(
      before: seq<Row>, after: seq<Row>, job: Job, raw: RawObservation, auth: Authorization, now: Instant, rivals: Rivals, kept: Kept)
    requires job.cursor.Some?
  {
    var created := kept.Recorded? && kept.created;
    && (kept.Rejected? <==> !Valid(raw, job.cursor.value))
    && (kept.Recorded? ==> IsStored(after, KeyOf(job.source, job.cursor.value, raw), ValueOf(raw)))
    && RowAdded(before, after, created, InputOf(job, raw, auth, now), rivals)
    && (Alone(rivals, 2) ==>
          && !kept.Exhausted?
          && StoreOneMore(Tally(before, 0, 0), job, raw, auth, now)
             == Tally(after, if created then 1 else 0, if kept.Rejected? then 1 else 0))
  }

  /** The loop after `i` rows; `own` are the positions of the rows it has inserted. */
  ghost predicate HalfwayWith(
      start: seq<Row>, rows: seq<Row>, own: set<nat>, job: Job, response: seq<RawObservation>, i: nat, auth: Authorization,
      now: Instant, writers: nat -> Rivals, t: Tally)
    requires job.cursor.Some?
  {
    && i <= |response|
    && Woven(start, rows, own, job, response, auth, now, writers) && |own| == t.recorded
    && ResponseRead(rows, job, response[..i], t.rejected)
    && t.rows == rows
    && (Quiet(writers) ==> t == StoreAll(start, job, response[..i], auth, now))
  }

  ghost predicate Halfway(
      start: seq<Row>, job: Job, response: seq<RawObservation>, i: nat, auth: Authorization, now: Instant,
      writers: nat -> Rivals, t: Tally)
    requires job.cursor.Some?
  {
    exists own: set<nat> :: HalfwayWith(start, t.rows, own, job, response, i, auth, now, writers, t)
  }

  function Counting(t: Tally, after: seq<Row>, kept: Kept): Tally {
    Tally(after, t.recorded + (if kept.Recorded? && kept.created then 1 else 0), t.rejected + if kept.Rejected? then 1 else 0)
  }

  lemma HalfwayBegins(start: seq<Row>, job: Job, response: seq<RawObservation>, auth: Authorization, now: Instant, writers: nat -> Rivals)
    requires job.cursor.Some?
    ensures Halfway(start, job, response, 0, auth, now, writers, Tally(start, 0, 0))
  {
    var own: set<nat> := {};
    assert HalfwayWith(start, start, own, job, response, 0, auth, now, writers, Tally(start, 0, 0));
  }

  lemma HalfwayOneMore(
      start: seq<Row>, after: seq<Row>, job: Job, response: seq<RawObservation>, i: nat, auth: Authorization, now: Instant,
      writers: nat -> Rivals, t: Tally, kept: Kept)
    requires job.cursor.Some? && i < |response| && !kept.Exhausted?
    requires Halfway(start, job, response, i, auth, now, writers, t)
    requires RowKept(t.rows, after, job, response[i], auth, now, writers(i), kept)
    ensures Halfway(start, job, response, i + 1, auth, now, writers, Counting(t, after, kept))
  {
    var own: set<nat> :| HalfwayWith(start, t.rows, own, job, response, i, auth, now, writers, t);
    var next := if kept.Recorded? && kept.created then own + {|after| - 1} else own;
    HalfwayWithOneMore(start, after, own, next, job, response, i, auth, now, writers, t, kept);
  }

  lemma {:induction false} HalfwayWithOneMore(
      start: seq<Row>, after: seq<Row>, own: set<nat>, next: set<nat>, job: Job, response: seq<RawObservation>, i: nat,
      auth: Authorization, now: Instant, writers: nat -> Rivals, t: Tally, kept: Kept)
    requires job.cursor.Some? && i < |response| && !kept.Exhausted?
    requires HalfwayWith(start, t.rows, own, job, response, i, auth, now, writers, t)
    requires RowKept(t.rows, after, job, response[i], auth, now, writers(i), kept)
    requires |after| > 0 || !(kept.Recorded? && kept.created)
    requires next == if kept.Recorded? && kept.created then own + {|after| - 1} else own
    ensures HalfwayWith(start, after, next, job, response, i + 1, auth, now, writers, Counting(t, after, kept))
  {
    var u := Counting(t, after, kept);
    assert response[..i + 1] == response[..i] + [response[i]];
    WovenOneMore(start, t.rows, after, own, job, response, response[i], auth, now, writers, i, kept.Recorded? && kept.created);
    assert Woven(start, after, next, job, response, auth, now, writers) && |next| == u.recorded;
    ReadOneMore(t.rows, after, job, response[..i], response[i], t.rejected, kept);
    assert ResponseRead(after, job, response[..i + 1], u.rejected);
    if Quiet(writers) {
      QuietOneMore(start, after, job, response, i, auth, now, writers, t, kept);
    }
  }

  lemma QuietOneMore(
      start: seq<Row>, after: seq<Row>, job: Job, response: seq<RawObservation>, i: nat, auth: Authorization, now: Instant,
      writers: nat -> Rivals, t: Tally, kept: Kept)
    requires job.cursor.Some? && i < |response| && Alone(writers(i), 2)
    requires t == StoreAll(start, job, response[..i], auth, now)
    requires RowKept(t.rows, after, job, response[i], auth, now, writers(i), kept)
    ensures Counting(t, after, kept) == StoreAll(start, job, response[..i + 1], auth, now)
  {
    assert response[..i + 1] == response[..i] + [response[i]];
    TallyOneMore(start, t.rows, after, job, response[..i], response[i], auth, now, t.recorded, t.rejected, kept);
  }

  lemma {:induction false} HalfwayGivesUp(
      start: seq<Row>, after: seq<Row>, job: Job, response: seq<RawObservation>, i: nat, auth: Authorization, now: Instant,
      writers: nat -> Rivals, t: Tally)
    requires job.cursor.Some? && i < |response|
    requires Halfway(start, job, response, i, auth, now, writers, t)
    requires RowKept(t.rows, after, job, response[i], auth, now, writers(i), Kept.Exhausted)
    requires
      var key := KeyOf(job.source, job.cursor.value, response[i]);
      |History(after, key)| >= |History(t.rows, key)| + MAX_REVISION_ATTEMPTS
    ensures Inserted(start, after, job, response, auth, now, writers, t.recorded) && Raced(start, after, job, response)
    ensures !Quiet(writers)
  {
    var own: set<nat> :| HalfwayWith(start, t.rows, own, job, response, i, auth, now, writers, t);
    WovenOneMore(start, t.rows, after, own, job, response, response[i], auth, now, writers, i, false);
    RacedSinceStart(start, t.rows, after, job, response, response[i]);
    assert !Alone(writers(i), 2);
  }

  lemma HalfwayEnds(start: seq<Row>, job: Job, response: seq<RawObservation>, auth: Authorization, now: Instant, writers: nat -> Rivals, t: Tally)
    requires job.cursor.Some? && Halfway(start, job, response, |response|, auth, now, writers, t)
    ensures Inserted(start, t.rows, job, response, auth, now, writers, t.recorded) && ResponseRead(t.rows, job, response, t.rejected)
    ensures Quiet(writers) ==> t == StoreAll(start, job, response, auth, now)
  {
    assert response[..|response|] == response;
  }

  lemma RacedSinceStart(
      start: seq<Row>, before: seq<Row>, after: seq<Row>, job: Job, response: seq<RawObservation>, raw: RawObservation)
    requires job.cursor.Some? && start <= before && raw in response && Valid(raw, job.cursor.value)
    requires
      var key := KeyOf(job.source, job.cursor.value, raw);
      |History(after, key)| >= |History(before, key)| + MAX_REVISION_ATTEMPTS
    ensures Raced(start, after, job, response)
  {
    HistoryGrows(start, before, KeyOf(job.source, job.cursor.value, raw));
  }

  // ---------------------------------------------------------------- the loop

  /** One row of a response: rejected, or handed to `record` with others writing around it. */
  method StoreRow(store: ObservationStore, job: Job, raw: RawObservation, auth: Authorization, now: Instant, rivals: Rivals) returns (kept: Kept)
    requires Sound(store.rows) && job.cursor.Some?
    modifies store
    ensures Sound(store.rows) && old(store.rows) <= store.rows
    ensures RowKept(old(store.rows), store.rows, job, raw, auth, now, rivals, kept)
    ensures
      var key := KeyOf(job.source, job.cursor.value, raw);
      kept.Exhausted? ==> |History(store.rows, key)| >= |History(old(store.rows), key)| + MAX_REVISION_ATTEMPTS
  {
    if Validate(raw, job.cursor.value).Some? {
      return Rejected;
    }
    var data := InputOf(job, raw, auth, now);
    AdmittedValueIsNormal(raw, job.cursor.value);
    var result, attempts := store.Record(data, rivals);
    ghost var n := if result.Stored? && !result.created then 2 * attempts - 1 else 2 * attempts;
    assert RivalsOnly(old(store.rows), rivals, n) + [] == RivalsOnly(old(store.rows), rivals, n);
    RecordAdds(old(store.rows), store.rows, data, rivals, n, result);
    if result.RevisionRaceExhausted? {
      return Kept.Exhausted;
    }
    HistoryOfCurrent(store.rows, data.key);
    kept := Kept.Recorded(result.created);
  }

  /**
   The storage loop: a malformed row is counted and left out, the rest of the response goes on, until the end or
   an exhausted revision race. The first counter is the number of rows the loop has inserted itself. With nobody else
   writing it does exactly what the specification says row by row.
   */
  method StoreResponse(
      store: ObservationStore, job: Job, response: seq<RawObservation>, auth: Authorization, now: Instant, writers: nat -> Rivals)
    returns (stored: bool, recorded: nat, rejected: nat)
    requires Sound(store.rows) && job.cursor.Some?
    modifies store
    ensures Sound(store.rows) && old(store.rows) <= store.rows
    ensures Inserted(old(store.rows), store.rows, job, response, auth, now, writers, recorded)
    ensures stored ==> ResponseRead(store.rows, job, response, rejected)
    ensures !stored ==> Raced(old(store.rows), store.rows, job, response)
    ensures Quiet(writers) ==>
      stored && Tally(store.rows, recorded, rejected) == StoreAll(old(store.rows), job, response, auth, now)
  {
    recorded, rejected := 0, 0;
    HalfwayBegins(store.rows, job, response, auth, now, writers);
    for i := 0 to |response|
      invariant Sound(store.rows) && old(store.rows) <= store.rows
      invariant Halfway(old(store.rows), job, response, i, auth, now, writers, Tally(store.rows, recorded, rejected))
    {
      ghost var t := Tally(store.rows, recorded, rejected);
      var kept := StoreRow(store, job, response[i], auth, now, writers(i));
      if kept.Exhausted? {
        HalfwayGivesUp(old(store.rows), store.rows, job, response, i, auth, now, writers, t);
        return false, recorded, rejected;
      }
      HalfwayOneMore(old(store.rows), store.rows, job, response, i, auth, now, writers, t, kept);
      match kept
      case Rejected => rejected := rejected + 1;
      case Recorded(created) => recorded := recorded + if created then 1 else 0;
    }
    HalfwayEnds(old(store.rows), job, response, auth, now, writers, Tally(store.rows, recorded, rejected));
    stored := true;
  }
}

/** The published view: one date, a range of dates, the latest observation, the latest publishable date. */
module ObservationView {
  import opened Wrappers
  import opened Domain
  import opened Governance
  import opened Selection

  type Calendar = Date -> SessionExpectation

  const LATEST_LOOKBACK_DAYS := 10

  datatype Availability = Available | WithoutSession | AwaitingPublication | Unavailable

  datatype ValueOut = ValueOut(
    currency: string, close: real, source: string, revision: nat, retrievedAt: Instant,
    requiresAttribution: bool, hasDiscrepancy: bool)

  datatype ObservationOut = ObservationOut(listing: ListingId, date: Date, availability: Availability, value: Option<ValueOut>)

  /** What the view reads: the tables, and the enabled sources in order of priority. */
  datatype Sources = Sources(rows: seq<Row>, decisions: Decisions, enabled: seq<string>)

  function AbsenceOf(e: SessionExpectation): Availability {
    match e
    case NoSession => WithoutSession
    case WaitingPublication => AwaitingPublication
    case ExpectedPublished => Unavailable
  }

  /** `select` succeeds for the date. */
  predicate PublishableOn(src: Sources, listing: ListingId, kind: ObservationType, date: Date) {
    Selectable(src.rows, src.decisions, src.enabled, Query(listing, date, kind))
  }

  function ValueFor(decisions: Decisions, r: SelectionResult): ValueOut {
    var row := r.selected;
    ValueOut(row.value.currency, row.value.close, row.key.source, row.revision, row.retrievedAt,
             EffectiveStatus(decisions, row.key.source, Attribute).Approved?, r.HasDiscrepancy())
  }

  /** The value shown is the selected row's, raw close and all; without one, the calendar says why. */
  ghost predicate Shows(src: Sources, cal: Calendar, listing: ListingId, kind: ObservationType, date: Date, out: ObservationOut) {
    && out.listing == listing && out.date == date
    && (out.value.Some? <==> out.availability.Available?)
    && (out.availability.Available? <==> PublishableOn(src, listing, kind, date))
    && (!out.availability.Available? ==> out.availability == AbsenceOf(cal(date)))
    && (out.availability.Available? ==> exists r ::
          IsSelection(src.rows, src.decisions, src.enabled, Query(listing, date, kind), r) && out.value == Some(ValueFor(src.decisions, r)))
  }

  method BuildObservationOut(src: Sources, cal: Calendar, listing: ListingId, kind: ObservationType, date: Date)
    returns (out: ObservationOut)
    ensures Shows(src, cal, listing, kind, date, out)
  {
    var result := Select(src.rows, src.decisions, src.enabled, Query(listing, date, kind));
    if result.None? {
      return ObservationOut(listing, date, AbsenceOf(cal(date)), None);
    }
    return ObservationOut(listing, date, Available, Some(ValueFor(src.decisions, result.value)));
  }

  /** The source of a shown value is enabled and authorised now; a discrepancy is shown exactly if there is one. */
  lemma ShownValueIsAuthorised(src: Sources, cal: Calendar, listing: ListingId, kind: ObservationType, date: Date, out: ObservationOut)
    requires Shows(src, cal, listing, kind, date, out) && out.value.Some?
    ensures out.value.value.source in src.enabled && Authorized(src.decisions, out.value.value.source)
    ensures exists row | row in src.rows ::
      && row.listing == listing && row.key.date == date && row.key.kind == kind
      && row.key.source == out.value.value.source && row.value.close == out.value.value.close
    ensures out.value.value.hasDiscrepancy ==> exists other | other in src.rows ::
      && other.listing == listing && other.key.date == date && other.key.kind == kind
      && other.key.source != out.value.value.source && Authorized(src.decisions, other.key.source)
      && other.value.close != out.value.value.close
  {
    var q := Query(listing, date, kind);
    var r :| IsSelection(src.rows, src.decisions, src.enabled, q, r) && out.value == Some(ValueFor(src.decisions, r));
    assert IsLatest(src.rows, q, r.selected);
    if r.HasDiscrepancy() {
      var other :| other in r.alternatives && other.value.close != r.selected.value.close;
      assert IsLatest(src.rows, q, other);
    }
  }

  /**
   Walks back from `today`: Available if and only if some date of the window is publishable, and then the greatest
   one; otherwise the state of `today`.
   */
  method FindLatestObservation(src: Sources, cal: Calendar, listing: ListingId, kind: ObservationType, today: Date)
    returns (out: ObservationOut)
    ensures Shows(src, cal, listing, kind, out.date, out)
    ensures out.availability.Available? <==>
      exists d | today - LATEST_LOOKBACK_DAYS <= d <= today :: PublishableOn(src, listing, kind, d)
    ensures out.availability.Available? ==>
      && today - LATEST_LOOKBACK_DAYS <= out.date <= today
      && forall d | out.date < d <= today :: !PublishableOn(src, listing, kind, d)
    ensures !out.availability.Available? ==> out.date == today
  {
    for offset := 0 to LATEST_LOOKBACK_DAYS + 1
      invariant forall d | today - offset < d <= today :: !PublishableOn(src, listing, kind, d)
    {
      out := BuildObservationOut(src, cal, listing, kind, today - offset);
      if out.availability.Available? {
        assert PublishableOn(src, listing, kind, today - offset);
        return out;
      }
    }
    out := BuildObservationOut(src, cal, listing, kind, today);
  }

  predicate InSources(row: Row, sources: seq<string>, listing: ListingId, kind: ObservationType) {
    row.listing == listing && row.key.kind == kind && row.key.source in sources
  }

  /** `max(session_date)` over the rows of the given sources. */
  function MaxDate(rows: seq<Row>, sources: seq<string>, listing: ListingId, kind: ObservationType): (last: Option<Date>)
    ensures last.None? ==> forall row | row in rows :: !InSources(row, sources, listing, kind)
    ensures last.Some? ==>
      && (exists row | row in rows :: InSources(row, sources, listing, kind) && row.key.date == last.value)
      && (forall row | row in rows && InSources(row, sources, listing, kind) :: row.key.date <= last.value)
  {
    if rows == [] then None
    else
      var before := MaxDate(rows[..|rows| - 1], sources, listing, kind);
      var row := rows[|rows| - 1];
      assert rows == rows[..|rows| - 1] + [row];
      if InSources(row, sources, listing, kind) && (before.None? || before.value < row.key.date)
      then Some(row.key.date) else before
  }

  function AuthorisedOf(enabled: seq<string>, decisions: Decisions): (sources: seq<string>)
    ensures forall s :: s in sources <==> s in enabled && Authorized(decisions, s)
  {
    if enabled == [] then []
    else
      var rest := AuthorisedOf(enabled[1..], decisions);
      assert enabled == [enabled[0]] + enabled[1..];
      (if Authorized(decisions, enabled[0]) then [enabled[0]] else []) + rest
  }

  /** The aggregate query is exactly the greatest date at which `select` succeeds, and `None` if it never does. */
  method LatestPublishableSessionDate(src: Sources, listing: ListingId, kind: ObservationType) returns (last: Option<Date>)
    ensures last.None? <==> forall d :: !PublishableOn(src, listing, kind, d)
    ensures last.Some? ==> PublishableOn(src, listing, kind, last.value)
    ensures last.Some? ==> forall d | PublishableOn(src, listing, kind, d) :: d <= last.value
  {
    var authorised := AuthorisedOf(src.enabled, src.decisions);
    forall d {
      PublishableNeedsRow(src, listing, kind, d, authorised);
    }
    if authorised == [] {
      return None;
    }
    last := MaxDate(src.rows, authorised, listing, kind);
    if last.Some? {
      assert PublishableOn(src, listing, kind, last.value);
    }
  }

  lemma PublishableNeedsRow(src: Sources, listing: ListingId, kind: ObservationType, d: Date, authorised: seq<string>)
    requires forall s :: s in authorised <==> s in src.enabled && Authorized(src.decisions, s)
    ensures PublishableOn(src, listing, kind, d) <==>
      exists row | row in src.rows :: InSources(row, authorised, listing, kind) && row.key.date == d
  {
    var q := Query(listing, d, kind);
    if PublishableOn(src, listing, kind, d) {
      var source :| source in src.enabled && Publishable(src.rows, src.decisions, q, source);
      var row :| row in src.rows && Matches(row, q) && row.key.source == source;
      assert InSources(row, authorised, listing, kind);
    }
    if exists row | row in src.rows :: InSources(row, authorised, listing, kind) && row.key.date == d {
      var row :| row in src.rows && InSources(row, authorised, listing, kind) && row.key.date == d;
      assert Matches(row, q);
      assert Publishable(src.rows, src.decisions, q, row.key.source);
    }
  }

  /**
   The fast form and the slow form, asked together: they name the same date exactly if the greatest publishable date
   lies in the window of the slow one, whatever else is stored; the slow one never names a later date. With nothing
   publishable after today, the slow form finds something exactly if that date is in its window.
   */
  method LatestBothWays(src: Sources, cal: Calendar, listing: ListingId, kind: ObservationType, today: Date)
    returns (last: Option<Date>, out: ObservationOut)
    ensures out.availability.Available? && last == Some(out.date) <==>
      last.Some? && today - LATEST_LOOKBACK_DAYS <= last.value <= today
    ensures out.availability.Available? ==> last.Some? && out.date <= last.value
    ensures (forall d | PublishableOn(src, listing, kind, d) :: d <= today) ==>
      (out.availability.Available? <==> last.Some? && today - LATEST_LOOKBACK_DAYS <= last.value)
  {
    last := LatestPublishableSessionDate(src, listing, kind);
    out := FindLatestObservation(src, cal, listing, kind, today);
    assert out.availability.Available? ==> PublishableOn(src, listing, kind, out.date);
  }

  /** One entry for each date of `[start, end]`, in order. */
  method BuildObservationRange(src: Sources, cal: Calendar, listing: ListingId, kind: ObservationType, start: Date, end: Date)
    returns (results: seq<ObservationOut>)
    ensures |results| == if start <= end then end - start + 1 else 0
    ensures forall i | 0 <= i < |results| :: Shows(src, cal, listing, kind, start + i, results[i])
  {
    results := [];
    var current := start;
    while current <= end
      invariant current == start + |results|
      invariant start <= end ==> current <= end + 1
      invariant start > end ==> current == start
      invariant forall i | 0 <= i < |results| :: Shows(src, cal, listing, kind, start + i, results[i])
    {
      var out := BuildObservationOut(src, cal, listing, kind, current);
      results := results + [out];
      current := current + 1;
    }
  }
}

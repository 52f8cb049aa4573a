/** The rows and values of the ingestion engine: jobs, observations, raw responses, policy decisions. */
module Domain {
  import opened Wrappers

  /** Seconds on one clock. */
  type Instant = int

  /** Proleptic Gregorian ordinal, as `date.toordinal` numbers days: day 1 is a Monday. */
  type Date = int

  type JobId = nat
  type ListingId = nat

  /** Position of a decision in the append-only decision log. */
  type DecisionId = nat

  datatype ObservationType = EodClose | Nav

  datatype QualityStatus = Good | Suspect

  /** Everything a worker needs to fetch one range. */
  datatype FetchCursor = FetchCursor(externalId: string, scope: string, kind: ObservationType, start: Date, end: Date)

  datatype JobStatus = Pending | Claimed | Running | WaitingForPublication | Done | Failed

  /** A row of the `jobs` table. `cursor` is `None` when the stored text does not parse. */
  datatype Job = Job(
    source: string,
    dedupeKey: string,
    listing: ListingId,
    cursor: Option<FetchCursor>,
    status: JobStatus,
    attempts: nat,
    maxAttempts: nat,
    nextRunAt: Instant,
    claimedBy: Option<string>,
    claimedAt: Option<Instant>,
    generation: nat,
    lastError: Option<string>)

  /** Natural idempotency key of an observation. */
  datatype Key = Key(source: string, scope: string, externalId: string, date: Date, kind: ObservationType)

  /** The fields that decide whether two writes carry the same value. */
  datatype Value = Value(
    currency: string,
    close: real,
    open: Option<real>,
    high: Option<real>,
    low: Option<real>,
    adjustedClose: Option<real>,
    quality: QualityStatus)

  /** A row of the append-only `observations` table. */
  datatype Row = Row(
    key: Key,
    revision: nat,
    value: Value,
    listing: ListingId,
    retrievedAt: Instant,
    retrieval: Option<DecisionId>,
    storage: Option<DecisionId>)

  /** A candidate observation before its revision is known. */
  datatype ObservationInput = ObservationInput(
    key: Key,
    value: Value,
    listing: ListingId,
    retrievedAt: Instant,
    retrieval: Option<DecisionId>,
    storage: Option<DecisionId>)

  /** One observation as a provider returns it. */
  datatype RawObservation = RawObservation(
    externalId: string,
    date: Date,
    kind: ObservationType,
    currency: string,
    close: real,
    open: Option<real>,
    high: Option<real>,
    low: Option<real>,
    adjustedClose: Option<real>)

  datatype Capability = Retrieve | Store | Display | Redistribute | Attribute | Retain

  datatype PolicyStatus = Approved | Denied | Unresolved

  /** One immutable version of a source's policy for one capability. */
  datatype Decision = Decision(source: string, capability: Capability, version: nat, status: PolicyStatus)

  datatype SessionExpectation = ExpectedPublished | WaitingPublication | NoSession
}

/** Admission of one raw observation: accept or reject, nothing is repaired. */
module Validation {
  import opened Wrappers
  import opened Domain
  import opened ObservationTable

  datatype Malformation = WrongListing | OutsideRange | BadCurrency | BadClose

  predicate IsCurrency(s: string) {
    |s| == 3 && forall i | 0 <= i < |s| :: 'A' <= s[i] <= 'Z'
  }

  function Validate(raw: RawObservation, cursor: FetchCursor): Option<Malformation> {
    if raw.externalId != cursor.externalId then Some(WrongListing)
    else if !(cursor.start <= raw.date <= cursor.end) then Some(OutsideRange)
    else if !IsCurrency(raw.currency) then Some(BadCurrency)
    else if raw.close <= 0.0 then Some(BadClose)
    else None
  }

  predicate Valid(raw: RawObservation, cursor: FetchCursor) {
    Validate(raw, cursor).None?
  }

  function ValueOf(raw: RawObservation): Value {
    Value(raw.currency, raw.close, raw.open, raw.high, raw.low, raw.adjustedClose, Good)
  }

  /** The observation's own type goes into the key; it is not compared with the type of the cursor. */
  function KeyOf(source: string, cursor: FetchCursor, raw: RawObservation): Key {
    Key(source, cursor.scope, raw.externalId, raw.date, raw.kind)
  }

  /** What was admitted is stored as it was received: the upper-casing of the store does not change it. */
  lemma AdmittedValueIsNormal(raw: RawObservation, cursor: FetchCursor)
    requires Valid(raw, cursor)
    ensures Normal(ValueOf(raw)) == ValueOf(raw)
  {
    assert Upper(raw.currency) == raw.currency;
  }
}

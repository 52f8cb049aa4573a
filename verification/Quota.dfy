/** In-memory quota book of one provider. */
module Quota {
  import opened Wrappers
  import opened Domain

  datatype QuotaStatus = QuotaStatus(remaining: nat, limit: nat, resetAt: Option<Instant>) {
    predicate Exhausted() {
      remaining == 0
    }
  }

  class QuotaBook {
    const limit: nat
    const resetAt: Option<Instant>
    var consumed: map<string, nat>

    constructor (limit: nat, resetAt: Option<Instant>)
      ensures this.limit == limit && this.resetAt == resetAt && consumed == map[]
    {
      this.limit := limit;
      this.resetAt := resetAt;
      consumed := map[];
    }

    function Used(source: string): nat
      reads this
    {
      if source in consumed then consumed[source] else 0
    }

    predicate Spent(source: string)
      reads this
    {
      Used(source) >= limit
    }

    method Check(source: string) returns (status: QuotaStatus)
      ensures status.Exhausted() <==> Spent(source)
      ensures !Spent(source) ==> status.remaining == limit - Used(source)
      ensures status.limit == limit && status.resetAt == resetAt
    {
      var used := Used(source);
      status := QuotaStatus(if limit > used then limit - used else 0, limit, resetAt);
    }

    /**
     Refuses once the quota is spent. The book then stays within its limit exactly if the cost fits in what
     remains; the runner only ever asks for one unit.
     */
    method Consume(source: string, cost: nat) returns (status: QuotaStatus)
      modifies this
      ensures Used(source) == if old(Spent(source)) then old(Used(source)) else old(Used(source)) + cost
      ensures forall other | other != source :: Used(other) == old(Used(other))
      ensures consumed == if old(Spent(source)) then old(consumed) else old(consumed)[source := old(Used(source)) + cost]
      ensures !old(Spent(source)) ==> (Used(source) <= limit <==> cost <= limit - old(Used(source)))
      ensures status.Exhausted() <==> Spent(source)
    {
      status := Check(source);
      if !status.Exhausted() {
        consumed := consumed[source := Used(source) + cost];
        status := Check(source);
      }
    }
  }
}

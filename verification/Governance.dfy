/** Versioned policy decisions and the gates that read them. */
module Governance {
  import opened Wrappers
  import opened Domain

  type Decisions = seq<Decision>

  predicate Concerns(d: Decision, source: string, capability: Capability) {
    d.source == source && d.capability == capability
  }

  /** The decision with the highest version for the source and capability. */
  function Effective(decisions: Decisions, source: string, capability: Capability): (id: Option<DecisionId>)
    ensures id.Some? ==> id.value < |decisions| && Concerns(decisions[id.value], source, capability)
  {
    if decisions == [] then None
    else
      var last := |decisions| - 1;
      var before := Effective(decisions[..last], source, capability);
      if Concerns(decisions[last], source, capability)
         && (before.None? || decisions[before.value].version < decisions[last].version)
      then Some(last)
      else before
  }

  /** Without any recorded decision the status is UNRESOLVED, never APPROVED. */
  function EffectiveStatus(decisions: Decisions, source: string, capability: Capability): PolicyStatus {
    var id := Effective(decisions, source, capability);
    if id.None? then Unresolved else decisions[id.value].status
  }

  function NextVersion(decisions: Decisions, source: string, capability: Capability): nat {
    var id := Effective(decisions, source, capability);
    if id.None? then 1 else decisions[id.value].version + 1
  }

  predicate VersionTaken(decisions: Decisions, source: string, capability: Capability, version: nat) {
    exists d | d in decisions :: Concerns(d, source, capability) && d.version == version
  }

  /**
   `record_decision`, whose version was computed from the first `readAt` decisions: whatever was recorded since is
   not seen, and the unique constraint decides.
   */
  function Decide(decisions: Decisions, readAt: nat, source: string, capability: Capability, status: PolicyStatus): Decisions
    requires readAt <= |decisions|
  {
    var version := NextVersion(decisions[..readAt], source, capability);
    if VersionTaken(decisions, source, capability, version)
    then decisions
    else decisions + [Decision(source, capability, version, status)]
  }

  predicate Authorized(decisions: Decisions, source: string) {
    && EffectiveStatus(decisions, source, Store).Approved?
    && EffectiveStatus(decisions, source, Display).Approved?
    && EffectiveStatus(decisions, source, Redistribute).Approved?
  }

  datatype Authorization = Authorization(retrieval: DecisionId, storage: DecisionId)

  /** The gate before fetching and persisting: RETRIEVE and STORE, and the decisions that granted them. */
  function AuthorizeIngestion(decisions: Decisions, source: string): Option<Authorization> {
    if EffectiveStatus(decisions, source, Retrieve).Approved? && EffectiveStatus(decisions, source, Store).Approved?
    then Some(Authorization(Effective(decisions, source, Retrieve).value, Effective(decisions, source, Store).value))
    else None
  }

  // ---------------------------------------------------------------- versions 1..n

  function Versions(decisions: Decisions, source: string, capability: Capability): seq<nat> {
    if decisions == [] then []
    else
      var last := |decisions| - 1;
      var before := Versions(decisions[..last], source, capability);
      if Concerns(decisions[last], source, capability) then before + [decisions[last].version] else before
  }

  predicate Counted(versions: seq<nat>) {
    forall i | 0 <= i < |versions| :: versions[i] == i + 1
  }

  ghost predicate Versioned(decisions: Decisions) {
    forall source, capability :: Counted(Versions(decisions, source, capability))
  }

  /** The effective decision is the newest one, and its version is their number. */
  lemma {:induction false} EffectiveIsNewest(decisions: Decisions, source: string, capability: Capability)
    requires Counted(Versions(decisions, source, capability))
    ensures
      var n := |Versions(decisions, source, capability)|;
      var id := Effective(decisions, source, capability);
      if n == 0 then id.None? else id.Some? && decisions[id.value].version == n
    ensures NextVersion(decisions, source, capability) == |Versions(decisions, source, capability)| + 1
  {
    if decisions != [] {
      var versions := Versions(decisions, source, capability);
      var before := Versions(decisions[..|decisions| - 1], source, capability);
      assert forall i | 0 <= i < |before| :: before[i] == versions[i];
      EffectiveIsNewest(decisions[..|decisions| - 1], source, capability);
      if Concerns(decisions[|decisions| - 1], source, capability) {
        assert versions == before + [decisions[|decisions| - 1].version];
        assert versions[|before|] == |before| + 1;
      }
    }
  }

  lemma {:induction false} VersionsMembers(decisions: Decisions, source: string, capability: Capability, version: nat)
    ensures version in Versions(decisions, source, capability) <==> VersionTaken(decisions, source, capability, version)
  {
    if decisions != [] {
      var last := |decisions| - 1;
      VersionsMembers(decisions[..last], source, capability, version);
      assert decisions == decisions[..last] + [decisions[last]];
    }
  }

  lemma {:induction false} VersionsGrow(decisions: Decisions, n: nat, source: string, capability: Capability)
    requires n <= |decisions|
    ensures Versions(decisions[..n], source, capability) <= Versions(decisions, source, capability)
    decreases |decisions|
  {
    if n < |decisions| {
      var shorter := decisions[..|decisions| - 1];
      VersionsGrow(shorter, n, source, capability);
      assert shorter[..n] == decisions[..n];
    } else {
      assert decisions[..n] == decisions;
    }
  }

  lemma CountedMembers(versions: seq<nat>, version: nat)
    requires Counted(versions)
    ensures version in versions <==> 1 <= version <= |versions|
  {
    if 1 <= version <= |versions| {
      assert versions[version - 1] == version;
    }
  }

  /** Reviewers may race: versions still come out as exactly 1..n, and no decision is ever changed. */
  lemma DecideKeepsVersioned(decisions: Decisions, readAt: nat, source: string, capability: Capability, status: PolicyStatus)
    requires Versioned(decisions) && readAt <= |decisions|
    ensures Versioned(Decide(decisions, readAt, source, capability, status))
    ensures decisions <= Decide(decisions, readAt, source, capability, status)
  {
    var after := Decide(decisions, readAt, source, capability, status);
    if after != decisions {
      var known := Versions(decisions[..readAt], source, capability);
      var all := Versions(decisions, source, capability);
      VersionsGrow(decisions, readAt, source, capability);
      assert forall i | 0 <= i < |known| :: known[i] == all[i];
      assert Counted(known);
      EffectiveIsNewest(decisions[..readAt], source, capability);
      VersionsMembers(decisions, source, capability, |known| + 1);
      CountedMembers(all, |known| + 1);
      assert after[..|decisions|] == decisions;
      forall s, c
        ensures Counted(Versions(after, s, c))
      {
        assert Counted(Versions(decisions, s, c));
      }
    }
  }

  // ---------------------------------------------------------------- effect of one decision

  /** A decision recorded without a race is accepted and becomes the effective one, and only for its own pair. */
  lemma DecideTakesEffect(decisions: Decisions, source: string, capability: Capability, status: PolicyStatus, s: string, c: Capability)
    requires Versioned(decisions)
    ensures
      var after := Decide(decisions, |decisions|, source, capability, status);
      && |after| == |decisions| + 1
      && EffectiveStatus(after, s, c)
         == if s == source && c == capability then status else EffectiveStatus(decisions, s, c)
  {
    assert decisions[..|decisions|] == decisions;
    assert Counted(Versions(decisions, source, capability));
    EffectiveIsNewest(decisions, source, capability);
    VersionsMembers(decisions, source, capability, NextVersion(decisions, source, capability));
    var after := Decide(decisions, |decisions|, source, capability, status);
    assert after[..|decisions|] == decisions;
  }

  predicate PublicationCapability(c: Capability) {
    c.Store? || c.Display? || c.Redistribute?
  }

  /** Taking away one publication permission silences the source at once and leaves every other source as it was. */
  lemma RevocationSilences(decisions: Decisions, source: string, capability: Capability, status: PolicyStatus, s: string)
    requires Versioned(decisions) && PublicationCapability(capability) && !status.Approved?
    ensures
      var after := Decide(decisions, |decisions|, source, capability, status);
      Authorized(after, s) <==> Authorized(decisions, s) && s != source
  {
    DecideTakesEffect(decisions, source, capability, status, s, Store);
    DecideTakesEffect(decisions, source, capability, status, s, Display);
    DecideTakesEffect(decisions, source, capability, status, s, Redistribute);
  }

  /** Approving again what was approved before the revocation restores exactly the authorizations of before. */
  lemma ReinstatementRestores(decisions: Decisions, source: string, capability: Capability, status: PolicyStatus, s: string)
    requires Versioned(decisions) && PublicationCapability(capability)
    ensures
      var revoked := Decide(decisions, |decisions|, source, capability, status);
      var restored := Decide(revoked, |revoked|, source, capability, Approved);
      EffectiveStatus(decisions, source, capability).Approved? ==>
        (Authorized(restored, s) <==> Authorized(decisions, s))
  {
    var revoked := Decide(decisions, |decisions|, source, capability, status);
    DecideKeepsVersioned(decisions, |decisions|, source, capability, status);
    StatusesAfter(decisions, source, capability, status, s);
    StatusesAfter(revoked, source, capability, Approved, s);
  }

  lemma StatusesAfter(decisions: Decisions, source: string, capability: Capability, status: PolicyStatus, s: string)
    requires Versioned(decisions)
    ensures
      var after := Decide(decisions, |decisions|, source, capability, status);
      forall c: Capability :: EffectiveStatus(after, s, c)
         == if s == source && c == capability then status else EffectiveStatus(decisions, s, c)
  {
    forall c: Capability {
      DecideTakesEffect(decisions, source, capability, status, s, c);
    }
  }

  // ---------------------------------------------------------------- provenance

  /** Both decisions were APPROVED and effective together at some moment of the decision log. */
  ghost predicate Granted(decisions: Decisions, source: string, auth: Authorization) {
    exists n: nat | n <= |decisions| :: AuthorizeIngestion(decisions[..n], source) == Some(auth)
  }

  lemma GrantedNow(decisions: Decisions, source: string)
    requires AuthorizeIngestion(decisions, source).Some?
    ensures Granted(decisions, source, AuthorizeIngestion(decisions, source).value)
  {
    assert decisions[..|decisions|] == decisions;
  }

  /** Later decisions do not touch what was granted, nor the status of the decisions that granted it. */
  lemma GrantedLasts(decisions: Decisions, later: Decisions, source: string, auth: Authorization)
    requires decisions <= later && Granted(decisions, source, auth)
    ensures Granted(later, source, auth)
    ensures auth.retrieval < |later| && later[auth.retrieval].source == source
            && later[auth.retrieval].capability == Retrieve && later[auth.retrieval].status == Approved
    ensures auth.storage < |later| && later[auth.storage].source == source
            && later[auth.storage].capability == Store && later[auth.storage].status == Approved
  {
    var n: nat :| n <= |decisions| && AuthorizeIngestion(decisions[..n], source) == Some(auth);
    assert later[..n] == decisions[..n];
    assert decisions[..n][auth.retrieval] == later[auth.retrieval];
    assert decisions[..n][auth.storage] == later[auth.storage];
  }

  class PolicyGate {
    var decisions: Decisions

    constructor ()
      ensures decisions == [] && Versioned(decisions)
    {
      decisions := [];
    }

    method RecordDecision(source: string, capability: Capability, status: PolicyStatus) returns (id: DecisionId)
      requires Versioned(decisions)
      modifies this
      ensures Versioned(decisions) && old(decisions) <= decisions
      ensures id == |old(decisions)| && |decisions| == |old(decisions)| + 1
      ensures EffectiveStatus(decisions, source, capability) == status
      ensures decisions == Decide(old(decisions), |old(decisions)|, source, capability, status)
    {
      DecideTakesEffect(decisions, source, capability, status, source, capability);
      DecideKeepsVersioned(decisions, |decisions|, source, capability, status);
      id := |decisions|;
      decisions := Decide(decisions, |decisions|, source, capability, status);
    }

    /** Succeeds if and only if nothing blocks, and otherwise names exactly what does. */
    method Require(source: string, capabilities: set<Capability>)
      returns (statuses: Result<map<Capability, PolicyStatus>, map<Capability, PolicyStatus>>)
      ensures statuses.Success? <==> forall c | c in capabilities :: EffectiveStatus(decisions, source, c).Approved?
      ensures statuses.Success? ==> statuses.value.Keys == capabilities
      ensures statuses.Failure? ==> forall c ::
        (c in statuses.error <==> c in capabilities && !EffectiveStatus(decisions, source, c).Approved?)
        && (c in statuses.error ==> statuses.error[c] == EffectiveStatus(decisions, source, c))
    {
      var all := map c | c in capabilities :: EffectiveStatus(decisions, source, c);
      var blocking := map c | c in capabilities && !all[c].Approved? :: all[c];
      if |blocking| > 0 {
        return Failure(blocking);
      }
      assert blocking.Keys == {};
      forall c | c in capabilities
        ensures all[c].Approved?
      {
        assert c !in blocking;
      }
      return Success(all);
    }
  }
}

/**
 The admission gate in front of the L2 (root-cause) diagnostics. Deep
 diagnostics may run on the latest L1 feature snapshot of an asset's
 measurement point only when an early-fault event for that same asset and
 point says so, and only when that event does not predate the snapshot. The
 gate is fail-closed: every failed check yields no findings and the rule set is
 never consulted.

 The rule set itself is outside this model; it enters as the function-valued
 parameter `runRules`, so every property below holds whatever the rules do.
 */
module DiagnosticEngine {
  import opened Wrappers
  import opened FeatureMaps

  /** The most recent L1 feature snapshot for one (asset, point). */
  datatype L1Snapshot = L1Snapshot(asset: string, point: string, timestamp: real, features: FeatureMap)

  /**
   An early-fault event. `earlyFault` is `None` when the event carries no
   `early_fault` entry at all.
   */
  datatype EarlyFaultEvent = EarlyFaultEvent(
    asset: string,
    point: string,
    earlyFault: Option<bool>,
    timestamp: real,
    state: string)

  /** Why the gate refused; the source collapses all of these to an empty result. */
  datatype BlockReason = NoEarlyFault | AssetMismatch | PointMismatch | StaleEvent

  datatype GateDecision = Admit(snapshot: L1Snapshot) | Blocked(reason: BlockReason)

  /** `early_fault_event.get("early_fault", False)` */
  predicate FaultFlagged(ev: EarlyFaultEvent)
    ensures FaultFlagged(ev) <==> ev.earlyFault == Some(true)
  {
    ev.earlyFault.GetOr(false)
  }

  /**
   The three requirements taken together, independently of the order in which
   the gate checks them.
   */
  predicate Admissible(s: L1Snapshot, ev: EarlyFaultEvent) {
    && FaultFlagged(ev)
    && s.asset == ev.asset
    && s.point == ev.point
    && s.timestamp <= ev.timestamp
  }

  /**
   The guard chain, checked in order: the early-fault flag, then the asset,
   then the point, then the time order. The first failing check decides the
   outcome whatever the later fields hold; when all pass, the snapshot goes on
   unchanged.
   */
  function Gate(s: L1Snapshot, ev: EarlyFaultEvent): (d: GateDecision)
    ensures d.Admit? <==> Admissible(s, ev)
    ensures d.Admit? ==> d.snapshot == s
    ensures !FaultFlagged(ev) ==> d == Blocked(NoEarlyFault)
    ensures FaultFlagged(ev) && s.asset != ev.asset ==> d == Blocked(AssetMismatch)
    ensures FaultFlagged(ev) && s.asset == ev.asset && s.point != ev.point ==> d == Blocked(PointMismatch)
    ensures FaultFlagged(ev) && s.asset == ev.asset && s.point == ev.point && ev.timestamp < s.timestamp
      ==> d == Blocked(StaleEvent)
  {
    if !FaultFlagged(ev) then Blocked(NoEarlyFault)
    else if s.asset != ev.asset then Blocked(AssetMismatch)
    else if s.point != ev.point then Blocked(PointMismatch)
    else if ev.timestamp < s.timestamp then Blocked(StaleEvent)
    else Admit(s)
  }

  /**
   `run_diagnostic`: the rule set's findings on the snapshot when the gate
   admits it, and no findings otherwise.
   */
  function RunDiagnostic<F>(runRules: L1Snapshot -> seq<F>, s: L1Snapshot, ev: EarlyFaultEvent): (r: seq<F>)
    ensures Admissible(s, ev) ==> r == runRules(s)
    ensures !Admissible(s, ev) ==> r == []
    // fail-closed: any finding means every check held
    ensures r != [] ==> FaultFlagged(ev) && s.asset == ev.asset && s.point == ev.point && s.timestamp <= ev.timestamp
  {
    match Gate(s, ev)
    case Admit(snapshot) => runRules(snapshot)
    case Blocked(_) => []
  }

  /**
   A blocked call does not depend on the rule set at all: two rule sets give
   the same (empty) answer, which is how a pure model says the rules are not run.
   */
  lemma BlockedIgnoresRules<F>(rules1: L1Snapshot -> seq<F>, rules2: L1Snapshot -> seq<F>, s: L1Snapshot, ev: EarlyFaultEvent)
    requires Gate(s, ev).Blocked?
    ensures RunDiagnostic(rules1, s, ev) == RunDiagnostic(rules2, s, ev) == []
  {
  }

  /** The accept case: matching identity and an event one second after the snapshot. */
  lemma AcceptScenario(features: FeatureMap)
    ensures
      var s := L1Snapshot("PUMP_01", "DE", 99.0, features);
      Gate(s, EarlyFaultEvent("PUMP_01", "DE", Some(true), 100.0, "WARNING")) == Admit(s)
  {
  }

  /** Equal timestamps are admitted; an earlier event is stale; a different point is refused. */
  lemma BoundaryScenarios(features: FeatureMap)
    ensures
      var s := L1Snapshot("PUMP_01", "DE", 99.0, features);
      && Gate(s, EarlyFaultEvent("PUMP_01", "DE", Some(true), 99.0, "WARNING")) == Admit(s)
      && Gate(s, EarlyFaultEvent("PUMP_01", "DE", Some(true), 50.0, "WARNING")) == Blocked(StaleEvent)
      && Gate(s, EarlyFaultEvent("PUMP_01", "NDE", Some(true), 100.0, "WARNING")) == Blocked(PointMismatch)
      && Gate(s, EarlyFaultEvent("PUMP_01", "DE", Some(false), 100.0, "WARNING")) == Blocked(NoEarlyFault)
  {
  }
}

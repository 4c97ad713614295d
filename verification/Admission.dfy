/** Admission of a paid campaign: the arithmetic that decides whether its spend can start on a
    ledger, and why, once it started, the hard cap never stops it. */
module Admission {
  import opened Outcome
  import opened BudgetLog
  import opened BudgetLedger
  import opened CostEstimate

  const PROBE_ATTEMPTS := 2

  const UNLIMITED := 0x7fff_ffff_ffff_ffff

  /** The budget section of a campaign suite. */
  datatype Campaign = Campaign(suite: Suite, hardCapCny: real, maxInput: int, maxOutput: int)
  {
    /** The call ceilings are the largest ones of any pack. */
    predicate Valid() {
      && suite.Valid() && suite.budgets != []
      && (forall b :: b in suite.budgets ==> b.maxInput <= maxInput && b.maxOutput <= maxOutput)
      && (exists b :: b in suite.budgets && b.maxInput == maxInput)
      && (exists b :: b in suite.budgets && b.maxOutput == maxOutput)
    }

    function Tracks(): seq<Track> {
      suite.TracksOf([Calibration, Formal])
    }

    /** What the ledger is configured with, apart from the approval. */
    function ConfigWith(ceiling: int, maxAdditional: Option<int>, baseline: int, approval: Option<string>,
                        prefixCount: int, prefixDigest: Option<Log>, prefixCharged: real): Config {
      Config(hardCapCny, suite.externalReserveCny, ceiling, maxInput, maxOutput,
             suite.inputUsdPerMillion, suite.outputUsdPerMillion, suite.usdToCny,
             maxAdditional, baseline, approval, prefixCount, prefixDigest, prefixCharged)
    }
  }

  /** An approval on disk, bound to one suite, commit and runtime configuration. Its digest is
      its own pre-image, so it is represented by its name only. */
  datatype Approval = Approval(
    identity: string, baseline: int, authorized: int, ceiling: int, maxAdditional: int,
    prefixCount: int, prefixDigest: Log, prefixCharged: real)
  {
    predicate Matches(identity: string, authorized: int, maxAdditional: int) {
      && this.identity == identity && this.authorized == authorized && this.maxAdditional == maxAdditional
      && ceiling == baseline + authorized && 0 <= prefixCount && 0.0 <= prefixCharged
    }

    function ConfigFor(c: Campaign): Config {
      c.ConfigWith(ceiling, Some(maxAdditional), baseline, Some(identity), prefixCount, Some(prefixDigest), prefixCharged)
    }
  }

  datatype AdmissionError =
    | Inestimable(fault: EstimateError)
    | ApprovalMismatch
    | ConfigInvalid
    | LedgerRefused(cause: BudgetError)
    | LedgerIncompleteOrOverCap
    | InsufficientBudget
    | LedgerDoesNotMatchApproval

  function Authorized(e: CostEstimate): int {
    e.requestAttempts + PROBE_ATTEMPTS
  }

  function AdditionalCeiling(c: Campaign): int {
    c.suite.maxAdditional + PROBE_ATTEMPTS - 1
  }

  /** How the ledger is opened for inspection. */
  function InspectionConfig(c: Campaign, stored: Option<Approval>, otherApprovals: bool): Config {
    match stored
    case Some(a) => a.ConfigFor(c)
    case None =>
      c.ConfigWith(UNLIMITED, None, 0, if otherApprovals then Some("frozen-approval-history") else None, 0, None, 0.0)
  }

  /** The approval written for a ledger found with `log`. */
  function ApprovalOf(c: Campaign, identity: string, e: CostEstimate, log: Log): Approval
    requires WellFormed(log)
  {
    Approval(identity, |ReservedIds(log)|, Authorized(e), |ReservedIds(log)| + Authorized(e), AdditionalCeiling(c),
             |log|, log, Charged(log))
  }

  /** The spend found on the ledger, the estimate, and the probes fit under the cap. */
  predicate Projected(c: Campaign, e: CostEstimate, log: Log)
    requires WellFormed(log)
  {
    Charged(log) + e.cny + PROBE_ATTEMPTS as real * MaximumCny(c) <= c.hardCapCny
  }

  /** The dearest call the campaign's ceilings allow. */
  function MaximumCny(c: Campaign): real {
    c.ConfigWith(UNLIMITED, None, 0, None, 0, None, 0.0).MaximumRequestCny()
  }

  ghost predicate IsEstimate(c: Campaign, e: CostEstimate) {
    && AllPlannable(c.suite, c.Tracks())
    && exists d :: IsDearest(d, CallCandidates(c.suite, c.Tracks())) && c.suite.HasBudget(d.packId)
                   && e == EstimateWith(c.suite, c.Tracks(), d.packId)
  }

  /** A campaign newly admitted on a ledger that held `log`. */
  ghost predicate Admitted(c: Campaign, identity: string, e: CostEstimate, log: Log, cfg: Config) {
    && WellFormed(log) && OpenIds(log) == {} && !Blocked(log)
    && IsEstimate(c, e) && Projected(c, e, log)
    && cfg == ApprovalOf(c, identity, e, log).ConfigFor(c)
  }

  /** The last check: the ledger is consistent with the approval it is opened under. */
  predicate WithinApproval(cfg: Config, s: BudgetSnapshot) {
    && s.complete && s.CommittedCny(cfg) <= cfg.hardCapCny
    && cfg.baseline <= s.requestAttempts <= cfg.maxTotalAttempts
    && (cfg.maxAdditional.Some? ==> s.additional <= cfg.maxAdditional.value)
  }

  /** The worst case can be estimated: every pack divides into its blocks, and the additional
      attempts fit the retries per call. */
  predicate Estimable(c: Campaign) {
    && AllPlannable(c.suite, c.Tracks())
    && c.suite.maxAdditional <= CampaignTotals(c.suite, c.Tracks()).calls * (c.suite.callMaxAttempts - 1)
  }

  /** The ledger opens, holds no open or blocking accounting, and is under the campaign's cap. */
  predicate Inspectable(c: Campaign, cfg: Config, disk: Disk) {
    && cfg.Valid() && Accepts(cfg, disk) && ScopeReadable(cfg, disk.log)
    && OpenIds(disk.log) == {} && !Blocked(disk.log)
    && Charged(disk.log) + cfg.externalReserveCny <= c.hardCapCny
  }

  /** The ledger opens under its approval and is consistent with it. */
  predicate Opens(cfg: Config, disk: Disk) {
    && cfg.Valid() && Accepts(cfg, disk) && ScopeReadable(cfg, disk.log)
    && WithinApproval(cfg, SnapshotOf(cfg, disk.log))
  }

  /** Succeeds exactly on a ledger that can be inspected. */
  method InspectLedger(c: Campaign, disk: Disk, stored: Option<Approval>, otherApprovals: bool)
    returns (r: Result<BudgetSnapshot, AdmissionError>, left: Disk)
    ensures left.log == disk.log
    ensures r.Success? <==> Inspectable(c, InspectionConfig(c, stored, otherApprovals), disk)
    ensures r.Success? ==>
      var cfg := InspectionConfig(c, stored, otherApprovals);
      && cfg.Valid() && Accepts(cfg, disk) && WellFormed(disk.log) && InSync(left)
      && BaselineInside(disk.log, cfg.baseline) && r.value == SnapshotOf(cfg, disk.log)
      && r.value.complete && r.value.CommittedCny(cfg) <= c.hardCapCny
  {
    left := disk;
    var cfg := InspectionConfig(c, stored, otherApprovals);
    if !cfg.Valid() {
      return Failure(ConfigInvalid), left;
    }
    var ledger := new ProviderBudgetLedger(cfg, disk);
    var snapshot := ledger.TakeSnapshot();
    Completed(cfg, disk, Snapshot);
    left := Disk(ledger.log, ledger.highWater);
    if snapshot.Failure? {
      return Failure(LedgerRefused(snapshot.error)), left;
    }
    if !snapshot.value.complete || snapshot.value.CommittedCny(cfg) > c.hardCapCny {
      return Failure(LedgerIncompleteOrOverCap), left;
    }
    r := Success(snapshot.value);
  }

  /** Opens the ledger under its approval: succeeds exactly if it opens and is consistent with it. */
  method OpenApproved(c: Campaign, disk: Disk, approval: Approval)
    returns (r: Result<ProviderBudgetLedger, AdmissionError>)
    ensures r.Success? <==> Opens(approval.ConfigFor(c), disk)
    ensures r.Success? ==>
      && fresh(r.value) && r.value.Valid() && r.value.config == approval.ConfigFor(c) && r.value.log == disk.log
      && WellFormed(disk.log) && InSync(r.value.OnDisk()) && BaselineInside(disk.log, r.value.config.baseline)
      && WithinApproval(r.value.config, SnapshotOf(r.value.config, disk.log))
  {
    var cfg := approval.ConfigFor(c);
    if !cfg.Valid() {
      return Failure(ConfigInvalid);
    }
    var ledger := new ProviderBudgetLedger(cfg, disk);
    var snapshot := ledger.TakeSnapshot();
    Completed(cfg, disk, Snapshot);
    if snapshot.Failure? {
      return Failure(LedgerRefused(snapshot.error));
    }
    if !WithinApproval(cfg, snapshot.value) {
      return Failure(LedgerDoesNotMatchApproval);
    }
    r := Success(ledger);
  }

  /** The ledger is complete, under the cap, and consistent with the approval it is opened under. */
  ghost predicate Guarded(c: Campaign, e: CostEstimate, log: Log, approval: Approval, cfg: Config) {
    && IsEstimate(c, e) && cfg == approval.ConfigFor(c)
    && WellFormed(log) && OpenIds(log) == {} && !Blocked(log)
    && BaselineInside(log, cfg.baseline) && WithinApproval(cfg, SnapshotOf(cfg, log))
  }

  /** The approval a campaign is opened under: the stored one, or the one written for its ledger. */
  function Presented(c: Campaign, identity: string, e: CostEstimate, log: Log, stored: Option<Approval>): Approval
    requires WellFormed(log)
  {
    if stored.Some? then stored.value else ApprovalOf(c, identity, e, log)
  }

  /** When a campaign with estimate `e` may spend on the ledger it finds. */
  predicate MaySpend(c: Campaign, identity: string, e: CostEstimate, disk: Disk, stored: Option<Approval>,
                     otherApprovals: bool) {
    && (stored.Some? ==> stored.value.Matches(identity, Authorized(e), AdditionalCeiling(c)))
    && Inspectable(c, InspectionConfig(c, stored, otherApprovals), disk)
    && (stored.None? ==> Projected(c, e, disk.log))
    && Opens(Presented(c, identity, e, disk.log, stored).ConfigFor(c), Disk(disk.log, Some(HighWaterOf(disk.log))))
  }

  /** A first approval: the projected spend must fit under the cap. */
  method NewApproval(c: Campaign, identity: string, e: CostEstimate, existing: BudgetSnapshot, ghost log: Log)
    returns (r: Result<Approval, AdmissionError>)
    requires WellFormed(log)
    requires existing.eventCount == |log| && existing.digest == log && existing.requestAttempts == |ReservedIds(log)|
    requires existing.chargedCny == Charged(log)
    ensures r.Success? <==> Projected(c, e, log)
    ensures r.Success? ==> r.value == ApprovalOf(c, identity, e, log)
    ensures r.Failure? ==> r.error == InsufficientBudget
  {
    if existing.chargedCny + e.cny + PROBE_ATTEMPTS as real * MaximumCny(c) > c.hardCapCny {
      return Failure(InsufficientBudget);
    }
    r := Success(Approval(identity, existing.requestAttempts, Authorized(e), existing.requestAttempts + Authorized(e),
                          AdditionalCeiling(c), existing.eventCount, existing.digest, existing.chargedCny));
  }

  /** Decides whether a campaign may spend. A stored approval is only checked; without one the
      projected spend must fit under the cap, and the approval is written. */
  method PrepareBudgetGuard(c: Campaign, identity: string, disk: Disk, stored: Option<Approval>, otherApprovals: bool)
    returns (r: Result<ProviderBudgetLedger, AdmissionError>, ghost e: CostEstimate, approval: Option<Approval>)
    requires c.Valid()
    ensures Estimable(c) ==> IsEstimate(c, e)
    ensures r.Success? <==> Estimable(c) && MaySpend(c, identity, e, disk, stored, otherApprovals)
    ensures r.Success? ==>
      && fresh(r.value) && r.value.Valid() && r.value.log == disk.log && InSync(r.value.OnDisk())
      && approval.Some? && Guarded(c, e, disk.log, approval.value, r.value.config)
    ensures r.Success? && stored.Some? ==>
      approval == stored && stored.value.Matches(identity, Authorized(e), AdditionalCeiling(c))
    ensures r.Success? && stored.None? ==> Admitted(c, identity, e, disk.log, r.value.config)
    ensures stored.Some? ==> approval == stored
  {
    e := CostEstimate(0, 0, 0, 0, 0, 0, 0.0, 0.0);
    approval := stored;
    var estimated := EstimateWorstCaseCost(c.suite, [Calibration, Formal]);
    if estimated.Failure? {
      return Failure(Inestimable(estimated.error)), e, approval;
    }
    var estimate := estimated.value;
    e := estimate;
    if stored.Some? && !stored.value.Matches(identity, Authorized(estimate), AdditionalCeiling(c)) {
      return Failure(ApprovalMismatch), e, approval;
    }
    var inspected, left := InspectLedger(c, disk, stored, otherApprovals);
    if inspected.Failure? {
      return Failure(inspected.error), e, approval;
    }
    var existing := inspected.value;
    if stored.None? {
      var granted := NewApproval(c, identity, estimate, existing, disk.log);
      if granted.Failure? {
        return Failure(granted.error), e, approval;
      }
      approval := Some(granted.value);
    }
    r := OpenApproved(c, left, approval.value);
  }
}

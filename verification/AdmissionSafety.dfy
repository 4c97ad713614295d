/** An admitted campaign is never stopped by the hard cap: the estimate, the two probe
    attempts and the ledger's own limits together leave room for every reservation. */
module AdmissionSafety {
  import opened Outcome
  import opened Sequences
  import opened BudgetLog
  import opened BudgetLedger
  import opened BudgetSafety
  import opened BudgetMoney
  import opened CostEstimate
  import opened RetryRanking
  import opened CostBound
  import CostExact
  import opened Admission

  // ---------------------------------------------------------------- when a campaign is admitted

  lemma EstimateIsAuthorized(c: Campaign, e: CostEstimate)
    requires c.Valid() && IsEstimate(c, e)
    ensures 0 <= Authorized(e)
  {
    CostExact.CampaignCalls(c.suite, c.Tracks());
  }

  /** A fresh approval's configuration, apart from its prices. */
  lemma ApprovalIsValid(c: Campaign, identity: string, e: CostEstimate, log: Log, cfg: Config)
    requires c.Valid() && 0 <= Authorized(e) && WellFormed(log) && cfg == ApprovalOf(c, identity, e, log).ConfigFor(c)
    ensures cfg.Valid() <==> 0.0 <= Charged(log)
    ensures cfg.baseline == |Reservations(log)| && cfg.hardCapCny == c.hardCapCny && cfg.externalReserveCny == c.suite.externalReserveCny
    ensures cfg.prefixCount == |log| && cfg.prefixDigest == Some(log) && cfg.prefixCharged == Charged(log)
    ensures cfg.maxTotalAttempts >= |ReservedIds(log)| && cfg.maxAdditional.Some? && cfg.maxAdditional.value >= 0
  {
    ReservationCount(log);
  }

  lemma OwnPrefixMatches(cfg: Config, log: Log)
    requires cfg.Valid() && WellFormed(log)
    requires cfg.prefixCount == |log| && cfg.prefixDigest == Some(log) && cfg.prefixCharged == Charged(log)
    ensures Accepts(cfg, Disk(log, Some(HighWaterOf(log))))
  {
    assert log[..|log|] == log;
  }

  lemma NothingSinceBaseline(cfg: Config, log: Log)
    requires WellFormed(log) && cfg.baseline == |Reservations(log)| && OpenIds(log) == {} && !Blocked(log)
    requires Charged(log) + cfg.externalReserveCny <= cfg.hardCapCny && cfg.maxTotalAttempts >= |ReservedIds(log)|
    requires cfg.maxAdditional.Some? && cfg.maxAdditional.value >= 0
    ensures ScopeReadable(cfg, log) && WithinApproval(cfg, SnapshotOf(cfg, log))
  {
    ReservationCount(log);
    assert Scope(log, cfg.baseline) == [];
  }

  lemma ApprovalOpens(c: Campaign, identity: string, e: CostEstimate, log: Log)
    requires c.Valid() && 0 <= Authorized(e) && WellFormed(log) && OpenIds(log) == {} && !Blocked(log)
    requires Charged(log) + c.suite.externalReserveCny <= c.hardCapCny
    ensures Opens(ApprovalOf(c, identity, e, log).ConfigFor(c), Disk(log, Some(HighWaterOf(log)))) <==> 0.0 <= Charged(log)
  {
    var cfg := ApprovalOf(c, identity, e, log).ConfigFor(c);
    ApprovalIsValid(c, identity, e, log, cfg);
    NothingSinceBaseline(cfg, log);
    if cfg.Valid() {
      OwnPrefixMatches(cfg, log);
    }
  }

  /** A ledger on which a campaign without an approval may start: it opens, with a record unless no
      approval was ever given; nothing is open or unaccountable on it; and what was charged leaves
      room for the external reserve. */
  predicate Startable(c: Campaign, disk: Disk, otherApprovals: bool) {
    && WellFormed(disk.log) && ScopedReadable(Reservations(disk.log))
    && (match disk.highWater
        case None => !otherApprovals
        case Some(w) => w == HighWaterOf(disk.log) || Behind(w, disk.log))
    && OpenIds(disk.log) == {} && !Blocked(disk.log)
    && Charged(disk.log) + c.suite.externalReserveCny <= c.hardCapCny
  }

  /** What was charged leaves room for the estimate and two probe requests at the ceilings. */
  predicate LeavesRoom(c: Campaign, e: CostEstimate, charged: real) {
    charged + e.cny + 2.0 * (c.suite.TokenUsd(c.maxInput, c.maxOutput) * c.suite.usdToCny) <= c.hardCapCny
  }

  lemma InspectsExactly(c: Campaign, disk: Disk, otherApprovals: bool)
    ensures Inspectable(c, InspectionConfig(c, None, otherApprovals), disk) <==> Startable(c, disk, otherApprovals)
  {
    assert Reservations(disk.log)[0..] == Reservations(disk.log);
  }

  lemma ProjectsExactly(c: Campaign, e: CostEstimate, log: Log)
    requires WellFormed(log)
    ensures Projected(c, e, log) <==> LeavesRoom(c, e, Charged(log))
  {
  }

  /** The approval a campaign writes on an inspectable ledger opens it unless charges are negative. */
  lemma InspectedOpens(c: Campaign, identity: string, e: CostEstimate, disk: Disk, otherApprovals: bool)
    requires c.Valid() && IsEstimate(c, e) && Inspectable(c, InspectionConfig(c, None, otherApprovals), disk)
    ensures WellFormed(disk.log)
    ensures Opens(ApprovalOf(c, identity, e, disk.log).ConfigFor(c), Disk(disk.log, Some(HighWaterOf(disk.log)))) <==> 0.0 <= Charged(disk.log)
  {
    EstimateIsAuthorized(c, e);
    InspectsExactly(c, disk, otherApprovals);
    ApprovalOpens(c, identity, e, disk.log);
  }

  /** A campaign without an approval may spend exactly on a ledger on which it can start, on which
      nothing negative was charged, and whose cap leaves room for the estimate and the probes: the
      approval it then writes always opens. */
  lemma NewCampaignMaySpend(c: Campaign, identity: string, e: CostEstimate, disk: Disk, otherApprovals: bool)
    requires c.Valid() && IsEstimate(c, e)
    ensures MaySpend(c, identity, e, disk, None, otherApprovals) <==>
      Startable(c, disk, otherApprovals) && 0.0 <= Charged(disk.log) && LeavesRoom(c, e, Charged(disk.log))
  {
    InspectsExactly(c, disk, otherApprovals);
    if Inspectable(c, InspectionConfig(c, None, otherApprovals), disk) {
      InspectedOpens(c, identity, e, disk, otherApprovals);
      ProjectsExactly(c, e, disk.log);
    }
  }

  /** The ledger found under a stored approval: it still holds the approved events and their charge,
      its record is current or behind, nothing is open or unaccountable on it, and since the
      baseline it has kept the approval's attempts and the cap. */
  predicate Continuable(c: Campaign, a: Approval, disk: Disk) {
    && 0 <= a.prefixCount <= |disk.log| && disk.log[..a.prefixCount] == a.prefixDigest && WellFormed(disk.log)
    && WellFormed(a.prefixDigest) && -0.000000000001 <= Charged(a.prefixDigest) - a.prefixCharged <= 0.000000000001
    && (disk.highWater.Some? && (disk.highWater.value == HighWaterOf(disk.log) || Behind(disk.highWater.value, disk.log)))
    && OpenIds(disk.log) == {} && !Blocked(disk.log)
    && Charged(disk.log) + c.suite.externalReserveCny <= c.hardCapCny
    && 0 <= a.baseline <= |Reservations(disk.log)| <= a.ceiling
    && ScopedReadable(Reservations(disk.log)[a.baseline..])
    && Additional(Reservations(disk.log)[a.baseline..]) <= a.maxAdditional
  }

  /** The approval was given for this campaign: for its identity, its requests and two for the probe,
      and its additional attempts and one for the probe. */
  predicate GivenFor(c: Campaign, identity: string, e: CostEstimate, a: Approval) {
    && a.identity == identity && a.authorized == e.requestAttempts + 2 && a.maxAdditional == c.suite.maxAdditional + 1
    && a.ceiling == a.baseline + a.authorized && 0.0 <= a.prefixCharged
  }

  lemma ApprovedOpening(cfg: Config, disk: Disk, count: nat, prefix: Log)
    requires cfg.Valid() && cfg.approval.Some? && cfg.prefixDigest == Some(prefix) && cfg.prefixCount == count
    ensures Accepts(cfg, disk) <==>
      && count <= |disk.log| && disk.log[..count] == prefix && WellFormed(disk.log)
      && WellFormed(prefix) && -0.000000000001 <= Charged(prefix) - cfg.prefixCharged <= 0.000000000001
      && disk.highWater.Some? && (disk.highWater.value == HighWaterOf(disk.log) || Behind(disk.highWater.value, disk.log))
  {
  }

  lemma WithinExactly(cfg: Config, log: Log)
    requires WellFormed(log) && BaselineInside(log, cfg.baseline) && cfg.maxAdditional.Some?
    ensures WithinApproval(cfg, SnapshotOf(cfg, log)) <==>
      && OpenIds(log) == {} && !Blocked(log) && Charged(log) + cfg.externalReserveCny <= cfg.hardCapCny
      && cfg.baseline <= |Reservations(log)| <= cfg.maxTotalAttempts
      && Additional(Reservations(log)[cfg.baseline..]) <= cfg.maxAdditional.value
  {
    ReservationCount(log);
  }

  lemma ContinuesExactly(c: Campaign, a: Approval, disk: Disk)
    requires c.Valid() && a.ceiling >= a.baseline && a.maxAdditional == c.suite.maxAdditional + 1
    requires 0 <= a.prefixCount && 0.0 <= a.prefixCharged
    ensures Inspectable(c, a.ConfigFor(c), disk) && Opens(a.ConfigFor(c), disk) <==> Continuable(c, a, disk)
  {
    var cfg := a.ConfigFor(c);
    if 0 <= a.baseline {
      ApprovedOpening(cfg, disk, a.prefixCount, a.prefixDigest);
      if Accepts(cfg, disk) && BaselineInside(disk.log, cfg.baseline) {
        WithinExactly(cfg, disk.log);
      }
    }
  }

  lemma OpensInSync(cfg: Config, disk: Disk)
    requires cfg.Valid() && Accepts(cfg, disk)
    ensures Opens(cfg, Disk(disk.log, Some(HighWaterOf(disk.log)))) <==> Opens(cfg, disk)
  {
  }

  /** A campaign with a stored approval may spend exactly if the approval was given for it and the
      ledger is one it can continue on. */
  lemma ApprovedCampaignMaySpend(c: Campaign, identity: string, e: CostEstimate, disk: Disk, a: Approval, otherApprovals: bool)
    requires c.Valid() && IsEstimate(c, e)
    ensures MaySpend(c, identity, e, disk, Some(a), otherApprovals) <==> GivenFor(c, identity, e, a) && Continuable(c, a, disk)
  {
    EstimateIsAuthorized(c, e);
    var cfg := a.ConfigFor(c);
    if a.Matches(identity, Authorized(e), AdditionalCeiling(c)) {
      ContinuesExactly(c, a, disk);
      if Inspectable(c, cfg, disk) {
        OpensInSync(cfg, disk);
      }
    }
  }

  // ---------------------------------------------------------------- what is charged

  function ReservedTotal(rs: ReservationSeq): real {
    if rs == [] then 0.0 else ReservedTotal(Init(rs)) + Last(rs).reservedCny
  }

  /** Charges since `base` stay within what was reserved since the baseline. */
  ghost predicate ChargedWithin(cfg: Config, log: Log, base: real)
    requires WellFormed(log) && BaselineInside(log, cfg.baseline)
  {
    Charged(log) <= base + ReservedTotal(Scope(log, cfg.baseline))
  }

  lemma TerminalKeepsCharged(cfg: Config, log: Log, e: Event, base: real)
    requires WellFormed(log) && BaselineInside(log, cfg.baseline) && ChargedWithin(cfg, log, base)
    requires e.Terminal() && e.requestId in OpenIds(log) && e.chargedCny <= Reservation(log, e.requestId).reservedCny
    ensures WellFormed(log + [e]) && BaselineInside(log + [e], cfg.baseline) && ChargedWithin(cfg, log + [e], base)
  {
    Snoc(log, e);
    ScopeSnoc(log, e, cfg.baseline);
    assert Scope(log + [e], cfg.baseline) == Scope(log, cfg.baseline);
  }

  lemma ReservationKeepsCharged(cfg: Config, log: Log, e: Event, base: real)
    requires WellFormed(log) && BaselineInside(log, cfg.baseline) && ChargedWithin(cfg, log, base)
    requires e.Reserved? && e.requestId !in ReservedIds(log)
    ensures WellFormed(log + [e]) && BaselineInside(log + [e], cfg.baseline) && ChargedWithin(cfg, log + [e], base)
  {
    Snoc(log, e);
    ScopeSnoc(log, e, cfg.baseline);
    Snoc(Scope(log, cfg.baseline), e);
  }

  lemma AppendKeepsCharged(cfg: Config, log: Log, op: Op, base: real)
    requires cfg.RatesNonNegative() && WellFormed(log) && Priced(cfg, log) && Fresh(log, op)
    requires BaselineInside(log, cfg.baseline) && ChargedWithin(cfg, log, base)
    requires Appended(cfg, log, op).Some? && !Appended(cfg, log, op).value.Blocking()
    ensures WellFormed(After(cfg, log, op)) && BaselineInside(After(cfg, log, op), cfg.baseline)
    ensures ChargedWithin(cfg, After(cfg, log, op), base)
  {
    var e := Appended(cfg, log, op).value;
    if e.Reserved? {
      ReservationKeepsCharged(cfg, log, e, base);
    } else {
      if e.Settled? {
        var r := Reservation(log, e.requestId);
        CostMonotone(cfg, e.inputTokens, e.outputTokens, r.maxInput, r.maxOutput);
      }
      TerminalKeepsCharged(cfg, log, e, base);
    }
  }

  lemma {:induction false} ChargesStayReserved(cfg: Config, log: Log, ops: seq<Op>)
    requires cfg.RatesNonNegative() && WellFormed(log) && FreshIds(cfg, log, ops) && Priced(cfg, log)
    requires cfg.baseline == |Reservations(log)|
    ensures var later := Perform(cfg, log, ops);
      && Priced(cfg, later) && BaselineInside(later, cfg.baseline)
      && (!Blocked(later) ==> ChargedWithin(cfg, later, Charged(log)))
  {
    if ops == [] {
      assert Scope(log, cfg.baseline) == [];
    } else {
      ChargesStayReserved(cfg, log, Init(ops));
      var earlier := Perform(cfg, log, Init(ops));
      if Appended(cfg, earlier, Last(ops)).Some? {
        var e := Appended(cfg, earlier, Last(ops)).value;
        AppendKeepsPriced(cfg, earlier, Last(ops));
        ScopeSnoc(earlier, e, cfg.baseline);
        BlockedSnoc(earlier, e);
        if !Blocked(earlier) && !e.Blocking() {
          AppendKeepsCharged(cfg, earlier, Last(ops), Charged(log));
        }
      }
    }
  }

  // ---------------------------------------------------------------- reservations of a campaign

  /** The trials a campaign runs on a ledger: one experiment per track, so that every trial id
      is one slot of the plan; the probe's own trial; and how often each block is retried. */
  datatype Placement = Placement(slots: map<string, Slot>, probe: string, claims: Claims)

  ghost predicate ValidPlacement(c: Campaign, p: Placement) {
    && c.Valid() && AllPlannable(c.suite, c.Tracks())
    && p.probe !in p.slots
    && ValidClaims(c.suite, c.Tracks(), p.claims)
    && (forall t :: t in p.slots ==> Claimed(c.suite, c.Tracks(), p.claims, p.slots[t]))
    && (forall t, t' :: t in p.slots && t' in p.slots && p.slots[t] == p.slots[t'] ==> t == t')
  }

  /** A campaign that has started no trial yet is placed. */
  lemma NoTrialsArePlaced(c: Campaign, probe: string) returns (p: Placement)
    requires c.Valid() && AllPlannable(c.suite, c.Tracks())
    ensures ValidPlacement(c, p) && p.slots == map[] && p.probe == probe
  {
    var first, second := c.Tracks()[0], c.Tracks()[1];
    assert first in c.Tracks() && second in c.Tracks();
    var cs, cs' := TrackCandidates(c.suite, first), TrackCandidates(c.suite, second);
    NoRetriesChosen(cs, c.suite.blockAttempts - 1, first.maxRetries);
    NoRetriesChosen(cs', c.suite.blockAttempts - 1, second.maxRetries);
    p := Placement(map[], probe, [NoRetries(|cs|), NoRetries(|cs'|)]);
  }

  function LimitsOf(c: Campaign, p: Placement, trialId: string): TrialLimits
    requires AllPlannable(c.suite, c.Tracks())
  {
    if trialId in p.slots then TrialLimits(CallCeiling(c.suite, c.Tracks(), p.slots[trialId]), c.suite.callMaxAttempts)
    else TrialLimits(1, PROBE_ATTEMPTS)
  }

  function Limits(c: Campaign, p: Placement): string -> TrialLimits
    requires AllPlannable(c.suite, c.Tracks())
  {
    (t: string) => if AllPlannable(c.suite, c.Tracks()) then LimitsOf(c, p, t) else TrialLimits(0, 0)
  }

  /** A request of the probe or of a placed trial, at the ceilings of the trial's pack. */
  ghost predicate Requested(c: Campaign, p: Placement, q: Request)
    requires ValidPlacement(c, p)
  {
    && InScope(q, Limits(c, p))
    && (q.trialId == p.probe
        || (q.trialId in p.slots
            && var b := c.suite.BudgetFor(PackOf(c.suite, c.Tracks(), p.slots[q.trialId]));
               q.maxInput == Some(b.maxInput) && q.maxOutput == Some(b.maxOutput)))
  }

  function AttemptOf(p: Placement, rs: ReservationSeq, e: Event): ProviderAttempt
    requires e.Reserved? && e.trialId in p.slots
  {
    ProviderAttempt(p.slots[e.trialId], e.maxInput, e.maxOutput, Attempts(rs, e.Call()) > 0)
  }

  ghost predicate AtPrice(suite: Suite, e: Event)
    requires e.Reserved?
  {
    e.reservedCny == suite.TokenUsd(e.maxInput, e.maxOutput) * suite.usdToCny
  }

  /** A reservation the campaign made, priced at its ceilings. */
  ghost predicate FromCampaign(c: Campaign, p: Placement, e: Event)
    requires ValidPlacement(c, p)
  {
    && e.Reserved? && AtPrice(c.suite, e)
    && (if e.trialId in p.slots then Placed(c.suite, c.Tracks(), AttemptOf(p, [], e))
        else e.trialId == p.probe && e.maxInput <= c.maxInput && e.maxOutput <= c.maxOutput)
  }

  /** The requests of placed trials among the reservations. */
  function ToRun(p: Placement, rs: ReservationSeq): CallRun {
    if rs == [] then []
    else if Last(rs).trialId in p.slots then ToRun(p, Init(rs)) + [AttemptOf(p, Init(rs), Last(rs))]
    else ToRun(p, Init(rs))
  }

  function Probes(p: Placement, rs: ReservationSeq): nat {
    if rs == [] then 0 else Probes(p, Init(rs)) + if Last(rs).trialId in p.slots then 0 else 1
  }

  function ProbeRepeats(p: Placement, rs: ReservationSeq): nat {
    if rs == [] then 0
    else ProbeRepeats(p, Init(rs)) + if Last(rs).trialId !in p.slots && Attempts(Init(rs), Last(rs).Call()) > 0 then 1 else 0
  }

  ghost predicate OnlyTrialOf(p: Placement, t: string)
    requires t in p.slots
  {
    forall other :: other in p.slots && p.slots[other] == p.slots[t] ==> other == t
  }

  /** Logical calls of a trial are the first requests of its slot. */
  lemma {:induction false} FirstCallsAreTrialCalls(p: Placement, rs: ReservationSeq, t: string)
    requires t in p.slots && OnlyTrialOf(p, t)
    ensures FirstCalls(ToRun(p, rs), p.slots[t]) == |TrialCalls(rs, t)|
    decreases |rs|
  {
    if rs != [] {
      FirstCallsAreTrialCalls(p, Init(rs), t);
      assert rs == Init(rs) + [Last(rs)];
      CallsGrow(Init(rs), Last(rs), t);
      if Last(rs).trialId in p.slots {
        Snoc(ToRun(p, Init(rs)), AttemptOf(p, Init(rs), Last(rs)));
      }
    }
  }

  lemma {:induction false} NoCallsElsewhere(p: Placement, rs: ReservationSeq, slot: Slot)
    requires forall t :: t in p.slots ==> p.slots[t] != slot
    ensures FirstCalls(ToRun(p, rs), slot) == 0
  {
    if rs != [] {
      NoCallsElsewhere(p, Init(rs), slot);
      if Last(rs).trialId in p.slots {
        Snoc(ToRun(p, Init(rs)), AttemptOf(p, Init(rs), Last(rs)));
      }
    }
  }

  /** Additional requests are those of placed trials and those of the probe. */
  lemma {:induction false} AdditionalSplits(p: Placement, rs: ReservationSeq)
    ensures AdditionalCalls(ToRun(p, rs)) + ProbeRepeats(p, rs) == Additional(rs)
  {
    if rs != [] {
      AdditionalSplits(p, Init(rs));
      if Last(rs).trialId in p.slots {
        Snoc(ToRun(p, Init(rs)), AttemptOf(p, Init(rs), Last(rs)));
      }
    }
  }

  lemma {:induction false} ProbesAreOneCall(p: Placement, rs: ReservationSeq, call: LogicalCall)
    requires forall e :: e in rs ==> (e.trialId in p.slots || e.Call() == call) && (e.Call() == call ==> e.trialId !in p.slots)
    ensures Probes(p, rs) == Attempts(rs, call) && ProbeRepeats(p, rs) == if Probes(p, rs) == 0 then 0 else Probes(p, rs) - 1
  {
    if rs != [] {
      assert Last(rs) in rs && forall e :: e in Init(rs) ==> e in rs;
      ProbesAreOneCall(p, Init(rs), call);
    }
  }

  /** What the probe may have done. */
  lemma ProbeBounds(c: Campaign, p: Placement, rs: ReservationSeq)
    requires ValidPlacement(c, p) && TrialsWithin(rs, Limits(c, p))
    requires forall e :: e in rs ==> FromCampaign(c, p, e)
    ensures Probes(p, rs) <= PROBE_ATTEMPTS && ProbeRepeats(p, rs) == if Probes(p, rs) == 0 then 0 else Probes(p, rs) - 1
  {
    var calls := TrialCalls(rs, p.probe);
    var call := if calls == {} then LogicalCall(p.probe, "") else var call :| call in calls; call;
    AttemptsPositive(rs, call);
    if Attempts(rs, call) > 0 {
      var e :| e in rs && e.Call() == call;
      assert e.trialId == p.probe && |calls| <= 1 && Attempts(rs, call) <= 2;
      OneElement(calls, call);
    }
    forall e | e in rs
      ensures (e.trialId in p.slots || e.Call() == call) && (e.Call() == call ==> e.trialId !in p.slots)
    {
      assert FromCampaign(c, p, e);
      assert e.trialId == p.probe ==> e.Call() in calls;
    }
    ProbesAreOneCall(p, rs, call);
  }

  lemma OneElement<T>(s: set<T>, x: T)
    requires x in s && |s| <= 1
    ensures s == {x}
  {
    assert |s - {x}| == 0;
  }

  // ---------------------------------------------------------------- what a campaign reserves

  function RunCny(run: CallRun, price: (int, int) -> real): real {
    if run == [] then 0.0 else RunCny(Init(run), price) + price(Last(run).input, Last(run).output)
  }

  function PriceInCny(suite: Suite): (int, int) -> real {
    (input: int, output: int) => suite.TokenUsd(input, output) * suite.usdToCny
  }

  ghost predicate IsProduct(x: real, y: real, z: real) {
    x == y * z
  }

  lemma {:induction false} RunCnyConverts(suite: Suite, run: CallRun)
    ensures IsProduct(RunCny(run, PriceInCny(suite)), RunUsd(suite, run), suite.usdToCny)
  {
    if run != [] {
      RunCnyConverts(suite, Init(run));
      Distribute(RunUsd(suite, Init(run)), suite.TokenUsd(Last(run).input, Last(run).output), suite.usdToCny);
    }
  }

  lemma Distribute(x: real, y: real, k: real)
    ensures (x + y) * k == x * k + y * k
  {
  }

  lemma TokensInCny(c: Campaign, input: int, output: int)
    requires c.Valid() && input <= c.maxInput && output <= c.maxOutput
    ensures c.suite.TokenUsd(input, output) * c.suite.usdToCny <= MaximumCny(c)
  {
    TokenUsdMonotone(c.suite, input, output, c.maxInput, c.maxOutput);
    ScaleMonotone(c.suite.TokenUsd(input, output), c.suite.TokenUsd(c.maxInput, c.maxOutput), c.suite.usdToCny);
  }

  function PlacedTotal(p: Placement, rs: ReservationSeq): real {
    if rs == [] then 0.0 else PlacedTotal(p, Init(rs)) + if Last(rs).trialId in p.slots then Last(rs).reservedCny else 0.0
  }

  lemma {:induction false} ProbesCost(p: Placement, rs: ReservationSeq, m: real)
    requires forall e :: e in rs && e.trialId !in p.slots ==> e.reservedCny <= m
    ensures ReservedTotal(rs) <= PlacedTotal(p, rs) + Times(Probes(p, rs), m)
    decreases |rs|
  {
    if rs != [] {
      assert Last(rs) in rs && forall x :: x in Init(rs) ==> x in rs;
      ProbesCost(p, Init(rs), m);
    }
  }

  lemma {:induction false} PlacedCost(p: Placement, rs: ReservationSeq, price: (int, int) -> real)
    requires forall e :: e in rs && e.trialId in p.slots ==> e.reservedCny == price(e.maxInput, e.maxOutput)
    ensures PlacedTotal(p, rs) == RunCny(ToRun(p, rs), price)
  {
    if rs != [] {
      assert Last(rs) in rs && forall x :: x in Init(rs) ==> x in rs;
      PlacedCost(p, Init(rs), price);
      if Last(rs).trialId in p.slots {
        Snoc(ToRun(p, Init(rs)), AttemptOf(p, Init(rs), Last(rs)));
      }
    }
  }

  lemma PlacedArePriced(c: Campaign, p: Placement, rs: ReservationSeq)
    requires ValidPlacement(c, p) && forall e :: e in rs ==> FromCampaign(c, p, e)
    ensures forall e :: e in rs ==> e.reservedCny == PriceInCny(c.suite)(e.maxInput, e.maxOutput)
  {
  }

  lemma ProbesAreBounded(c: Campaign, p: Placement, rs: ReservationSeq)
    requires ValidPlacement(c, p) && forall e :: e in rs ==> FromCampaign(c, p, e)
    ensures forall e :: e in rs && e.trialId !in p.slots ==> e.reservedCny <= MaximumCny(c)
  {
    forall e | e in rs && e.trialId !in p.slots
      ensures e.reservedCny <= MaximumCny(c)
    {
      assert FromCampaign(c, p, e);
      TokensInCny(c, e.maxInput, e.maxOutput);
    }
  }

  lemma SplitsAtPrices(p: Placement, rs: ReservationSeq, price: (int, int) -> real, m: real)
    requires forall e :: e in rs ==> e.reservedCny == price(e.maxInput, e.maxOutput)
    requires forall e :: e in rs && e.trialId !in p.slots ==> e.reservedCny <= m
    ensures ReservedTotal(rs) <= RunCny(ToRun(p, rs), price) + Times(Probes(p, rs), m)
  {
    ProbesCost(p, rs, m);
    PlacedCost(p, rs, price);
  }

  lemma ReservedSplits(c: Campaign, p: Placement, rs: ReservationSeq)
    requires ValidPlacement(c, p) && forall e :: e in rs ==> FromCampaign(c, p, e)
    ensures ReservedTotal(rs) <= RunCny(ToRun(p, rs), PriceInCny(c.suite)) + Times(Probes(p, rs), MaximumCny(c))
  {
    PlacedArePriced(c, p, rs);
    ProbesAreBounded(c, p, rs);
    SplitsAtPrices(p, rs, PriceInCny(c.suite), MaximumCny(c));
  }

  lemma {:induction false} RunMembers(c: Campaign, p: Placement, rs: ReservationSeq)
    requires ValidPlacement(c, p) && forall e :: e in rs ==> FromCampaign(c, p, e)
    ensures forall a :: a in ToRun(p, rs) ==> Placed(c.suite, c.Tracks(), a) && exists t :: t in p.slots && p.slots[t] == a.slot
  {
    if rs != [] {
      assert Last(rs) in rs && forall x :: x in Init(rs) ==> x in rs;
      RunMembers(c, p, Init(rs));
      if Last(rs).trialId in p.slots {
        assert FromCampaign(c, p, Last(rs));
        assert p.slots[Last(rs).trialId] == AttemptOf(p, Init(rs), Last(rs)).slot;
      }
    }
  }

  /** The ledger's limits keep the campaign's requests within its plan. */
  lemma RunIsWithinPlan(c: Campaign, p: Placement, rs: ReservationSeq)
    requires ValidPlacement(c, p) && TrialsWithin(rs, Limits(c, p))
    requires forall e :: e in rs ==> FromCampaign(c, p, e)
    ensures WithinPlan(c.suite, c.Tracks(), ToRun(p, rs), p.claims)
  {
    RunMembers(c, p, rs);
    forall slot
      ensures FirstCalls(ToRun(p, rs), slot) <= CallCeiling(c.suite, c.Tracks(), slot)
    {
      if t :| t in p.slots && p.slots[t] == slot {
        FirstCallsAreTrialCalls(p, rs, t);
        TrialBound(c, p, rs, t);
      } else {
        NoCallsElsewhere(p, rs, slot);
        CeilingNonNegative(c, slot);
      }
    }
  }

  lemma CeilingNonNegative(c: Campaign, slot: Slot)
    requires c.Valid() && AllPlannable(c.suite, c.Tracks())
    ensures 0 <= CallCeiling(c.suite, c.Tracks(), slot)
  {
  }

  lemma TrialBound(c: Campaign, p: Placement, rs: ReservationSeq, t: string)
    requires ValidPlacement(c, p) && TrialsWithin(rs, Limits(c, p)) && t in p.slots
    ensures |TrialCalls(rs, t)| <= CallCeiling(c.suite, c.Tracks(), p.slots[t])
  {
    CeilingNonNegative(c, p.slots[t]);
    if TrialCalls(rs, t) != {} {
      var call :| call in TrialCalls(rs, t);
      var e :| e in rs && e.trialId == t && e.Call() == call;
      assert Limits(c, p)(t).logicalCalls == CallCeiling(c.suite, c.Tracks(), p.slots[t]);
    }
  }

  /** The amounts that decide whether reservations fit: what the planned requests cost at most
      and what they did cost, the dearest call, and the greatest request in CNY. */
  datatype Amounts = Amounts(planned: real, spent: real, dearest: real, maximum: real, repeats: nat, probes: nat)

  ghost predicate AtMost(usd: real, rate: real, cny: real) {
    usd * rate <= cny
  }

  ghost predicate Converts(e: CostEstimate, rate: real, reserve: real) {
    e.cny == e.usd * rate + reserve
  }

  ghost predicate Bounded(a: Amounts, cap: nat, rate: real, reserve: real, e: CostEstimate) {
    && 0.0 <= a.dearest && 0.0 <= rate && AtMost(a.dearest, rate, a.maximum) && 0.0 <= a.maximum
    && a.spent <= a.planned + Times(a.repeats, a.dearest)
    && e.usd == a.planned + Times(cap, a.dearest) && Converts(e, rate, reserve)
    && a.probes <= 2 && a.repeats + (if a.probes == 2 then 1 else 0) <= cap + 1
  }

  /** `total` CNY and the reserve fit in the estimate and two requests at the maximum. */
  ghost predicate Fits(total: real, reserve: real, e: CostEstimate, maximum: real) {
    total + reserve <= e.cny + PROBE_ATTEMPTS as real * maximum
  }

  ghost predicate Covered(a: Amounts, rate: real, total: real) {
    total <= a.spent * rate + Times(a.probes, a.maximum)
  }

  lemma TimesOnce(u: real)
    ensures Times(1, u) == u && Times(2, u) == u + u
  {
    assert Times(0, u) == 0.0;
    assert Times(1, u) == Times(0, u) + u;
  }

  lemma OverByOne(spent: real, usd: real, d: real, rate: real, m: real)
    requires spent <= usd + d && 0.0 <= rate && d * rate <= m
    ensures spent * rate <= usd * rate + m
  {
    ScaleMonotone(spent, usd + d, rate);
    Distribute(usd, d, rate);
  }

  lemma SpentAgainstEstimate(a: Amounts, cap: nat, rate: real, reserve: real, e: CostEstimate)
    requires Bounded(a, cap, rate, reserve, e)
    ensures a.spent * rate <= e.usd * rate + if a.repeats <= cap then 0.0 else a.maximum
  {
    if a.repeats <= cap {
      TimesMonotone(a.repeats, cap, a.dearest);
      ScaleMonotone(a.spent, e.usd, rate);
    } else {
      assert Times(cap + 1, a.dearest) == Times(cap, a.dearest) + a.dearest;
      OverByOne(a.spent, e.usd, a.dearest, rate, a.maximum);
    }
  }

  lemma RoomForProbes(a: Amounts, cap: nat, rate: real, reserve: real, e: CostEstimate, total: real)
    requires Bounded(a, cap, rate, reserve, e) && Covered(a, rate, total)
    ensures Fits(total, reserve, e, a.maximum)
  {
    SpentAgainstEstimate(a, cap, rate, reserve, e);
    TimesOnce(a.maximum);
    TimesMonotone(a.probes, if a.repeats <= cap then 2 else 1, a.maximum);
  }

  ghost predicate MadeByCampaign(c: Campaign, p: Placement, rs: ReservationSeq) {
    && ValidPlacement(c, p) && TrialsWithin(rs, Limits(c, p))
    && (forall e :: e in rs ==> FromCampaign(c, p, e))
    && Additional(rs) <= AdditionalCeiling(c)
  }

  ghost predicate Dearest(c: Campaign, d: CallCandidate) {
    && AllPlannable(c.suite, c.Tracks())
    && IsDearest(d, CallCandidates(c.suite, c.Tracks())) && c.suite.HasBudget(d.packId)
  }

  lemma SpentInPlan(c: Campaign, p: Placement, rs: ReservationSeq, d: CallCandidate)
    requires AllPlannable(c.suite, c.Tracks()) && AllRetriesCovered(c.suite, c.Tracks())
    requires MadeByCampaign(c, p, rs) && Dearest(c, d)
    ensures RunUsd(c.suite, ToRun(p, rs))
      <= CampaignTotals(c.suite, c.Tracks()).Usd(c.suite) + Times(AdditionalCalls(ToRun(p, rs)), d.usd)
  {
    RunIsWithinPlan(c, p, rs);
    RunCost(c.suite, c.Tracks(), ToRun(p, rs), p.claims, d);
  }

  lemma EstimateSplits(c: Campaign, d: CallCandidate)
    requires c.Valid() && Dearest(c, d)
    ensures EstimateWith(c.suite, c.Tracks(), d.packId).usd
      == CampaignTotals(c.suite, c.Tracks()).Usd(c.suite) + Times(c.suite.maxAdditional, d.usd)
  {
    CallCandidatesAreUnits(c.suite, c.Tracks());
    PriceParts(c.suite, PlannedTrials(c.Tracks()), CampaignTotals(c.suite, c.Tracks()), c.suite.BudgetFor(d.packId));
  }

  lemma UnitIsBounded(c: Campaign, packId: string)
    requires c.Valid() && c.suite.HasBudget(packId)
    ensures 0.0 <= c.suite.UnitUsd(packId) && AtMost(c.suite.UnitUsd(packId), c.suite.usdToCny, MaximumCny(c))
  {
    UnitNonNegative(c.suite, packId);
    TokensInCny(c, c.suite.BudgetFor(packId).maxInput, c.suite.BudgetFor(packId).maxOutput);
  }

  lemma DearestIsBounded(c: Campaign, d: CallCandidate)
    requires c.Valid() && Dearest(c, d)
    ensures 0.0 <= d.usd && AtMost(d.usd, c.suite.usdToCny, MaximumCny(c))
  {
    CallCandidatesAreUnits(c.suite, c.Tracks());
    UnitIsBounded(c, d.packId);
  }

  lemma MaximumNonNegative(c: Campaign)
    requires c.Valid()
    ensures 0.0 <= MaximumCny(c)
  {
    var b :| b in c.suite.budgets && b.maxInput == c.maxInput;
    TokensInCny(c, 0, 0);
    assert c.suite.TokenUsd(0, 0) == 0.0;
  }

  lemma RepeatsAndProbes(c: Campaign, p: Placement, rs: ReservationSeq)
    requires MadeByCampaign(c, p, rs)
    ensures Probes(p, rs) <= 2
    ensures AdditionalCalls(ToRun(p, rs)) + (if Probes(p, rs) == 2 then 1 else 0) <= c.suite.maxAdditional + 1
  {
    ProbeBounds(c, p, rs);
    AdditionalSplits(p, rs);
  }

  lemma EstimateInCny(suite: Suite, trials: int, t: Totals, b: PackBudget)
    ensures Converts(PriceTotals(suite, trials, t, b), suite.usdToCny, suite.externalReserveCny)
  {
  }

  lemma AmountsAreBounded(c: Campaign, a: Amounts, e: CostEstimate)
    requires 0.0 <= a.dearest && 0.0 <= a.maximum && AtMost(a.dearest, c.suite.usdToCny, a.maximum) && 0.0 <= c.suite.usdToCny
    requires 0 <= c.suite.maxAdditional
    requires a.spent <= a.planned + Times(a.repeats, a.dearest)
    requires e.usd == a.planned + Times(c.suite.maxAdditional, a.dearest)
    requires Converts(e, c.suite.usdToCny, c.suite.externalReserveCny)
    requires a.probes <= 2 && a.repeats + (if a.probes == 2 then 1 else 0) <= c.suite.maxAdditional + 1
    ensures Bounded(a, c.suite.maxAdditional, c.suite.usdToCny, c.suite.externalReserveCny, e)
  {
  }

  function AmountsOf(c: Campaign, p: Placement, rs: ReservationSeq, d: CallCandidate): Amounts
    requires AllPlannable(c.suite, c.Tracks())
  {
    Amounts(CampaignTotals(c.suite, c.Tracks()).Usd(c.suite), RunUsd(c.suite, ToRun(p, rs)), d.usd, MaximumCny(c),
            AdditionalCalls(ToRun(p, rs)), Probes(p, rs))
  }

  lemma CampaignIsBounded(c: Campaign, p: Placement, rs: ReservationSeq, d: CallCandidate)
    requires AllPlannable(c.suite, c.Tracks()) && AllRetriesCovered(c.suite, c.Tracks())
    requires MadeByCampaign(c, p, rs) && Dearest(c, d)
    ensures Bounded(AmountsOf(c, p, rs, d), c.suite.maxAdditional, c.suite.usdToCny, c.suite.externalReserveCny,
                    EstimateWith(c.suite, c.Tracks(), d.packId))
  {
    SpentInPlan(c, p, rs, d);
    EstimateSplits(c, d);
    DearestIsBounded(c, d);
    MaximumNonNegative(c);
    RepeatsAndProbes(c, p, rs);
    EstimateInCny(c.suite, PlannedTrials(c.Tracks()), CampaignTotals(c.suite, c.Tracks()), c.suite.BudgetFor(d.packId));
    AmountsAreBounded(c, AmountsOf(c, p, rs, d), EstimateWith(c.suite, c.Tracks(), d.packId));
  }

  lemma CampaignIsCovered(c: Campaign, p: Placement, rs: ReservationSeq, d: CallCandidate)
    requires MadeByCampaign(c, p, rs) && AllPlannable(c.suite, c.Tracks())
    ensures Covered(AmountsOf(c, p, rs, d), c.suite.usdToCny, ReservedTotal(rs))
  {
    ReservedSplits(c, p, rs);
    RunCnyConverts(c.suite, ToRun(p, rs));
    CoverAmounts(AmountsOf(c, p, rs, d), c.suite.usdToCny, RunCny(ToRun(p, rs), PriceInCny(c.suite)), ReservedTotal(rs));
  }

  lemma CoverAmounts(a: Amounts, rate: real, cny: real, total: real)
    requires IsProduct(cny, a.spent, rate) && total <= cny + Times(a.probes, a.maximum)
    ensures Covered(a, rate, total)
  {
  }

  /** Whatever the campaign reserves within its limits, probes included, fits in the estimate
      and two requests at the maximum. */
  lemma ReservedFitsEstimate(c: Campaign, p: Placement, rs: ReservationSeq, e: CostEstimate)
    requires AllPlannable(c.suite, c.Tracks()) && AllRetriesCovered(c.suite, c.Tracks())
    requires MadeByCampaign(c, p, rs) && IsEstimate(c, e)
    ensures Fits(ReservedTotal(rs), c.suite.externalReserveCny, e, MaximumCny(c))
  {
    var d :| IsDearest(d, CallCandidates(c.suite, c.Tracks())) && c.suite.HasBudget(d.packId)
             && e == EstimateWith(c.suite, c.Tracks(), d.packId);
    CampaignIsBounded(c, p, rs, d);
    CampaignIsCovered(c, p, rs, d);
    RoomForProbes(AmountsOf(c, p, rs, d), c.suite.maxAdditional, c.suite.usdToCny, c.suite.externalReserveCny, e,
                  ReservedTotal(rs));
  }

  // ---------------------------------------------------------------- campaigns on a ledger

  /** The ledger a campaign was admitted on is configured by it. */
  ghost predicate Uses(cfg: Config, c: Campaign, log: Log) {
    && WellFormed(log) && c.Valid()
    && cfg.baseline == |Reservations(log)| && cfg.maxTotalAttempts >= cfg.baseline
    && cfg.externalReserveCny == c.suite.externalReserveCny && cfg.hardCapCny == c.hardCapCny
    && cfg.maxInput == c.maxInput && cfg.maxOutput == c.maxOutput && cfg.maxAdditional == Some(AdditionalCeiling(c))
    && cfg.inputUsdPerMillion == c.suite.inputUsdPerMillion && cfg.outputUsdPerMillion == c.suite.outputUsdPerMillion
    && cfg.usdToCny == c.suite.usdToCny
  }

  ghost predicate OpsRequested(c: Campaign, p: Placement, ops: seq<Op>)
    requires ValidPlacement(c, p)
  {
    forall op :: op in ops && op.Reserve? ==> Requested(c, p, op.request)
  }

  ghost predicate AllFromCampaign(c: Campaign, p: Placement, rs: ReservationSeq)
    requires ValidPlacement(c, p)
  {
    forall e :: e in rs ==> FromCampaign(c, p, e)
  }

  lemma RequestIsFromCampaign(cfg: Config, c: Campaign, p: Placement, log: Log, q: Request, id: string, start: Log)
    requires ValidPlacement(c, p) && Uses(cfg, c, start) && Requested(c, p, q)
    requires RequestRefusal(cfg, q).None? && BaselineInside(log, cfg.baseline)
    ensures FromCampaign(c, p, ReservedEvent(cfg, log, q, id))
  {
    RequestIsAtPrice(cfg, c, log, q, id, start);
    RequestIsPlaced(cfg, c, p, ReservedEvent(cfg, log, q, id), q, start);
  }

  lemma RequestIsAtPrice(cfg: Config, c: Campaign, log: Log, q: Request, id: string, start: Log)
    requires Uses(cfg, c, start) && BaselineInside(log, cfg.baseline)
    ensures AtPrice(c.suite, ReservedEvent(cfg, log, q, id))
  {
  }

  lemma RequestIsPlaced(cfg: Config, c: Campaign, p: Placement, e: Event, q: Request, start: Log)
    requires ValidPlacement(c, p) && Uses(cfg, c, start) && Requested(c, p, q) && RequestRefusal(cfg, q).None?
    requires e.Reserved? && e.trialId == q.trialId && e.maxInput == q.InputCeiling(cfg) && e.maxOutput == q.OutputCeiling(cfg)
    ensures if e.trialId in p.slots then Placed(c.suite, c.Tracks(), AttemptOf(p, [], e))
            else e.trialId == p.probe && e.maxInput <= c.maxInput && e.maxOutput <= c.maxOutput
  {
  }

  lemma AllSnoc(c: Campaign, p: Placement, rs: ReservationSeq, e: Event)
    requires ValidPlacement(c, p) && AllFromCampaign(c, p, rs) && FromCampaign(c, p, e)
    ensures AllFromCampaign(c, p, rs + [e])
  {
  }

  lemma StepIsCampaigns(cfg: Config, c: Campaign, p: Placement, start: Log, log: Log, op: Op)
    requires ValidPlacement(c, p) && Uses(cfg, c, start) && (op.Reserve? ==> Requested(c, p, op.request))
    requires WellFormed(log) && BaselineInside(log, cfg.baseline) && AllFromCampaign(c, p, Scope(log, cfg.baseline))
    ensures BaselineInside(After(cfg, log, op), cfg.baseline)
    ensures AllFromCampaign(c, p, Scope(After(cfg, log, op), cfg.baseline))
  {
    if Appended(cfg, log, op).Some? {
      var e := Appended(cfg, log, op).value;
      ScopeSnoc(log, e, cfg.baseline);
      if op.Reserve? {
        RequestIsFromCampaign(cfg, c, p, log, op.request, op.freshId, start);
        AllSnoc(c, p, Scope(log, cfg.baseline), e);
      } else {
        assert Scope(log + [e], cfg.baseline) == Scope(log, cfg.baseline);
      }
    }
  }

  lemma {:induction false} ScopeIsCampaigns(cfg: Config, c: Campaign, p: Placement, log: Log, ops: seq<Op>)
    requires ValidPlacement(c, p) && Uses(cfg, c, log) && FreshIds(cfg, log, ops) && OpsRequested(c, p, ops)
    ensures BaselineInside(Perform(cfg, log, ops), cfg.baseline)
    ensures AllFromCampaign(c, p, Scope(Perform(cfg, log, ops), cfg.baseline))
  {
    if ops == [] {
      assert Scope(log, cfg.baseline) == [];
    } else {
      assert Last(ops) in ops && forall op :: op in Init(ops) ==> op in ops;
      ScopeIsCampaigns(cfg, c, p, log, Init(ops));
      StepIsCampaigns(cfg, c, p, log, Perform(cfg, log, Init(ops)), Last(ops));
    }
  }

  lemma RequestedIsScoped(c: Campaign, p: Placement, ops: seq<Op>)
    requires ValidPlacement(c, p) && OpsRequested(c, p, ops)
    ensures RespectsScopes(ops, Limits(c, p))
  {
  }

  lemma ScopeIsMadeByCampaign(cfg: Config, c: Campaign, p: Placement, log: Log, ops: seq<Op>)
    requires ValidPlacement(c, p) && Uses(cfg, c, log) && FreshIds(cfg, log, ops) && OpsRequested(c, p, ops)
    ensures BaselineInside(Perform(cfg, log, ops), cfg.baseline)
    ensures MadeByCampaign(c, p, Scope(Perform(cfg, log, ops), cfg.baseline))
  {
    ScopeIsCampaigns(cfg, c, p, log, ops);
    RequestedIsScoped(c, p, ops);
    StartsWithinCeilings(cfg, c, p, log);
    CeilingsHoldOnLogs(cfg, log, ops, Limits(c, p));
  }

  lemma StartsWithinCeilings(cfg: Config, c: Campaign, p: Placement, log: Log)
    requires ValidPlacement(c, p) && Uses(cfg, c, log)
    ensures WithinCeilings(cfg, log, Limits(c, p))
  {
    ReservationCount(log);
    assert Scope(log, cfg.baseline) == [];
  }

  /** One more granted request keeps the campaign within its limits. */
  lemma NextIsMadeByCampaign(cfg: Config, c: Campaign, p: Placement, start: Log, log: Log, q: Request, id: string)
    requires ValidPlacement(c, p) && Uses(cfg, c, start) && Requested(c, p, q)
    requires BaselineInside(log, cfg.baseline) && MadeByCampaign(c, p, Scope(log, cfg.baseline))
    requires RequestRefusal(cfg, q).None? && RetryRefusal(cfg, Scope(log, cfg.baseline), q).None?
    ensures MadeByCampaign(c, p, Scope(log, cfg.baseline) + [ReservedEvent(cfg, log, q, id)])
  {
    var rs, e := Scope(log, cfg.baseline), ReservedEvent(cfg, log, q, id);
    GrantKeepsTrialsWithin(cfg, rs, q, e, Limits(c, p));
    RequestIsFromCampaign(cfg, c, p, log, q, id, start);
    AttemptsSnoc(rs, e, e.Call());
  }

  lemma AdmittedUses(c: Campaign, identity: string, e: CostEstimate, log: Log, cfg: Config)
    requires c.Valid() && Admitted(c, identity, e, log, cfg) && cfg.Valid()
    ensures Uses(cfg, c, log) && cfg.RatesNonNegative() && Priced(cfg, log)
  {
    ReservationCount(log);
  }

  ghost predicate FitsUnderCap(c: Campaign, charged: real, e: CostEstimate) {
    charged + e.cny + PROBE_ATTEMPTS as real * MaximumCny(c) <= c.hardCapCny
  }

  lemma RoomUnderCap(c: Campaign, charged: real, total: real, e: CostEstimate)
    requires FitsUnderCap(c, charged, e) && Fits(total, c.suite.externalReserveCny, e, MaximumCny(c))
    ensures charged + total + c.suite.externalReserveCny <= c.hardCapCny
  {
  }

  lemma AdmittedFits(c: Campaign, identity: string, e: CostEstimate, log: Log, cfg: Config)
    requires Admitted(c, identity, e, log, cfg)
    ensures FitsUnderCap(c, Charged(log), e)
  {
  }

  // ---------------------------------------------------------------- the cap never stops a campaign

  lemma RoomOnLedger(cfg: Config, c: Campaign, log: Log, q: Request, id: string, base: real, e: CostEstimate)
    requires WellFormed(log) && BaselineInside(log, cfg.baseline) && ChargedWithin(cfg, log, base)
    requires cfg.externalReserveCny == c.suite.externalReserveCny && cfg.hardCapCny == c.hardCapCny
    requires FitsUnderCap(c, base, e)
    requires Fits(ReservedTotal(Scope(log, cfg.baseline) + [ReservedEvent(cfg, log, q, id)]), c.suite.externalReserveCny, e, MaximumCny(c))
    ensures !CrossesCap(cfg, log, q)
  {
    var rs, next := Scope(log, cfg.baseline), ReservedEvent(cfg, log, q, id);
    Snoc(rs, next);
    RoomUnderCap(c, base, ReservedTotal(rs + [next]), e);
  }

  lemma NextFits(c: Campaign, p: Placement, e: CostEstimate, start: Log, cfg: Config, log: Log, q: Request, next: Event)
    requires AllPlannable(c.suite, c.Tracks()) && AllRetriesCovered(c.suite, c.Tracks())
    requires ValidPlacement(c, p) && Uses(cfg, c, start) && IsEstimate(c, e) && Requested(c, p, q)
    requires BaselineInside(log, cfg.baseline) && MadeByCampaign(c, p, Scope(log, cfg.baseline))
    requires RequestRefusal(cfg, q).None? && RetryRefusal(cfg, Scope(log, cfg.baseline), q).None?
    requires next == ReservedEvent(cfg, log, q, "")
    ensures Fits(ReservedTotal(Scope(log, cfg.baseline) + [next]), c.suite.externalReserveCny, e, MaximumCny(c))
  {
    NextIsMadeByCampaign(cfg, c, p, start, log, q, "");
    ReservedFitsEstimate(c, p, Scope(log, cfg.baseline) + [next], e);
  }

  lemma RoomForRequest(c: Campaign, p: Placement, e: CostEstimate, start: Log, cfg: Config, log: Log, q: Request)
    requires AllPlannable(c.suite, c.Tracks()) && AllRetriesCovered(c.suite, c.Tracks())
    requires WellFormed(start) && WellFormed(log) && BaselineInside(log, cfg.baseline)
    requires ValidPlacement(c, p) && Uses(cfg, c, start) && IsEstimate(c, e) && FitsUnderCap(c, Charged(start), e)
    requires MadeByCampaign(c, p, Scope(log, cfg.baseline)) && Requested(c, p, q)
    requires ChargedWithin(cfg, log, Charged(start))
    requires RequestRefusal(cfg, q).None? && RetryRefusal(cfg, Scope(log, cfg.baseline), q).None?
    ensures !CrossesCap(cfg, log, q)
  {
    NextFits(c, p, e, start, cfg, log, q, ReservedEvent(cfg, log, q, ""));
    RoomOnLedger(cfg, c, log, q, "", Charged(start), e);
  }

  lemma AdmittedIsReady(c: Campaign, p: Placement, identity: string, e: CostEstimate, start: Log, cfg: Config,
                        ops: seq<Op>)
    requires ValidPlacement(c, p) && Admitted(c, identity, e, start, cfg) && cfg.Valid()
    requires FreshIds(cfg, start, ops) && OpsRequested(c, p, ops)
    ensures Uses(cfg, c, start) && FitsUnderCap(c, Charged(start), e)
    ensures BaselineInside(Perform(cfg, start, ops), cfg.baseline)
    ensures MadeByCampaign(c, p, Scope(Perform(cfg, start, ops), cfg.baseline))
    ensures !Blocked(Perform(cfg, start, ops)) ==> ChargedWithin(cfg, Perform(cfg, start, ops), Charged(start))
  {
    AdmittedUses(c, identity, e, start, cfg);
    AdmittedFits(c, identity, e, start, cfg);
    ScopeIsMadeByCampaign(cfg, c, p, start, ops);
    ChargesStayReserved(cfg, start, ops);
  }

  /** A request within the trial, claim and retry limits never crosses the cap, whatever the
      admitted campaign did on the ledger before it, as long as its accounting is complete. */
  lemma NeverStoppedOnLogs(c: Campaign, p: Placement, identity: string, e: CostEstimate, start: Log, cfg: Config,
                           ops: seq<Op>, q: Request)
    requires AllPlannable(c.suite, c.Tracks()) && AllRetriesCovered(c.suite, c.Tracks())
    requires ValidPlacement(c, p) && Admitted(c, identity, e, start, cfg) && cfg.Valid()
    requires FreshIds(cfg, start, ops) && OpsRequested(c, p, ops) && Requested(c, p, q)
    ensures !CapRefuses(cfg, Perform(cfg, start, ops), q)
  {
    var log := Perform(cfg, start, ops);
    AdmittedIsReady(c, p, identity, e, start, cfg, ops);
    if RequestRefusal(cfg, q).None? && !Blocked(log) && RetryRefusal(cfg, Scope(log, cfg.baseline), q).None? {
      RoomForRequest(c, p, e, start, cfg, log, q);
    }
  }

  /** Admission is sound end to end: on every run of an admitted campaign, crashes included,
      no reservation within the trial, claim and retry limits is refused for the hard cap. */
  lemma AdmissionIsSound(c: Campaign, p: Placement, identity: string, e: CostEstimate, d: Disk, cfg: Config,
                         moves: seq<Move>, q: Request)
    requires AllPlannable(c.suite, c.Tracks()) && AllRetriesCovered(c.suite, c.Tracks())
    requires ValidPlacement(c, p) && Admitted(c, identity, e, d.log, cfg) && cfg.Valid()
    requires Feasible(cfg, d, moves) && Requested(c, p, q)
    requires forall m :: m in moves && m.op.Reserve? ==> Requested(c, p, m.op.request)
    ensures WellFormed(Replay(cfg, d, moves).log) && !CapRefuses(cfg, Replay(cfg, d, moves).log, q)
  {
    CrashesAreInvisible(cfg, d, moves);
    EffectiveAreMoves(cfg, d, moves);
    NeverStoppedOnLogs(c, p, identity, e, d.log, cfg, Effective(cfg, d, moves), q);
  }
}

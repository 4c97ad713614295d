/** The number of requests an approval authorizes: it is the one the campaign can make, and where the
    estimate's retries cover the calls, the campaign never runs out of it. */
module AdmissionAttempts {
  import opened Outcome
  import opened Sequences
  import opened BudgetLog
  import opened BudgetLedger
  import opened BudgetSafety
  import opened CostEstimate
  import opened CostBound
  import opened CostAttained
  import opened Admission
  import opened AdmissionSafety

  lemma TracksBelong(c: Campaign)
    ensures Belong(c.suite, c.Tracks())
  {
  }

  /** The ceiling of a new approval leaves exactly the requests of a run within the plan that makes
      all its planned calls, the selected retries and all additional attempts, and two for the
      probe; of the additional attempts it leaves those of that run and one for the probe. */
  lemma CeilingIsExact(c: Campaign, identity: string, e: CostEstimate, log: Log, cfg: Config)
    returns (run: CallRun, claims: Claims)
    requires c.Valid() && Estimable(c) && Admitted(c, identity, e, log, cfg)
    ensures AllPlannable(c.suite, c.Tracks()) && WithinPlan(c.suite, c.Tracks(), run, claims)
    ensures AdditionalCalls(run) == c.suite.maxAdditional
    ensures cfg.maxTotalAttempts - cfg.baseline == |run| + 2
    ensures cfg.maxAdditional == Some(AdditionalCalls(run) + 1)
  {
    TracksBelong(c);
    var d :| IsDearest(d, CallCandidates(c.suite, c.Tracks())) && c.suite.HasBudget(d.packId)
             && e == EstimateWith(c.suite, c.Tracks(), d.packId);
    run, claims := RequestsAreAttained(c.suite, c.Tracks(), d.packId);
  }

  lemma {:induction false} RequestsAndProbes(p: Placement, rs: ReservationSeq)
    ensures |ToRun(p, rs)| + Probes(p, rs) == |rs|
  {
    if rs != [] {
      RequestsAndProbes(p, Init(rs));
    }
  }

  /** What a campaign reserves is at most what the estimate counts, and two probe attempts. */
  lemma ReservationsWithin(c: Campaign, p: Placement, rs: ReservationSeq)
    requires MadeByCampaign(c, p, rs) && AllPlannable(c.suite, c.Tracks()) && AllCallsCovered(c.suite, c.Tracks())
    ensures |rs| <= CampaignTotals(c.suite, c.Tracks()).calls + c.suite.maxAdditional + 2
  {
    TracksBelong(c);
    RunIsWithinPlan(c, p, rs);
    RequestsWithin(c.suite, c.Tracks(), ToRun(p, rs), p.claims);
    RepeatsAndProbes(c, p, rs);
    RequestsAndProbes(p, rs);
  }

  lemma CeilingOf(c: Campaign, identity: string, e: CostEstimate, log: Log, cfg: Config)
    requires c.Valid() && Admitted(c, identity, e, log, cfg) && AllPlannable(c.suite, c.Tracks())
    ensures cfg.maxTotalAttempts == |Reservations(log)| + CampaignTotals(c.suite, c.Tracks()).calls + c.suite.maxAdditional + 2
  {
    ReservationCount(log);
    var d :| IsDearest(d, CallCandidates(c.suite, c.Tracks())) && c.suite.HasBudget(d.packId)
             && e == EstimateWith(c.suite, c.Tracks(), d.packId);
    RequestFields(c.suite, c.Tracks(), d.packId);
  }

  /** A request that every other limit lets through is refused for the lifetime ceiling. */
  predicate OutOfAttempts(cfg: Config, log: Log, q: Request)
    requires WellFormed(log)
  {
    && RequestRefusal(cfg, q).None? && BaselineInside(log, cfg.baseline)
    && RetryRefusal(cfg, Scope(log, cfg.baseline), q).None?
    && |ReservedIds(log)| >= cfg.maxTotalAttempts
  }

  lemma OneMoreFits(c: Campaign, p: Placement, start: Log, cfg: Config, log: Log, q: Request)
    requires ValidPlacement(c, p) && Uses(cfg, c, start) && Requested(c, p, q) && WellFormed(log)
    requires BaselineInside(log, cfg.baseline) && MadeByCampaign(c, p, Scope(log, cfg.baseline))
    requires AllPlannable(c.suite, c.Tracks()) && AllCallsCovered(c.suite, c.Tracks())
    requires cfg.maxTotalAttempts == |Reservations(start)| + CampaignTotals(c.suite, c.Tracks()).calls + c.suite.maxAdditional + 2
    ensures !OutOfAttempts(cfg, log, q)
  {
    if RequestRefusal(cfg, q).None? && RetryRefusal(cfg, Scope(log, cfg.baseline), q).None? {
      NextIsMadeByCampaign(cfg, c, p, start, log, q, "");
      ReservationsWithin(c, p, Scope(log, cfg.baseline) + [ReservedEvent(cfg, log, q, "")]);
      ReservationCount(log);
    }
  }

  /** On every run of a newly admitted campaign, crashes included, no request within the trial, claim
      and retry limits is refused because the lifetime ceiling is reached, if the selected retries
      of every track make as many calls as any permitted ones. */
  lemma NeverOutOfAttempts(c: Campaign, p: Placement, identity: string, e: CostEstimate, d: Disk, cfg: Config,
                           moves: seq<Move>, q: Request)
    requires ValidPlacement(c, p) && Admitted(c, identity, e, d.log, cfg) && cfg.Valid()
    requires AllPlannable(c.suite, c.Tracks()) && AllCallsCovered(c.suite, c.Tracks())
    requires Feasible(cfg, d, moves) && Requested(c, p, q)
    requires forall m :: m in moves && m.op.Reserve? ==> Requested(c, p, m.op.request)
    ensures WellFormed(Replay(cfg, d, moves).log) && !OutOfAttempts(cfg, Replay(cfg, d, moves).log, q)
  {
    CrashesAreInvisible(cfg, d, moves);
    EffectiveAreMoves(cfg, d, moves);
    CeilingOf(c, identity, e, d.log, cfg);
    AdmittedIsReady(c, p, identity, e, d.log, cfg, Effective(cfg, d, moves));
    OneMoreFits(c, p, d.log, cfg, Replay(cfg, d, moves).log, q);
  }
}

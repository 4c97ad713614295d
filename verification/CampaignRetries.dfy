/** What the harness's retry quota means for the campaign's estimate: in every store that runs and
    crashes can leave, the blocks of a track are retried within the plan the estimate prices. */
module CampaignRetries {
  import opened Outcome
  import opened Sequences
  import opened Artifacts
  import opened Harness
  import opened HarnessSafety
  import opened HarnessRuns
  import CostEstimate
  import RetryRanking
  import CostBound
  import CostAttained
  import BudgetLog
  import BudgetLedger
  import BudgetSafety
  import Admission
  import AdmissionSafety
  import AdmissionAttempts

  // ---------------------------------------------------------------- one experiment

  /** How often each block was retried: one claim for every attempt after the first. */
  function Retries(jobs: seq<Job>, claims: Claims): seq<nat> {
    seq(|jobs|, i requires 0 <= i < |jobs| => Reached(jobs[i], claims) - 1)
  }

  function AllJobs(jobs: seq<Job>): set<Job> {
    set job | job in jobs
  }

  /** The claims of one block, up to attempt `n`. */
  function PathsUpTo(job: Job, n: nat): set<ClaimPath> {
    if n <= 1 then {} else PathsUpTo(job, n - 1) + {ClaimPath(job.Key(), n)}
  }

  lemma {:induction false} PathsCount(job: Job, n: nat)
    requires 1 <= n
    ensures |PathsUpTo(job, n)| == n - 1
    ensures forall p :: p in PathsUpTo(job, n) <==> p.key == job.Key() && 2 <= p.attempt <= n
  {
    if n > 1 {
      PathsCount(job, n - 1);
    }
  }

  function Paths(jobs: seq<Job>, claims: Claims): set<ClaimPath> {
    if jobs == [] then {} else Paths(Init(jobs), claims) + PathsUpTo(Last(jobs), Reached(Last(jobs), claims))
  }

  predicate KeysDiffer(jobs: seq<Job>) {
    forall i, j :: 0 <= i < j < |jobs| ==> jobs[i].Key() != jobs[j].Key()
  }

  lemma DisjointSize(a: set<ClaimPath>, b: set<ClaimPath>)
    requires a !! b
    ensures |a + b| == |a| + |b|
  {
  }

  /** Some listed block reached that attempt. */
  predicate Retried(jobs: seq<Job>, claims: Claims, p: ClaimPath) {
    exists i :: 0 <= i < |jobs| && jobs[i].Key() == p.key && 2 <= p.attempt <= Reached(jobs[i], claims)
  }

  lemma {:induction false} PathsAreOf(jobs: seq<Job>, claims: Claims)
    ensures forall p :: p in Paths(jobs, claims) ==> Retried(jobs, claims, p)
    decreases |jobs|
  {
    if jobs != [] {
      PathsAreOf(Init(jobs), claims);
      PathsCount(Last(jobs), Reached(Last(jobs), claims));
      forall p | p in Paths(jobs, claims)
        ensures Retried(jobs, claims, p)
      {
        LastRetried(jobs, claims, p);
      }
    }
  }

  lemma LastRetried(jobs: seq<Job>, claims: Claims, p: ClaimPath)
    requires jobs != []
    requires Retried(Init(jobs), claims, p) || (p.key == Last(jobs).Key() && 2 <= p.attempt <= Reached(Last(jobs), claims))
    ensures Retried(jobs, claims, p)
  {
    if Retried(Init(jobs), claims, p) {
      var i :| 0 <= i < |Init(jobs)| && Init(jobs)[i].Key() == p.key && 2 <= p.attempt <= Reached(Init(jobs)[i], claims);
      assert jobs[i] == Init(jobs)[i];
    } else {
      assert jobs[|jobs| - 1] == Last(jobs);
    }
  }

  lemma EarlierPathsDiffer(jobs: seq<Job>, claims: Claims)
    requires KeysDiffer(jobs) && jobs != []
    ensures Paths(Init(jobs), claims) !! PathsUpTo(Last(jobs), Reached(Last(jobs), claims))
  {
    PathsAreOf(Init(jobs), claims);
    PathsCount(Last(jobs), Reached(Last(jobs), claims));
    forall p | p in Paths(Init(jobs), claims)
      ensures p.key != Last(jobs).Key()
    {
      var i :| 0 <= i < |Init(jobs)| && Init(jobs)[i].Key() == p.key && 2 <= p.attempt <= Reached(Init(jobs)[i], claims);
      assert jobs[i].Key() != jobs[|jobs| - 1].Key();
    }
  }

  lemma SumOfLast(jobs: seq<Job>, claims: Claims, n: nat)
    requires jobs != [] && n == Reached(Last(jobs), claims)
    ensures RetryRanking.Sum(Retries(jobs, claims)) == RetryRanking.Sum(Retries(Init(jobs), claims)) + n - 1
  {
    var retries := Retries(jobs, claims);
    assert Last(retries) == n - 1;
    assert Init(retries) == Retries(Init(jobs), claims);
  }

  lemma PathsOfLast(jobs: seq<Job>, claims: Claims, n: nat)
    requires KeysDiffer(jobs) && jobs != [] && n == Reached(Last(jobs), claims)
    ensures |Paths(jobs, claims)| == |Paths(Init(jobs), claims)| + n - 1
  {
    PathsCount(Last(jobs), n);
    EarlierPathsDiffer(jobs, claims);
    DisjointSize(Paths(Init(jobs), claims), PathsUpTo(Last(jobs), n));
  }

  /** Different blocks have different claims: there are as many as retries. */
  lemma {:induction false} PathsAreRetries(jobs: seq<Job>, claims: Claims)
    requires KeysDiffer(jobs)
    ensures |Paths(jobs, claims)| == RetryRanking.Sum(Retries(jobs, claims))
    decreases |jobs|
  {
    if jobs != [] {
      PathsAreRetries(Init(jobs), claims);
      PathsOfLast(jobs, claims, Reached(Last(jobs), claims));
      SumOfLast(jobs, claims, Reached(Last(jobs), claims));
    }
  }

  lemma EachWithinAttempts(jobs: seq<Job>, attempts: nat, claims: Claims)
    requires 1 <= attempts && forall job :: job in jobs ==> job.maxAttempts == attempts
    ensures RetryRanking.EachAtMost(Retries(jobs, claims), attempts - 1)
  {
    forall r | r in Retries(jobs, claims)
      ensures r <= attempts - 1
    {
      var i :| 0 <= i < |jobs| && r == Retries(jobs, claims)[i];
      assert jobs[i] in jobs;
    }
  }

  lemma PathsAreClaims(jobs: seq<Job>, claims: Claims)
    requires forall job :: job in jobs ==> 1 <= job.maxAttempts
    ensures Paths(jobs, claims) <= claims.Keys
  {
    PathsAreOf(jobs, claims);
    forall p | p in Paths(jobs, claims)
      ensures p in claims
    {
      var i :| 0 <= i < |jobs| && jobs[i].Key() == p.key && 2 <= p.attempt <= Reached(jobs[i], claims);
      ReachedClaims(claims, jobs[i].Key(), 1, jobs[i].maxAttempts);
      assert p == ClaimPath(jobs[i].Key(), p.attempt);
    }
  }

  /** In a store in order no block was retried more often than its attempts allow, and all blocks
      together no more often than the quota. */
  lemma RetriesWithinQuota(jobs: seq<Job>, digest: string, quota: nat, attempts: nat, s: Store)
    requires InOrder(AllJobs(jobs), digest, Some(quota), s) && KeysDiffer(jobs)
    requires 1 <= attempts && forall job :: job in jobs ==> job.maxAttempts == attempts
    ensures RetryRanking.EachAtMost(Retries(jobs, s.claims), attempts - 1)
    ensures RetryRanking.Sum(Retries(jobs, s.claims)) <= quota
  {
    PathsAreRetries(jobs, s.claims);
    PathsAreClaims(jobs, s.claims);
    SubsetSize(Paths(jobs, s.claims), s.claims.Keys);
    assert |s.claims.Keys| == |s.claims|;
    EachWithinAttempts(jobs, attempts, s.claims);
  }

  // ---------------------------------------------------------------- all tracks of a campaign

  /** The experiment a track runs: one job for each of its blocks, in order, and its store. */
  datatype Experiment = Experiment(digest: string, jobs: seq<Job>, start: Store, moves: seq<Move>)
  {
    ghost predicate Runs(quota: nat, attempts: nat) {
      && InOrder(AllJobs(jobs), digest, Some(quota), start) && MovesOk(AllJobs(jobs), moves)
      && KeysDiffer(jobs) && forall job :: job in jobs ==> job.maxAttempts == attempts
    }

    function Now(): Store
      requires forall m :: m in moves ==> JobOk(m.job)
    {
      Replay(start, moves)
    }
  }

  /** One experiment for each track, under the suite's attempts and the track's retry cap. */
  ghost predicate Runs(suite: CostEstimate.Suite, tracks: seq<CostEstimate.Track>, xs: seq<Experiment>)
    requires CostEstimate.AllPlannable(suite, tracks)
  {
    && |xs| == |tracks| && 1 <= suite.blockAttempts
    && forall t :: 0 <= t < |tracks| ==>
      (assert tracks[t] in tracks;
       xs[t].Runs(tracks[t].maxRetries, suite.blockAttempts)
       && |xs[t].jobs| == |CostEstimate.Blocks(tracks[t].lines)|)
  }

  function ClaimsOf(xs: seq<Experiment>): (claims: CostBound.Claims)
    requires forall x, m :: x in xs && m in x.moves ==> JobOk(m.job)
    ensures |claims| == |xs|
  {
    seq(|xs|, t requires 0 <= t < |xs| => Retries(xs[t].jobs, xs[t].Now().claims))
  }

  /** However the experiments run and crash, their claims are ones the estimate prices. */
  lemma ClaimsAreValid(suite: CostEstimate.Suite, tracks: seq<CostEstimate.Track>, xs: seq<Experiment>)
    requires CostEstimate.AllPlannable(suite, tracks) && Runs(suite, tracks, xs)
    ensures forall x, m :: x in xs && m in x.moves ==> JobOk(m.job)
    ensures CostBound.ValidClaims(suite, tracks, ClaimsOf(xs))
  {
    forall t | 0 <= t < |tracks|
      ensures tracks[t] in tracks
      ensures RetryRanking.Choice(CostBound.TrackCandidates(suite, tracks[t]), ClaimsOf(xs)[t], suite.blockAttempts - 1,
                                  tracks[t].maxRetries)
    {
      assert tracks[t] in tracks && xs[t].Runs(tracks[t].maxRetries, suite.blockAttempts);
      CrashAnywhere(AllJobs(xs[t].jobs), xs[t].digest, Some(tracks[t].maxRetries), xs[t].start, xs[t].moves);
      RetriesWithinQuota(xs[t].jobs, xs[t].digest, tracks[t].maxRetries, suite.blockAttempts, xs[t].Now());
    }
  }

  /** The trials of a block are those of its first or a claimed attempt: whatever a run recorded,
      and whatever it may execute next. */
  lemma AttemptsAreClaimed(suite: CostEstimate.Suite, tracks: seq<CostEstimate.Track>, xs: seq<Experiment>, t: nat, b: nat,
                           attempt: nat)
    requires CostEstimate.AllPlannable(suite, tracks) && Runs(suite, tracks, xs)
    requires t < |xs| && b < |xs[t].jobs|
    requires forall x, m :: x in xs && m in x.moves ==> JobOk(m.job)
    requires xs[t] in xs && var job, s := xs[t].jobs[b], xs[t].Now();
      || (exists k :: k in s.At(job.Key()).attempts && k.attempt == attempt)
      || (exists k :: GoodStep(job, s, Execute(k)) && k.attempt == attempt)
    ensures 1 <= attempt <= 1 + ClaimsOf(xs)[t][b]
  {
    var job, s := xs[t].jobs[b], xs[t].Now();
    assert xs[t].Runs(tracks[t].maxRetries, suite.blockAttempts);
    CrashAnywhere(AllJobs(xs[t].jobs), xs[t].digest, Some(tracks[t].maxRetries), xs[t].start, xs[t].moves);
    assert job in AllJobs(xs[t].jobs) && BlockOk(job, s);
  }

  // ---------------------------------------------------------------- placing a campaign

  /** The trials of the campaign's experiments, each in the slot of a block attempt that has been
      recorded or may run next. */
  ghost predicate Places(c: Admission.Campaign, xs: seq<Experiment>, slots: map<string, CostBound.Slot>)
    requires CostEstimate.AllPlannable(c.suite, c.Tracks())
    requires forall x, m :: x in xs && m in x.moves ==> JobOk(m.job)
  {
    && (forall t :: t in slots ==> CostBound.Planned(c.suite, c.Tracks(), slots[t]))
    && (forall t, t' :: t in slots && t' in slots && slots[t] == slots[t'] ==> t == t')
    && forall t :: t in slots && slots[t].track < |xs| && slots[t].block < |xs[slots[t].track].jobs| ==>
         RunsNow(xs[slots[t].track], slots[t].block, slots[t].attempt)
  }

  ghost predicate RunsNow(x: Experiment, b: nat, attempt: nat)
    requires b < |x.jobs| && forall m :: m in x.moves ==> JobOk(m.job)
  {
    var job, s := x.jobs[b], x.Now();
    || (exists k :: k in s.At(job.Key()).attempts && k.attempt == attempt)
    || (exists k :: GoodStep(job, s, Execute(k)) && k.attempt == attempt)
  }

  /** The experiments of a campaign, run under the harness's own quota with crashes anywhere, are a
      valid placement: with AdmissionSafety.AdmissionIsSound, no request they make within the
      ledger's limits is refused for the hard cap. */
  lemma ExperimentsArePlaced(c: Admission.Campaign, xs: seq<Experiment>, slots: map<string, CostBound.Slot>, probe: string)
    requires c.Valid() && CostEstimate.AllPlannable(c.suite, c.Tracks()) && Runs(c.suite, c.Tracks(), xs)
    requires forall x, m :: x in xs && m in x.moves ==> JobOk(m.job)
    requires Places(c, xs, slots) && probe !in slots
    ensures AdmissionSafety.ValidPlacement(c, AdmissionSafety.Placement(slots, probe, ClaimsOf(xs)))
  {
    ClaimsAreValid(c.suite, c.Tracks(), xs);
    forall t | t in slots
      ensures CostBound.Claimed(c.suite, c.Tracks(), ClaimsOf(xs), slots[t])
    {
      var slot := slots[t];
      assert CostBound.Planned(c.suite, c.Tracks(), slot);
      assert xs[slot.track] in xs && RunsNow(xs[slot.track], slot.block, slot.attempt);
      AttemptsAreClaimed(c.suite, c.Tracks(), xs, slot.track, slot.block, slot.attempt);
    }
  }

  /** End to end: a campaign that was admitted, and whose experiments run under the harness's retry
      quota with crashes anywhere, never has a request within the ledger's limits refused for the
      hard cap. */
  lemma CampaignIsNeverStopped(c: Admission.Campaign, xs: seq<Experiment>, slots: map<string, CostBound.Slot>,
                               probe: string, identity: string, e: CostEstimate.CostEstimate, d: BudgetLedger.Disk,
                               cfg: BudgetLedger.Config, moves: seq<BudgetSafety.Move>, q: BudgetLedger.Request)
    requires c.Valid() && CostEstimate.AllPlannable(c.suite, c.Tracks()) && Runs(c.suite, c.Tracks(), xs)
    requires forall x, m :: x in xs && m in x.moves ==> JobOk(m.job)
    requires CostBound.AllRetriesCovered(c.suite, c.Tracks()) && Places(c, xs, slots) && probe !in slots
    requires Admission.Admitted(c, identity, e, d.log, cfg) && cfg.Valid() && BudgetSafety.Feasible(cfg, d, moves)
    requires var p := AdmissionSafety.Placement(slots, probe, ClaimsOf(xs));
      AdmissionSafety.ValidPlacement(c, p) ==>
           && AdmissionSafety.Requested(c, p, q)
           && forall m :: m in moves && m.op.Reserve? ==> AdmissionSafety.Requested(c, p, m.op.request)
    ensures var log := BudgetSafety.Replay(cfg, d, moves).log;
      BudgetLog.WellFormed(log) && !BudgetLedger.CapRefuses(cfg, log, q)
  {
    ExperimentsArePlaced(c, xs, slots, probe);
    AdmissionSafety.AdmissionIsSound(c, AdmissionSafety.Placement(slots, probe, ClaimsOf(xs)), identity, e, d, cfg, moves, q);
  }

  /** Nor, where the selected retries cover the calls, for the lifetime ceiling of its approval. */
  lemma CampaignNeverRunsOut(c: Admission.Campaign, xs: seq<Experiment>, slots: map<string, CostBound.Slot>,
                             probe: string, identity: string, e: CostEstimate.CostEstimate, d: BudgetLedger.Disk,
                             cfg: BudgetLedger.Config, moves: seq<BudgetSafety.Move>, q: BudgetLedger.Request)
    requires c.Valid() && CostEstimate.AllPlannable(c.suite, c.Tracks()) && Runs(c.suite, c.Tracks(), xs)
    requires forall x, m :: x in xs && m in x.moves ==> JobOk(m.job)
    requires CostAttained.AllCallsCovered(c.suite, c.Tracks()) && Places(c, xs, slots) && probe !in slots
    requires Admission.Admitted(c, identity, e, d.log, cfg) && cfg.Valid() && BudgetSafety.Feasible(cfg, d, moves)
    requires var p := AdmissionSafety.Placement(slots, probe, ClaimsOf(xs));
      AdmissionSafety.ValidPlacement(c, p) ==>
           && AdmissionSafety.Requested(c, p, q)
           && forall m :: m in moves && m.op.Reserve? ==> AdmissionSafety.Requested(c, p, m.op.request)
    ensures var log := BudgetSafety.Replay(cfg, d, moves).log;
      BudgetLog.WellFormed(log) && !AdmissionAttempts.OutOfAttempts(cfg, log, q)
  {
    ExperimentsArePlaced(c, xs, slots, probe);
    AdmissionAttempts.NeverOutOfAttempts(c, AdmissionSafety.Placement(slots, probe, ClaimsOf(xs)), identity, e, d, cfg, moves, q);
  }
}

/** Runs of the harness over all blocks of a plan, with crashes anywhere and restarts. */
module HarnessRuns {
  import opened Outcome
  import opened Sequences
  import opened Artifacts
  import opened Harness
  import opened HarnessSafety
  import opened HarnessCrash

  /** One run of one block, of which the first `durable` steps took place. */
  datatype Move = Move(job: Job, world: World, durable: nat)

  function Taken(s: Store, m: Move): seq<Step>
    requires JobOk(m.job)
  {
    var steps := RunSteps(m.job, m.world, s);
    if m.durable <= |steps| then steps[..m.durable] else steps
  }

  ghost predicate MovesOk(jobs: set<Job>, moves: seq<Move>) {
    forall m :: m in moves ==> m.job in jobs && JobOk(m.job)
  }

  function Replay(s: Store, moves: seq<Move>): Store
    requires forall m :: m in moves ==> JobOk(m.job)
  {
    if moves == [] then s
    else
      assert Last(moves) in moves;
      var before := Replay(s, Init(moves));
      ApplyAll(before, Taken(before, Last(moves)))
  }

  /** The plan's jobs, and a store in order. */
  ghost predicate InOrder(jobs: set<Job>, digest: string, maxRetries: Option<nat>, s: Store) {
    JobsAlike(jobs, digest, maxRetries) && StoreOk(jobs, digest, maxRetries, s)
  }

  /** An experiment starts in order. */
  lemma EmptyStoreIsInOrder(jobs: set<Job>, digest: string, maxRetries: Option<nat>)
    requires JobsAlike(jobs, digest, maxRetries)
    ensures InOrder(jobs, digest, maxRetries, Store(map[], map[]))
  {
    forall job | job in jobs
      ensures BlockOk(job, Store(map[], map[]))
    {
      assert Reached(job, map[]) == 1;
    }
  }

  lemma InOrderIsReady(jobs: set<Job>, digest: string, maxRetries: Option<nat>, s: Store, job: Job)
    requires InOrder(jobs, digest, maxRetries, s) && job in jobs
    ensures BlockReady(job, s)
  {
    forall n: nat | ClaimPath(job.Key(), n) in s.claims
      ensures 2 <= n <= Reached(job, s.claims)
    {
      NoClaimBeyond(jobs, digest, maxRetries, s.claims, job, n);
    }
  }

  lemma TakenIsGood(jobs: set<Job>, digest: string, maxRetries: Option<nat>, s: Store, m: Move)
    requires InOrder(jobs, digest, maxRetries, s) && m.job in jobs && JobOk(m.job)
    ensures GoodSteps(m.job, s, Taken(s, m))
  {
    InOrderIsReady(jobs, digest, maxRetries, s, m.job);
    RunIsGood(m.job, m.world, s);
    var steps := RunSteps(m.job, m.world, s);
    if m.durable <= |steps| {
      GoodPrefix(m.job, s, steps, m.durable);
    }
  }

  /** For every sequence of runs with crashes between any two writes, the store stays in order:
      block, trial and pair summaries are one fixed function of the attempt records and claims
      on disk, and claims stay within the quota. */
  lemma {:induction false} CrashAnywhere(jobs: set<Job>, digest: string, maxRetries: Option<nat>, s: Store,
                                         moves: seq<Move>)
    requires InOrder(jobs, digest, maxRetries, s) && MovesOk(jobs, moves)
    ensures InOrder(jobs, digest, maxRetries, Replay(s, moves))
    decreases |moves|
  {
    if moves != [] {
      assert Last(moves) in moves && forall m :: m in Init(moves) ==> m in moves;
      CrashAnywhere(jobs, digest, maxRetries, s, Init(moves));
      var before := Replay(s, Init(moves));
      TakenIsGood(jobs, digest, maxRetries, before, Last(moves));
      GoodStepsKeepStore(jobs, digest, maxRetries, before, Last(moves).job, Taken(before, Last(moves)));
    }
  }

  // ---------------------------------------------------------------- which attempt is selected

  /** A finished block has selected the first attempt that resolves it, else the last one it
      reached; its claims are exactly the second to the selected attempt. */
  lemma SelectedIsFirstResolving(jobs: set<Job>, digest: string, maxRetries: Option<nat>, s: Store, job: Job)
    requires InOrder(jobs, digest, maxRetries, s) && job in jobs && s.At(job.Key()).result.Some?
    ensures var r, a := s.At(job.Key()).result.value, s.At(job.Key()).attempts;
      && 1 <= r.selected <= job.maxAttempts
      && (r.resolved <==> Resolves(job, a, r.selected)) && r.exhausted == !r.resolved
      && (forall n :: 1 <= n < r.selected ==> Tried(job, a, n) && !Resolves(job, a, n))
      && (forall n: nat :: ClaimPath(job.Key(), n) in s.claims <==> 2 <= n <= r.selected)
      && (!r.resolved ==> r.selected == job.maxAttempts || QuotaUsedUp(s.claims, maxRetries))
  {
    InOrderIsReady(jobs, digest, maxRetries, s, job);
    ReachedClaims(s.claims, job.Key(), 1, job.maxAttempts);
  }

  /** When every block is finished, the claims are exactly the second to the selected attempts
      of the blocks, and there are at most as many as the quota. */
  lemma ClaimsAreExact(jobs: set<Job>, digest: string, maxRetries: Option<nat>, s: Store)
    requires InOrder(jobs, digest, maxRetries, s)
    requires forall job :: job in jobs ==> s.At(job.Key()).result.Some?
    ensures forall p :: p in s.claims <==>
      exists job :: job in jobs && job.Key() == p.key && 2 <= p.attempt <= s.At(job.Key()).result.value.selected
    ensures maxRetries.Some? ==> |s.claims| <= maxRetries.value
  {
    forall p: ClaimPath
      ensures p in s.claims <==>
        exists job :: job in jobs && job.Key() == p.key && 2 <= p.attempt <= s.At(job.Key()).result.value.selected
    {
      if p in s.claims {
        var job :| job in jobs && ClaimedBy(job, s.claims, p);
        SelectedIsFirstResolving(jobs, digest, maxRetries, s, job);
      }
      if job :| job in jobs && job.Key() == p.key && 2 <= p.attempt <= s.At(job.Key()).result.value.selected {
        SelectedIsFirstResolving(jobs, digest, maxRetries, s, job);
        assert p == ClaimPath(job.Key(), p.attempt);
      }
    }
  }

  // ---------------------------------------------------------------- records stay, trials do not run again

  ghost predicate RecordsKept(s: Store, later: Store) {
    forall key, k :: k in s.At(key).attempts ==> k in later.At(key).attempts && later.At(key).attempts[k] == s.At(key).attempts[k]
  }

  lemma StepKeepsRecords(job: Job, s: Store, step: Step)
    requires GoodStep(job, s, step)
    ensures RecordsKept(s, Apply(s, step)) && (s.At(job.Key()).result.Some? ==> Apply(s, step).At(job.Key()).result.Some?)
  {
  }

  lemma {:induction false} StepsKeepRecords(job: Job, s: Store, steps: seq<Step>)
    requires GoodSteps(job, s, steps)
    ensures RecordsKept(s, ApplyAll(s, steps))
    ensures s.At(job.Key()).result.Some? ==> ApplyAll(s, steps).At(job.Key()).result.Some?
    decreases |steps|
  {
    if steps != [] {
      StepsKeepRecords(job, s, Init(steps));
      StepKeepsRecords(job, ApplyAll(s, Init(steps)), Last(steps));
    }
  }

  /** A recorded attempt never changes, through all runs and crashes. */
  lemma {:induction false} RecordsNeverChange(jobs: set<Job>, digest: string, maxRetries: Option<nat>, s: Store,
                                              moves: seq<Move>)
    requires InOrder(jobs, digest, maxRetries, s) && MovesOk(jobs, moves)
    ensures RecordsKept(s, Replay(s, moves))
    decreases |moves|
  {
    if moves != [] {
      assert Last(moves) in moves && forall m :: m in Init(moves) ==> m in moves;
      RecordsNeverChange(jobs, digest, maxRetries, s, Init(moves));
      CrashAnywhere(jobs, digest, maxRetries, s, Init(moves));
      var before := Replay(s, Init(moves));
      TakenIsGood(jobs, digest, maxRetries, before, Last(moves));
      StepsKeepRecords(Last(moves).job, before, Taken(before, Last(moves)));
    }
  }

  lemma UntriedBefore(job: Job, s: Store, later: Store, n: nat)
    requires RecordsKept(s, later) && BlockOk(job, s) && BlockOk(job, later) && !Tried(job, later.At(job.Key()).attempts, n)
    ensures !Tried(job, s.At(job.Key()).attempts, n)
  {
    forall v | v in job.Variants()
      ensures ReadAttempt(job, s.At(job.Key()).attempts, v, n).None?
    {
      assert v !in Present(job, later.At(job.Key()).attempts, n);
    }
    assert Present(job, s.At(job.Key()).attempts, n) == map[];
  }

  /** What the `i`-th step of a run finds: a run only executes an attempt of which nothing was
      recorded when the run began, and neither executes nor claims anything for a block whose
      result was already written. */
  lemma StepsAreFresh(job: Job, s: Store, steps: seq<Step>, i: nat)
    requires BlockReady(job, s) && GoodSteps(job, s, steps) && i < |steps|
    ensures steps[i].Execute? ==>
      steps[i].key.block == job.Key() && !Tried(job, s.At(job.Key()).attempts, steps[i].key.attempt)
    ensures s.At(job.Key()).result.Some? ==> !steps[i].Execute? && !steps[i].RecordAttempt? && !steps[i].WriteClaim?
  {
    GoodPrefix(job, s, steps, i + 1);
    assert Init(steps[..i + 1]) == steps[..i] && Last(steps[..i + 1]) == steps[i];
    StepsKeepReady(job, s, steps[..i]);
    StepsKeepRecords(job, s, steps[..i]);
    if steps[i].Execute? {
      UntriedBefore(job, s, ApplyAll(s, steps[..i]), steps[i].key.attempt);
    }
  }

  /** No attempt with any record is executed again, and a block with a result is never run again. */
  lemma NothingRunsTwice(jobs: set<Job>, digest: string, maxRetries: Option<nat>, s: Store, moves: seq<Move>, m: Move,
                         i: nat)
    requires InOrder(jobs, digest, maxRetries, s) && MovesOk(jobs, moves) && m.job in jobs && JobOk(m.job)
    requires i < |RunSteps(m.job, m.world, Replay(s, moves))|
    ensures var now, step := Replay(s, moves), RunSteps(m.job, m.world, Replay(s, moves))[i];
      && (step.Execute? ==> step.key.block == m.job.Key() && !Tried(m.job, now.At(m.job.Key()).attempts, step.key.attempt))
      && (now.At(m.job.Key()).result.Some? ==> !step.Execute? && !step.RecordAttempt? && !step.WriteClaim?)
  {
    CrashAnywhere(jobs, digest, maxRetries, s, moves);
    InOrderIsReady(jobs, digest, maxRetries, Replay(s, moves), m.job);
    RunIsGood(m.job, m.world, Replay(s, moves));
    StepsAreFresh(m.job, Replay(s, moves), RunSteps(m.job, m.world, Replay(s, moves)), i);
  }
}

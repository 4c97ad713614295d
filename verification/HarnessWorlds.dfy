/** What the files of a block say about the trials that ran: every record and every trial summary is
    what its execution came to, and a run that is not cut short leaves nothing out. */
module HarnessWorlds {
  import opened Outcome
  import opened Sequences
  import opened Records
  import opened Plan
  import opened PlanShape
  import opened Artifacts
  import opened Harness
  import opened HarnessRun
  import opened HarnessSafety
  import opened HarnessCrash
  import opened HarnessRuns
  import opened HarnessResults
  import opened HarnessPlan
  import opened HarnessPartial
  import Reducer

  // ---------------------------------------------------------------- records

  /** The outcome says what the execution of attempt `k` came to: the execution's own status,
      verification and findings if the trial ran under its variant's settings, and otherwise an
      infrastructure failure that names the drift; always what was observed. */
  ghost predicate Reports(job: Job, world: World, k: AttemptKey, o: TrialOutcome) {
    && k.block == job.Key() && k.variant in job.Variants()
    && forall v :: v in job.variants && v.id == k.variant ==> ReportsExecution(world(k), v.settings, o)
  }

  predicate ReportsExecution(e: Execution, declared: Settings, o: TrialOutcome) {
    && o.declared == declared && o.observed == e.observed && o.details == e.details
    && if e.observed == declared
       then o.status == e.status && o.verification == e.verification && o.findings == e.findings
       else && o.status == InfrastructureFailure && o.verification == Verification(VerificationNotRun, ["variant_drift"])
            && o.findings == e.findings + ["variant_drift"]
  }

  lemma {:induction false} FirstIsTheOnly(variants: seq<Variant>, v: Variant)
    requires v in variants && forall i, j :: 0 <= i < j < |variants| ==> variants[i].id != variants[j].id
    ensures FirstSettings(variants, v.id) == v.settings
  {
    var i :| 0 <= i < |variants| && variants[i] == v;
    if i > 0 {
      assert variants[0].id != variants[i].id && variants[1..][i - 1] == v;
      FirstIsTheOnly(variants[1..], v);
    }
  }

  lemma VariantsDiffer(job: Job)
    requires JobOk(job)
    ensures forall i, j :: 0 <= i < j < |job.variants| ==> job.variants[i].id != job.variants[j].id
  {
    var keys := KeysOf(job.trials);
    assert keys == TrialKeys(job.Key(), job.variants);
    forall i, j | 0 <= i < j < |job.variants|
      ensures job.variants[i].id != job.variants[j].id
    {
      assert keys[i].variant != keys[j].variant;
    }
  }

  lemma RecordReports(job: Job, world: World, variant: string, n: nat)
    requires JobOk(job) && variant in job.Variants()
    ensures Reports(job, world, AttemptKeyOf(job, variant, n), RecordOf(job, world, variant, n).outcome)
  {
    VariantsDiffer(job);
    forall v | v in job.variants && v.id == variant
      ensures job.SettingsOf(variant) == v.settings
    {
      FirstIsTheOnly(job.variants, v);
    }
  }

  /** Every step that records an attempt records what its execution came to. */
  ghost predicate AllReport(job: Job, world: World, steps: seq<Step>) {
    forall x :: x in steps && x.RecordAttempt? ==> x.record.digest == job.digest && Reports(job, world, x.record.key, x.record.outcome)
  }

  lemma AttemptReports(job: Job, world: World, n: nat)
    requires JobOk(job)
    ensures AllReport(job, world, AttemptSteps(job, world, n))
  {
    BlockHasTrials(job);
    var keys := job.block.trials;
    forall x | x in Recordings(job, world, keys, n)
      ensures x.RecordAttempt? && x.record.digest == job.digest && Reports(job, world, x.record.key, x.record.outcome)
    {
      var i :| 0 <= i < |keys| && x == Recordings(job, world, keys, n)[i];
      assert keys[i] in keys;
      RecordReports(job, world, keys[i].variant, n);
    }
    assert forall x :: x in Executions(job, keys, n) ==> x.Execute?;
  }

  ghost predicate LoopReports(job: Job, world: World, s: Store, n: nat)
    requires JobOk(job) && 1 <= n <= job.maxAttempts + 1
  {
    AllReport(job, world, LoopSteps(job, world, s, n))
  }

  lemma LoopEndReports(job: Job, world: World, s: Store, n: nat)
    requires JobOk(job) && 1 <= n <= job.maxAttempts + 1 && (n > job.maxAttempts || (n > 1 && !MayClaim(job, s, n)))
    ensures LoopReports(job, world, s, n)
  {
    LoopEnds(job, world, s, n);
    FinishRecordsNothing(job, s.At(job.Key()).attempts, n - 1, false);
  }

  lemma TurnReports(job: Job, world: World, s: Store, n: nat)
    requires JobOk(job)
    ensures AllReport(job, world, ClaimSteps(job, s, n) + TrySteps(job, world, s, n))
  {
    AttemptReports(job, world, n);
  }

  lemma TurnThenReports(job: Job, world: World, s: Store, n: nat, later: Store)
    requires JobOk(job) && 1 <= n <= job.maxAttempts && (n == 1 || MayClaim(job, s, n))
    requires later == AfterTurn(job, world, s, n) && LoopReports(job, world, later, n + 1)
    ensures LoopReports(job, world, s, n)
  {
    TurnReports(job, world, s, n);
    LoopGoesOn(job, world, s, n, later);
    FinishRecordsNothing(job, later.At(job.Key()).attempts, n, true);
  }

  lemma {:induction false} LoopAllReports(job: Job, world: World, s: Store, n: nat)
    requires JobOk(job) && 1 <= n <= job.maxAttempts + 1
    ensures LoopReports(job, world, s, n)
    decreases job.maxAttempts + 1 - n, 1
  {
    if n > 1 && (n > job.maxAttempts || !MayClaim(job, s, n)) {
      LoopEndReports(job, world, s, n);
    } else {
      LaterReports(job, world, s, n, AfterTurn(job, world, s, n), n + 1);
    }
  }

  lemma {:induction false} LaterReports(job: Job, world: World, s: Store, n: nat, later: Store, next: nat)
    requires JobOk(job) && 1 <= n <= job.maxAttempts && (n == 1 || MayClaim(job, s, n))
    requires later == AfterTurn(job, world, s, n) && next == n + 1
    ensures LoopReports(job, world, s, n)
    decreases job.maxAttempts + 1 - n, 0
  {
    LoopAllReports(job, world, later, next);
    TurnThenReports(job, world, s, n, later);
  }

  /** A run records what its trials came to. */
  lemma RunReports(job: Job, world: World, s: Store)
    requires JobOk(job)
    ensures AllReport(job, world, RunSteps(job, world, s))
  {
    if !Resumable(job, s) {
      RebuildRecordsNothing(job, s);
      LoopAllReports(job, world, ApplyAll(s, RebuildSteps(job, s)), 1);
    }
  }

  // ---------------------------------------------------------------- symmetric attempts

  /** From `start` on, the trials of attempt `n` are executed, all of them, in the plan's order. */
  predicate Batch(job: Job, steps: seq<Step>, start: nat, n: nat) {
    && start + |job.block.trials| <= |steps|
    && forall j :: 0 <= j < |job.block.trials| ==> steps[start + j] == Execute(AttemptKey(job.Key(), job.block.trials[j].variant, n))
  }

  predicate ExecutedInBatch(job: Job, steps: seq<Step>, i: nat)
    requires i < |steps|
  {
    steps[i].Execute? ==> exists start: nat :: start <= i < start + |job.block.trials| && Batch(job, steps, start, steps[i].key.attempt)
  }

  predicate RecordedAfterBatch(job: Job, steps: seq<Step>, i: nat)
    requires i < |steps|
  {
    steps[i].RecordAttempt? ==> exists start: nat :: start + |job.block.trials| <= i && Batch(job, steps, start, steps[i].record.key.attempt)
  }

  /** Trials are executed in whole attempts, and an attempt is recorded only when all its trials
      have been executed. */
  predicate Symmetric(job: Job, steps: seq<Step>) {
    forall i :: 0 <= i < |steps| ==> ExecutedInBatch(job, steps, i) && RecordedAfterBatch(job, steps, i)
  }

  lemma BatchMoves(job: Job, a: seq<Step>, b: seq<Step>, start: nat, n: nat)
    ensures Batch(job, a, start, n) ==> Batch(job, a + b, start, n)
    ensures Batch(job, b, start, n) ==> Batch(job, a + b, |a| + start, n)
  {
  }

  lemma SymmetricAppend(job: Job, a: seq<Step>, b: seq<Step>)
    requires Symmetric(job, a) && Symmetric(job, b)
    ensures Symmetric(job, a + b)
  {
    forall i | 0 <= i < |a + b|
      ensures ExecutedInBatch(job, a + b, i) && RecordedAfterBatch(job, a + b, i)
    {
      if i < |a| {
        StaysInBatch(job, a, b, i);
      } else {
        MovesInBatch(job, a, b, i - |a|);
      }
    }
  }

  lemma StaysInBatch(job: Job, a: seq<Step>, b: seq<Step>, i: nat)
    requires i < |a| && ExecutedInBatch(job, a, i) && RecordedAfterBatch(job, a, i)
    ensures ExecutedInBatch(job, a + b, i) && RecordedAfterBatch(job, a + b, i)
  {
    if a[i].Execute? {
      var start: nat :| start <= i < start + |job.block.trials| && Batch(job, a, start, a[i].key.attempt);
      BatchMoves(job, a, b, start, a[i].key.attempt);
    } else if a[i].RecordAttempt? {
      var start: nat :| start + |job.block.trials| <= i && Batch(job, a, start, a[i].record.key.attempt);
      BatchMoves(job, a, b, start, a[i].record.key.attempt);
    }
  }

  lemma MovesInBatch(job: Job, a: seq<Step>, b: seq<Step>, i: nat)
    requires i < |b| && ExecutedInBatch(job, b, i) && RecordedAfterBatch(job, b, i)
    ensures ExecutedInBatch(job, a + b, |a| + i) && RecordedAfterBatch(job, a + b, |a| + i)
  {
    if b[i].Execute? {
      var start: nat :| start <= i < start + |job.block.trials| && Batch(job, b, start, b[i].key.attempt);
      BatchMoves(job, a, b, start, b[i].key.attempt);
    } else if b[i].RecordAttempt? {
      var start: nat :| start + |job.block.trials| <= i && Batch(job, b, start, b[i].record.key.attempt);
      BatchMoves(job, a, b, start, b[i].record.key.attempt);
    }
  }

  predicate OnlyFiles(steps: seq<Step>) {
    forall x :: x in steps ==> !x.Execute? && !x.RecordAttempt?
  }

  lemma FilesAreSymmetric(job: Job, steps: seq<Step>)
    requires OnlyFiles(steps)
    ensures Symmetric(job, steps)
  {
    assert forall i :: 0 <= i < |steps| ==> steps[i] in steps;
  }

  lemma FinishIsSymmetric(job: Job, a: Attempts, n: nat, resolved: bool)
    requires forall t :: t in job.trials ==> t.key.variant in job.Variants()
    ensures Symmetric(job, FinishSteps(job, a, n, resolved))
  {
    FinishSplits(job, a, n, resolved);
    FilesAreSymmetric(job, FinishSteps(job, a, n, resolved));
  }

  lemma AttemptIsSymmetric(job: Job, world: World, n: nat)
    requires JobOk(job)
    ensures Symmetric(job, AttemptSteps(job, world, n))
  {
    BlockHasTrials(job);
    var keys, steps := job.block.trials, AttemptSteps(job, world, n);
    assert Batch(job, steps, 0, n);
    forall i | 0 <= i < |steps|
      ensures ExecutedInBatch(job, steps, i) && RecordedAfterBatch(job, steps, i)
    {
      if i < |keys| {
        assert steps[i] == Execute(AttemptKeyOf(job, keys[i].variant, n));
      } else {
        assert steps[i] == Recordings(job, world, keys, n)[i - |keys|];
      }
    }
  }

  lemma TurnIsSymmetric(job: Job, world: World, s: Store, n: nat)
    requires JobOk(job)
    ensures Symmetric(job, ClaimSteps(job, s, n) + TrySteps(job, world, s, n))
  {
    FilesAreSymmetric(job, ClaimSteps(job, s, n));
    if Tried(job, s.At(job.Key()).attempts, n) {
      FilesAreSymmetric(job, []);
    } else {
      AttemptIsSymmetric(job, world, n);
    }
    SymmetricAppend(job, ClaimSteps(job, s, n), TrySteps(job, world, s, n));
  }

  ghost predicate LoopIsSymmetric(job: Job, world: World, s: Store, n: nat)
    requires JobOk(job) && 1 <= n <= job.maxAttempts + 1
  {
    Symmetric(job, LoopSteps(job, world, s, n))
  }

  lemma LoopEndIsSymmetric(job: Job, world: World, s: Store, n: nat)
    requires JobOk(job) && 1 <= n <= job.maxAttempts + 1 && (n > job.maxAttempts || (n > 1 && !MayClaim(job, s, n)))
    ensures LoopIsSymmetric(job, world, s, n)
  {
    LoopEnds(job, world, s, n);
    FinishIsSymmetric(job, s.At(job.Key()).attempts, n - 1, false);
  }

  lemma TurnThenSymmetric(job: Job, world: World, s: Store, n: nat, later: Store)
    requires JobOk(job) && 1 <= n <= job.maxAttempts && (n == 1 || MayClaim(job, s, n))
    requires later == AfterTurn(job, world, s, n) && LoopIsSymmetric(job, world, later, n + 1)
    ensures LoopIsSymmetric(job, world, s, n)
  {
    var taken := ClaimSteps(job, s, n) + TrySteps(job, world, s, n);
    TurnIsSymmetric(job, world, s, n);
    LoopGoesOn(job, world, s, n, later);
    if Resolves(job, later.At(job.Key()).attempts, n) {
      FinishIsSymmetric(job, later.At(job.Key()).attempts, n, true);
      SymmetricAppend(job, taken, FinishSteps(job, later.At(job.Key()).attempts, n, true));
    } else {
      SymmetricAppend(job, taken, LoopSteps(job, world, later, n + 1));
    }
  }

  lemma {:induction false} LoopStaysSymmetric(job: Job, world: World, s: Store, n: nat)
    requires JobOk(job) && 1 <= n <= job.maxAttempts + 1
    ensures LoopIsSymmetric(job, world, s, n)
    decreases job.maxAttempts + 1 - n, 1
  {
    if n > 1 && (n > job.maxAttempts || !MayClaim(job, s, n)) {
      LoopEndIsSymmetric(job, world, s, n);
    } else {
      LaterStaysSymmetric(job, world, s, n, AfterTurn(job, world, s, n), n + 1);
    }
  }

  lemma {:induction false} LaterStaysSymmetric(job: Job, world: World, s: Store, n: nat, later: Store, next: nat)
    requires JobOk(job) && 1 <= n <= job.maxAttempts && (n == 1 || MayClaim(job, s, n))
    requires later == AfterTurn(job, world, s, n) && next == n + 1
    ensures LoopIsSymmetric(job, world, s, n)
    decreases job.maxAttempts + 1 - n, 0
  {
    LoopStaysSymmetric(job, world, later, next);
    TurnThenSymmetric(job, world, s, n, later);
  }

  lemma RebuildIsSymmetric(job: Job, s: Store)
    requires JobOk(job)
    ensures Symmetric(job, RebuildSteps(job, s))
  {
    TrialsAreVariants(job);
    var shelf := s.At(job.Key());
    var only := TheOnly(Candidates(job, shelf));
    FilesAreSymmetric(job, []);
    if only.Some? {
      FinishIsSymmetric(job, shelf.attempts, only.value, Resolves(job, shelf.attempts, only.value));
    }
  }

  /** Retries are symmetric: a run executes the trials of an attempt together, all of them, in the
      plan's order, and records none of them before the last has been executed. */
  lemma RunIsSymmetric(job: Job, world: World, s: Store)
    requires JobOk(job)
    ensures Symmetric(job, RunSteps(job, world, s))
  {
    FilesAreSymmetric(job, []);
    if !Resumable(job, s) {
      var rebuilt := RebuildSteps(job, s);
      RebuildIsSymmetric(job, s);
      LoopStaysSymmetric(job, world, ApplyAll(s, rebuilt), 1);
      SymmetricAppend(job, rebuilt, LoopSteps(job, world, ApplyAll(s, rebuilt), 1));
    }
  }

  // ---------------------------------------------------------------- over runs

  /** Every record of the block was there at the start or says what its execution came to. */
  ghost predicate StepsReport(job: Job, world: World, a: Attempts, later: Attempts) {
    forall k :: k in later ==>
      (k in a && later[k] == a[k]) || (later[k].key == k && later[k].digest == job.digest && Reports(job, world, k, later[k].outcome))
  }

  lemma {:induction false} StepsAddReports(job: Job, world: World, s: Store, steps: seq<Step>)
    requires AllReport(job, world, steps)
    ensures StepsReport(job, world, s.At(job.Key()).attempts, ApplyAll(s, steps).At(job.Key()).attempts)
    decreases |steps|
  {
    if steps != [] {
      assert Last(steps) in steps && forall x :: x in Init(steps) ==> x in steps;
      StepsAddReports(job, world, s, Init(steps));
    }
  }

  /** A record of the block that some run of it made, under that run's world. */
  ghost predicate MadeInRun(job: Job, moves: seq<Move>, k: AttemptKey, r: AttemptRecord) {
    exists m :: m in moves && m.job == job && r.key == k && r.digest == job.digest && Reports(job, m.world, k, r.outcome)
  }

  lemma MadeEarlier(job: Job, moves: seq<Move>, k: AttemptKey, r: AttemptRecord)
    requires moves != [] && MadeInRun(job, Init(moves), k, r)
    ensures MadeInRun(job, moves, k, r)
  {
    assert forall m :: m in Init(moves) ==> m in moves;
  }

  lemma MoveReports(jobs: set<Job>, digest: string, maxRetries: Option<nat>, s: Store, move: Move, job: Job, k: AttemptKey)
    requires InOrder(jobs, digest, maxRetries, s) && move.job in jobs && JobOk(move.job) && job in jobs
    requires k in ApplyAll(s, Taken(s, move)).At(job.Key()).attempts
    ensures var r := ApplyAll(s, Taken(s, move)).At(job.Key()).attempts[k];
      || (k in s.At(job.Key()).attempts && r == s.At(job.Key()).attempts[k])
      || (move.job == job && r.key == k && r.digest == job.digest && Reports(job, move.world, k, r.outcome))
  {
    if move.job.Key() == job.Key() {
      assert move.job == job;
      RunReports(job, move.world, s);
      assert forall x :: x in Taken(s, move) ==> x in RunSteps(job, move.world, s);
      StepsAddReports(job, move.world, s, Taken(s, move));
    } else {
      TakenIsGood(jobs, digest, maxRetries, s, move);
      StepsLeaveOthers(move.job, s, Taken(s, move), job.Key());
    }
  }

  /** Through all runs and crashes, every attempt record of a block was there at the start or says
      what one of the runs saw: the status of a trial that ran under its own settings is the status
      it had, and a trial that drifted is an infrastructure failure. */
  lemma {:induction false} RecordsSayWhatHappened(jobs: set<Job>, digest: string, maxRetries: Option<nat>, s: Store,
                                                  moves: seq<Move>, job: Job, k: AttemptKey)
    requires InOrder(jobs, digest, maxRetries, s) && MovesOk(jobs, moves) && job in jobs
    requires k in Replay(s, moves).At(job.Key()).attempts
    ensures var r := Replay(s, moves).At(job.Key()).attempts[k];
      (k in s.At(job.Key()).attempts && r == s.At(job.Key()).attempts[k]) || MadeInRun(job, moves, k, r)
    decreases |moves|
  {
    if moves != [] {
      var before, last := Replay(s, Init(moves)), Last(moves);
      assert last in moves && forall m :: m in Init(moves) ==> m in moves;
      CrashAnywhere(jobs, digest, maxRetries, s, Init(moves));
      MoveReports(jobs, digest, maxRetries, before, last, job, k);
      if k in before.At(job.Key()).attempts {
        RecordsSayWhatHappened(jobs, digest, maxRetries, s, Init(moves), job, k);
        var r := before.At(job.Key()).attempts[k];
        if MadeInRun(job, Init(moves), k, r) {
          MadeEarlier(job, moves, k, r);
        }
      }
    }
  }

  // ---------------------------------------------------------------- trial summaries

  /** The summary of a trial on a finished block says what the selected attempt of it came to in
      one of the runs, or that there is no record of it. */
  lemma SummariesSayWhatHappened(jobs: set<Job>, digest: string, maxRetries: Option<nat>, s: Store, moves: seq<Move>,
                                 job: Job, t: PlannedTrial)
    requires InOrder(jobs, digest, maxRetries, s) && MovesOk(jobs, moves) && job in jobs && JobOk(job)
    requires s.At(job.Key()).attempts == map[] && t in job.trials
    requires Done(job, Replay(s, moves).At(job.Key()))
    ensures var shelf := Replay(s, moves).At(job.Key());
      var r, k := shelf.trials[t.key.variant], AttemptKeyOf(job, t.key.variant, shelf.result.value.selected);
      && r.key == t.key && r.digest == job.digest && r.memberships == t.memberships && r.selected == shelf.result.value.selected
      && (k in shelf.attempts ==> r.outcome == shelf.attempts[k].outcome && MadeInRun(job, moves, k, shelf.attempts[k]))
      && (k !in shelf.attempts ==> r.outcome.status == InfrastructureFailure && r.outcome.findings == ["missing_attempt_record"])
  {
    var later := Replay(s, moves);
    var shelf := later.At(job.Key());
    CrashAnywhere(jobs, digest, maxRetries, s, moves);
    FinishedBlockHolds(jobs, digest, maxRetries, later, job);
    var n := shelf.result.value.selected;
    TrialOnFile(job, shelf, n, QuotaUsedUp(later.claims, job.maxRetries), t);
    var k := AttemptKeyOf(job, t.key.variant, n);
    if k in shelf.attempts {
      RecordsSayWhatHappened(jobs, digest, maxRetries, s, moves, job, k);
    }
  }

  /** A block is resolved by its selected attempt exactly if every variant was recorded, and each as
      passed, failed or timed out at its task; a failure of the provider or the infrastructure, a
      cancelled or an inconclusive trial leaves it unresolved. */
  lemma ResolvedExactly(jobs: set<Job>, digest: string, maxRetries: Option<nat>, s: Store, job: Job)
    requires InOrder(jobs, digest, maxRetries, s) && job in jobs && s.At(job.Key()).result.Some?
    ensures var r, a := s.At(job.Key()).result.value, s.At(job.Key()).attempts;
      r.resolved <==> forall v :: v in job.Variants() ==>
        var k := AttemptKeyOf(job, v, r.selected);
        k in a && a[k].outcome.status in {Passed, TaskFailed, TaskTimeout}
  {
    SelectedIsFirstResolving(jobs, digest, maxRetries, s, job);
    OwnAttemptsAreProper(job, s);
    ResolvesMeans(job, s.At(job.Key()).attempts, s.At(job.Key()).result.value.selected);
  }

  lemma ResolvesMeans(job: Job, a: Attempts, n: nat)
    requires ProperAttempts(a, job.digest)
    ensures Resolves(job, a, n) <==> forall v :: v in job.Variants() ==>
      AttemptKeyOf(job, v, n) in a && a[AttemptKeyOf(job, v, n)].outcome.status in {Passed, TaskFailed, TaskTimeout}
  {
    var records := Present(job, a, n);
    assert forall v :: v in records <==> v in job.Variants() && AttemptKeyOf(job, v, n) in a;
    assert forall v :: v in records ==> records[v] == a[AttemptKeyOf(job, v, n)];
  }

  // ---------------------------------------------------------------- a completed run leaves nothing out

  /** Every attempt with any record is recorded for every variant. */
  ghost predicate NoneHalf(job: Job, a: Attempts) {
    forall m: nat :: !HalfRecorded(job, a, m)
  }

  lemma AttemptFills(job: Job, world: World, s: Store, n: nat)
    requires JobOk(job)
    ensures Present(job, ApplyAll(s, AttemptSteps(job, world, n)).At(job.Key()).attempts, n).Keys == job.Variants()
  {
    BlockHasTrials(job);
    var keys, a := job.block.trials, s.At(job.Key()).attempts;
    AttemptEffect(job, world, s, n);
    RecordingsRecord(job, world, s, keys, n);
    EveryVariantHasATrial(keys, job.Key(), job.Variants());
    forall v | v in job.Variants()
      ensures ReadAttempt(job, WithAttempt(job, world, a, keys, n), v, n).Some?
    {
      var j :| 0 <= j < |keys| && keys[j].variant == v;
      assert keys[j] in keys;
      WithAttemptHas(job, world, a, keys, n, AttemptKeyOf(job, v, n));
    }
  }

  lemma TurnKeepsWhole(job: Job, world: World, s: Store, n: nat)
    requires JobOk(job) && NoneHalf(job, s.At(job.Key()).attempts)
    ensures NoneHalf(job, AfterTurn(job, world, s, n).At(job.Key()).attempts)
  {
    ClaimEffect(job, s, n);
    ApplyAllAppend(s, ClaimSteps(job, s, n), TrySteps(job, world, s, n));
    var middle := ApplyAll(s, ClaimSteps(job, s, n));
    if !Tried(job, s.At(job.Key()).attempts, n) {
      AttemptTries(job, world, middle, n);
      AttemptFills(job, world, middle, n);
      var later := ApplyAll(middle, AttemptSteps(job, world, n)).At(job.Key()).attempts;
      forall m: nat
        ensures !HalfRecorded(job, later, m)
      {
        assert !HalfRecorded(job, s.At(job.Key()).attempts, m);
      }
    }
  }

  ghost predicate LoopIsWhole(job: Job, world: World, s: Store, n: nat)
    requires JobOk(job) && 1 <= n <= job.maxAttempts + 1
  {
    NoneHalf(job, ApplyAll(s, LoopSteps(job, world, s, n)).At(job.Key()).attempts)
  }

  lemma LoopEndIsWhole(job: Job, world: World, s: Store, n: nat)
    requires JobOk(job) && 1 <= n <= job.maxAttempts + 1 && (n > job.maxAttempts || (n > 1 && !MayClaim(job, s, n)))
    requires NoneHalf(job, s.At(job.Key()).attempts)
    ensures LoopIsWhole(job, world, s, n)
  {
    LoopEnds(job, world, s, n);
    FinishRecordsNothing(job, s.At(job.Key()).attempts, n - 1, false);
    NoRecordsNoChange(job.Key(), s, LoopSteps(job, world, s, n));
  }

  lemma TurnThenWhole(job: Job, world: World, s: Store, n: nat, later: Store)
    requires JobOk(job) && 1 <= n <= job.maxAttempts && (n == 1 || MayClaim(job, s, n))
    requires later == AfterTurn(job, world, s, n) && LoopIsWhole(job, world, later, n + 1)
    requires NoneHalf(job, later.At(job.Key()).attempts)
    ensures LoopIsWhole(job, world, s, n)
  {
    var taken := ClaimSteps(job, s, n) + TrySteps(job, world, s, n);
    LoopGoesOn(job, world, s, n, later);
    if Resolves(job, later.At(job.Key()).attempts, n) {
      var finish := FinishSteps(job, later.At(job.Key()).attempts, n, true);
      FinishRecordsNothing(job, later.At(job.Key()).attempts, n, true);
      ApplyAllAppend(s, taken, finish);
      NoRecordsNoChange(job.Key(), later, finish);
    } else {
      ApplyAllAppend(s, taken, LoopSteps(job, world, later, n + 1));
    }
  }

  lemma {:induction false} LoopStaysWhole(job: Job, world: World, s: Store, n: nat)
    requires JobOk(job) && 1 <= n <= job.maxAttempts + 1 && NoneHalf(job, s.At(job.Key()).attempts)
    ensures LoopIsWhole(job, world, s, n)
    decreases job.maxAttempts + 1 - n, 1
  {
    if n > 1 && (n > job.maxAttempts || !MayClaim(job, s, n)) {
      LoopEndIsWhole(job, world, s, n);
    } else {
      LaterStaysWhole(job, world, s, n, AfterTurn(job, world, s, n), n + 1);
    }
  }

  lemma {:induction false} LaterStaysWhole(job: Job, world: World, s: Store, n: nat, later: Store, next: nat)
    requires JobOk(job) && 1 <= n <= job.maxAttempts && (n == 1 || MayClaim(job, s, n))
    requires NoneHalf(job, s.At(job.Key()).attempts) && later == AfterTurn(job, world, s, n) && next == n + 1
    ensures LoopIsWhole(job, world, s, n)
    decreases job.maxAttempts + 1 - n, 0
  {
    TurnKeepsWhole(job, world, s, n);
    LoopStaysWhole(job, world, later, next);
    TurnThenWhole(job, world, s, n, later);
  }

  lemma RunStaysWhole(job: Job, world: World, s: Store)
    requires JobOk(job) && NoneHalf(job, s.At(job.Key()).attempts)
    ensures NoneHalf(job, ApplyAll(s, RunSteps(job, world, s)).At(job.Key()).attempts)
  {
    if !Resumable(job, s) {
      var rebuilt := RebuildSteps(job, s);
      var later := ApplyAll(s, rebuilt);
      RebuildRecordsNothing(job, s);
      NoRecordsNoChange(job.Key(), s, rebuilt);
      LoopStaysWhole(job, world, later, 1);
      ApplyAllAppend(s, rebuilt, LoopSteps(job, world, later, 1));
    }
  }

  lemma TriedUpToSelected(jobs: set<Job>, digest: string, maxRetries: Option<nat>, s: Store, job: Job)
    requires InOrder(jobs, digest, maxRetries, s) && job in jobs && s.At(job.Key()).result.Some?
    ensures forall n :: 1 <= n <= s.At(job.Key()).result.value.selected ==> Tried(job, s.At(job.Key()).attempts, n)
  {
    SelectedIsFirstResolving(jobs, digest, maxRetries, s, job);
    assert BlockOk(job, s);
  }

  lemma WholeIsComplete(job: Job, a: Attempts, selected: nat)
    requires JobOk(job) && NoneHalf(job, a) && forall n :: 1 <= n <= selected ==> Tried(job, a, n)
    ensures Complete(job, a, selected)
  {
    IdsAgree(job);
    forall n, v | 1 <= n <= selected && v in TrialIds(job.trials)
      ensures Reducer.HasAttempt(job, a, v, n)
    {
      assert Tried(job, a, n) && !HalfRecorded(job, a, n);
      assert v in Present(job, a, n);
    }
  }

  /** A run that is not cut short, of a block without a half recorded attempt, finishes the block
      with every attempt recorded in full; unless two pairs share an axis, the resume check and the
      reducer then accept it. */
  lemma CompletedRunIsAccepted(jobs: set<Job>, digest: string, maxRetries: Option<nat>, s: Store, job: Job, world: World)
    requires InOrder(jobs, digest, maxRetries, s) && job in jobs && JobOk(job) && NoneHalf(job, s.At(job.Key()).attempts)
    ensures var later := ApplyAll(s, RunSteps(job, world, s));
      && Done(job, later.At(job.Key()))
      && Complete(job, later.At(job.Key()).attempts, later.At(job.Key()).result.value.selected)
      && (AxesDistinct(job) ==> Resumable(job, later) && Reducer.Accepts(job, later.At(job.Key())))
  {
    var later := ApplyAll(s, RunSteps(job, world, s));
    InOrderIsReady(jobs, digest, maxRetries, s, job);
    RunFinishes(job, world, s);
    RunIsGood(job, world, s);
    GoodStepsKeepStore(jobs, digest, maxRetries, s, job, RunSteps(job, world, s));
    RunStaysWhole(job, world, s);
    TriedUpToSelected(jobs, digest, maxRetries, later, job);
    WholeIsComplete(job, later.At(job.Key()).attempts, later.At(job.Key()).result.value.selected);
    HarnessAndReducerAgree(jobs, digest, maxRetries, later, job);
  }
}

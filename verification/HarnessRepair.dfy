/** What a restart does to files that are not as the harness left them: the resume check notices any
    changed summary, and a run puts the summaries back without executing anything. */
module HarnessRepair {
  import opened Outcome
  import opened Sequences
  import opened Records
  import opened Plan
  import opened PlanShape
  import opened Artifacts
  import opened Harness
  import opened HarnessRun
  import opened HarnessSafety
  import opened HarnessCrash
  import opened HarnessRuns
  import opened HarnessResults
  import opened HarnessPlan
  import opened HarnessPartial
  import opened HarnessTamper
  import Reducer

  /** The store with other summary files for one block. */
  function With(s: Store, key: BlockKey, shelf: Shelf): Store {
    s.(shelves := s.shelves[key := shelf])
  }

  // ---------------------------------------------------------------- the resume check

  /** With the result in place, the resume check accepts exactly the trial summary on file. */
  lemma CurrentTrialOnly(job: Job, shelf: Shelf, other: Shelf, t: PlannedTrial, n: nat)
    requires TrialIsCurrent(job, shelf, t, n) && other.attempts == shelf.attempts
    ensures TrialIsCurrent(job, other, t, n) <==>
      t.key.variant in other.trials && other.trials[t.key.variant] == shelf.trials[t.key.variant]
  {
  }

  /** The same pair summary, except that the check does not look at its findings. */
  predicate SamePair(a: PairResult, b: PairResult) {
    a.(findings := b.findings) == b
  }

  lemma CurrentPairOnly(job: Job, shelf: Shelf, other: Shelf, p: PairKey, n: nat, resolved: bool)
    requires PairIsCurrent(job, shelf, p, n, resolved) && other.attempts == shelf.attempts
    ensures PairIsCurrent(job, other, p, n, resolved) <==>
      p.axis in other.pairs && SamePair(other.pairs[p.axis], shelf.pairs[p.axis])
  {
  }

  /** Replacing a trial's or a pair's summary of a finished block is noticed by the resume check,
      unless only a pair's findings change. */
  lemma ResumeNoticesSummaries(job: Job, s: Store, shelf: Shelf, n: nat, other: Shelf)
    requires Sound(job, s, shelf, n) && Resumable(job, s)
    requires other.attempts == shelf.attempts && other.result == shelf.result
    ensures Resumable(job, With(s, job.Key(), other)) <==>
      && (forall t :: t in job.trials ==> t.key.variant in other.trials && other.trials[t.key.variant] == shelf.trials[t.key.variant])
      && (forall p :: p in job.pairs ==> p.axis in other.pairs && SamePair(other.pairs[p.axis], shelf.pairs[p.axis]))
  {
    var later := With(s, job.Key(), other);
    assert later.At(job.Key()) == other && later.claims == s.claims;
    forall t | t in job.trials
      ensures TrialIsCurrent(job, other, t, n) <==>
        t.key.variant in other.trials && other.trials[t.key.variant] == shelf.trials[t.key.variant]
    {
      CurrentTrialOnly(job, shelf, other, t, n);
    }
    forall p | p in job.pairs
      ensures PairIsCurrent(job, other, p, n, shelf.result.value.resolved) <==>
        p.axis in other.pairs && SamePair(other.pairs[p.axis], shelf.pairs[p.axis])
    {
      CurrentPairOnly(job, shelf, other, p, n, shelf.result.value.resolved);
    }
    SameResultCurrent(job, s, later);
  }

  lemma SameClaimsCurrent(job: Job, s: Store, later: Store)
    requires later.claims == s.claims
    ensures forall n :: ClaimIsCurrent(job, later, n) <==> ClaimIsCurrent(job, s, n)
  {
  }

  lemma SameResultCurrent(job: Job, s: Store, later: Store)
    requires later.claims == s.claims && later.At(job.Key()).attempts == s.At(job.Key()).attempts
    requires later.At(job.Key()).result == s.At(job.Key()).result && s.At(job.Key()).result.Some?
    ensures ResultIsCurrent(job, later, later.At(job.Key())) <==> ResultIsCurrent(job, s, s.At(job.Key()))
    ensures forall n, resolved :: OutcomesAgree(job, later.At(job.Key()), n, resolved) <==> OutcomesAgree(job, s.At(job.Key()), n, resolved)
  {
    SameClaimsCurrent(job, s, later);
  }

  /** What the resume check asks of a result for the same selected attempt. */
  lemma ResultOnly(job: Job, s: Store, later: Store, shelf: Shelf, other: Shelf, r: BlockResult)
    requires shelf == s.At(job.Key()) && ResultIsCurrent(job, s, shelf) && later.claims == s.claims
    requires other == shelf.(result := Some(r)) && r.selected == shelf.result.value.selected
    ensures ResultIsCurrent(job, later, other) && r.resolved == shelf.result.value.resolved
      <==> r.(findings := shelf.result.value.findings) == shelf.result.value
  {
    SameClaimsCurrent(job, s, later);
  }

  lemma OutcomeIsOne(job: Job, shelf: Shelf, other: Shelf, n: nat, resolved: bool, claimed: bool)
    requires other.attempts == shelf.attempts && OutcomesAgree(job, shelf, n, resolved)
    ensures OutcomesAgree(job, other, n, claimed) <==> claimed == resolved
  {
  }

  lemma SameSummariesCurrent(job: Job, shelf: Shelf, other: Shelf, n: nat, resolved: bool)
    requires other.attempts == shelf.attempts && other.trials == shelf.trials && other.pairs == shelf.pairs
    ensures (forall t :: t in job.trials ==> TrialIsCurrent(job, other, t, n)) <==> (forall t :: t in job.trials ==> TrialIsCurrent(job, shelf, t, n))
    ensures (forall p :: p in job.pairs ==> PairIsCurrent(job, other, p, n, resolved))
      <==> (forall p :: p in job.pairs ==> PairIsCurrent(job, shelf, p, n, resolved))
  {
    assert forall t :: TrialIsCurrent(job, other, t, n) <==> TrialIsCurrent(job, shelf, t, n);
    assert forall p :: PairIsCurrent(job, other, p, n, resolved) <==> PairIsCurrent(job, shelf, p, n, resolved);
  }

  lemma SelectedStays(job: Job, shelf: Shelf, other: Shelf, n: nat, m: nat)
    requires JobOk(job) && other.trials == shelf.trials && other.attempts == shelf.attempts
    requires (forall t :: t in job.trials ==> TrialIsCurrent(job, shelf, t, n)) && forall t :: t in job.trials ==> TrialIsCurrent(job, other, t, m)
    ensures m == n
  {
    IdsAgree(job);
    assert job.trials[0] in job.trials;
  }

  /** Replacing a block's result is noticed by the resume check, unless only its findings change. */
  lemma ResumeNoticesResult(job: Job, s: Store, shelf: Shelf, n: nat, r: BlockResult)
    requires Sound(job, s, shelf, n) && Resumable(job, s)
    ensures Resumable(job, With(s, job.Key(), shelf.(result := Some(r)))) <==> r.(findings := shelf.result.value.findings) == shelf.result.value
  {
    var other := shelf.(result := Some(r));
    var later := With(s, job.Key(), other);
    assert later.At(job.Key()) == other && later.claims == s.claims;
    if Resumable(job, later) {
      SelectedStays(job, shelf, other, n, r.selected);
    }
    if r.selected == n {
      ResumeNoticesSelected(job, s, later, shelf, other, n, r);
    }
  }

  lemma ResumeNoticesSelected(job: Job, s: Store, later: Store, shelf: Shelf, other: Shelf, n: nat, r: BlockResult)
    requires shelf == s.At(job.Key()) && Resumable(job, s) && shelf.result.value.selected == n && r.selected == n
    requires other == shelf.(result := Some(r)) && later.At(job.Key()) == other && later.claims == s.claims
    ensures Resumable(job, later) <==> r.(findings := shelf.result.value.findings) == shelf.result.value
  {
    OutcomeIsOne(job, shelf, other, n, shelf.result.value.resolved, r.resolved);
    ResultOnly(job, s, later, shelf, other, r);
    SameSummariesCurrent(job, shelf, other, n, shelf.result.value.resolved);
  }

  // ---------------------------------------------------------------- what the summaries are written as

  /** The result and the planned summaries that the harness writes for attempt `n`. */
  ghost predicate Written(job: Job, shelf: Shelf, n: nat) {
    && shelf.result == Some(ResultOf(job, shelf.attempts, n, Resolves(job, shelf.attempts, n)))
    && (forall t :: t in job.trials && t.key.variant in job.Variants() ==>
          t.key.variant in shelf.trials && shelf.trials[t.key.variant] == TrialSummary(job, shelf.attempts, t, n))
    && (forall p :: p in job.pairs ==>
          p.axis in shelf.pairs && shelf.pairs[p.axis] == PairSummary(job, shelf.attempts, p, n, Resolves(job, shelf.attempts, n)))
  }

  lemma SoundIsWritten(job: Job, s: Store, shelf: Shelf, n: nat)
    requires Sound(job, s, shelf, n)
    ensures Written(job, shelf, n)
  {
    forall t | t in job.trials
      ensures t.key.variant in job.Variants() && shelf.trials[t.key.variant] == TrialSummary(job, shelf.attempts, t, n)
    {
      TrialOnFile(job, shelf, n, QuotaUsedUp(s.claims, job.maxRetries), t);
    }
    forall p | p in job.pairs
      ensures shelf.pairs[p.axis] == PairSummary(job, shelf.attempts, p, n, Resolves(job, shelf.attempts, n))
    {
      PairOnFile(job, shelf, n, QuotaUsedUp(s.claims, job.maxRetries), p);
    }
  }

  /** Under each name the files of the block hold the last summary that the steps wrote there. */
  ghost predicate LastWritten(shelf: Shelf, steps: seq<Step>) {
    && (forall x :: x in steps && x.WriteTrial? ==>
          && x.trial.key.variant in shelf.trials && shelf.trials[x.trial.key.variant].key.variant == x.trial.key.variant
          && WriteTrial(shelf.trials[x.trial.key.variant]) in steps)
    && (forall x :: x in steps && x.WritePair? ==>
          && x.pair.key.axis in shelf.pairs && shelf.pairs[x.pair.key.axis].key.axis == x.pair.key.axis
          && WritePair(shelf.pairs[x.pair.key.axis]) in steps)
    && (forall x :: x in steps && x.WriteResult? ==> shelf.result.Some? && WriteResult(shelf.result.value) in steps)
  }

  predicate OnlySummaries(key: BlockKey, steps: seq<Step>) {
    forall x :: x in steps ==> x.Block() == key && (x.WriteTrial? || x.WritePair? || x.WriteResult?)
  }

  lemma LastWrittenStep(shelf: Shelf, steps: seq<Step>, x: Step)
    requires LastWritten(shelf, steps) && (x.WriteTrial? || x.WritePair? || x.WriteResult?)
    ensures LastWritten(ApplyToShelf(shelf, x), steps + [x])
  {
    assert forall y :: y in steps + [x] <==> y in steps || y == x;
  }

  lemma {:induction false} SummariesWritten(key: BlockKey, s: Store, steps: seq<Step>)
    requires OnlySummaries(key, steps)
    ensures LastWritten(ApplyAll(s, steps).At(key), steps)
    ensures ApplyAll(s, steps).At(key).attempts == s.At(key).attempts && ApplyAll(s, steps).claims == s.claims
    decreases |steps|
  {
    if steps != [] {
      var earlier, x := Init(steps), Last(steps);
      assert x in steps && forall y :: y in earlier ==> y in steps;
      SummariesWritten(key, s, earlier);
      LastWrittenStep(ApplyAll(s, earlier).At(key), earlier, x);
      assert steps == earlier + [x];
    }
  }

  lemma FinishOnlySummarizes(job: Job, a: Attempts, n: nat, resolved: bool)
    requires JobOk(job) && forall t :: t in job.trials ==> t.key.variant in job.Variants()
    ensures OnlySummaries(job.Key(), FinishSteps(job, a, n, resolved))
  {
    TrialsAreVariants(job);
    FinishIsOfBlock(job, a, n, resolved);
    FinishSplits(job, a, n, resolved);
  }

  /** The steps that finish a block are its result, its trials' and its pairs' summaries. */
  lemma FinishStepIs(job: Job, a: Attempts, n: nat, resolved: bool, x: Step)
    requires (forall t :: t in job.trials ==> t.key.variant in job.Variants()) && x in FinishSteps(job, a, n, resolved)
    ensures x.WriteResult? ==> x.result == ResultOf(job, a, n, resolved)
    ensures x.WriteTrial? ==> exists t :: t in job.trials && t.key.variant in job.Variants() && x.trial == TrialSummary(job, a, t, n)
    ensures x.WritePair? ==> exists p :: p in job.pairs && x.pair == PairSummary(job, a, p, n, resolved)
  {
    FinishSplits(job, a, n, resolved);
    var trials, pairs := TrialSteps(job, a, job.trials, n), PairSteps(job, a, job.pairs, n, resolved);
    if x in trials {
      var i :| 0 <= i < |trials| && trials[i] == x;
      assert job.trials[i] in job.trials;
    } else if x in pairs {
      var i :| 0 <= i < |pairs| && pairs[i] == x;
      assert job.pairs[i] in job.pairs;
    }
  }

  lemma FinishedTrial(job: Job, a: Attempts, n: nat, resolved: bool, shelf: Shelf, t: PlannedTrial)
    requires JobOk(job) && (forall u :: u in job.trials ==> u.key.variant in job.Variants()) && t in job.trials
    requires LastWritten(shelf, FinishSteps(job, a, n, resolved))
    ensures t.key.variant in shelf.trials && shelf.trials[t.key.variant] == TrialSummary(job, a, t, n)
  {
    FinishHasTrial(job, a, n, resolved, t);
    var x := WriteTrial(TrialSummary(job, a, t, n));
    assert x in FinishSteps(job, a, n, resolved) && x.WriteTrial? && x.trial.key.variant == t.key.variant;
    var y := WriteTrial(shelf.trials[t.key.variant]);
    FinishStepIs(job, a, n, resolved, y);
    var u :| u in job.trials && u.key.variant in job.Variants() && y.trial == TrialSummary(job, a, u, n);
    SameVariantSameTrial(job, t, u);
  }

  lemma FinishedPair(job: Job, a: Attempts, n: nat, resolved: bool, shelf: Shelf, p: PairKey)
    requires (forall u :: u in job.trials ==> u.key.variant in job.Variants()) && p in job.pairs && AxesDistinct(job)
    requires LastWritten(shelf, FinishSteps(job, a, n, resolved))
    ensures p.axis in shelf.pairs && shelf.pairs[p.axis] == PairSummary(job, a, p, n, resolved)
  {
    FinishHasPair(job, a, n, resolved, p);
    var x := WritePair(PairSummary(job, a, p, n, resolved));
    assert x in FinishSteps(job, a, n, resolved) && x.WritePair? && x.pair.key.axis == p.axis;
    FinishStepIs(job, a, n, resolved, WritePair(shelf.pairs[p.axis]));
  }

  /** Finishing a block writes exactly its summaries, whatever was there before. */
  lemma FinishWrites(job: Job, s: Store, a: Attempts, n: nat, resolved: bool)
    requires JobOk(job) && AxesDistinct(job) && a == s.At(job.Key()).attempts && resolved == Resolves(job, a, n)
    requires forall t :: t in job.trials ==> t.key.variant in job.Variants()
    ensures var later := ApplyAll(s, FinishSteps(job, a, n, resolved));
      later.claims == s.claims && later.At(job.Key()).attempts == a && Written(job, later.At(job.Key()), n)
  {
    var steps := FinishSteps(job, a, n, resolved);
    FinishOnlySummarizes(job, a, n, resolved);
    SummariesWritten(job.Key(), s, steps);
    var shelf := ApplyAll(s, steps).At(job.Key());
    assert steps[0] in steps && steps[0].WriteResult?;
    FinishStepIs(job, a, n, resolved, WriteResult(shelf.result.value));
    forall t | t in job.trials
      ensures t.key.variant in shelf.trials && shelf.trials[t.key.variant] == TrialSummary(job, a, t, n)
    {
      FinishedTrial(job, a, n, resolved, shelf, t);
    }
    forall p | p in job.pairs
      ensures p.axis in shelf.pairs && shelf.pairs[p.axis] == PairSummary(job, a, p, n, resolved)
    {
      FinishedPair(job, a, n, resolved, shelf, p);
    }
  }

  // ---------------------------------------------------------------- a run on a settled block

  /** Nothing is left to try: the attempts up to `n` were claimed and tried, and none of the earlier
      ones resolved the block. */
  ghost predicate Settled(job: Job, s: Store, n: nat) {
    var a := s.At(job.Key()).attempts;
    && 1 <= n <= job.maxAttempts
    && (forall m: nat :: ClaimPath(job.Key(), m) in s.claims <==> 2 <= m <= n)
    && (forall m :: 1 <= m <= n ==> Tried(job, a, m)) && (forall m :: 1 <= m < n ==> !Resolves(job, a, m))
    && (forall m: nat :: n < m ==> !Tried(job, a, m))
    && (Resolves(job, a, n) || n == job.maxAttempts || QuotaUsedUp(s.claims, job.maxRetries))
  }

  /** From attempt `k` on, the loop only writes the summaries of attempt `n`. */
  ghost predicate LoopSummarizes(job: Job, world: World, s: Store, k: nat, n: nat)
    requires JobOk(job) && 1 <= k <= job.maxAttempts + 1
  {
    TrialsAreVariants(job);
    LoopSteps(job, world, s, k) == FinishSteps(job, s.At(job.Key()).attempts, n, Resolves(job, s.At(job.Key()).attempts, n))
  }

  lemma {:induction false} SettledLoop(job: Job, world: World, s: Store, k: nat, n: nat)
    requires JobOk(job) && Settled(job, s, n) && 1 <= k <= n
    ensures LoopSummarizes(job, world, s, k, n)
    decreases n - k, 1
  {
    if k < n {
      SettledNext(job, world, s, k, n, k + 1);
    } else {
      SettledLast(job, world, s, n, n + 1);
    }
  }

  lemma {:induction false} SettledNext(job: Job, world: World, s: Store, k: nat, n: nat, next: nat)
    requires JobOk(job) && Settled(job, s, n) && 1 <= k < n && next == k + 1
    ensures LoopSummarizes(job, world, s, k, n)
    decreases n - k, 0
  {
    SettledLoop(job, world, s, next, n);
    SettledTurn(job, world, s, k, n, next);
  }

  lemma SettledLast(job: Job, world: World, s: Store, n: nat, next: nat)
    requires JobOk(job) && Settled(job, s, n) && next == n + 1
    ensures LoopSummarizes(job, world, s, n, n)
  {
    SettledTurn(job, world, s, n, n, next);
    if !Resolves(job, s.At(job.Key()).attempts, n) {
      SettledEnd(job, world, s, n, next);
    }
  }

  lemma SettledTurn(job: Job, world: World, s: Store, k: nat, n: nat, next: nat)
    requires JobOk(job) && Settled(job, s, n) && 1 <= k <= n && next == k + 1
    ensures forall t :: t in job.trials ==> t.key.variant in job.Variants()
    ensures LoopSteps(job, world, s, k)
      == if Resolves(job, s.At(job.Key()).attempts, k) then FinishSteps(job, s.At(job.Key()).attempts, k, true)
         else LoopSteps(job, world, s, next)
  {
    assert ClaimSteps(job, s, k) == [] && TrySteps(job, world, s, k) == [];
    assert ClaimSteps(job, s, k) + TrySteps(job, world, s, k) == [];
    LoopGoesOn(job, world, s, k, s);
  }

  lemma SettledEnd(job: Job, world: World, s: Store, n: nat, next: nat)
    requires JobOk(job) && Settled(job, s, n) && next == n + 1 && !Resolves(job, s.At(job.Key()).attempts, n)
    ensures forall t :: t in job.trials ==> t.key.variant in job.Variants()
    ensures LoopSteps(job, world, s, next) == FinishSteps(job, s.At(job.Key()).attempts, n, false)
  {
    LoopEnds(job, world, s, next);
  }

  /** Whatever the summaries on disk say, only the settled attempt can be rebuilt from. */
  lemma SettledRebuild(job: Job, s: Store, n: nat)
    requires JobOk(job) && Settled(job, s, n)
    ensures forall t :: t in job.trials ==> t.key.variant in job.Variants()
    ensures RebuildSteps(job, s) == []
            || RebuildSteps(job, s) == FinishSteps(job, s.At(job.Key()).attempts, n, Resolves(job, s.At(job.Key()).attempts, n))
  {
    TrialsAreVariants(job);
    var shelf := s.At(job.Key());
    var only := TheOnly(Candidates(job, shelf));
    if only.Some? && Rebuildable(job, shelf, only.value) {
      BlockHasTrials(job);
      var m := only.value;
      assert job.variants[0].id in job.Variants();
      assert Tried(job, shelf.attempts, m);
      assert m == n;
    }
  }

  /** A run on a settled block, whatever its summaries say, takes no step at all or leaves exactly
      the summaries of the settled attempt, and executes, records and claims nothing. */
  lemma SettledRun(job: Job, world: World, s: Store, n: nat)
    requires JobOk(job) && AxesDistinct(job) && Settled(job, s, n) && !Resumable(job, s)
    ensures OnlySummaries(job.Key(), RunSteps(job, world, s))
    ensures var later := ApplyAll(s, RunSteps(job, world, s));
      later.claims == s.claims && later.At(job.Key()).attempts == s.At(job.Key()).attempts && Written(job, later.At(job.Key()), n)
  {
    TrialsAreVariants(job);
    var a := s.At(job.Key()).attempts;
    var finish := FinishSteps(job, a, n, Resolves(job, a, n));
    SettledRebuild(job, s, n);
    FinishOnlySummarizes(job, a, n, Resolves(job, a, n));
    FinishWrites(job, s, a, n, Resolves(job, a, n));
    var rebuilt := RebuildSteps(job, s);
    var middle := ApplyAll(s, rebuilt);
    if rebuilt == [] || !Resumable(job, middle) {
      SettledStays(job, s, middle, n);
      SettledLoop(job, world, middle, 1, n);
      FinishWrites(job, middle, a, n, Resolves(job, a, n));
      ApplyAllAppend(s, rebuilt, finish);
    }
  }

  lemma SettledStays(job: Job, s: Store, later: Store, n: nat)
    requires Settled(job, s, n) && later.claims == s.claims && later.At(job.Key()).attempts == s.At(job.Key()).attempts
    ensures Settled(job, later, n)
  {
  }

  lemma NoneBeyond(job: Job, s: Store, n: nat)
    requires BlockOk(job, s) && n == Reached(job, s.claims)
    ensures forall m: nat :: n < m ==> !Tried(job, s.At(job.Key()).attempts, m)
    ensures s.At(job.Key()).result.Some? ==> s.At(job.Key()).result.value.selected == n && Tried(job, s.At(job.Key()).attempts, n)
  {
    forall m: nat | n < m
      ensures !Tried(job, s.At(job.Key()).attempts, m)
    {
      NothingBeyond(job, s, n, m);
    }
  }

  lemma FinishedIsSettled(jobs: set<Job>, digest: string, maxRetries: Option<nat>, s: Store, job: Job)
    requires InOrder(jobs, digest, maxRetries, s) && job in jobs && JobOk(job) && s.At(job.Key()).result.Some?
    ensures Settled(job, s, s.At(job.Key()).result.value.selected)
  {
    SelectedIsFirstResolving(jobs, digest, maxRetries, s, job);
    NoneBeyond(job, s, Reached(job, s.claims));
  }

  lemma NothingBeyond(job: Job, s: Store, n: nat, m: nat)
    requires BlockOk(job, s) && n == Reached(job, s.claims) && n < m
    ensures !Tried(job, s.At(job.Key()).attempts, m)
  {
    var a := s.At(job.Key()).attempts;
    forall v | v in job.Variants()
      ensures ReadAttempt(job, a, v, m).None?
    {
      assert AttemptKeyOf(job, v, m).attempt == m;
    }
    assert Present(job, a, m) == map[];
  }

  /** A run repairs a finished block: if its summaries were lost or changed so that the block is not
      resumable, one run that is not cut short executes, records and claims nothing and puts back
      exactly the summaries that were there. */
  lemma RunRepairs(jobs: set<Job>, digest: string, maxRetries: Option<nat>, s: Store, job: Job, other: Shelf, world: World)
    requires InOrder(jobs, digest, maxRetries, s) && job in jobs && JobOk(job) && Done(job, s.At(job.Key()))
    requires Complete(job, s.At(job.Key()).attempts, s.At(job.Key()).result.value.selected) && AxesDistinct(job)
    requires other.attempts == s.At(job.Key()).attempts && !Resumable(job, With(s, job.Key(), other))
    ensures var broken := With(s, job.Key(), other);
      && OnlySummaries(job.Key(), RunSteps(job, world, broken))
      && SameFiles(job, s.At(job.Key()), ApplyAll(broken, RunSteps(job, world, broken)).At(job.Key()))
  {
    var shelf, broken := s.At(job.Key()), With(s, job.Key(), other);
    var n := shelf.result.value.selected;
    FinishedIsSound(jobs, digest, maxRetries, s, job);
    FinishedIsSettled(jobs, digest, maxRetries, s, job);
    SettledStays(job, s, broken, n);
    SettledRun(job, world, broken, n);
    SoundIsWritten(job, s, shelf, n);
    TrialsAreVariants(job);
  }
}

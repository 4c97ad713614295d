/** Crash-anywhere safety of the harness: every run takes only good steps, so whatever prefix of
    it reaches the disk, and however often it is restarted, the store stays in order. */
module HarnessCrash {
  import opened Sequences
  import opened Records
  import opened Artifacts
  import opened Harness
  import opened HarnessRun
  import opened HarnessSafety

  // ---------------------------------------------------------------- the loop

  /** No claim of the block lies beyond the reached attempt. */
  ghost predicate Contiguous(job: Job, claims: Claims) {
    forall n: nat :: ClaimPath(job.Key(), n) in claims ==> 2 <= n <= Reached(job, claims)
  }

  ghost predicate BlockReady(job: Job, s: Store) {
    1 <= job.maxAttempts && BlockOk(job, s) && Contiguous(job, s.claims)
  }

  /** All attempts before `n` were tried and none resolved the block. */
  ghost predicate TriedBefore(job: Job, a: Attempts, n: nat) {
    forall m :: 1 <= m < n ==> Tried(job, a, m) && !Resolves(job, a, m)
  }

  ghost predicate AtAttempt(job: Job, s: Store, n: nat) {
    && BlockReady(job, s) && 1 <= n <= job.maxAttempts + 1 && n <= Reached(job, s.claims) + 1
    && TriedBefore(job, s.At(job.Key()).attempts, n)
  }

  lemma StepKeepsReady(job: Job, s: Store, step: Step)
    requires BlockReady(job, s) && GoodStep(job, s, step)
    ensures BlockReady(job, Apply(s, step))
  {
    OwnStep(job, s, step);
    if step.WriteClaim? {
      NextClaim(s.claims, job.Key(), 1, job.maxAttempts, step.claim, Reached(job, s.claims) + 1);
    }
  }

  lemma {:induction false} StepsKeepReady(job: Job, s: Store, steps: seq<Step>)
    requires BlockReady(job, s) && GoodSteps(job, s, steps)
    ensures BlockReady(job, ApplyAll(s, steps))
    decreases |steps|
  {
    if steps != [] {
      StepsKeepReady(job, s, Init(steps));
      StepKeepsReady(job, ApplyAll(s, Init(steps)), Last(steps));
    }
  }

  /** The loop leaves the block alone once it is over. */
  lemma UntilOver(job: Job, s: Store, n: nat)
    requires AtAttempt(job, s, n)
    ensures n == Reached(job, s.claims) + 1 && n <= job.maxAttempts && !QuotaUsedUp(s.claims, job.maxRetries) ==> s.At(job.Key()).result.None?
    ensures n <= Reached(job, s.claims) && !Tried(job, s.At(job.Key()).attempts, n) ==>
      n == Reached(job, s.claims) && s.At(job.Key()).result.None?
  {
    var a, reached := s.At(job.Key()).attempts, Reached(job, s.claims);
    if n == reached + 1 && reached >= 1 {
      assert Tried(job, a, reached) && !Resolves(job, a, reached);
    }
    if n < reached {
      assert Tried(job, a, n);
    }
  }

  lemma ClaimIsGood(job: Job, s: Store, n: nat)
    requires AtAttempt(job, s, n) && n <= job.maxAttempts && (n == 1 || MayClaim(job, s, n))
    ensures GoodSteps(job, s, ClaimSteps(job, s, n))
    ensures var later := ApplyAll(s, ClaimSteps(job, s, n));
      AtAttempt(job, later, n) && n <= Reached(job, later.claims) && later.At(job.Key()) == s.At(job.Key())
  {
    var reached := Reached(job, s.claims);
    ClaimEffect(job, s, n);
    ReachedClaims(s.claims, job.Key(), 1, job.maxAttempts);
    if ClaimSteps(job, s, n) != [] {
      assert n == reached + 1;
      UntilOver(job, s, n);
      assert Tried(job, s.At(job.Key()).attempts, reached) && !Resolves(job, s.At(job.Key()).attempts, reached);
      var step := WriteClaim(Claim(job.digest, job.Key(), n));
      OneGoodStep(job, s, step);
      StepKeepsReady(job, s, step);
      NextClaim(s.claims, job.Key(), 1, job.maxAttempts, step.claim, n);
    }
  }

  // ---------------------------------------------------------------- an attempt

  lemma {:induction false} ExecutionsAreGood(job: Job, s: Store, keys: seq<TrialKey>, n: nat)
    requires n == Reached(job, s.claims) && !Tried(job, s.At(job.Key()).attempts, n)
    ensures GoodSteps(job, s, Executions(job, keys, n))
    decreases |keys|
  {
    if keys != [] {
      ExecutionsAreGood(job, s, Init(keys), n);
      assert Init(Executions(job, keys, n)) == Executions(job, Init(keys), n);
      ExecutionsWriteNothing(job, s, Init(keys), n);
    }
  }

  lemma RecordIsMade(job: Job, world: World, variant: string, n: nat)
    requires variant in job.Variants()
    ensures Made(job, AttemptKeyOf(job, variant, n), RecordOf(job, world, variant, n))
  {
  }

  lemma {:induction false} RecordingsChangeAttempts(job: Job, world: World, s: Store, keys: seq<TrialKey>, n: nat)
    requires forall k :: k in keys ==> k.variant in job.Variants()
    ensures var later := ApplyAll(s, Recordings(job, world, keys, n));
      later.claims == s.claims && later.At(job.Key()).result == s.At(job.Key()).result
    decreases |keys|
  {
    if keys != [] {
      RecordingsChangeAttempts(job, world, s, Init(keys), n);
      assert Init(Recordings(job, world, keys, n)) == Recordings(job, world, Init(keys), n);
    }
  }

  lemma RecordingIsGood(job: Job, world: World, s: Store, all: seq<TrialKey>, i: nat, n: nat)
    requires ProperAttempts(s.At(job.Key()).attempts, job.digest) && n == Reached(job, s.claims) && s.At(job.Key()).result.None?
    requires !Tried(job, s.At(job.Key()).attempts, n) && i < |all|
    requires forall j, k :: 0 <= j < k < |all| ==> all[j].variant != all[k].variant
    requires forall k :: k in all ==> k.variant in job.Variants()
    ensures (forall k :: k in all[..i] ==> k in all) && all[i] in all
    ensures GoodStep(job, ApplyAll(s, Recordings(job, world, all[..i], n)), RecordAttempt(RecordOf(job, world, all[i].variant, n)))
  {
    UntriedKeysAreNew(job, world, s, all, i, n);
    RecordingsChangeAttempts(job, world, s, all[..i], n);
    assert all[i] in all;
    RecordIsMade(job, world, all[i].variant, n);
  }

  lemma {:induction false} RecordingsAreGood(job: Job, world: World, s: Store, all: seq<TrialKey>, i: nat, n: nat)
    requires ProperAttempts(s.At(job.Key()).attempts, job.digest) && n == Reached(job, s.claims) && s.At(job.Key()).result.None?
    requires !Tried(job, s.At(job.Key()).attempts, n) && i <= |all|
    requires forall j, k :: 0 <= j < k < |all| ==> all[j].variant != all[k].variant
    requires forall k :: k in all ==> k.variant in job.Variants()
    ensures forall k :: k in all[..i] ==> k in all
    ensures GoodSteps(job, s, Recordings(job, world, all[..i], n))
    decreases i
  {
    if i > 0 {
      RecordingsAreGood(job, world, s, all, i - 1, n);
      RecordingIsGood(job, world, s, all, i - 1, n);
      RecordingsSnoc(job, world, all, i - 1, n);
      Snoc(Recordings(job, world, all[..i - 1], n), RecordAttempt(RecordOf(job, world, all[i - 1].variant, n)));
    }
  }

  lemma RecordingsSnoc(job: Job, world: World, all: seq<TrialKey>, i: nat, n: nat)
    requires i < |all| && forall k :: k in all ==> k.variant in job.Variants()
    ensures (forall k :: k in all[..i] ==> k in all) && (forall k :: k in all[..i + 1] ==> k in all) && all[i] in all
    ensures Recordings(job, world, all[..i + 1], n)
      == Recordings(job, world, all[..i], n) + [RecordAttempt(RecordOf(job, world, all[i].variant, n))]
  {
  }

  lemma AttemptIsGood(job: Job, world: World, s: Store, n: nat)
    requires JobOk(job) && ProperAttempts(s.At(job.Key()).attempts, job.digest) && n == Reached(job, s.claims) && s.At(job.Key()).result.None?
    requires !Tried(job, s.At(job.Key()).attempts, n)
    ensures GoodSteps(job, s, AttemptSteps(job, world, n))
  {
    var keys := job.block.trials;
    ExecutionsAreGood(job, s, keys, n);
    ExecutionsWriteNothing(job, s, keys, n);
    assert keys == keys[..|keys|];
    RecordingsAreGood(job, world, s, keys, |keys|, n);
    GoodStepsAppend(job, s, Executions(job, keys, n), Recordings(job, world, keys, n));
  }

  lemma ReadElsewhere(job: Job, world: World, a: Attempts, keys: seq<TrialKey>, n: nat, m: nat)
    requires (forall k :: k in keys ==> k.variant in job.Variants()) && m != n
    ensures Present(job, WithAttempt(job, world, a, keys, n), m) == Present(job, a, m)
  {
    forall v | v in job.Variants()
      ensures ReadAttempt(job, WithAttempt(job, world, a, keys, n), v, m) == ReadAttempt(job, a, v, m)
    {
      WithAttemptHas(job, world, a, keys, n, AttemptKeyOf(job, v, m));
    }
  }

  lemma RecordedIsTried(job: Job, world: World, a: Attempts, keys: seq<TrialKey>, n: nat)
    requires (forall k :: k in keys ==> k.variant in job.Variants()) && keys != []
    ensures Tried(job, WithAttempt(job, world, a, keys, n), n)
  {
    assert keys[0] in keys;
    WithAttemptHas(job, world, a, keys, n, AttemptKeyOf(job, keys[0].variant, n));
    assert keys[0].variant in Present(job, WithAttempt(job, world, a, keys, n), n);
  }

  lemma BlockHasTrials(job: Job)
    requires JobOk(job)
    ensures job.block.trials != [] && forall k :: k in job.block.trials ==> k.variant in job.Variants()
  {
    assert job.variants[0] in job.variants && job.variants[0].id in job.Variants();
    EveryVariantHasATrial(job.block.trials, job.Key(), job.Variants());
  }

  /** After an attempt its records are there, and the earlier attempts are untouched. */
  lemma AttemptTries(job: Job, world: World, s: Store, n: nat)
    requires JobOk(job)
    ensures var later := ApplyAll(s, AttemptSteps(job, world, n));
      && later.claims == s.claims && Tried(job, later.At(job.Key()).attempts, n)
      && forall m: nat :: m != n ==> Present(job, later.At(job.Key()).attempts, m) == Present(job, s.At(job.Key()).attempts, m)
  {
    BlockHasTrials(job);
    AttemptEffect(job, world, s, n);
    RecordingsRecord(job, world, s, job.block.trials, n);
    RecordingsChangeAttempts(job, world, s, job.block.trials, n);
    RecordedIsTried(job, world, s.At(job.Key()).attempts, job.block.trials, n);
    forall m: nat | m != n
      ensures Present(job, WithAttempt(job, world, s.At(job.Key()).attempts, job.block.trials, n), m) == Present(job, s.At(job.Key()).attempts, m)
    {
      ReadElsewhere(job, world, s.At(job.Key()).attempts, job.block.trials, n, m);
    }
  }

  lemma OwnAttemptsAreProper(job: Job, s: Store)
    requires BlockOk(job, s)
    ensures ProperAttempts(s.At(job.Key()).attempts, job.digest)
  {
  }

  lemma TryIsGood(job: Job, world: World, s: Store, n: nat)
    requires JobOk(job) && AtAttempt(job, s, n) && n <= Reached(job, s.claims) && n <= job.maxAttempts
    ensures GoodSteps(job, s, TrySteps(job, world, s, n))
    ensures var later := ApplyAll(s, TrySteps(job, world, s, n));
      AtAttempt(job, later, n) && Reached(job, later.claims) == Reached(job, s.claims) && Tried(job, later.At(job.Key()).attempts, n)
  {
    if !Tried(job, s.At(job.Key()).attempts, n) {
      UntilOver(job, s, n);
      OwnAttemptsAreProper(job, s);
      AttemptIsGood(job, world, s, n);
      AttemptTries(job, world, s, n);
      StepsKeepReady(job, s, AttemptSteps(job, world, n));
      TriedStays(job, s.At(job.Key()).attempts, ApplyAll(s, AttemptSteps(job, world, n)).At(job.Key()).attempts, n);
    }
  }

  lemma TriedStays(job: Job, a: Attempts, later: Attempts, n: nat)
    requires TriedBefore(job, a, n) && forall m: nat :: m != n ==> Present(job, later, m) == Present(job, a, m)
    ensures TriedBefore(job, later, n)
  {
    forall m | 1 <= m < n
      ensures Tried(job, later, m) && !Resolves(job, later, m)
    {
      assert Tried(job, a, m) && !Resolves(job, a, m);
    }
  }

  lemma TurnIsGood(job: Job, world: World, s: Store, n: nat)
    requires JobOk(job) && AtAttempt(job, s, n) && n <= job.maxAttempts && (n == 1 || MayClaim(job, s, n))
    ensures var taken := ClaimSteps(job, s, n) + TrySteps(job, world, s, n);
      && GoodSteps(job, s, taken)
      && var later := ApplyAll(s, taken);
         AtAttempt(job, later, n) && n <= Reached(job, later.claims) && Tried(job, later.At(job.Key()).attempts, n)
  {
    ClaimIsGood(job, s, n);
    var middle := ApplyAll(s, ClaimSteps(job, s, n));
    TryIsGood(job, world, middle, n);
    GoodStepsAppend(job, s, ClaimSteps(job, s, n), TrySteps(job, world, middle, n));
    ApplyAllAppend(s, ClaimSteps(job, s, n), TrySteps(job, world, middle, n));
  }

  /** The loop ends without a resolving attempt only when nothing is left to try. */
  lemma ExhaustedIsOver(job: Job, s: Store, n: nat)
    requires AtAttempt(job, s, n) && n > 1 && (n > job.maxAttempts || !MayClaim(job, s, n))
    ensures n - 1 == Reached(job, s.claims) && !Resolves(job, s.At(job.Key()).attempts, n - 1)
    ensures Over(job, s.At(job.Key()).attempts, n - 1, QuotaUsedUp(s.claims, job.maxRetries))
  {
    ReachedClaims(s.claims, job.Key(), 1, job.maxAttempts);
    assert Tried(job, s.At(job.Key()).attempts, n - 1) && !Resolves(job, s.At(job.Key()).attempts, n - 1);
  }

  lemma ResolvedIsOver(job: Job, s: Store, n: nat)
    requires AtAttempt(job, s, n) && n <= Reached(job, s.claims) && Resolves(job, s.At(job.Key()).attempts, n)
    requires Tried(job, s.At(job.Key()).attempts, n)
    ensures n == Reached(job, s.claims) && Over(job, s.At(job.Key()).attempts, n, QuotaUsedUp(s.claims, job.maxRetries))
  {
    assert n < Reached(job, s.claims) ==> !Resolves(job, s.At(job.Key()).attempts, n);
  }

  lemma LoopEndIsGood(job: Job, s: Store, n: nat)
    requires JobOk(job) && AtAttempt(job, s, n) && n > 1 && (n > job.maxAttempts || !MayClaim(job, s, n))
    ensures forall t :: t in job.trials ==> t.key.variant in job.Variants()
    ensures GoodSteps(job, s, FinishSteps(job, s.At(job.Key()).attempts, n - 1, false))
  {
    ExhaustedIsOver(job, s, n);
    FinishIsGood(job, s, s.At(job.Key()).attempts, n - 1, false);
  }

  lemma ResolvedTurnIsGood(job: Job, s: Store, n: nat, taken: seq<Step>, later: Store)
    requires JobOk(job) && GoodSteps(job, s, taken) && later == ApplyAll(s, taken)
    requires AtAttempt(job, later, n) && n <= Reached(job, later.claims) && Tried(job, later.At(job.Key()).attempts, n)
    requires Resolves(job, later.At(job.Key()).attempts, n)
    ensures forall t :: t in job.trials ==> t.key.variant in job.Variants()
    ensures GoodSteps(job, s, taken + FinishSteps(job, later.At(job.Key()).attempts, n, true))
  {
    ResolvedIsOver(job, later, n);
    FinishIsGood(job, later, later.At(job.Key()).attempts, n, true);
    GoodStepsAppend(job, s, taken, FinishSteps(job, later.At(job.Key()).attempts, n, true));
  }

  lemma NextAttempt(job: Job, later: Store, n: nat)
    requires AtAttempt(job, later, n) && n <= Reached(job, later.claims) && n <= job.maxAttempts
    requires Tried(job, later.At(job.Key()).attempts, n) && !Resolves(job, later.At(job.Key()).attempts, n)
    ensures AtAttempt(job, later, n + 1)
  {
  }

  lemma LoopIsOver(job: Job, world: World, s: Store, n: nat)
    requires JobOk(job) && AtAttempt(job, s, n) && n > 1 && (n > job.maxAttempts || !MayClaim(job, s, n))
    ensures GoodSteps(job, s, LoopSteps(job, world, s, n))
  {
    LoopEnds(job, world, s, n);
    LoopEndIsGood(job, s, n);
  }

  lemma {:induction false} LoopIsGood(job: Job, world: World, s: Store, n: nat)
    requires JobOk(job) && AtAttempt(job, s, n)
    ensures GoodSteps(job, s, LoopSteps(job, world, s, n))
    decreases job.maxAttempts + 1 - n
  {
    if n > 1 && (n > job.maxAttempts || !MayClaim(job, s, n)) {
      LoopIsOver(job, world, s, n);
    } else {
      TurnIsGood(job, world, s, n);
      var taken := ClaimSteps(job, s, n) + TrySteps(job, world, s, n);
      var later := ApplyAll(s, taken);
      if !Resolves(job, later.At(job.Key()).attempts, n) {
        NextAttempt(job, later, n);
        LoopIsGood(job, world, later, n + 1);
      }
      TurnThenRest(job, world, s, n, taken, later);
    }
  }

  lemma TurnThenRest(job: Job, world: World, s: Store, n: nat, taken: seq<Step>, later: Store)
    requires JobOk(job) && 1 <= n <= job.maxAttempts && (n == 1 || MayClaim(job, s, n))
    requires taken == ClaimSteps(job, s, n) + TrySteps(job, world, s, n) && later == ApplyAll(s, taken) && GoodSteps(job, s, taken)
    requires AtAttempt(job, later, n) && n <= Reached(job, later.claims) && Tried(job, later.At(job.Key()).attempts, n)
    requires !Resolves(job, later.At(job.Key()).attempts, n) ==> GoodSteps(job, later, LoopSteps(job, world, later, n + 1))
    ensures GoodSteps(job, s, LoopSteps(job, world, s, n))
  {
    LoopGoesOn(job, world, s, n, later);
    if Resolves(job, later.At(job.Key()).attempts, n) {
      ResolvedTurnIsGood(job, s, n, taken, later);
    } else {
      GoodStepsAppend(job, s, taken, LoopSteps(job, world, later, n + 1));
    }
  }

  // ---------------------------------------------------------------- rebuilding and running

  lemma NoResultNoCandidates(job: Job, shelf: Shelf)
    ensures shelf.result.None? && shelf.trials == map[] ==> Candidates(job, shelf) == {}
  {
  }

  /** Whatever the summaries on disk select is the reached attempt. */
  lemma SelectedIsReached(job: Job, s: Store, selected: nat)
    requires BlockOk(job, s) && Rebuildable(job, s.At(job.Key()), selected)
    ensures s.At(job.Key()).result.Some? && selected == Reached(job, s.claims)
    ensures Over(job, s.At(job.Key()).attempts, selected, QuotaUsedUp(s.claims, job.maxRetries))
  {
    var shelf := s.At(job.Key());
    NoResultNoCandidates(job, shelf);
    if shelf.result.Some? {
      assert shelf.result.value.selected in Candidates(job, shelf);
    }
  }

  lemma RebuildIsGood(job: Job, s: Store)
    requires JobOk(job) && BlockOk(job, s)
    ensures GoodSteps(job, s, RebuildSteps(job, s))
  {
    TrialsAreVariants(job);
    var shelf := s.At(job.Key());
    var only := TheOnly(Candidates(job, shelf));
    if only.Some? && Rebuildable(job, shelf, only.value) {
      SelectedIsReached(job, s, only.value);
      FinishIsGood(job, s, shelf.attempts, only.value, Resolves(job, shelf.attempts, only.value));
    }
  }

  lemma RunIsGood(job: Job, world: World, s: Store)
    requires JobOk(job) && BlockReady(job, s)
    ensures GoodSteps(job, s, RunSteps(job, world, s))
  {
    if !Resumable(job, s) {
      RebuildIsGood(job, s);
      var rebuilt := RebuildSteps(job, s);
      var later := ApplyAll(s, rebuilt);
      StepsKeepReady(job, s, rebuilt);
      if rebuilt == [] || !Resumable(job, later) {
        LoopIsGood(job, world, later, 1);
        GoodStepsAppend(job, s, rebuilt, LoopSteps(job, world, later, 1));
      }
    }
  }
}

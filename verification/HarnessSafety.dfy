/** What every run of the harness keeps, however it is cut short. A run takes the steps of its
    block in order; a crash leaves any prefix of them on disk. */
module HarnessSafety {
  import opened Outcome
  import opened Sequences
  import opened Records
  import opened Artifacts
  import opened Harness

  // ---------------------------------------------------------------- how far a block has got

  function ReachedFrom(claims: Claims, key: BlockKey, n: nat, maximum: nat): (r: nat)
    ensures r >= n && (n <= maximum ==> r <= maximum)
    decreases maximum - n
  {
    if n < maximum && ClaimPath(key, n + 1) in claims then ReachedFrom(claims, key, n + 1, maximum) else n
  }

  /** The last attempt of the block that may have started: the first needs no claim. */
  function Reached(job: Job, claims: Claims): nat {
    ReachedFrom(claims, job.Key(), 1, job.maxAttempts)
  }

  lemma {:induction false} ReachedClaims(claims: Claims, key: BlockKey, n: nat, maximum: nat)
    requires n <= maximum
    ensures forall m :: n < m <= ReachedFrom(claims, key, n, maximum) ==> ClaimPath(key, m) in claims
    ensures ReachedFrom(claims, key, n, maximum) < maximum ==> ClaimPath(key, ReachedFrom(claims, key, n, maximum) + 1) !in claims
    decreases maximum - n
  {
    if n < maximum && ClaimPath(key, n + 1) in claims {
      ReachedClaims(claims, key, n + 1, maximum);
    }
  }

  lemma {:induction false} OtherClaim(claims: Claims, key: BlockKey, n: nat, maximum: nat, path: ClaimPath,
                                      claim: Claim)
    requires path.key != key
    ensures ReachedFrom(claims[path := claim], key, n, maximum) == ReachedFrom(claims, key, n, maximum)
    decreases maximum - n
  {
    if n < maximum && ClaimPath(key, n + 1) in claims {
      OtherClaim(claims, key, n + 1, maximum, path, claim);
    }
  }

  lemma {:induction false} NextClaim(claims: Claims, key: BlockKey, n: nat, maximum: nat, claim: Claim, next: nat)
    requires n <= maximum && next == ReachedFrom(claims, key, n, maximum) + 1 && next <= maximum
    requires ClaimPath(key, next + 1) !in claims
    ensures ReachedFrom(claims[ClaimPath(key, next) := claim], key, n, maximum) == next
    decreases maximum - n
  {
    if n < maximum && ClaimPath(key, n + 1) in claims {
      NextClaim(claims, key, n + 1, maximum, claim, next);
    }
  }

  // ---------------------------------------------------------------- invariants

  /** A record the harness made: a measurable trial ran under its declared settings. */
  ghost predicate Made(job: Job, k: AttemptKey, r: AttemptRecord) {
    && k.block == job.Key() && k.variant in job.Variants()
    && r.key == k && r.digest == job.digest && r.outcome.declared == job.SettingsOf(k.variant)
    && (r.outcome.status.Measurable() ==> r.outcome.observed == r.outcome.declared)
  }

  /** Nothing is left to try. */
  ghost predicate Over(job: Job, a: Attempts, reached: nat, usedUp: bool) {
    Tried(job, a, reached) && (Resolves(job, a, reached) || reached == job.maxAttempts || usedUp)
  }

  ghost predicate AttemptsInv(job: Job, a: Attempts, reached: nat) {
    && (forall k :: k in a ==> Made(job, k, a[k]) && 1 <= k.attempt <= reached)
    && (forall n :: 1 <= n < reached ==> Tried(job, a, n) && !Resolves(job, a, n))
  }

  ghost predicate IsTrialSummary(job: Job, a: Attempts, reached: nat, r: TrialRecord) {
    exists t :: t in job.trials && t.key.variant in job.Variants() && r == TrialSummary(job, a, t, reached)
  }

  ghost predicate IsPairSummary(job: Job, a: Attempts, reached: nat, r: PairResult) {
    exists p :: p in job.pairs && r == PairSummary(job, a, p, reached, Resolves(job, a, reached))
  }

  /** Summaries are one fixed function of the block's attempt records and claims. */
  ghost predicate SummariesInv(job: Job, shelf: Shelf, reached: nat, usedUp: bool) {
    && (shelf.result.None? ==> shelf.trials == map[] && shelf.pairs == map[])
    && (shelf.result.Some? ==>
          && shelf.result.value == ResultOf(job, shelf.attempts, reached, Resolves(job, shelf.attempts, reached))
          && Over(job, shelf.attempts, reached, usedUp))
    && (forall v :: v in shelf.trials ==>
          shelf.trials[v].key.variant == v && IsTrialSummary(job, shelf.attempts, reached, shelf.trials[v]))
    && (forall x :: x in shelf.pairs ==>
          shelf.pairs[x].key.axis == x && IsPairSummary(job, shelf.attempts, reached, shelf.pairs[x]))
  }

  ghost predicate BlockInv(job: Job, shelf: Shelf, reached: nat, usedUp: bool) {
    AttemptsInv(job, shelf.attempts, reached) && SummariesInv(job, shelf, reached, usedUp)
  }

  ghost predicate BlockOk(job: Job, s: Store) {
    BlockInv(job, s.At(job.Key()), Reached(job, s.claims), QuotaUsedUp(s.claims, job.maxRetries))
  }

  // ---------------------------------------------------------------- good steps

  /** A step that the harness may take for its block in state `s`. */
  ghost predicate GoodStep(job: Job, s: Store, step: Step) {
    var shelf := s.At(job.Key());
    var reached := Reached(job, s.claims);
    match step
    case Execute(key) => key.block == job.Key() && key.attempt == reached && !Tried(job, shelf.attempts, reached)
    case WriteClaim(claim) =>
      && claim == Claim(job.digest, job.Key(), reached + 1) && reached < job.maxAttempts
      && !QuotaUsedUp(s.claims, job.maxRetries) && shelf.result.None?
      && Tried(job, shelf.attempts, reached) && !Resolves(job, shelf.attempts, reached)
    case RecordAttempt(record) =>
      && Made(job, record.key, record) && record.key.attempt == reached
      && record.key !in shelf.attempts && shelf.result.None?
    case WriteResult(result) =>
      && Over(job, shelf.attempts, reached, QuotaUsedUp(s.claims, job.maxRetries))
      && result == ResultOf(job, shelf.attempts, reached, Resolves(job, shelf.attempts, reached))
    case WriteTrial(trial) => shelf.result.Some? && trial.key.Block() == job.Key() && IsTrialSummary(job, shelf.attempts, reached, trial)
    case WritePair(pair) => shelf.result.Some? && pair.key.Block() == job.Key() && IsPairSummary(job, shelf.attempts, reached, pair)
  }

  ghost predicate GoodSteps(job: Job, s: Store, steps: seq<Step>)
    decreases |steps|
  {
    steps == [] || (GoodSteps(job, s, Init(steps)) && GoodStep(job, ApplyAll(s, Init(steps)), Last(steps)))
  }

  lemma {:induction false} GoodStepsAppend(job: Job, s: Store, a: seq<Step>, b: seq<Step>)
    requires GoodSteps(job, s, a) && GoodSteps(job, ApplyAll(s, a), b)
    ensures GoodSteps(job, s, a + b)
    decreases |b|
  {
    if b == [] {
      assert a + b == a;
    } else {
      GoodStepsAppend(job, s, a, Init(b));
      assert Init(a + b) == a + Init(b) && Last(a + b) == Last(b);
      ApplyAllAppend(s, a, Init(b));
    }
  }

  lemma OneGoodStep(job: Job, s: Store, step: Step)
    requires GoodStep(job, s, step)
    ensures GoodSteps(job, s, [step])
  {
    assert Init([step]) == [] && Last([step]) == step;
  }

  // ---------------------------------------------------------------- a good step keeps its block's invariant

  lemma PresentElsewhere(job: Job, a: Attempts, r: AttemptRecord, n: nat)
    requires r.key.attempt != n
    ensures Present(job, a[r.key := r], n) == Present(job, a, n)
  {
  }

  lemma RecordKeepsAttempts(job: Job, a: Attempts, r: AttemptRecord, reached: nat)
    requires AttemptsInv(job, a, reached) && Made(job, r.key, r) && r.key.attempt == reached && 1 <= reached
    ensures AttemptsInv(job, a[r.key := r], reached)
  {
    var later := a[r.key := r];
    forall n | 1 <= n < reached
      ensures Tried(job, later, n) && !Resolves(job, later, n)
    {
      assert Tried(job, a, n) && !Resolves(job, a, n);
      PresentElsewhere(job, a, r, n);
    }
  }

  lemma ClaimKeepsAttempts(job: Job, a: Attempts, reached: nat)
    requires AttemptsInv(job, a, reached) && Tried(job, a, reached) && !Resolves(job, a, reached)
    ensures AttemptsInv(job, a, reached + 1)
  {
  }

  lemma SummaryKeepsBlock(job: Job, shelf: Shelf, reached: nat, usedUp: bool, step: Step)
    requires BlockInv(job, shelf, reached, usedUp)
    requires step.WriteResult? || (shelf.result.Some? && (step.WriteTrial? || step.WritePair?))
    requires step.WriteResult? ==>
      && Over(job, shelf.attempts, reached, usedUp)
      && step.result == ResultOf(job, shelf.attempts, reached, Resolves(job, shelf.attempts, reached))
    requires step.WriteTrial? ==> IsTrialSummary(job, shelf.attempts, reached, step.trial)
    requires step.WritePair? ==> IsPairSummary(job, shelf.attempts, reached, step.pair)
    ensures BlockInv(job, ApplyToShelf(shelf, step), reached, usedUp)
  {
  }

  lemma OwnStep(job: Job, s: Store, step: Step)
    requires job.maxAttempts >= 1 && BlockOk(job, s) && GoodStep(job, s, step)
    requires ClaimPath(job.Key(), Reached(job, s.claims) + 2) !in s.claims
    ensures BlockOk(job, Apply(s, step))
  {
    var shelf, reached, usedUp := s.At(job.Key()), Reached(job, s.claims), QuotaUsedUp(s.claims, job.maxRetries);
    match step
    case Execute(_) =>
    case WriteClaim(claim) =>
      NextClaim(s.claims, job.Key(), 1, job.maxAttempts, claim, reached + 1);
      ClaimKeepsAttempts(job, shelf.attempts, reached);
    case RecordAttempt(record) =>
      RecordKeepsAttempts(job, shelf.attempts, record, reached);
    case WriteResult(_) => SummaryKeepsBlock(job, shelf, reached, usedUp, step);
    case WriteTrial(_) => SummaryKeepsBlock(job, shelf, reached, usedUp, step);
    case WritePair(_) => SummaryKeepsBlock(job, shelf, reached, usedUp, step);
  }

  /** A step of one block leaves every other block alone, except that the quota may run out. */
  lemma OtherStep(job: Job, other: Job, s: Store, step: Step)
    requires BlockOk(other, s) && GoodStep(job, s, step) && other.Key() != job.Key()
    ensures BlockOk(other, Apply(s, step))
  {
    assert step.Block() == job.Key();
    assert Apply(s, step).At(other.Key()) == s.At(other.Key());
    if step.WriteClaim? {
      var path := ClaimPath(job.Key(), step.claim.attempt);
      OtherClaim(s.claims, other.Key(), 1, other.maxAttempts, path, step.claim);
      ClaimsGrow(s.claims, path, step.claim, other.maxRetries);
      UsedUpKeepsBlock(other, s.At(other.Key()), Reached(other, s.claims), QuotaUsedUp(s.claims, other.maxRetries),
                       QuotaUsedUp(s.claims[path := step.claim], other.maxRetries));
    }
  }

  lemma ClaimsGrow(claims: Claims, path: ClaimPath, claim: Claim, maximum: Option<nat>)
    ensures QuotaUsedUp(claims, maximum) ==> QuotaUsedUp(claims[path := claim], maximum)
  {
    assert claims.Keys <= claims[path := claim].Keys;
    if path in claims {
      assert claims[path := claim].Keys == claims.Keys;
    } else {
      assert claims[path := claim].Keys == claims.Keys + {path};
    }
  }

  lemma UsedUpKeepsBlock(job: Job, shelf: Shelf, reached: nat, before: bool, after: bool)
    requires BlockInv(job, shelf, reached, before) && (before ==> after)
    ensures BlockInv(job, shelf, reached, after)
  {
  }

  // ---------------------------------------------------------------- the whole store

  /** The jobs of one plan: one for each block, under one digest and one quota. */
  ghost predicate JobsAlike(jobs: set<Job>, digest: string, maxRetries: Option<nat>) {
    && (forall job :: job in jobs ==> 1 <= job.maxAttempts && job.digest == digest && job.maxRetries == maxRetries)
    && (forall a, b :: a in jobs && b in jobs && a.Key() == b.Key() ==> a == b)
  }

  ghost predicate ClaimedBy(job: Job, claims: Claims, p: ClaimPath) {
    job.Key() == p.key && 2 <= p.attempt <= Reached(job, claims)
  }

  /** Claims are the second to the last reached attempts of the blocks, within the quota. */
  ghost predicate ClaimsOk(jobs: set<Job>, digest: string, maxRetries: Option<nat>, claims: Claims) {
    && AllClaimed(jobs, claims)
    && (forall p :: p in claims ==> claims[p] == Claim(digest, p.key, p.attempt))
    && (maxRetries.Some? ==> |claims| <= maxRetries.value)
  }

  ghost predicate StoreOk(jobs: set<Job>, digest: string, maxRetries: Option<nat>, s: Store) {
    && (forall job :: job in jobs ==> BlockOk(job, s))
    && ClaimsOk(jobs, digest, maxRetries, s.claims)
  }

  lemma NoClaimBeyond(jobs: set<Job>, digest: string, maxRetries: Option<nat>, claims: Claims, job: Job, n: nat)
    requires JobsAlike(jobs, digest, maxRetries) && ClaimsOk(jobs, digest, maxRetries, claims) && job in jobs
    ensures ClaimPath(job.Key(), n) in claims ==> 2 <= n <= Reached(job, claims)
  {
    if ClaimPath(job.Key(), n) in claims {
      var other :| other in jobs && ClaimedBy(other, claims, ClaimPath(job.Key(), n));
      assert other == job;
    }
  }

  lemma ClaimStaysClaimed(job: Job, claims: Claims, j: Job, p: ClaimPath, n: nat, claim: Claim)
    requires n == Reached(job, claims) + 1 && n <= job.maxAttempts && 1 <= job.maxAttempts
    requires ClaimPath(job.Key(), n + 1) !in claims && ClaimedBy(j, claims, p) && (j.Key() == job.Key() ==> j == job)
    ensures ClaimedBy(j, claims[ClaimPath(job.Key(), n) := claim], p)
    ensures ClaimedBy(job, claims[ClaimPath(job.Key(), n) := claim], ClaimPath(job.Key(), n))
  {
    NextClaim(claims, job.Key(), 1, job.maxAttempts, claim, n);
    if j.Key() != job.Key() {
      OtherClaim(claims, j.Key(), 1, j.maxAttempts, ClaimPath(job.Key(), n), claim);
    }
  }

  lemma NewClaimIsClaimed(job: Job, claims: Claims, n: nat, claim: Claim)
    requires n == Reached(job, claims) + 1 && n <= job.maxAttempts && ClaimPath(job.Key(), n + 1) !in claims
    ensures ClaimedBy(job, claims[ClaimPath(job.Key(), n) := claim], ClaimPath(job.Key(), n))
  {
    NextClaim(claims, job.Key(), 1, job.maxAttempts, claim, n);
  }

  ghost predicate AllClaimed(jobs: set<Job>, claims: Claims) {
    forall p :: p in claims ==> exists job :: job in jobs && ClaimedBy(job, claims, p)
  }

  lemma ClaimsStayClaimed(jobs: set<Job>, claims: Claims, job: Job, n: nat, claim: Claim, later: Claims)
    requires job in jobs && (forall j :: j in jobs && j.Key() == job.Key() ==> j == job) && 1 <= job.maxAttempts
    requires AllClaimed(jobs, claims) && n == Reached(job, claims) + 1 && n <= job.maxAttempts
    requires ClaimPath(job.Key(), n + 1) !in claims && later == claims[ClaimPath(job.Key(), n) := claim]
    ensures AllClaimed(jobs, later)
  {
    NewClaimIsClaimed(job, claims, n, claim);
    forall p | p in later
      ensures exists j :: j in jobs && ClaimedBy(j, later, p)
    {
      if p == ClaimPath(job.Key(), n) {
        assert ClaimedBy(job, later, p);
      } else {
        var j :| j in jobs && ClaimedBy(j, claims, p);
        ClaimStaysClaimed(job, claims, j, p, n, claim);
      }
    }
  }

  lemma OneMoreClaim(claims: Claims, path: ClaimPath, claim: Claim)
    requires path !in claims
    ensures |claims[path := claim]| == |claims| + 1
  {
    assert claims[path := claim].Keys == claims.Keys + {path};
  }

  lemma ClaimStep(jobs: set<Job>, digest: string, maxRetries: Option<nat>, claims: Claims, job: Job, n: nat,
                  claim: Claim, later: Claims)
    requires JobsAlike(jobs, digest, maxRetries) && ClaimsOk(jobs, digest, maxRetries, claims) && job in jobs
    requires n == Reached(job, claims) + 1 && n <= job.maxAttempts && !QuotaUsedUp(claims, maxRetries)
    requires claim == Claim(digest, job.Key(), n) && later == claims[ClaimPath(job.Key(), n) := claim]
    ensures ClaimsOk(jobs, digest, maxRetries, later)
  {
    NoClaimBeyond(jobs, digest, maxRetries, claims, job, n);
    NoClaimBeyond(jobs, digest, maxRetries, claims, job, n + 1);
    ClaimsStayClaimed(jobs, claims, job, n, claim, later);
    OneMoreClaim(claims, ClaimPath(job.Key(), n), claim);
  }

  /** A good step of any block keeps the whole store in order. */
  lemma StepKeepsStore(jobs: set<Job>, digest: string, maxRetries: Option<nat>, s: Store, job: Job, step: Step)
    requires JobsAlike(jobs, digest, maxRetries) && StoreOk(jobs, digest, maxRetries, s) && job in jobs && GoodStep(job, s, step)
    ensures StoreOk(jobs, digest, maxRetries, Apply(s, step))
  {
    forall other | other in jobs
      ensures BlockOk(other, Apply(s, step))
    {
      if other.Key() == job.Key() {
        NoClaimBeyond(jobs, digest, maxRetries, s.claims, job, Reached(job, s.claims) + 2);
        OwnStep(job, s, step);
      } else {
        OtherStep(job, other, s, step);
      }
    }
    if step.WriteClaim? {
      ClaimStep(jobs, digest, maxRetries, s.claims, job, Reached(job, s.claims) + 1, step.claim, Apply(s, step).claims);
    }
  }

  lemma {:induction false} GoodPrefix(job: Job, s: Store, steps: seq<Step>, k: nat)
    requires GoodSteps(job, s, steps) && k <= |steps|
    ensures GoodSteps(job, s, steps[..k])
    decreases |steps|
  {
    if k < |steps| {
      GoodPrefix(job, s, Init(steps), k);
      assert Init(steps)[..k] == steps[..k];
    } else {
      assert steps[..k] == steps;
    }
  }

  /** Good steps keep the store in order, and any prefix of them is good. */
  lemma {:induction false} GoodStepsKeepStore(jobs: set<Job>, digest: string, maxRetries: Option<nat>, s: Store,
                                              job: Job, steps: seq<Step>)
    requires JobsAlike(jobs, digest, maxRetries) && StoreOk(jobs, digest, maxRetries, s) && job in jobs
    requires GoodSteps(job, s, steps)
    ensures StoreOk(jobs, digest, maxRetries, ApplyAll(s, steps))
    decreases |steps|
  {
    if steps != [] {
      GoodStepsKeepStore(jobs, digest, maxRetries, s, job, Init(steps));
      StepKeepsStore(jobs, digest, maxRetries, ApplyAll(s, Init(steps)), job, Last(steps));
    }
  }

  // ---------------------------------------------------------------- every run takes good steps

  ghost predicate IsSummary(job: Job, a: Attempts, reached: nat, step: Step) {
    || (step.WriteTrial? && step.trial.key.Block() == job.Key() && IsTrialSummary(job, a, reached, step.trial))
    || (step.WritePair? && step.pair.key.Block() == job.Key() && IsPairSummary(job, a, reached, step.pair))
  }

  lemma {:induction false} SummariesAreGood(job: Job, s: Store, steps: seq<Step>)
    requires s.At(job.Key()).result.Some?
    requires forall x :: x in steps ==> IsSummary(job, s.At(job.Key()).attempts, Reached(job, s.claims), x)
    ensures GoodSteps(job, s, steps) && ApplyAll(s, steps).claims == s.claims
    ensures ApplyAll(s, steps).At(job.Key()).attempts == s.At(job.Key()).attempts && ApplyAll(s, steps).At(job.Key()).result.Some?
    decreases |steps|
  {
    if steps != [] {
      assert Last(steps) in steps && forall x :: x in Init(steps) ==> x in steps;
      SummariesAreGood(job, s, Init(steps));
    }
  }

  lemma ResultStep(job: Job, s: Store, r: BlockResult)
    requires r.key == job.Key()
    ensures var later := ApplyAll(s, [WriteResult(r)]);
      && later.claims == s.claims && later.At(job.Key()).attempts == s.At(job.Key()).attempts && later.At(job.Key()).result == Some(r)
  {
    assert Init([WriteResult(r)]) == [] && Last([WriteResult(r)]) == WriteResult(r);
  }

  lemma SummaryStepsAreGood(job: Job, s: Store, n: nat)
    requires JobOk(job) && s.At(job.Key()).result.Some? && n == Reached(job, s.claims)
    ensures forall t :: t in job.trials ==> t.key.variant in job.Variants()
    ensures var a := s.At(job.Key()).attempts;
      GoodSteps(job, s, TrialSteps(job, a, job.trials, n) + PairSteps(job, a, job.pairs, n, Resolves(job, a, n)))
  {
    TrialsAreVariants(job);
    var a := s.At(job.Key()).attempts;
    var steps := TrialSteps(job, a, job.trials, n) + PairSteps(job, a, job.pairs, n, Resolves(job, a, n));
    forall x | x in steps
      ensures IsSummary(job, a, n, x)
    {
      SummaryOf(job, a, n, x);
    }
    SummariesAreGood(job, s, steps);
  }

  lemma FinishSplits(job: Job, a: Attempts, n: nat, resolved: bool)
    requires forall t :: t in job.trials ==> t.key.variant in job.Variants()
    ensures FinishSteps(job, a, n, resolved)
      == [WriteResult(ResultOf(job, a, n, resolved))] + (TrialSteps(job, a, job.trials, n) + PairSteps(job, a, job.pairs, n, resolved))
  {
  }

  lemma FinishIsGood(job: Job, s: Store, a: Attempts, n: nat, resolved: bool)
    requires JobOk(job) && a == s.At(job.Key()).attempts && n == Reached(job, s.claims) && resolved == Resolves(job, a, n)
    requires Over(job, a, n, QuotaUsedUp(s.claims, job.maxRetries))
    ensures forall t :: t in job.trials ==> t.key.variant in job.Variants()
    ensures GoodSteps(job, s, FinishSteps(job, a, n, resolved))
  {
    TrialsAreVariants(job);
    var first := WriteResult(ResultOf(job, a, n, resolved));
    OneGoodStep(job, s, first);
    ResultStep(job, s, first.result);
    SummaryStepsAreGood(job, ApplyAll(s, [first]), n);
    GoodStepsAppend(job, s, [first], TrialSteps(job, a, job.trials, n) + PairSteps(job, a, job.pairs, n, resolved));
    FinishSplits(job, a, n, resolved);
  }

  lemma SummaryOf(job: Job, a: Attempts, n: nat, x: Step)
    requires JobOk(job) && forall t :: t in job.trials ==> t.key.variant in job.Variants() && t.key.Block() == job.Key()
    requires x in TrialSteps(job, a, job.trials, n) + PairSteps(job, a, job.pairs, n, Resolves(job, a, n))
    ensures IsSummary(job, a, n, x)
  {
    var trials, pairs := TrialSteps(job, a, job.trials, n), PairSteps(job, a, job.pairs, n, Resolves(job, a, n));
    if x in trials {
      var i :| 0 <= i < |trials| && trials[i] == x;
      assert job.trials[i] in job.trials;
    } else {
      var i :| 0 <= i < |pairs| && pairs[i] == x;
      assert job.pairs[i] in job.pairs;
    }
  }
}

/** Attempts that a crash left half recorded: no later run completes them, and the block that
    contains one is finished and never accepted. */
module HarnessPartial {
  import opened Outcome
  import opened Sequences
  import opened CanonicalJson
  import opened Records
  import opened Plan
  import opened PlanShape
  import opened Artifacts
  import opened Harness
  import opened HarnessRun
  import opened HarnessSafety
  import opened HarnessCrash
  import opened HarnessRuns
  import opened HarnessResults
  import opened HarnessPlan
  import Reducer

  // ---------------------------------------------------------------- a run records only untried attempts

  /** No step records an attempt of which `a` holds a record. */
  predicate RecordsUntried(job: Job, a: Attempts, steps: seq<Step>) {
    forall x :: x in steps && x.RecordAttempt? ==> !Tried(job, a, x.record.key.attempt)
  }

  predicate NoRecords(steps: seq<Step>) {
    forall x :: x in steps ==> !x.RecordAttempt?
  }

  lemma {:induction false} NoRecordsNoChange(key: BlockKey, s: Store, steps: seq<Step>)
    requires NoRecords(steps)
    ensures ApplyAll(s, steps).At(key).attempts == s.At(key).attempts
    decreases |steps|
  {
    if steps != [] {
      assert Last(steps) in steps && forall x :: x in Init(steps) ==> x in steps;
      NoRecordsNoChange(key, s, Init(steps));
    }
  }

  lemma FinishRecordsNothing(job: Job, a: Attempts, n: nat, resolved: bool)
    requires forall t :: t in job.trials ==> t.key.variant in job.Variants()
    ensures NoRecords(FinishSteps(job, a, n, resolved))
  {
    FinishSplits(job, a, n, resolved);
  }

  lemma RecordingsAreOf(job: Job, world: World, keys: seq<TrialKey>, n: nat)
    requires forall k :: k in keys ==> k.variant in job.Variants()
    ensures forall x :: x in Recordings(job, world, keys, n) ==> x.RecordAttempt? && x.record.key.attempt == n
  {
  }

  lemma AttemptRecordsUntried(job: Job, world: World, a: Attempts, n: nat)
    requires JobOk(job) && !Tried(job, a, n)
    ensures RecordsUntried(job, a, AttemptSteps(job, world, n))
  {
    BlockHasTrials(job);
    RecordingsAreOf(job, world, job.block.trials, n);
    assert forall x :: x in Executions(job, job.block.trials, n) ==> x.Execute?;
  }

  /** One turn of the loop records only its own attempt, and only if it is untried. */
  lemma TurnRecordsUntried(job: Job, world: World, s: Store, n: nat, taken: seq<Step>)
    requires JobOk(job) && taken == ClaimSteps(job, s, n) + TrySteps(job, world, s, n)
    ensures RecordsUntried(job, s.At(job.Key()).attempts, taken)
    ensures forall m: nat :: Tried(job, s.At(job.Key()).attempts, m) ==> Tried(job, ApplyAll(s, taken).At(job.Key()).attempts, m)
  {
    ClaimEffect(job, s, n);
    ApplyAllAppend(s, ClaimSteps(job, s, n), TrySteps(job, world, s, n));
    if !Tried(job, s.At(job.Key()).attempts, n) {
      AttemptRecordsUntried(job, world, s.At(job.Key()).attempts, n);
      AttemptTries(job, world, ApplyAll(s, ClaimSteps(job, s, n)), n);
    }
  }

  lemma RecordsUntriedAppend(job: Job, a: Attempts, later: Attempts, first: seq<Step>, rest: seq<Step>)
    requires RecordsUntried(job, a, first) && RecordsUntried(job, later, rest)
    requires forall m: nat :: Tried(job, a, m) ==> Tried(job, later, m)
    ensures RecordsUntried(job, a, first + rest)
  {
  }

  ghost predicate LoopIsFresh(job: Job, world: World, s: Store, n: nat)
    requires JobOk(job) && 1 <= n <= job.maxAttempts + 1
  {
    RecordsUntried(job, s.At(job.Key()).attempts, LoopSteps(job, world, s, n))
  }

  lemma LoopEndRecordsNothing(job: Job, world: World, s: Store, n: nat)
    requires JobOk(job) && 1 <= n <= job.maxAttempts + 1 && (n > job.maxAttempts || (n > 1 && !MayClaim(job, s, n)))
    ensures LoopIsFresh(job, world, s, n)
  {
    LoopEnds(job, world, s, n);
    FinishRecordsNothing(job, s.At(job.Key()).attempts, n - 1, false);
  }

  /** The store after one turn of the loop. */
  function AfterTurn(job: Job, world: World, s: Store, n: nat): Store
    requires JobOk(job)
  {
    ApplyAll(s, ClaimSteps(job, s, n) + TrySteps(job, world, s, n))
  }

  lemma TurnThenRecords(job: Job, world: World, s: Store, n: nat, later: Store)
    requires JobOk(job) && 1 <= n <= job.maxAttempts && (n == 1 || MayClaim(job, s, n))
    requires later == AfterTurn(job, world, s, n) && LoopIsFresh(job, world, later, n + 1)
    ensures LoopIsFresh(job, world, s, n)
  {
    var taken := ClaimSteps(job, s, n) + TrySteps(job, world, s, n);
    TurnRecordsUntried(job, world, s, n, taken);
    LoopGoesOn(job, world, s, n, later);
    var a, b := s.At(job.Key()).attempts, later.At(job.Key()).attempts;
    if Resolves(job, b, n) {
      FinishRecordsNothing(job, b, n, true);
      RecordsUntriedAppend(job, a, b, taken, FinishSteps(job, b, n, true));
    } else {
      RecordsUntriedAppend(job, a, b, taken, LoopSteps(job, world, later, n + 1));
    }
  }

  lemma {:induction false} LoopRecordsUntried(job: Job, world: World, s: Store, n: nat)
    requires JobOk(job) && 1 <= n <= job.maxAttempts + 1
    ensures LoopIsFresh(job, world, s, n)
    decreases job.maxAttempts + 1 - n, 1
  {
    if n > 1 && (n > job.maxAttempts || !MayClaim(job, s, n)) {
      LoopEndRecordsNothing(job, world, s, n);
    } else {
      TurnAndLater(job, world, s, n, AfterTurn(job, world, s, n), n + 1);
    }
  }

  lemma {:induction false} TurnAndLater(job: Job, world: World, s: Store, n: nat, later: Store, next: nat)
    requires JobOk(job) && 1 <= n <= job.maxAttempts && (n == 1 || MayClaim(job, s, n))
    requires later == AfterTurn(job, world, s, n) && next == n + 1
    ensures LoopIsFresh(job, world, s, n)
    decreases job.maxAttempts + 1 - n, 0
  {
    LoopRecordsUntried(job, world, later, next);
    TurnThenRecords(job, world, s, n, later);
  }

  lemma RebuildRecordsNothing(job: Job, s: Store)
    requires JobOk(job)
    ensures NoRecords(RebuildSteps(job, s))
  {
    TrialsAreVariants(job);
    var shelf := s.At(job.Key());
    var only := TheOnly(Candidates(job, shelf));
    if only.Some? {
      FinishRecordsNothing(job, shelf.attempts, only.value, Resolves(job, shelf.attempts, only.value));
    }
  }

  /** A run records only attempts of which nothing was recorded when it began. */
  lemma RunRecordsUntried(job: Job, world: World, s: Store)
    requires JobOk(job)
    ensures RecordsUntried(job, s.At(job.Key()).attempts, RunSteps(job, world, s))
  {
    if !Resumable(job, s) {
      var rebuilt := RebuildSteps(job, s);
      var later := ApplyAll(s, rebuilt);
      RebuildRecordsNothing(job, s);
      NoRecordsNoChange(job.Key(), s, rebuilt);
      LoopRecordsUntried(job, world, later, 1);
      RecordsUntriedAppend(job, s.At(job.Key()).attempts, later.At(job.Key()).attempts, rebuilt, LoopSteps(job, world, later, 1));
    }
  }

  // ---------------------------------------------------------------- an attempt with any record is frozen

  lemma {:induction false} StepsFreezeTried(job: Job, s: Store, steps: seq<Step>, m: nat)
    requires RecordsUntried(job, s.At(job.Key()).attempts, steps) && Tried(job, s.At(job.Key()).attempts, m)
    ensures Present(job, ApplyAll(s, steps).At(job.Key()).attempts, m) == Present(job, s.At(job.Key()).attempts, m)
    decreases |steps|
  {
    if steps != [] {
      var before, last := ApplyAll(s, Init(steps)), Last(steps);
      assert last in steps && forall x :: x in Init(steps) ==> x in steps;
      StepsFreezeTried(job, s, Init(steps), m);
      if last.RecordAttempt? {
        assert last.record.key.attempt != m;
        PresentElsewhere(job, before.At(job.Key()).attempts, last.record, m);
      }
    }
  }

  lemma {:induction false} StepsLeaveOthers(job: Job, s: Store, steps: seq<Step>, key: BlockKey)
    requires GoodSteps(job, s, steps) && key != job.Key()
    ensures ApplyAll(s, steps).At(key) == s.At(key)
    decreases |steps|
  {
    if steps != [] {
      StepsLeaveOthers(job, s, Init(steps), key);
      assert Last(steps).Block() == job.Key();
    }
  }

  lemma MoveFreezesTried(jobs: set<Job>, digest: string, maxRetries: Option<nat>, s: Store, move: Move, job: Job, m: nat)
    requires InOrder(jobs, digest, maxRetries, s) && move.job in jobs && JobOk(move.job) && job in jobs
    requires Tried(job, s.At(job.Key()).attempts, m)
    ensures Present(job, ApplyAll(s, Taken(s, move)).At(job.Key()).attempts, m) == Present(job, s.At(job.Key()).attempts, m)
  {
    if move.job.Key() == job.Key() {
      assert move.job == job;
      RunRecordsUntried(job, move.world, s);
      assert forall x :: x in Taken(s, move) ==> x in RunSteps(job, move.world, s);
      StepsFreezeTried(job, s, Taken(s, move), m);
    } else {
      TakenIsGood(jobs, digest, maxRetries, s, move);
      StepsLeaveOthers(move.job, s, Taken(s, move), job.Key());
    }
  }

  /** Once an attempt has any record, no run of any block adds to it or changes it, crashes
      included. */
  lemma {:induction false} TriedIsFrozen(jobs: set<Job>, digest: string, maxRetries: Option<nat>, s: Store,
                                         moves: seq<Move>, job: Job, m: nat)
    requires InOrder(jobs, digest, maxRetries, s) && MovesOk(jobs, moves) && job in jobs
    requires Tried(job, s.At(job.Key()).attempts, m)
    ensures Present(job, Replay(s, moves).At(job.Key()).attempts, m) == Present(job, s.At(job.Key()).attempts, m)
    decreases |moves|
  {
    if moves != [] {
      assert Last(moves) in moves && forall x :: x in Init(moves) ==> x in moves;
      TriedIsFrozen(jobs, digest, maxRetries, s, Init(moves), job, m);
      CrashAnywhere(jobs, digest, maxRetries, s, Init(moves));
      MoveFreezesTried(jobs, digest, maxRetries, Replay(s, Init(moves)), Last(moves), job, m);
    }
  }

  // ---------------------------------------------------------------- half recorded attempts

  /** Some variant of the attempt is recorded and some is not. */
  predicate HalfRecorded(job: Job, a: Attempts, m: nat) {
    Tried(job, a, m) && Present(job, a, m).Keys != job.Variants()
  }

  lemma HalfRecordedIsIncomplete(jobs: set<Job>, digest: string, maxRetries: Option<nat>, s: Store, job: Job, m: nat)
    requires InOrder(jobs, digest, maxRetries, s) && job in jobs && JobOk(job) && s.At(job.Key()).result.Some?
    requires HalfRecorded(job, s.At(job.Key()).attempts, m)
    ensures !Complete(job, s.At(job.Key()).attempts, s.At(job.Key()).result.value.selected)
  {
    var a, n := s.At(job.Key()).attempts, s.At(job.Key()).result.value.selected;
    var v :| v in Present(job, a, m);
    assert AttemptKeyOf(job, v, m) in a;
    assert 1 <= m <= n;
    var w :| w in job.Variants() && w !in Present(job, a, m);
    IdsAgree(job);
    assert w in TrialIds(job.trials) && !Reducer.HasAttempt(job, a, w, m);
  }

  /** A half recorded attempt is for good: whatever runs follow, a block that contains one is never
      resumable and never accepted, although it can be finished. */
  lemma HalfRecordedIsForever(jobs: set<Job>, digest: string, maxRetries: Option<nat>, s: Store, moves: seq<Move>,
                              job: Job, m: nat)
    requires InOrder(jobs, digest, maxRetries, s) && MovesOk(jobs, moves) && job in jobs && JobOk(job)
    requires HalfRecorded(job, s.At(job.Key()).attempts, m)
    ensures var later := Replay(s, moves);
      && HalfRecorded(job, later.At(job.Key()).attempts, m)
      && (Done(job, later.At(job.Key())) ==> !Resumable(job, later) && !Reducer.Accepts(job, later.At(job.Key())))
  {
    var later := Replay(s, moves);
    TriedIsFrozen(jobs, digest, maxRetries, s, moves, job, m);
    CrashAnywhere(jobs, digest, maxRetries, s, moves);
    if Done(job, later.At(job.Key())) {
      HalfRecordedIsIncomplete(jobs, digest, maxRetries, later, job, m);
      HarnessAndReducerAgree(jobs, digest, maxRetries, later, job);
    }
  }

  /** The block is finished, and neither the resume check nor the reducer accepts it. */
  ghost predicate Spoiled(job: Job, s: Store) {
    Done(job, s.At(job.Key())) && !Resumable(job, s) && !Reducer.Accepts(job, s.At(job.Key()))
  }

  // ---------------------------------------------------------------- every block can get there

  const NOTHING_YET := Store(map[], map[])

  /** The first run of a block has nothing to rebuild. */
  lemma FirstRunIsLoop(job: Job, world: World)
    requires JobOk(job)
    ensures RunSteps(job, world, NOTHING_YET) == LoopSteps(job, world, NOTHING_YET, 1)
    ensures !Tried(job, NOTHING_YET.At(job.Key()).attempts, 1)
  {
    assert NOTHING_YET.At(job.Key()) == BARE;
    NoResultNoCandidates(job, BARE);
    assert !Rebuildable(job, BARE, 1);
    assert RebuildSteps(job, NOTHING_YET) == [];
    assert [] + LoopSteps(job, world, NOTHING_YET, 1) == LoopSteps(job, world, NOTHING_YET, 1);
    assert Present(job, BARE.attempts, 1) == map[];
  }

  lemma FirstTurn(job: Job, world: World)
    requires JobOk(job) && !Tried(job, NOTHING_YET.At(job.Key()).attempts, 1)
    ensures AttemptSteps(job, world, 1) <= LoopSteps(job, world, NOTHING_YET, 1)
  {
    var s := NOTHING_YET;
    var later := ApplyAll(s, ClaimSteps(job, s, 1) + TrySteps(job, world, s, 1));
    LoopGoesOn(job, world, s, 1, later);
    assert ClaimSteps(job, s, 1) == [] && TrySteps(job, world, s, 1) == AttemptSteps(job, world, 1);
    assert [] + AttemptSteps(job, world, 1) == AttemptSteps(job, world, 1);
  }

  lemma CutAttempt(job: Job, world: World, steps: seq<Step>, cut: nat)
    requires JobOk(job) && AttemptSteps(job, world, 1) <= steps && cut == |job.block.trials| + 1
    ensures (forall k :: k in job.block.trials ==> k.variant in job.Variants()) && job.block.trials != []
    ensures cut <= |steps|
    ensures steps[..cut]
      == Executions(job, job.block.trials, 1) + [RecordAttempt(RecordOf(job, world, job.block.trials[0].variant, 1))]
  {
    BlockHasTrials(job);
    var attempt := AttemptSteps(job, world, 1);
    assert |attempt| == 2 * |job.block.trials|;
    assert steps[..cut] == attempt[..cut];
  }

  /** The only record of a block. */
  lemma OneRecord(job: Job, a: Attempts, r: AttemptRecord, n: nat)
    requires a == map[r.key := r] && r.key.attempt == n && Made(job, r.key, r)
    ensures Tried(job, a, n) && Present(job, a, n).Keys == {r.key.variant}
  {
    assert ReadAttempt(job, a, r.key.variant, n) == Some(r);
    assert r.key.variant in Present(job, a, n);
  }

  lemma AfterFirstRecord(job: Job, world: World, keys: seq<TrialKey>, variant: string, s: Store)
    requires variant in job.Variants()
    requires s == ApplyAll(NOTHING_YET, Executions(job, keys, 1) + [RecordAttempt(RecordOf(job, world, variant, 1))])
    ensures Tried(job, s.At(job.Key()).attempts, 1) && Present(job, s.At(job.Key()).attempts, 1).Keys == {variant}
  {
    var r := RecordOf(job, world, variant, 1);
    ExecutionsWriteNothing(job, NOTHING_YET, keys, 1);
    ApplySnoc(NOTHING_YET, Executions(job, keys, 1), RecordAttempt(r));
    ReadAfterRecord(job, NOTHING_YET, r);
    RecordIsMade(job, world, variant, 1);
    OneRecord(job, s.At(job.Key()).attempts, r, 1);
  }

  /** A run of a block with at least two variants that crashes after its first record leaves an
      attempt half recorded. */
  lemma CrashLeavesHalf(job: Job, world: World, s: Store)
    requires JobOk(job) && |job.Variants()| >= 2
    requires s == Replay(NOTHING_YET, [Move(job, world, |job.block.trials| + 1)])
    ensures HalfRecorded(job, s.At(job.Key()).attempts, 1)
  {
    var move := Move(job, world, |job.block.trials| + 1);
    FirstRunIsLoop(job, world);
    FirstTurn(job, world);
    CutAttempt(job, world, RunSteps(job, world, NOTHING_YET), move.durable);
    assert Init([move]) == [] && Last([move]) == move;
    assert Replay(NOTHING_YET, []) == NOTHING_YET;
    var first := job.block.trials[0];
    assert first in job.block.trials;
    AfterFirstRecord(job, world, job.block.trials, first.variant, s);
  }

  /** A crash and one completed run are enough: the block is finished, and neither the harness's
      resume check nor the reducer will ever accept it. */
  lemma CrashSpoilsBlock(job: Job, world: World, again: World) returns (moves: seq<Move>)
    requires JobOk(job) && |job.Variants()| >= 2
    ensures MovesOk({job}, moves) && |moves| == 2
    ensures Spoiled(job, Replay(NOTHING_YET, moves))
    ensures HalfRecorded(job, Replay(NOTHING_YET, moves).At(job.Key()).attempts, 1)
  {
    var crash := [Move(job, world, |job.block.trials| + 1)];
    var half := Replay(NOTHING_YET, crash);
    CrashLeavesHalf(job, world, half);
    EmptyStoreIsInOrder({job}, job.digest, job.maxRetries);
    CrashAnywhere({job}, job.digest, job.maxRetries, NOTHING_YET, crash);
    var rest := Move(job, again, |RunSteps(job, again, half)|);
    moves := crash + [rest];
    Snoc(crash, rest);
    RunFinishes(job, again, half);
    assert Init([rest]) == [] && Last([rest]) == rest && Replay(half, []) == half;
    assert RunSteps(job, again, half)[..rest.durable] == RunSteps(job, again, half);
    HalfRecordedIsForever({job}, job.digest, job.maxRetries, half, [rest], job, 1);
    assert Replay(NOTHING_YET, moves) == Replay(half, [rest]);
  }

  /** A block with two pairs on one axis is spoiled by its first completed run. */
  lemma SharedAxisSpoilsBlock(job: Job, world: World)
    requires JobOk(job) && !AxesDistinct(job)
    ensures Spoiled(job, ApplyAll(NOTHING_YET, RunSteps(job, world, NOTHING_YET)))
  {
    var steps := RunSteps(job, world, NOTHING_YET);
    RunFinishes(job, world, NOTHING_YET);
    EmptyStoreIsInOrder({job}, job.digest, job.maxRetries);
    InOrderIsReady({job}, job.digest, job.maxRetries, NOTHING_YET, job);
    RunIsGood(job, world, NOTHING_YET);
    GoodStepsKeepStore({job}, job.digest, job.maxRetries, NOTHING_YET, job, steps);
    HarnessAndReducerAgree({job}, job.digest, job.maxRetries, ApplyAll(NOTHING_YET, steps), job);
  }
}

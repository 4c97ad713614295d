/** From a compiled plan to the jobs of its blocks, and what a completed run leaves behind. */
module HarnessPlan {
  import opened Outcome
  import opened Sequences
  import opened CanonicalJson
  import opened Records
  import opened Plan
  import opened PlanShape
  import opened Artifacts
  import opened Harness
  import opened HarnessRun
  import opened HarnessSafety
  import opened HarnessCrash
  import opened HarnessRuns
  import opened HarnessResults

  // ---------------------------------------------------------------- jobs of a plan

  /** The jobs of all comparison blocks. */
  ghost function Jobs(p: Plan): set<Job> {
    set d, b | d in p.definitions && b in p.lists.blocks && b.key.pack == d.packId :: JobOf(p, d, b)
  }

  lemma PlannedBlockIs(digest: Digest, x: string, spec: Spec, ds: seq<Definition>, d: Definition, b: PlannedBlock)
    requires AllValid(ds) && d in ds && b in PlanOf(digest, x, spec, ds).lists.blocks && b.key.pack == d.packId
    ensures Slice(PlanOf(digest, x, spec, ds).lists, b.key) == EmitBlock(digest, x, d, b.key.task, b.key.repetition)
    ensures b.key == BlockKey(x, d.packId, b.key.task, b.key.repetition)
    ensures b == EmitBlock(digest, x, d, b.key.task, b.key.repetition).blocks[0]
    ensures d.variants != []
  {
    var p := PlanOf(digest, x, spec, ds);
    EmittedBlocksArePlanned(digest, x, ds, spec.repetitions, b.key);
    var e :| e in ds && InTasks(x, e, e.tasks, spec.repetitions, b.key);
    SamePack(ds, d, e);
    KnownBlock(digest, x, ds, spec.repetitions, d, b.key);
    BlocksOfMembers(p.lists.blocks, b.key);
    assert d.Valid();
  }

  lemma SamePack(ds: seq<Definition>, d: Definition, e: Definition)
    requires AllValid(ds) && d in ds && e in ds && d.packId == e.packId
    ensures d == e
  {
    var i :| 0 <= i < |ds| && ds[i] == d;
    var j :| 0 <= j < |ds| && ds[j] == e;
  }

  lemma {:induction false} VariantCount(variants: seq<Variant>)
    requires forall i, j :: 0 <= i < j < |variants| ==> variants[i].id != variants[j].id
    ensures |set v <- variants :: v.id| == |variants|
  {
    if variants != [] {
      VariantCount(Init(variants));
      assert variants == Init(variants) + [Last(variants)];
      assert (set v <- variants :: v.id) == (set v <- Init(variants) :: v.id) + {Last(variants).id};
    }
  }

  lemma TrialKeysNameVariants(b: BlockKey, variants: seq<Variant>, ids: set<string>)
    requires forall i, j :: 0 <= i < j < |variants| ==> variants[i].id != variants[j].id
    requires ids == set v <- variants :: v.id
    ensures NamesEachVariantOnce(TrialKeys(b, variants), b, ids)
  {
    VariantCount(variants);
  }

  lemma PermutationNamesVariants(keys: seq<TrialKey>, sorted: seq<TrialKey>, b: BlockKey, ids: set<string>)
    requires NamesEachVariantOnce(keys, b, ids) && multiset(sorted) == multiset(keys)
    ensures NamesEachVariantOnce(sorted, b, ids)
  {
    assert |sorted| == |multiset(sorted)| == |multiset(keys)| == |keys|;
    forall k | k in sorted
      ensures k in keys
    {
      assert k in multiset(sorted);
    }
    forall i, j | 0 <= i < j < |sorted|
      ensures sorted[i].variant != sorted[j].variant
    {
      if sorted[i] == sorted[j] {
        TwiceInMultiset(sorted, i, j);
        OnceInMultiset(keys, sorted[i]);
      } else {
        assert sorted[i] in keys && sorted[j] in keys;
      }
    }
  }

  lemma TwiceInMultiset(s: seq<TrialKey>, i: nat, j: nat)
    requires i < j < |s| && s[i] == s[j]
    ensures multiset(s)[s[i]] >= 2
  {
    assert s == s[..j] + [s[j]] + s[j + 1..];
    assert s[..j][i] == s[i];
  }

  lemma {:induction false} OnceInMultiset(s: seq<TrialKey>, k: TrialKey)
    requires forall i, j :: 0 <= i < j < |s| ==> s[i].variant != s[j].variant
    ensures multiset(s)[k] <= 1
  {
    if s != [] {
      assert s == Init(s) + [Last(s)];
      OnceInMultiset(Init(s), k);
      assert forall i :: 0 <= i < |s| - 1 ==> s[i] != s[|s| - 1];
    }
  }

  lemma PairsFitJob(d: Definition, x: string, task: string, rep: nat, pairs: seq<PairKey>, p: PairKey)
    requires pairs == PairKeys(x, d, task, rep) && p in pairs && forall q :: q in d.pairs ==> PairFits(d, q)
    ensures p.Block() == BlockKey(x, d.packId, task, rep)
    ensures var ids := set v <- d.variants :: v.id;
      p.control in ids && p.treatment in ids
    ensures VariantDiff(FirstSettings(d.variants, p.control), FirstSettings(d.variants, p.treatment)).Keys == {p.axis}
  {
    var i :| 0 <= i < |pairs| && pairs[i] == p;
    assert d.pairs[i] in d.pairs && PairFits(d, d.pairs[i]);
  }

  lemma CompiledNames(digest: Digest, x: string, d: Definition, b: PlannedBlock)
    requires d.Valid() && b.key == BlockKey(x, d.packId, b.key.task, b.key.repetition)
    requires b == EmitBlock(digest, x, d, b.key.task, b.key.repetition).blocks[0]
    ensures var ids := set v <- d.variants :: v.id;
      NamesEachVariantOnce(TrialKeys(b.key, d.variants), b.key, ids) && NamesEachVariantOnce(b.trials, b.key, ids)
  {
    var ids := set v <- d.variants :: v.id;
    TrialKeysNameVariants(b.key, d.variants, ids);
    SortOrders(TrialKeys(b.key, d.variants), TrialRank(digest, b.key));
    PermutationNamesVariants(TrialKeys(b.key, d.variants), b.trials, b.key, ids);
  }

  /** Every block of a compiled plan is a job the harness can run. */
  lemma CompiledJobIsOk(digest: Digest, x: string, spec: Spec, ds: seq<Definition>, d: Definition, b: PlannedBlock)
    requires AllValid(ds) && AllPairsFit(ds) && spec.Valid()
    requires d in ds && b in PlanOf(digest, x, spec, ds).lists.blocks && b.key.pack == d.packId
    ensures JobOk(JobOf(PlanOf(digest, x, spec, ds), d, b))
  {
    PlannedBlockIs(digest, x, spec, ds, d, b);
    var job := JobOf(PlanOf(digest, x, spec, ds), d, b);
    assert d.Valid();
    CompiledNames(digest, x, d, b);
    assert KeysOf(job.trials) == TrialKeys(b.key, d.variants);
    forall p | p in job.pairs
      ensures p.Block() == job.Key() && p.control in job.Variants() && p.treatment in job.Variants()
      ensures VariantDiff(job.SettingsOf(p.control), job.SettingsOf(p.treatment)).Keys == {p.axis}
    {
      PairsFitJob(d, x, b.key.task, b.key.repetition, job.pairs, p);
    }
  }

  lemma CompiledJobsAreOk(digest: Digest, x: string, spec: Spec, ds: seq<Definition>)
    requires AllValid(ds) && AllPairsFit(ds) && spec.Valid()
    ensures var p := PlanOf(digest, x, spec, ds);
      JobsAlike(Jobs(p), x, spec.maxRetries) && forall job :: job in Jobs(p) ==> JobOk(job)
  {
    var p := PlanOf(digest, x, spec, ds);
    forall job | job in Jobs(p)
      ensures JobOk(job)
    {
      var d, b :| d in p.definitions && b in p.lists.blocks && b.key.pack == d.packId && job == JobOf(p, d, b);
      CompiledJobIsOk(digest, x, spec, ds, d, b);
    }
    forall j, k | j in Jobs(p) && k in Jobs(p) && j.Key() == k.Key()
      ensures j == k
    {
      var d, b :| d in p.definitions && b in p.lists.blocks && b.key.pack == d.packId && j == JobOf(p, d, b);
      var e, c :| e in p.definitions && c in p.lists.blocks && c.key.pack == e.packId && k == JobOf(p, e, c);
      SamePack(ds, d, e);
      PlannedBlockIs(digest, x, spec, ds, d, b);
      PlannedBlockIs(digest, x, spec, ds, d, c);
    }
  }

  // ---------------------------------------------------------------- completed runs

  ghost predicate Filled(shelf: Shelf, steps: seq<Step>) {
    && (forall x :: x in steps && x.WriteResult? ==> shelf.result.Some?)
    && (forall x :: x in steps && x.WriteTrial? ==> x.trial.key.variant in shelf.trials)
    && (forall x :: x in steps && x.WritePair? ==> x.pair.key.axis in shelf.pairs)
  }

  lemma {:induction false} StepsFill(key: BlockKey, s: Store, steps: seq<Step>)
    requires forall x :: x in steps ==> x.Block() == key
    ensures Filled(ApplyAll(s, steps).At(key), steps)
    decreases |steps|
  {
    if steps != [] {
      assert forall x :: x in steps <==> x in Init(steps) || x == Last(steps);
      StepsFill(key, s, Init(steps));
    }
  }

  lemma FinishIsOfBlock(job: Job, a: Attempts, n: nat, resolved: bool)
    requires JobOk(job) && forall t :: t in job.trials ==> t.key.variant in job.Variants() && t.key.Block() == job.Key()
    ensures forall x :: x in FinishSteps(job, a, n, resolved) ==> x.Block() == job.Key()
  {
    var trials, pairs := TrialSteps(job, a, job.trials, n), PairSteps(job, a, job.pairs, n, resolved);
    TrialStepsOfBlock(job, a, n);
    PairStepsOfBlock(job, a, n, resolved);
    FinishSplits(job, a, n, resolved);
    assert forall x :: x in FinishSteps(job, a, n, resolved) ==>
      x == WriteResult(ResultOf(job, a, n, resolved)) || x in trials || x in pairs;
  }

  lemma TrialStepsOfBlock(job: Job, a: Attempts, n: nat)
    requires forall t :: t in job.trials ==> t.key.variant in job.Variants() && t.key.Block() == job.Key()
    ensures forall x :: x in TrialSteps(job, a, job.trials, n) ==> x.Block() == job.Key()
  {
    assert forall i :: 0 <= i < |job.trials| ==> job.trials[i] in job.trials;
  }

  lemma PairStepsOfBlock(job: Job, a: Attempts, n: nat, resolved: bool)
    requires forall p :: p in job.pairs ==> p.Block() == job.Key()
    ensures forall x :: x in PairSteps(job, a, job.pairs, n, resolved) ==> x.Block() == job.Key()
  {
    assert forall i :: 0 <= i < |job.pairs| ==> job.pairs[i] in job.pairs;
  }

  lemma FinishHasTrial(job: Job, a: Attempts, n: nat, resolved: bool, t: PlannedTrial)
    requires t in job.trials && forall u :: u in job.trials ==> u.key.variant in job.Variants()
    ensures WriteTrial(TrialSummary(job, a, t, n)) in FinishSteps(job, a, n, resolved)
  {
    var i :| 0 <= i < |job.trials| && job.trials[i] == t;
    assert TrialSteps(job, a, job.trials, n)[i] == WriteTrial(TrialSummary(job, a, t, n));
  }

  lemma FinishHasPair(job: Job, a: Attempts, n: nat, resolved: bool, p: PairKey)
    requires p in job.pairs && forall u :: u in job.trials ==> u.key.variant in job.Variants()
    ensures WritePair(PairSummary(job, a, p, n, resolved)) in FinishSteps(job, a, n, resolved)
  {
    var i :| 0 <= i < |job.pairs| && job.pairs[i] == p;
    assert PairSteps(job, a, job.pairs, n, resolved)[i] == WritePair(PairSummary(job, a, p, n, resolved));
  }

  lemma FinishFills(job: Job, s: Store, a: Attempts, n: nat, resolved: bool)
    requires JobOk(job) && forall t :: t in job.trials ==> t.key.variant in job.Variants()
    ensures Done(job, ApplyAll(s, FinishSteps(job, a, n, resolved)).At(job.Key()))
  {
    var steps := FinishSteps(job, a, n, resolved);
    TrialsAreVariants(job);
    FinishIsOfBlock(job, a, n, resolved);
    StepsFill(job.Key(), s, steps);
    assert steps[0] in steps && steps[0].WriteResult?;
    var shelf := ApplyAll(s, steps).At(job.Key());
    forall t | t in job.trials
      ensures t.key.variant in shelf.trials
    {
      FinishHasTrial(job, a, n, resolved, t);
    }
    forall p | p in job.pairs
      ensures p.axis in shelf.pairs
    {
      FinishHasPair(job, a, n, resolved, p);
    }
  }

  lemma LoopEndFills(job: Job, world: World, s: Store, n: nat)
    requires JobOk(job) && 1 < n <= job.maxAttempts + 1 && (n > job.maxAttempts || !MayClaim(job, s, n))
    ensures Done(job, ApplyAll(s, LoopSteps(job, world, s, n)).At(job.Key()))
  {
    LoopEnds(job, world, s, n);
    FinishFills(job, s, s.At(job.Key()).attempts, n - 1, false);
  }

  lemma TurnFills(job: Job, world: World, s: Store, n: nat, taken: seq<Step>, later: Store)
    requires JobOk(job) && 1 <= n <= job.maxAttempts && (n == 1 || MayClaim(job, s, n))
    requires taken == ClaimSteps(job, s, n) + TrySteps(job, world, s, n) && later == ApplyAll(s, taken)
    requires !Resolves(job, later.At(job.Key()).attempts, n) ==> Done(job, ApplyAll(later, LoopSteps(job, world, later, n + 1)).At(job.Key()))
    ensures Done(job, ApplyAll(s, LoopSteps(job, world, s, n)).At(job.Key()))
  {
    LoopGoesOn(job, world, s, n, later);
    if Resolves(job, later.At(job.Key()).attempts, n) {
      FinishFills(job, later, later.At(job.Key()).attempts, n, true);
      ApplyAllAppend(s, taken, FinishSteps(job, later.At(job.Key()).attempts, n, true));
    } else {
      ApplyAllAppend(s, taken, LoopSteps(job, world, later, n + 1));
    }
  }

  lemma {:induction false} LoopFills(job: Job, world: World, s: Store, n: nat)
    requires JobOk(job) && 1 <= n <= job.maxAttempts + 1
    ensures Done(job, ApplyAll(s, LoopSteps(job, world, s, n)).At(job.Key()))
    decreases job.maxAttempts + 1 - n
  {
    if n > 1 && (n > job.maxAttempts || !MayClaim(job, s, n)) {
      LoopEndFills(job, world, s, n);
    } else {
      var taken := ClaimSteps(job, s, n) + TrySteps(job, world, s, n);
      var later := ApplyAll(s, taken);
      LoopFills(job, world, later, n + 1);
      TurnFills(job, world, s, n, taken, later);
    }
  }

  /** A run that is not cut short finishes its block. */
  lemma RunFinishes(job: Job, world: World, s: Store)
    requires JobOk(job)
    ensures Done(job, ApplyAll(s, RunSteps(job, world, s)).At(job.Key()))
  {
    if !Resumable(job, s) {
      var rebuilt := RebuildSteps(job, s);
      var later := ApplyAll(s, rebuilt);
      if rebuilt == [] || !Resumable(job, later) {
        LoopFills(job, world, later, 1);
        ApplyAllAppend(s, rebuilt, LoopSteps(job, world, later, 1));
      }
    }
  }

  /** After a completed run of a block, a second run executes none of its trials; it takes no step
      at all when every attempt was recorded in full and no two pairs share an axis. */
  lemma SecondRunExecutesNothing(jobs: set<Job>, digest: string, maxRetries: Option<nat>, s: Store, job: Job,
                                 world: World, again: World)
    requires InOrder(jobs, digest, maxRetries, s) && job in jobs && JobOk(job)
    ensures var later := ApplyAll(s, RunSteps(job, world, s));
      && Done(job, later.At(job.Key()))
      && (forall x :: x in RunSteps(job, again, later) ==> !x.Execute? && !x.RecordAttempt? && !x.WriteClaim?)
      && (Complete(job, later.At(job.Key()).attempts, later.At(job.Key()).result.value.selected) && AxesDistinct(job) ==>
            RunSteps(job, again, later) == [])
  {
    InOrderIsReady(jobs, digest, maxRetries, s, job);
    RunFinishes(job, world, s);
    RunIsGood(job, world, s);
    var later := ApplyAll(s, RunSteps(job, world, s));
    GoodStepsKeepStore(jobs, digest, maxRetries, s, job, RunSteps(job, world, s));
    HarnessAndReducerAgree(jobs, digest, maxRetries, later, job);
    InOrderIsReady(jobs, digest, maxRetries, later, job);
    RunIsGood(job, again, later);
    forall i | 0 <= i < |RunSteps(job, again, later)|
      ensures var x := RunSteps(job, again, later)[i]; !x.Execute? && !x.RecordAttempt? && !x.WriteClaim?
    {
      StepsAreFresh(job, later, RunSteps(job, again, later), i);
    }
  }
}

/** The harness itself: the loops that execute, record, resume and rebuild a block, each proved
    to take exactly the specified steps. */
module HarnessRun {
  import opened Outcome
  import opened Sequences
  import opened Records
  import opened Plan
  import opened Artifacts
  import opened Harness

  /** The store serves this job. */
  ghost predicate Serves(store: ArtifactStore, job: Job)
    reads store
  {
    store.Valid() && store.digest == job.digest
  }

  /** Since `history` and `start`, exactly these steps were taken. */
  ghost predicate Took(store: ArtifactStore, history: seq<Step>, start: Store, steps: seq<Step>)
    reads store
  {
    store.history == history + steps && store.State() == ApplyAll(start, steps)
  }

  lemma TookOneMore(store: ArtifactStore, history: seq<Step>, start: Store, steps: seq<Step>, step: Step,
                    longer: seq<Step>)
    requires store.history == history + steps + [step] && store.State() == Apply(ApplyAll(start, steps), step)
    requires longer == steps + [step]
    ensures Took(store, history, start, longer)
  {
    ApplySnoc(start, steps, step);
    assert history + steps + [step] == history + longer;
  }

  // ---------------------------------------------------------------- one attempt

  lemma ReadAfterRecord(job: Job, s: Store, r: AttemptRecord)
    requires r.key.block == job.Key()
    ensures Apply(s, RecordAttempt(r)).At(job.Key()).attempts == s.At(job.Key()).attempts[r.key := r]
  {
  }

  lemma ApplySnoc(s: Store, steps: seq<Step>, step: Step)
    ensures ApplyAll(s, steps + [step]) == Apply(ApplyAll(s, steps), step)
  {
    Snoc(steps, step);
  }

  lemma {:induction false} ExecutionsWriteNothing(job: Job, s: Store, keys: seq<TrialKey>, n: nat)
    ensures ApplyAll(s, Executions(job, keys, n)) == s
    decreases |keys|
  {
    if keys != [] {
      ExecutionsWriteNothing(job, s, Init(keys), n);
      assert Executions(job, keys, n) == Executions(job, Init(keys), n) + [Execute(AttemptKeyOf(job, Last(keys).variant, n))];
      ApplySnoc(s, Executions(job, Init(keys), n), Execute(AttemptKeyOf(job, Last(keys).variant, n)));
    }
  }

  /** The attempts with one more attempt of the block recorded for these trials. */
  function WithAttempt(job: Job, world: World, a: Attempts, keys: seq<TrialKey>, n: nat): Attempts
    requires forall k :: k in keys ==> k.variant in job.Variants()
  {
    if keys == [] then a
    else WithAttempt(job, world, a, Init(keys), n)[AttemptKeyOf(job, Last(keys).variant, n) := RecordOf(job, world, Last(keys).variant, n)]
  }

  lemma {:induction false} RecordingsRecord(job: Job, world: World, s: Store, keys: seq<TrialKey>, n: nat)
    requires forall k :: k in keys ==> k.variant in job.Variants()
    ensures ApplyAll(s, Recordings(job, world, keys, n)).At(job.Key()).attempts
      == WithAttempt(job, world, s.At(job.Key()).attempts, keys, n)
    decreases |keys|
  {
    if keys != [] {
      RecordingsRecord(job, world, s, Init(keys), n);
      var step := RecordAttempt(RecordOf(job, world, Last(keys).variant, n));
      assert Recordings(job, world, keys, n) == Recordings(job, world, Init(keys), n) + [step];
      ApplySnoc(s, Recordings(job, world, Init(keys), n), step);
      ReadAfterRecord(job, ApplyAll(s, Recordings(job, world, Init(keys), n)), step.record);
    }
  }

  lemma {:induction false} WithAttemptHas(job: Job, world: World, a: Attempts, keys: seq<TrialKey>, n: nat,
                                          key: AttemptKey)
    requires forall k :: k in keys ==> k.variant in job.Variants()
    ensures key in WithAttempt(job, world, a, keys, n) <==>
      key in a || (key.block == job.Key() && key.attempt == n && exists k :: k in keys && k.variant == key.variant)
    ensures key in WithAttempt(job, world, a, keys, n) ==>
      WithAttempt(job, world, a, keys, n)[key] ==
      (if key.block == job.Key() && key.attempt == n && exists k :: k in keys && k.variant == key.variant
       then RecordOf(job, world, key.variant, n) else a[key])
  {
    if keys != [] {
      WithAttemptHas(job, world, a, Init(keys), n, key);
      assert keys == Init(keys) + [Last(keys)];
    }
  }

  method ReadPresent(store: ArtifactStore, job: Job, n: nat) returns (records: map<string, AttemptRecord>)
    requires Serves(store, job) && JobOk(job)
    ensures records == Present(job, store.State().At(job.Key()).attempts, n)
  {
    records := map[];
    var a := store.State().At(job.Key()).attempts;
    var keys := job.block.trials;
    EveryVariantHasATrial(keys, job.Key(), job.Variants());
    for i := 0 to |keys|
      invariant forall j :: 0 <= j < i ==> (keys[j].variant in records <==> ReadAttempt(job, a, keys[j].variant, n).Some?)
      invariant forall v :: v in records ==> v in job.Variants() && ReadAttempt(job, a, v, n) == Some(records[v])
    {
      assert keys[i] in keys;
      var existing := ReadAttempt(job, a, keys[i].variant, n);
      if existing.Some? {
        records := records[keys[i].variant := existing.value];
      }
    }
    assert records.Keys == Present(job, a, n).Keys;
  }

  lemma {:induction false} VariantsOfKeys(keys: seq<TrialKey>, key: BlockKey, variants: set<string>)
    requires forall i, j :: 0 <= i < j < |keys| ==> keys[i].variant != keys[j].variant
    requires forall k :: k in keys ==> k.variant in variants
    ensures |set k <- keys :: k.variant| == |keys|
  {
    if keys != [] {
      assert forall k :: k in Init(keys) ==> k in keys;
      VariantsOfKeys(Init(keys), key, variants);
      assert keys == Init(keys) + [Last(keys)];
      assert (set k <- keys :: k.variant) == (set k <- Init(keys) :: k.variant) + {Last(keys).variant};
    }
  }

  lemma FullSubset(a: set<string>, b: set<string>)
    requires a <= b && |a| == |b|
    ensures a == b
  {
    assert b == a + (b - a);
    assert |b - a| == 0;
  }

  lemma EveryVariantHasATrial(keys: seq<TrialKey>, key: BlockKey, variants: set<string>)
    requires NamesEachVariantOnce(keys, key, variants)
    ensures (set k <- keys :: k.variant) == variants
    ensures forall v :: v in variants ==> exists j :: 0 <= j < |keys| && keys[j].variant == v
  {
    VariantsOfKeys(keys, key, variants);
    FullSubset(set k <- keys :: k.variant, variants);
    forall v | v in variants
      ensures exists j :: 0 <= j < |keys| && keys[j].variant == v
    {
      assert v in set k <- keys :: k.variant;
    }
  }

  /** Runs the trials of an attempt, none of which is recorded until all have run. */
  method RunTrials(store: ArtifactStore, job: Job, world: World, n: nat) returns (pending: seq<AttemptRecord>)
    requires Serves(store, job) && JobOk(job)
    modifies store`history
    ensures store.history == old(store.history) + Executions(job, job.block.trials, n)
    ensures |pending| == |job.block.trials|
    ensures forall i :: 0 <= i < |pending| ==> job.block.trials[i].variant in job.Variants()
    ensures forall i :: 0 <= i < |pending| ==> pending[i] == RecordOf(job, world, job.block.trials[i].variant, n)
  {
    pending := [];
    var keys := job.block.trials;
    for i := 0 to |keys|
      invariant store.history == old(store.history) + Executions(job, keys[..i], n)
      invariant |pending| == i
      invariant forall j :: 0 <= j < i ==> keys[j].variant in job.Variants() && pending[j] == RecordOf(job, world, keys[j].variant, n)
    {
      assert keys[i] in keys;
      var variant := keys[i].variant;
      var execution := world(AttemptKeyOf(job, variant, n));
      store.history := store.history + [Execute(AttemptKeyOf(job, variant, n))];
      assert Executions(job, keys[..i + 1], n) == Executions(job, keys[..i], n) + [Execute(AttemptKeyOf(job, variant, n))];
      var declared := job.SettingsOf(variant);
      var outcome := TrialOutcome(execution.status, declared, execution.observed, execution.verification, execution.findings,
                                  execution.details);
      if execution.observed != declared {
        outcome := TrialOutcome(InfrastructureFailure, declared, execution.observed, Verification(VerificationNotRun, ["variant_drift"]),
                                execution.findings + ["variant_drift"], execution.details);
      }
      pending := pending + [AttemptRecord(AttemptKeyOf(job, variant, n), job.digest, outcome)];
    }
    assert keys[..|keys|] == keys;
  }

  lemma UntriedKeysAreNew(job: Job, world: World, s: Store, keys: seq<TrialKey>, i: nat, n: nat)
    requires ProperAttempts(s.At(job.Key()).attempts, job.digest) && !Tried(job, s.At(job.Key()).attempts, n) && i < |keys|
    requires forall j, k :: 0 <= j < k < |keys| ==> keys[j].variant != keys[k].variant
    requires forall k :: k in keys ==> k.variant in job.Variants()
    ensures forall k :: k in keys[..i] ==> k in keys
    ensures AttemptKeyOf(job, keys[i].variant, n) !in ApplyAll(s, Recordings(job, world, keys[..i], n)).At(job.Key()).attempts
  {
    var a, key := s.At(job.Key()).attempts, AttemptKeyOf(job, keys[i].variant, n);
    assert forall k :: k in keys[..i] ==> k in keys;
    assert keys[i] in keys && keys[i].variant !in Present(job, a, n);
    RecordingsRecord(job, world, s, keys[..i], n);
    WithAttemptHas(job, world, a, keys[..i], n, key);
  }

  /** Records the results; no key is taken, so every record is written. */
  method RecordTrials(store: ArtifactStore, job: Job, world: World, n: nat, keys: seq<TrialKey>,
                      pending: seq<AttemptRecord>)
    requires Serves(store, job) && !Tried(job, store.State().At(job.Key()).attempts, n)
    requires forall j, k :: 0 <= j < k < |keys| ==> keys[j].variant != keys[k].variant
    requires forall k :: k in keys ==> k.variant in job.Variants()
    requires |pending| == |keys| && forall i :: 0 <= i < |pending| ==> keys[i] in keys && pending[i] == RecordOf(job, world, keys[i].variant, n)
    modifies store
    ensures Serves(store, job) && Took(store, old(store.history), old(store.State()), Recordings(job, world, keys, n))
  {
    ghost var start, h := store.State(), store.history;
    for i := 0 to |keys|
      invariant Serves(store, job)
      invariant (forall k :: k in keys[..i] ==> k in keys) && Took(store, h, start, Recordings(job, world, keys[..i], n))
    {
      UntriedKeysAreNew(job, world, start, keys, i, n);
      assert pending[i].key == AttemptKeyOf(job, keys[i].variant, n);
      var ok := store.AppendImmutable(pending[i]);
      assert keys[..i + 1] == keys[..i] + [keys[i]];
      TookOneMore(store, h, start, Recordings(job, world, keys[..i], n), RecordAttempt(pending[i]), Recordings(job, world, keys[..i + 1], n));
    }
    assert keys[..|keys|] == keys;
  }

  lemma AttemptEffect(job: Job, world: World, s: Store, n: nat)
    requires JobOk(job)
    ensures forall k :: k in job.block.trials ==> k.variant in job.Variants()
    ensures ApplyAll(s, AttemptSteps(job, world, n)) == ApplyAll(s, Recordings(job, world, job.block.trials, n))
  {
    ExecutionsWriteNothing(job, s, job.block.trials, n);
    ApplyAllAppend(s, Executions(job, job.block.trials, n), Recordings(job, world, job.block.trials, n));
  }

  lemma TookBoth(store: ArtifactStore, history: seq<Step>, start: Store, a: seq<Step>, b: seq<Step>, both: seq<Step>)
    requires Took(store, history + a, start, b) && both == a + b && ApplyAll(start, both) == ApplyAll(start, b)
    ensures Took(store, history, start, both)
  {
    assert history + a + b == history + both;
  }

  method RunAttempt(store: ArtifactStore, job: Job, world: World, n: nat)
    requires Serves(store, job) && JobOk(job) && !Tried(job, store.State().At(job.Key()).attempts, n)
    modifies store
    ensures Serves(store, job) && Took(store, old(store.history), old(store.State()), AttemptSteps(job, world, n))
  {
    ghost var start, h := store.State(), store.history;
    AttemptEffect(job, world, start, n);
    var pending := RunTrials(store, job, world, n);
    RecordTrials(store, job, world, n, job.block.trials, pending);
    TookBoth(store, h, start, Executions(job, job.block.trials, n), Recordings(job, world, job.block.trials, n), AttemptSteps(job, world, n));
  }

  // ---------------------------------------------------------------- summaries

  method CollectRefs(job: Job, a: Attempts, variants: seq<string>, selected: nat) returns (refs: seq<AttemptKey>)
    ensures refs == Refs(job, a, variants, selected)
  {
    refs := [];
    for n := 1 to selected + 1
      invariant refs == Refs(job, a, variants, n - 1)
    {
      ghost var before := refs;
      for i := 0 to |variants|
        invariant refs == before + RefsAt(job, a, variants[..i], n)
      {
        assert variants[..i + 1] == variants[..i] + [variants[i]];
        Snoc(variants[..i], variants[i]);
        if ReadAttempt(job, a, variants[i], n).Some? {
          refs := refs + [AttemptKeyOf(job, variants[i], n)];
        }
      }
      assert variants[..|variants|] == variants;
    }
  }

  lemma TrialStepsSnoc(job: Job, a: Attempts, i: nat, selected: nat)
    requires i < |job.trials| && forall t :: t in job.trials ==> t.key.variant in job.Variants()
    ensures (forall t :: t in job.trials[..i + 1] ==> t in job.trials) && (forall t :: t in job.trials[..i] ==> t in job.trials)
    ensures job.trials[i] in job.trials
    ensures TrialSteps(job, a, job.trials[..i + 1], selected)
      == TrialSteps(job, a, job.trials[..i], selected) + [WriteTrial(TrialSummary(job, a, job.trials[i], selected))]
  {
  }

  lemma PairStepsSnoc(job: Job, a: Attempts, i: nat, selected: nat, resolved: bool)
    requires i < |job.pairs|
    ensures PairSteps(job, a, job.pairs[..i + 1], selected, resolved)
      == PairSteps(job, a, job.pairs[..i], selected, resolved) + [WritePair(PairSummary(job, a, job.pairs[i], selected, resolved))]
  {
  }

  method WriteOneTrial(store: ArtifactStore, job: Job, t: PlannedTrial, selected: nat,
                       records: map<string, AttemptRecord>)
    requires Serves(store, job) && t.key.variant in job.Variants() && t.key.Block() == job.Key()
    requires records == Present(job, store.State().At(job.Key()).attempts, selected)
    modifies store
    ensures Serves(store, job)
    ensures var step := WriteTrial(TrialSummary(job, old(store.State().At(job.Key()).attempts), t, selected));
      && store.State() == Apply(old(store.State()), step) && store.history == old(store.history) + [step]
    ensures store.State().At(job.Key()).attempts == old(store.State().At(job.Key()).attempts)
  {
    var refs := CollectRefs(job, store.State().At(job.Key()).attempts, [t.key.variant], selected);
    var outcome := if t.key.variant in records then records[t.key.variant].outcome else MissingOutcome(job, t.key.variant);
    store.WriteSummary(WriteTrial(TrialRecord(t.key, job.digest, t.memberships, selected, refs, outcome)));
  }

  method WriteTrials(store: ArtifactStore, job: Job, selected: nat, records: map<string, AttemptRecord>,
                     ghost a: Attempts)
    requires Serves(store, job) && a == store.State().At(job.Key()).attempts && records == Present(job, a, selected)
    requires forall t :: t in job.trials ==> t.key.variant in job.Variants() && t.key.Block() == job.Key()
    modifies store
    ensures Serves(store, job) && Took(store, old(store.history), old(store.State()), TrialSteps(job, a, job.trials, selected))
  {
    ghost var start, h := store.State(), store.history;
    for i := 0 to |job.trials|
      invariant Serves(store, job) && store.State().At(job.Key()).attempts == a
      invariant Took(store, h, start, TrialSteps(job, a, job.trials[..i], selected))
    {
      assert job.trials[i] in job.trials;
      WriteOneTrial(store, job, job.trials[i], selected, records);
      TrialStepsSnoc(job, a, i, selected);
      TookOneMore(store, h, start, TrialSteps(job, a, job.trials[..i], selected),
                  WriteTrial(TrialSummary(job, a, job.trials[i], selected)), TrialSteps(job, a, job.trials[..i + 1], selected));
    }
    assert job.trials[..|job.trials|] == job.trials;
  }

  method WriteOnePair(store: ArtifactStore, job: Job, p: PairKey, selected: nat, resolved: bool,
                      records: map<string, AttemptRecord>, ghost a: Attempts)
    requires Serves(store, job) && records == Present(job, a, selected)
    modifies store
    ensures Serves(store, job)
    ensures var step := WritePair(PairSummary(job, a, p, selected, resolved));
      store.State() == Apply(old(store.State()), step) && store.history == old(store.history) + [step]
  {
    var diff := map[];
    if p.control in records && p.treatment in records {
      diff := VariantDiff(records[p.control].outcome.observed, records[p.treatment].outcome.observed);
    }
    var valid := && resolved && p.control in records && p.treatment in records && diff.Keys == {p.axis}
                 && records[p.control].outcome.status.Measurable() && records[p.treatment].outcome.status.Measurable();
    store.WriteSummary(WritePair(PairResult(p, job.digest, if resolved then Some(selected) else None, valid, diff,
                                            if valid then [] else PAIR_INVALID)));
  }

  method WritePairs(store: ArtifactStore, job: Job, selected: nat, resolved: bool,
                    records: map<string, AttemptRecord>, ghost a: Attempts)
    requires Serves(store, job) && records == Present(job, a, selected)
    modifies store
    ensures Serves(store, job) && Took(store, old(store.history), old(store.State()), PairSteps(job, a, job.pairs, selected, resolved))
  {
    ghost var start, h := store.State(), store.history;
    for i := 0 to |job.pairs|
      invariant Serves(store, job) && Took(store, h, start, PairSteps(job, a, job.pairs[..i], selected, resolved))
    {
      WriteOnePair(store, job, job.pairs[i], selected, resolved, records, a);
      PairStepsSnoc(job, a, i, selected, resolved);
      TookOneMore(store, h, start, PairSteps(job, a, job.pairs[..i], selected, resolved),
                  WritePair(PairSummary(job, a, job.pairs[i], selected, resolved)), PairSteps(job, a, job.pairs[..i + 1], selected, resolved));
    }
    assert job.pairs[..|job.pairs|] == job.pairs;
  }

  method FinishBlock(store: ArtifactStore, job: Job, selected: nat, resolved: bool, records: map<string, AttemptRecord>)
    requires Serves(store, job) && JobOk(job) && records == Present(job, store.State().At(job.Key()).attempts, selected)
    modifies store
    ensures Serves(store, job) && forall t :: t in job.trials ==> t.key.variant in job.Variants()
    ensures Took(store, old(store.history), old(store.State()),
                 FinishSteps(job, old(store.State()).At(job.Key()).attempts, selected, resolved))
  {
    TrialsAreVariants(job);
    ghost var start, h, a := store.State(), store.history, store.State().At(job.Key()).attempts;
    var refs := CollectRefs(job, store.State().At(job.Key()).attempts, Ids(job.variants), selected);
    var result := BlockResult(job.Key(), job.digest, resolved, !resolved, selected, refs,
                              if resolved then [] else EXHAUSTED);
    store.WriteSummary(WriteResult(result));
    ghost var first := [WriteResult(result)];
    TookOneMore(store, h, start, [], WriteResult(result), first);
    ghost var middle := store.State();
    WriteTrials(store, job, selected, records, a);
    TookThen(store, h, start, middle, first, TrialSteps(job, a, job.trials, selected));
    ghost var later := store.State();
    WritePairs(store, job, selected, resolved, records, a);
    TookThen(store, h, start, later, first + TrialSteps(job, a, job.trials, selected), PairSteps(job, a, job.pairs, selected, resolved));
  }

  lemma TookThen(store: ArtifactStore, history: seq<Step>, start: Store, middle: Store, a: seq<Step>, b: seq<Step>)
    requires middle == ApplyAll(start, a) && Took(store, history + a, middle, b)
    ensures Took(store, history, start, a + b)
  {
    ApplyAllAppend(start, a, b);
    assert history + a + b == history + (a + b);
  }

  // ---------------------------------------------------------------- the run loop

  /** One turn of the loop, up to the decision whether the block is resolved. */
  method TakeAttempt(store: ArtifactStore, job: Job, world: World, n: nat)
    returns (claimed: bool, records: map<string, AttemptRecord>, resolved: bool)
    requires Serves(store, job) && JobOk(job) && 1 <= n <= job.maxAttempts
    modifies store
    ensures Serves(store, job) && (claimed <==> n == 1 || MayClaim(job, old(store.State()), n))
    ensures !claimed ==> Took(store, old(store.history), old(store.State()), [])
    ensures claimed ==>
      && Took(store, old(store.history), old(store.State()),
              ClaimSteps(job, old(store.State()), n) + TrySteps(job, world, old(store.State()), n))
      && records == Present(job, store.State().At(job.Key()).attempts, n)
      && resolved == Resolves(job, store.State().At(job.Key()).attempts, n)
  {
    ghost var start, h := store.State(), store.history;
    claimed, records, resolved := true, map[], false;
    if n > 1 {
      claimed := store.ClaimRetry(job.Key(), n, job.maxRetries);
      if !claimed {
        return;
      }
    }
    ClaimEffect(job, start, n);
    assert Took(store, h, start, ClaimSteps(job, start, n));
    ghost var middle := store.State();
    records := ReadPresent(store, job, n);
    if records == map[] {
      RunAttempt(store, job, world, n);
      records := ReadPresent(store, job, n);
    }
    assert Took(store, h + ClaimSteps(job, start, n), middle, TrySteps(job, world, start, n));
    TookThen(store, h, start, middle, ClaimSteps(job, start, n), TrySteps(job, world, start, n));
    resolved := records.Keys == job.Variants() && forall v :: v in records ==> records[v].outcome.status.Measurable();
  }

  lemma ClaimEffect(job: Job, s: Store, n: nat)
    ensures ApplyAll(s, ClaimSteps(job, s, n)).At(job.Key()) == s.At(job.Key())
    ensures ClaimSteps(job, s, n) != [] ==>
      ApplyAll(s, ClaimSteps(job, s, n)) == Apply(s, WriteClaim(Claim(job.digest, job.Key(), n)))
  {
    if ClaimSteps(job, s, n) != [] {
      ApplySnoc(s, [], WriteClaim(Claim(job.digest, job.Key(), n)));
      assert [] + [WriteClaim(Claim(job.digest, job.Key(), n))] == ClaimSteps(job, s, n);
    }
  }

  lemma LoopGoesOn(job: Job, world: World, s: Store, n: nat, later: Store)
    requires JobOk(job) && 1 <= n <= job.maxAttempts && (n == 1 || MayClaim(job, s, n))
    requires later == ApplyAll(s, ClaimSteps(job, s, n) + TrySteps(job, world, s, n))
    ensures forall t :: t in job.trials ==> t.key.variant in job.Variants()
    ensures LoopSteps(job, world, s, n)
      == ClaimSteps(job, s, n) + TrySteps(job, world, s, n)
         + (if Resolves(job, later.At(job.Key()).attempts, n) then FinishSteps(job, later.At(job.Key()).attempts, n, true)
            else LoopSteps(job, world, later, n + 1))
  {
    TrialsAreVariants(job);
  }

  lemma LoopEnds(job: Job, world: World, s: Store, n: nat)
    requires JobOk(job) && 1 <= n <= job.maxAttempts + 1 && (n > job.maxAttempts || (n > 1 && !MayClaim(job, s, n)))
    ensures forall t :: t in job.trials ==> t.key.variant in job.Variants()
    ensures LoopSteps(job, world, s, n) == FinishSteps(job, s.At(job.Key()).attempts, n - 1, false)
  {
    TrialsAreVariants(job);
  }

  /** What is left to do once the loop has been left or is at attempt `n`. */
  ghost function Rest(job: Job, world: World, s: Store, n: nat, left: bool, selected: nat, resolved: bool): seq<Step>
    requires JobOk(job) && 1 <= n <= job.maxAttempts + 1
  {
    TrialsAreVariants(job);
    if left then FinishSteps(job, s.At(job.Key()).attempts, selected, resolved) else LoopSteps(job, world, s, n)
  }

  /** The loop has taken the steps `done` of a run from `start`, and the rest is still due. */
  ghost predicate OnTrack(job: Job, world: World, start: Store, s: Store, done: seq<Step>, n: nat, left: bool,
                          selected: nat, resolved: bool)
    requires JobOk(job)
  {
    && 1 <= n <= job.maxAttempts + 1 && s == ApplyAll(start, done)
    && (!left ==> !resolved && (n > 1 ==> selected == n - 1))
    && LoopSteps(job, world, start, 1) == done + Rest(job, world, s, n, left, selected, resolved)
  }

  lemma TurnTaken(job: Job, world: World, start: Store, s: Store, done: seq<Step>, n: nat, selected: nat,
                  later: Store, taken: seq<Step>)
    requires JobOk(job) && OnTrack(job, world, start, s, done, n, false, selected, false)
    requires n <= job.maxAttempts && (n == 1 || MayClaim(job, s, n))
    requires taken == ClaimSteps(job, s, n) + TrySteps(job, world, s, n) && later == ApplyAll(s, taken)
    ensures var resolves := Resolves(job, later.At(job.Key()).attempts, n);
      OnTrack(job, world, start, later, done + taken, n + 1, resolves, n, resolves)
  {
    var resolves := Resolves(job, later.At(job.Key()).attempts, n);
    LoopGoesOn(job, world, s, n, later);
    ApplyAllAppend(start, done, taken);
    RestMoves(done, taken, Rest(job, world, s, n, false, selected, false), Rest(job, world, later, n + 1, resolves, n, resolves));
  }

  lemma TurnRefused(job: Job, world: World, start: Store, s: Store, done: seq<Step>, n: nat, selected: nat)
    requires JobOk(job) && OnTrack(job, world, start, s, done, n, false, selected, false)
    requires n > job.maxAttempts || (n > 1 && !MayClaim(job, s, n))
    ensures OnTrack(job, world, start, s, done, n, true, selected, false)
  {
    assert n > 1 && selected == n - 1;
    RestRefused(job, world, s, n, selected);
  }

  lemma RestRefused(job: Job, world: World, s: Store, n: nat, selected: nat)
    requires JobOk(job) && 1 < n <= job.maxAttempts + 1 && (n > job.maxAttempts || !MayClaim(job, s, n)) && selected == n - 1
    ensures Rest(job, world, s, n, true, selected, false) == Rest(job, world, s, n, false, selected, false)
  {
    LoopEnds(job, world, s, n);
  }

  lemma RestMoves(done: seq<Step>, taken: seq<Step>, before: seq<Step>, after: seq<Step>)
    requires before == taken + after
    ensures done + before == done + taken + after
  {
  }

  /** The attempts of a block, until one resolves it, none is left, or the quota is used up. */
  method RunComparisonBlock(store: ArtifactStore, job: Job, world: World)
    requires Serves(store, job) && JobOk(job)
    modifies store
    ensures Serves(store, job) && Took(store, old(store.history), old(store.State()), LoopSteps(job, world, old(store.State()), 1))
  {
    ghost var start, h, done := store.State(), store.history, [];
    var selected, resolved, left, n := 1, false, false, 1;
    var records: map<string, AttemptRecord> := map[];
    while n <= job.maxAttempts && !left
      invariant Serves(store, job) && Took(store, h, start, done)
      invariant OnTrack(job, world, start, store.State(), done, n, left, selected, resolved)
      invariant left || n > 1 ==> records == Present(job, store.State().At(job.Key()).attempts, selected)
      decreases job.maxAttempts + 1 - n, !left
    {
      ghost var s := store.State();
      var claimed, present, resolves := TakeAttempt(store, job, world, n);
      if !claimed {
        TurnRefused(job, world, start, s, done, n, selected);
        left := true;
      } else {
        ghost var taken := ClaimSteps(job, s, n) + TrySteps(job, world, s, n);
        TookThen(store, h, start, s, done, taken);
        TurnTaken(job, world, start, s, done, n, selected, store.State(), taken);
        done := done + taken;
        selected, records, resolved, left := n, present, resolves, resolves;
        n := n + 1;
      }
    }
    if !left {
      TurnRefused(job, world, start, store.State(), done, n, selected);
    }
    FinishRun(store, job, world, start, h, done, n, selected, resolved, records);
  }

  method FinishRun(store: ArtifactStore, job: Job, world: World, ghost start: Store, ghost h: seq<Step>,
                   ghost done: seq<Step>,
                   ghost n: nat, selected: nat, resolved: bool, records: map<string, AttemptRecord>)
    requires Serves(store, job) && JobOk(job) && Took(store, h, start, done)
    requires OnTrack(job, world, start, store.State(), done, n, true, selected, resolved)
    requires records == Present(job, store.State().At(job.Key()).attempts, selected)
    modifies store
    ensures Serves(store, job) && Took(store, h, start, LoopSteps(job, world, start, 1))
  {
    ghost var middle := store.State();
    FinishBlock(store, job, selected, resolved, records);
    TookThen(store, h, start, middle, done, FinishSteps(job, middle.At(job.Key()).attempts, selected, resolved));
  }
}

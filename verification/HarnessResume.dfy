/** What a run does with a block it finds after a restart: skip it, rebuild its summaries, or
    run it on. */
module HarnessResume {
  import opened Plan
  import opened Artifacts
  import opened Harness
  import opened HarnessRun

  method ClaimsAreCurrent(store: ArtifactStore, job: Job, selected: nat) returns (ok: bool)
    ensures ok <==> forall n :: 2 <= n <= selected ==> ClaimIsCurrent(job, store.State(), n)
  {
    var s := store.State();
    for n := 2 to if selected < 1 then 2 else selected + 1
      invariant forall m :: 2 <= m < n ==> ClaimIsCurrent(job, s, m)
    {
      if !ClaimIsCurrent(job, s, n) {
        return false;
      }
    }
    return true;
  }

  method ResultCheck(store: ArtifactStore, job: Job) returns (ok: bool)
    requires Serves(store, job)
    ensures ok <==> ResultIsCurrent(job, store.State(), store.State().At(job.Key()))
  {
    var shelf := store.State().At(job.Key());
    if shelf.result.None? || shelf.result.value.digest != job.digest {
      return false;
    }
    var r := shelf.result.value;
    if r.key != job.Key() || r.selected < 1 || r.resolved == r.exhausted {
      return false;
    }
    var claims := ClaimsAreCurrent(store, job, r.selected);
    if !claims || job.trials == [] {
      return false;
    }
    var refs := CollectRefs(job, shelf.attempts, TrialIds(job.trials), r.selected);
    return |refs| == r.selected * |job.trials| && r.refs == refs;
  }

  method TrialCheck(job: Job, shelf: Shelf, t: PlannedTrial, selected: nat) returns (ok: bool)
    ensures ok <==> TrialIsCurrent(job, shelf, t, selected)
  {
    if t.key.variant !in shelf.trials {
      return false;
    }
    var r := shelf.trials[t.key.variant];
    if r.digest != job.digest || r.key != t.key || r.memberships != t.memberships || r.selected != selected {
      return false;
    }
    var refs := CollectRefs(job, shelf.attempts, [t.key.variant], selected);
    if |refs| != selected || r.refs != refs {
      return false;
    }
    var record := ReadAttempt(job, shelf.attempts, t.key.variant, selected);
    return record.Some? && r.outcome == record.value.outcome;
  }

  method TrialsCheck(job: Job, shelf: Shelf, selected: nat, resolved: bool) returns (ok: bool)
    ensures ok <==> (forall t :: t in job.trials ==> TrialIsCurrent(job, shelf, t, selected)) && OutcomesAgree(job, shelf, selected, resolved)
  {
    var measurable := true;
    for i := 0 to |job.trials|
      invariant forall t :: t in job.trials[..i] ==> TrialIsCurrent(job, shelf, t, selected)
      invariant measurable <==> forall t :: t in job.trials[..i] ==>
        ReadAttempt(job, shelf.attempts, t.key.variant, selected).value.outcome.status.Measurable()
    {
      var t := job.trials[i];
      assert t in job.trials && job.trials[..i + 1] == job.trials[..i] + [t];
      var current := TrialCheck(job, shelf, t, selected);
      if !current {
        return false;
      }
      measurable := measurable && ReadAttempt(job, shelf.attempts, t.key.variant, selected).value.outcome.status.Measurable();
    }
    assert job.trials[..|job.trials|] == job.trials;
    return resolved == measurable;
  }

  method PairsCheck(job: Job, shelf: Shelf, selected: nat, resolved: bool) returns (ok: bool)
    ensures ok <==> forall p :: p in job.pairs ==> PairIsCurrent(job, shelf, p, selected, resolved)
  {
    for i := 0 to |job.pairs|
      invariant forall p :: p in job.pairs[..i] ==> PairIsCurrent(job, shelf, p, selected, resolved)
    {
      assert job.pairs[i] in job.pairs && job.pairs[..i + 1] == job.pairs[..i] + [job.pairs[i]];
      if !PairIsCurrent(job, shelf, job.pairs[i], selected, resolved) {
        return false;
      }
    }
    assert job.pairs[..|job.pairs|] == job.pairs;
    return true;
  }

  method IsResumable(store: ArtifactStore, job: Job) returns (ok: bool)
    requires Serves(store, job)
    ensures ok <==> Resumable(job, store.State())
  {
    ok := ResultCheck(store, job);
    if !ok {
      return;
    }
    var shelf := store.State().At(job.Key());
    var r := shelf.result.value;
    ok := TrialsCheck(job, shelf, r.selected, r.resolved);
    if !ok {
      return;
    }
    ok := PairsCheck(job, shelf, r.selected, r.resolved);
  }

  method CollectCandidates(job: Job, shelf: Shelf) returns (c: set<nat>)
    ensures c == Candidates(job, shelf)
  {
    c := {};
    if shelf.result.Some? && shelf.result.value.digest == job.digest && shelf.result.value.key == job.Key() {
      c := {shelf.result.value.selected};
    }
    ghost var first := c;
    for i := 0 to |job.trials|
      invariant c == first + set t <- job.trials[..i] | t.key.variant in shelf.trials && shelf.trials[t.key.variant].digest == job.digest
                                                       && shelf.trials[t.key.variant].key == t.key :: shelf.trials[t.key.variant].selected
    {
      var t := job.trials[i];
      assert job.trials[..i + 1] == job.trials[..i] + [t];
      if t.key.variant in shelf.trials && shelf.trials[t.key.variant].digest == job.digest && shelf.trials[t.key.variant].key == t.key {
        c := c + {shelf.trials[t.key.variant].selected};
      }
    }
    assert job.trials[..|job.trials|] == job.trials;
  }

  /** Rewrites the summaries from the attempt they select, if that is still decided by it. */
  method RebuildComparisonBlock(store: ArtifactStore, job: Job) returns (ok: bool)
    requires Serves(store, job) && JobOk(job)
    modifies store
    ensures Serves(store, job) && Took(store, old(store.history), old(store.State()), RebuildSteps(job, old(store.State())))
    ensures ok <==> RebuildSteps(job, old(store.State())) != [] && Resumable(job, store.State())
  {
    ghost var s := store.State();
    var shelf := store.State().At(job.Key());
    var candidates := CollectCandidates(job, shelf);
    var only := TheOnly(candidates);
    if only.None? {
      return false;
    }
    var selected := only.value;
    var records := ReadPresent(store, job, selected);
    if !Rebuildable(job, shelf, selected) {
      return false;
    }
    FinishBlock(store, job, selected, AllMeasurable(records), records);
    ok := IsResumable(store, job);
  }

  method RunBlock(store: ArtifactStore, job: Job, world: World)
    requires Serves(store, job) && JobOk(job)
    modifies store
    ensures Serves(store, job) && Took(store, old(store.history), old(store.State()), RunSteps(job, world, old(store.State())))
  {
    ghost var s, h := store.State(), store.history;
    var resumable := IsResumable(store, job);
    if resumable {
      return;
    }
    var rebuilt := RebuildComparisonBlock(store, job);
    if rebuilt {
      return;
    }
    ghost var later := store.State();
    RunComparisonBlock(store, job, world);
    TookThen(store, h, s, later, RebuildSteps(job, s), LoopSteps(job, world, later, 1));
  }
}

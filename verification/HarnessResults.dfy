/** What a finished block amounts to: the harness's resume check and the reducer agree on it,
    and a resolved block has only valid pairs. */
module HarnessResults {
  import opened Outcome
  import opened Sequences
  import opened Records
  import opened Plan
  import opened PlanShape
  import opened Artifacts
  import opened Harness
  import opened HarnessSafety
  import opened HarnessCrash
  import opened HarnessRuns
  import Reducer

  // ---------------------------------------------------------------- references

  lemma {:induction false} RefsAtCounts(job: Job, a: Attempts, variants: seq<string>, n: nat)
    ensures |RefsAt(job, a, variants, n)| <= |variants|
    ensures |RefsAt(job, a, variants, n)| == |variants| <==> forall v :: v in variants ==> Reducer.HasAttempt(job, a, v, n)
    ensures |RefsAt(job, a, variants, n)| == |variants| ==> RefsAt(job, a, variants, n) == Reducer.ExpectedAt(job, variants, n)
    decreases |variants|
  {
    if variants != [] {
      RefsAtCounts(job, a, Init(variants), n);
      assert forall v :: v in variants <==> v in Init(variants) || v == Last(variants);
      assert (forall v :: v in variants ==> Reducer.HasAttempt(job, a, v, n)) <==>
        (forall v :: v in Init(variants) ==> Reducer.HasAttempt(job, a, v, n)) && Reducer.HasAttempt(job, a, Last(variants), n);
    }
  }

  /** The harness lists the references it finds; there is one for every variant and attempt
      exactly when all of them are recorded, and then they are those the reducer expects. */
  lemma {:induction false} RefsCount(job: Job, a: Attempts, variants: seq<string>, selected: nat)
    ensures |Refs(job, a, variants, selected)| <= selected * |variants|
    ensures |Refs(job, a, variants, selected)| == selected * |variants| <==> Reducer.AllRecorded(job, a, variants, selected)
    ensures Reducer.AllRecorded(job, a, variants, selected) ==>
      Refs(job, a, variants, selected) == Reducer.ExpectedRefs(job, variants, selected)
    decreases selected
  {
    if selected > 0 {
      RefsCount(job, a, variants, selected - 1);
      RefsAtCounts(job, a, variants, selected);
      OneMoreRow(selected, |variants|);
      assert Reducer.AllRecorded(job, a, variants, selected) <==>
        Reducer.AllRecorded(job, a, variants, selected - 1) && forall v :: v in variants ==> Reducer.HasAttempt(job, a, v, selected);
    }
  }

  lemma OneMoreRow(n: nat, k: nat)
    requires n > 0
    ensures (n - 1) * k + k == n * k
  {
  }

  lemma IdsAgree(job: Job)
    requires JobOk(job)
    ensures TrialIds(job.trials) == Ids(job.variants) && job.trials != []
    ensures forall v :: v in TrialIds(job.trials) <==> v in job.Variants()
  {
    assert |KeysOf(job.trials)| == |job.trials| && |TrialKeys(job.Key(), job.variants)| == |job.variants|;
    forall i | 0 <= i < |job.trials|
      ensures job.trials[i].key.variant == job.variants[i].id
    {
      assert KeysOf(job.trials)[i] == TrialKeys(job.Key(), job.variants)[i];
    }
    forall v | v in job.Variants()
      ensures v in TrialIds(job.trials)
    {
      var x :| x in job.variants && x.id == v;
      var i :| 0 <= i < |job.variants| && job.variants[i] == x;
      assert TrialIds(job.trials)[i] == v;
    }
    forall v | v in TrialIds(job.trials)
      ensures v in job.Variants()
    {
      var i :| 0 <= i < |job.trials| && TrialIds(job.trials)[i] == v;
      assert job.variants[i] in job.variants;
    }
  }

  // ---------------------------------------------------------------- finished blocks

  /** Every file a run writes at its end is there. */
  predicate Done(job: Job, shelf: Shelf) {
    && shelf.result.Some?
    && (forall t :: t in job.trials ==> t.key.variant in shelf.trials)
    && (forall p :: p in job.pairs ==> p.axis in shelf.pairs)
  }

  /** Every attempt up to the selected one was recorded for every variant. */
  predicate Complete(job: Job, a: Attempts, selected: nat) {
    Reducer.AllRecorded(job, a, TrialIds(job.trials), selected)
  }

  /** No two pairs of the block share the file that their axis names. */
  predicate AxesDistinct(job: Job) {
    forall p, q :: p in job.pairs && q in job.pairs && p.axis == q.axis ==> p == q
  }

  lemma TrialOnFile(job: Job, shelf: Shelf, n: nat, usedUp: bool, t: PlannedTrial)
    requires JobOk(job) && SummariesInv(job, shelf, n, usedUp) && t in job.trials && t.key.variant in shelf.trials
    ensures t.key.variant in job.Variants() && shelf.trials[t.key.variant] == TrialSummary(job, shelf.attempts, t, n)
  {
    var r := shelf.trials[t.key.variant];
    var u :| u in job.trials && u.key.variant in job.Variants() && r == TrialSummary(job, shelf.attempts, u, n);
    SameVariantSameTrial(job, t, u);
  }

  lemma SameVariantSameTrial(job: Job, t: PlannedTrial, u: PlannedTrial)
    requires NamesEachVariantOnce(KeysOf(job.trials), job.Key(), job.Variants())
    requires t in job.trials && u in job.trials && t.key.variant == u.key.variant
    ensures t == u
  {
    var keys := KeysOf(job.trials);
    var i :| 0 <= i < |job.trials| && job.trials[i] == t;
    var j :| 0 <= j < |job.trials| && job.trials[j] == u;
    assert keys[i].variant == keys[j].variant;
  }

  lemma RecordedOne(job: Job, a: Attempts, v: string, n: nat)
    requires v in TrialIds(job.trials) && Complete(job, a, n)
    ensures Reducer.AllRecorded(job, a, [v], n)
  {
  }

  lemma CurrentTrials(job: Job, shelf: Shelf, n: nat, usedUp: bool)
    requires JobOk(job) && SummariesInv(job, shelf, n, usedUp) && Done(job, shelf) && 1 <= n && ProperAttempts(shelf.attempts, job.digest)
    ensures Complete(job, shelf.attempts, n) ==> forall t :: t in job.trials ==> TrialIsCurrent(job, shelf, t, n)
    ensures Complete(job, shelf.attempts, n) && shelf.result.value.selected == n && Reducer.BlockAccepted(job, shelf) ==>
      forall t :: t in job.trials ==> Reducer.TrialAccepted(job, shelf, t)
  {
    if Complete(job, shelf.attempts, n) {
      forall t | t in job.trials
        ensures TrialIsCurrent(job, shelf, t, n)
        ensures shelf.result.value.selected == n && Reducer.BlockAccepted(job, shelf) ==> Reducer.TrialAccepted(job, shelf, t)
      {
        TrialOnFile(job, shelf, n, usedUp, t);
        var i :| 0 <= i < |job.trials| && job.trials[i] == t;
        assert TrialIds(job.trials)[i] == t.key.variant;
        RecordedOne(job, shelf.attempts, t.key.variant, n);
        RefsCount(job, shelf.attempts, [t.key.variant], n);
        assert t.key.variant in [t.key.variant];
        assert Reducer.HasAttempt(job, shelf.attempts, t.key.variant, n);
      }
    }
  }

  lemma MeasuredAtSelected(job: Job, a: Attempts, n: nat)
    requires JobOk(job) && Complete(job, a, n) && 1 <= n
    ensures Present(job, a, n).Keys == job.Variants()
    ensures Resolves(job, a, n) <==>
      forall v :: v in TrialIds(job.trials) && Reducer.HasAttempt(job, a, v, n) ==> Reducer.AttemptAt(job, a, v, n).outcome.status.Measurable()
  {
    IdsAgree(job);
    forall v | v in job.Variants()
      ensures ReadAttempt(job, a, v, n).Some?
    {
      assert Reducer.HasAttempt(job, a, v, n);
    }
    var records := Present(job, a, n);
    assert forall v :: v in job.Variants() ==> Reducer.HasAttempt(job, a, v, n) && records[v] == Reducer.AttemptAt(job, a, v, n);
  }

  lemma SelectedOutcomesAgree(job: Job, shelf: Shelf, n: nat)
    requires JobOk(job) && Complete(job, shelf.attempts, n) && 1 <= n
    ensures OutcomesAgree(job, shelf, n, Resolves(job, shelf.attempts, n))
  {
    MeasuredAtSelected(job, shelf.attempts, n);
    IdsAgree(job);
    var a := shelf.attempts;
    forall t | t in job.trials
      ensures t.key.variant in TrialIds(job.trials)
    {
      var i :| 0 <= i < |job.trials| && job.trials[i] == t;
      assert TrialIds(job.trials)[i] == t.key.variant;
    }
    forall v | v in TrialIds(job.trials)
      ensures exists t :: t in job.trials && t.key.variant == v
    {
      var i :| 0 <= i < |job.trials| && TrialIds(job.trials)[i] == v;
      assert job.trials[i] in job.trials;
    }
  }

  // ---------------------------------------------------------------- pairs

  lemma PairOnFile(job: Job, shelf: Shelf, n: nat, usedUp: bool, p: PairKey)
    requires SummariesInv(job, shelf, n, usedUp) && p.axis in shelf.pairs
    ensures var q := shelf.pairs[p.axis].key;
      && q in job.pairs && q.axis == p.axis
      && shelf.pairs[p.axis] == PairSummary(job, shelf.attempts, q, n, Resolves(job, shelf.attempts, n))
  {
  }

  /** With all attempts recorded, a pair's file is right exactly when it is the pair's own. */
  lemma PairFileIsOwn(job: Job, shelf: Shelf, n: nat, usedUp: bool, p: PairKey)
    requires JobOk(job) && SummariesInv(job, shelf, n, usedUp) && p in job.pairs && p.axis in shelf.pairs
    requires Present(job, shelf.attempts, n).Keys == job.Variants()
    ensures PairIsCurrent(job, shelf, p, n, Resolves(job, shelf.attempts, n)) <==> shelf.pairs[p.axis].key == p
  {
    PairOnFile(job, shelf, n, usedUp, p);
  }

  lemma AcceptedOutcome(job: Job, shelf: Shelf, n: nat, usedUp: bool, v: string)
    requires JobOk(job) && SummariesInv(job, shelf, n, usedUp) && Complete(job, shelf.attempts, n) && 1 <= n
    requires forall t :: t in job.trials ==> Reducer.TrialAccepted(job, shelf, t)
    requires Present(job, shelf.attempts, n).Keys == job.Variants() && v in job.Variants()
    ensures v in Reducer.AcceptedTrials(job, shelf)
    ensures Reducer.AcceptedTrials(job, shelf)[v].outcome == Present(job, shelf.attempts, n)[v].outcome
  {
    IdsAgree(job);
    var i :| 0 <= i < |job.trials| && TrialIds(job.trials)[i] == v;
    var t := job.trials[i];
    AcceptedEntry(job, shelf, t);
    TrialOnFile(job, shelf, n, usedUp, t);
  }

  lemma AcceptedEntry(job: Job, shelf: Shelf, t: PlannedTrial)
    requires t in job.trials && Reducer.TrialAccepted(job, shelf, t)
    ensures t.key.variant in Reducer.AcceptedTrials(job, shelf)
    ensures Reducer.AcceptedTrials(job, shelf)[t.key.variant] == shelf.trials[t.key.variant]
  {
  }

  lemma PairOutcome(job: Job, shelf: Shelf, n: nat, usedUp: bool, p: PairKey)
    requires JobOk(job) && SummariesInv(job, shelf, n, usedUp) && p in job.pairs && p.axis in shelf.pairs
    requires Complete(job, shelf.attempts, n) && 1 <= n && Present(job, shelf.attempts, n).Keys == job.Variants()
    requires Reducer.BlockAccepted(job, shelf) && shelf.result.value.selected == n
    requires shelf.result.value.resolved == Resolves(job, shelf.attempts, n)
    requires forall t :: t in job.trials ==> Reducer.TrialAccepted(job, shelf, t)
    ensures Reducer.PairAccepted(job, shelf, p) <==> shelf.pairs[p.axis].key == p
  {
    PairOnFile(job, shelf, n, usedUp, p);
    AcceptedOutcome(job, shelf, n, usedUp, p.control);
    AcceptedOutcome(job, shelf, n, usedUp, p.treatment);
    PairVerdicts(job, shelf, n, p);
  }

  lemma PairVerdicts(job: Job, shelf: Shelf, n: nat, p: PairKey)
    requires p.axis in shelf.pairs && shelf.result.Some? && Reducer.BlockAccepted(job, shelf) && shelf.result.value.selected == n
    requires var q := shelf.pairs[p.axis].key;
      shelf.pairs[p.axis] == PairSummary(job, shelf.attempts, q, n, shelf.result.value.resolved)
    requires var records, accepted := Present(job, shelf.attempts, n), Reducer.AcceptedTrials(job, shelf);
      && p.control in records && p.treatment in records && p.control in accepted && p.treatment in accepted
      && accepted[p.control].outcome == records[p.control].outcome && accepted[p.treatment].outcome == records[p.treatment].outcome
    ensures Reducer.PairAccepted(job, shelf, p) <==> shelf.pairs[p.axis].key == p
  {
  }

  /** Every pair finds its own file exactly when no two pairs share an axis. */
  lemma OwnFilesMeanDistinctAxes(job: Job, shelf: Shelf, n: nat, usedUp: bool)
    requires SummariesInv(job, shelf, n, usedUp) && Done(job, shelf)
    ensures (forall p :: p in job.pairs ==> shelf.pairs[p.axis].key == p) <==> AxesDistinct(job)
  {
    forall p | p in job.pairs
      ensures AxesDistinct(job) ==> shelf.pairs[p.axis].key == p
    {
      PairOnFile(job, shelf, n, usedUp, p);
    }
  }

  // ---------------------------------------------------------------- the two checks agree

  /** A finished block of a store in order: its result, its reached attempt, and what they imply. */
  ghost predicate FinishedBlock(job: Job, s: Store, shelf: Shelf, n: nat) {
    && JobOk(job) && shelf == s.At(job.Key()) && Done(job, shelf) && 1 <= n <= job.maxAttempts
    && ProperAttempts(shelf.attempts, job.digest) && SummariesInv(job, shelf, n, QuotaUsedUp(s.claims, job.maxRetries))
    && (forall m :: 2 <= m <= n ==> ClaimIsCurrent(job, s, m))
  }

  lemma FinishedBlockHolds(jobs: set<Job>, digest: string, maxRetries: Option<nat>, s: Store, job: Job)
    requires InOrder(jobs, digest, maxRetries, s) && job in jobs && JobOk(job) && Done(job, s.At(job.Key()))
    ensures FinishedBlock(job, s, s.At(job.Key()), s.At(job.Key()).result.value.selected)
  {
    SelectedIsFirstResolving(jobs, digest, maxRetries, s, job);
    OwnAttemptsAreProper(job, s);
  }

  /** The references on file are one for every variant and attempt exactly when all are recorded. */
  lemma ResultRefs(job: Job, shelf: Shelf, n: nat, usedUp: bool)
    requires JobOk(job) && SummariesInv(job, shelf, n, usedUp) && shelf.result.Some?
    ensures shelf.result.value.refs == Refs(job, shelf.attempts, TrialIds(job.trials), n) && shelf.result.value.selected == n
    ensures |Refs(job, shelf.attempts, TrialIds(job.trials), n)| == n * |job.trials| <==> Complete(job, shelf.attempts, n)
    ensures Complete(job, shelf.attempts, n) ==> shelf.result.value.refs == Reducer.ExpectedRefs(job, TrialIds(job.trials), n)
  {
    IdsAgree(job);
    RefsCount(job, shelf.attempts, TrialIds(job.trials), n);
  }

  lemma ResultCurrent(job: Job, s: Store, shelf: Shelf, n: nat)
    requires FinishedBlock(job, s, shelf, n)
    ensures ResultIsCurrent(job, s, shelf) <==> Complete(job, shelf.attempts, n)
  {
    IdsAgree(job);
    ResultRefs(job, shelf, n, QuotaUsedUp(s.claims, job.maxRetries));
  }

  lemma ResultAccepted(job: Job, s: Store, shelf: Shelf, n: nat)
    requires FinishedBlock(job, s, shelf, n)
    ensures Reducer.BlockAccepted(job, shelf) <==> Complete(job, shelf.attempts, n)
  {
    IdsAgree(job);
    ResultRefs(job, shelf, n, QuotaUsedUp(s.claims, job.maxRetries));
    if Complete(job, shelf.attempts, n) {
      MeasuredAtSelected(job, shelf.attempts, n);
    }
  }

  lemma PairsAgree(job: Job, s: Store, shelf: Shelf, n: nat)
    requires FinishedBlock(job, s, shelf, n) && Complete(job, shelf.attempts, n)
    ensures (forall p :: p in job.pairs ==> PairIsCurrent(job, shelf, p, n, shelf.result.value.resolved)) <==> AxesDistinct(job)
    ensures Reducer.BlockAccepted(job, shelf) && (forall t :: t in job.trials ==> Reducer.TrialAccepted(job, shelf, t)) ==>
      ((forall p :: p in job.pairs ==> Reducer.PairAccepted(job, shelf, p)) <==> AxesDistinct(job))
  {
    var usedUp := QuotaUsedUp(s.claims, job.maxRetries);
    MeasuredAtSelected(job, shelf.attempts, n);
    OwnFilesMeanDistinctAxes(job, shelf, n, usedUp);
    forall p | p in job.pairs
      ensures PairIsCurrent(job, shelf, p, n, shelf.result.value.resolved) <==> shelf.pairs[p.axis].key == p
      ensures Reducer.BlockAccepted(job, shelf) && (forall t :: t in job.trials ==> Reducer.TrialAccepted(job, shelf, t)) ==>
        (Reducer.PairAccepted(job, shelf, p) <==> shelf.pairs[p.axis].key == p)
    {
      PairFileIsOwn(job, shelf, n, usedUp, p);
      if Reducer.BlockAccepted(job, shelf) && (forall t :: t in job.trials ==> Reducer.TrialAccepted(job, shelf, t)) {
        PairOutcome(job, shelf, n, usedUp, p);
      }
    }
  }

  lemma CompleteMeansCurrent(job: Job, s: Store, shelf: Shelf, n: nat)
    requires FinishedBlock(job, s, shelf, n) && Complete(job, shelf.attempts, n)
    ensures Resumable(job, s) <==> AxesDistinct(job)
    ensures Reducer.Accepts(job, shelf) <==> AxesDistinct(job)
  {
    ResultCurrent(job, s, shelf, n);
    ResultAccepted(job, s, shelf, n);
    CurrentTrials(job, shelf, n, QuotaUsedUp(s.claims, job.maxRetries));
    SelectedOutcomesAgree(job, shelf, n);
    PairsAgree(job, s, shelf, n);
  }

  /** The resume check and the reducer agree on every finished block: both accept it exactly when
      every attempt up to the selected one was recorded in full and no two pairs share an axis. */
  lemma HarnessAndReducerAgree(jobs: set<Job>, digest: string, maxRetries: Option<nat>, s: Store, job: Job)
    requires InOrder(jobs, digest, maxRetries, s) && job in jobs && JobOk(job) && Done(job, s.At(job.Key()))
    ensures var shelf := s.At(job.Key());
      var good := Complete(job, shelf.attempts, shelf.result.value.selected) && AxesDistinct(job);
      (Resumable(job, s) <==> good) && (Reducer.Accepts(job, shelf) <==> good)
  {
    var shelf := s.At(job.Key());
    var n := shelf.result.value.selected;
    FinishedBlockHolds(jobs, digest, maxRetries, s, job);
    ResultCurrent(job, s, shelf, n);
    ResultAccepted(job, s, shelf, n);
    if Complete(job, shelf.attempts, n) {
      CompleteMeansCurrent(job, s, shelf, n);
    }
  }

  /** The reducer has no finding on the claims of finished blocks. */
  lemma NoClaimFindings(jobs: set<Job>, digest: string, maxRetries: Option<nat>, s: Store, f: Reducer.ClaimFinding)
    requires InOrder(jobs, digest, maxRetries, s) && forall job :: job in jobs ==> s.At(job.Key()).result.Some?
    ensures !Reducer.IsFinding(jobs, digest, maxRetries, s, f)
  {
    ClaimsAreExact(jobs, digest, maxRetries, s);
    forall job, path: ClaimPath | job in jobs && job.Key() == path.key
      ensures Reducer.ExpectedOf(job, s, path) <==> 2 <= path.attempt <= s.At(job.Key()).result.value.selected
    {
      SelectedIsFirstResolving(jobs, digest, maxRetries, s, job);
      InOrderIsReady(jobs, digest, maxRetries, s, job);
    }
  }

  // ---------------------------------------------------------------- resolved blocks

  /** A resolved block has only valid pairs: every arm ran under its declared settings, and they
      differ on the treatment axis and on nothing else. */
  lemma ResolvedPairsAreValid(jobs: set<Job>, digest: string, maxRetries: Option<nat>, s: Store, job: Job, p: PairKey)
    requires InOrder(jobs, digest, maxRetries, s) && job in jobs && JobOk(job) && p in job.pairs
    requires s.At(job.Key()).result.Some? && s.At(job.Key()).result.value.resolved
    ensures var shelf := s.At(job.Key());
      var records := Present(job, shelf.attempts, shelf.result.value.selected);
      && (forall v :: v in job.Variants() ==> v in records && records[v].outcome.observed == job.SettingsOf(v))
      && PairValid(records, p, true)
      && (p.axis in shelf.pairs ==> shelf.pairs[p.axis].valid && shelf.pairs[p.axis].key.axis == p.axis)
  {
    SelectedIsFirstResolving(jobs, digest, maxRetries, s, job);
    var shelf := s.At(job.Key());
    var n := shelf.result.value.selected;
    ResolvedPair(job, shelf.attempts, n, p);
    if p.axis in shelf.pairs {
      PairOnFile(job, shelf, n, QuotaUsedUp(s.claims, job.maxRetries), p);
      ResolvedPair(job, shelf.attempts, n, shelf.pairs[p.axis].key);
    }
  }

  lemma DifferenceOnAxis(a: Settings, b: Settings, axis: string)
    requires VariantDiff(a, b).Keys == {axis}
    ensures VariantDiff(a, b) == map[axis := Difference(Setting(a, axis), Setting(b, axis))]
  {
    assert axis in VariantDiff(a, b);
  }

  /** And the difference on its own file is the control's and the treatment's setting on the axis. */
  lemma ResolvedDifference(jobs: set<Job>, digest: string, maxRetries: Option<nat>, s: Store, job: Job, p: PairKey)
    requires InOrder(jobs, digest, maxRetries, s) && job in jobs && JobOk(job) && p in job.pairs
    requires s.At(job.Key()).result.Some? && s.At(job.Key()).result.value.resolved
    requires p.axis in s.At(job.Key()).pairs && s.At(job.Key()).pairs[p.axis].key == p
    ensures p.control in job.Variants() && p.treatment in job.Variants()
    ensures s.At(job.Key()).pairs[p.axis].diff
      == map[p.axis := Difference(Setting(job.SettingsOf(p.control), p.axis), Setting(job.SettingsOf(p.treatment), p.axis))]
  {
    SelectedIsFirstResolving(jobs, digest, maxRetries, s, job);
    var shelf := s.At(job.Key());
    var n := shelf.result.value.selected;
    ResolvedPair(job, shelf.attempts, n, p);
    PairOnFile(job, shelf, n, QuotaUsedUp(s.claims, job.maxRetries), p);
    DifferenceOnAxis(job.SettingsOf(p.control), job.SettingsOf(p.treatment), p.axis);
  }

  lemma ResolvedPair(job: Job, a: Attempts, n: nat, p: PairKey)
    requires JobOk(job) && AttemptsInv(job, a, n) && Resolves(job, a, n) && p in job.pairs
    ensures var records := Present(job, a, n);
      && (forall v :: v in job.Variants() ==> v in records && records[v].outcome.observed == job.SettingsOf(v))
      && PairValid(records, p, true)
  {
    var records := Present(job, a, n);
    forall v | v in job.Variants()
      ensures v in records && records[v].outcome.observed == job.SettingsOf(v) && records[v].outcome.status.Measurable()
    {
      assert v in records;
      assert Made(job, AttemptKeyOf(job, v, n), records[v]);
    }
  }
}

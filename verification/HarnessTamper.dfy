/** What the reducer must reject: beside the recorded attempts and the claims, no summary file can be
    changed without being noticed. */
module HarnessTamper {
  import opened Outcome
  import opened Sequences
  import opened Records
  import opened Plan
  import opened PlanShape
  import opened Artifacts
  import opened Harness
  import opened HarnessSafety
  import opened HarnessCrash
  import opened HarnessRuns
  import opened HarnessResults
  import Reducer

  /** A finished block whose attempts are complete and whose axes are distinct: the reducer accepts
      it as it is. */
  ghost predicate Sound(job: Job, s: Store, shelf: Shelf, n: nat) {
    && FinishedBlock(job, s, shelf, n) && shelf.result.value.selected == n
    && Complete(job, shelf.attempts, n) && AxesDistinct(job) && Reducer.Accepts(job, shelf)
    && (forall k :: k in shelf.attempts ==> k.attempt <= n)
  }

  lemma FinishedIsSound(jobs: set<Job>, digest: string, maxRetries: Option<nat>, s: Store, job: Job)
    requires InOrder(jobs, digest, maxRetries, s) && job in jobs && JobOk(job) && Done(job, s.At(job.Key()))
    requires Complete(job, s.At(job.Key()).attempts, s.At(job.Key()).result.value.selected) && AxesDistinct(job)
    ensures Sound(job, s, s.At(job.Key()), s.At(job.Key()).result.value.selected)
  {
    FinishedBlockHolds(jobs, digest, maxRetries, s, job);
    HarnessAndReducerAgree(jobs, digest, maxRetries, s, job);
    assert BlockOk(job, s);
  }

  // ---------------------------------------------------------------- block results

  lemma RecordedUpTo(job: Job, s: Store, shelf: Shelf, n: nat, m: nat)
    requires Sound(job, s, shelf, n) && 1 <= m
    ensures Complete(job, shelf.attempts, m) <==> m <= n
  {
    if Complete(job, shelf.attempts, m) {
      IdsAgree(job);
      var v := TrialIds(job.trials)[0];
      assert v in TrialIds(job.trials);
      assert Reducer.HasAttempt(job, shelf.attempts, v, m);
    }
  }

  /** What the reducer compares a result for attempt `m` with. */
  lemma ComparedWith(job: Job, a: Attempts, m: nat)
    requires JobOk(job) && Complete(job, a, m) && 1 <= m
    ensures job.trials != []
    ensures Reducer.ExpectedRefs(job, TrialIds(job.trials), m) == Refs(job, a, Ids(job.variants), m)
    ensures Resolves(job, a, m) <==>
      forall v :: v in TrialIds(job.trials) && Reducer.HasAttempt(job, a, v, m) ==> Reducer.AttemptAt(job, a, v, m).outcome.status.Measurable()
  {
    IdsAgree(job);
    RefsCount(job, a, TrialIds(job.trials), m);
    MeasuredAtSelected(job, a, m);
  }

  lemma MatchingResult(job: Job, a: Attempts, r: BlockResult)
    requires JobOk(job) && Complete(job, a, r.selected) && 1 <= r.selected <= job.maxAttempts
    ensures r.digest == job.digest && Reducer.BlockMatches(job, a, r) <==> r == ResultOf(job, a, r.selected, Resolves(job, a, r.selected))
  {
    ComparedWith(job, a, r.selected);
  }

  /** The reducer accepts exactly the results the harness would write for one of the attempts up to
      the selected one. */
  lemma AcceptedResults(job: Job, s: Store, shelf: Shelf, n: nat, r: BlockResult)
    requires Sound(job, s, shelf, n)
    ensures Reducer.BlockAccepted(job, shelf.(result := Some(r))) <==>
      1 <= r.selected <= n && r == ResultOf(job, shelf.attempts, r.selected, Resolves(job, shelf.attempts, r.selected))
  {
    if 1 <= r.selected {
      RecordedUpTo(job, s, shelf, n, r.selected);
      if r.selected <= n {
        MatchingResult(job, shelf.attempts, r);
      }
    }
  }

  // ---------------------------------------------------------------- trial and pair summaries

  /** With the result in place, the only accepted summary of a trial is the one on file. */
  lemma AcceptedTrial(job: Job, shelf: Shelf, other: Shelf, t: PlannedTrial)
    requires Reducer.TrialAccepted(job, shelf, t)
    requires other.attempts == shelf.attempts && other.result == shelf.result
    ensures Reducer.TrialAccepted(job, other, t) <==>
      t.key.variant in other.trials && other.trials[t.key.variant] == shelf.trials[t.key.variant]
  {
  }

  lemma SameAcceptedTrials(job: Job, shelf: Shelf, other: Shelf)
    requires forall t :: t in job.trials ==> Reducer.TrialAccepted(job, shelf, t) && Reducer.TrialAccepted(job, other, t)
    requires forall t :: t in job.trials ==> t.key.variant in other.trials && t.key.variant in shelf.trials
                                             && other.trials[t.key.variant] == shelf.trials[t.key.variant]
    requires NamesEachVariantOnce(KeysOf(job.trials), job.Key(), job.Variants())
    ensures Reducer.AcceptedTrials(job, other) == Reducer.AcceptedTrials(job, shelf)
  {
    var a, b := Reducer.AcceptedTrials(job, shelf), Reducer.AcceptedTrials(job, other);
    forall v
      ensures v in a <==> v in b
      ensures v in a && v in b ==> a[v] == b[v]
    {
      if t :| t in job.trials && t.key.variant == v {
        AcceptedEntry(job, shelf, t);
        AcceptedEntry(job, other, t);
      }
    }
  }

  /** With the result and the trials in place, the only accepted summary of a pair is the one on
      file. */
  lemma AcceptedPair(job: Job, shelf: Shelf, other: Shelf, p: PairKey)
    requires Reducer.PairAccepted(job, shelf, p)
    requires other.attempts == shelf.attempts && other.result == shelf.result
    requires Reducer.AcceptedTrials(job, other) == Reducer.AcceptedTrials(job, shelf)
    ensures Reducer.PairAccepted(job, other, p) <==> p.axis in other.pairs && other.pairs[p.axis] == shelf.pairs[p.axis]
  {
  }

  // ---------------------------------------------------------------- one file replaced

  /** Replacing a block's result is noticed: alone it must be one for an attempt up to the selected
      one, and with the other summaries it must be the one the harness wrote. */
  lemma ReplacedResult(jobs: set<Job>, digest: string, maxRetries: Option<nat>, s: Store, job: Job, r: BlockResult)
    requires InOrder(jobs, digest, maxRetries, s) && job in jobs && JobOk(job) && Done(job, s.At(job.Key()))
    requires Complete(job, s.At(job.Key()).attempts, s.At(job.Key()).result.value.selected) && AxesDistinct(job)
    ensures var shelf := s.At(job.Key());
      var other := shelf.(result := Some(r));
      && (Reducer.BlockAccepted(job, other) <==>
            1 <= r.selected <= shelf.result.value.selected
            && r == ResultOf(job, shelf.attempts, r.selected, Resolves(job, shelf.attempts, r.selected)))
      && (Reducer.Accepts(job, other) <==> r == shelf.result.value)
  {
    FinishedIsSound(jobs, digest, maxRetries, s, job);
    var shelf := s.At(job.Key());
    var n := shelf.result.value.selected;
    AcceptedResults(job, s, shelf, n, r);
    AcceptedResults(job, s, shelf, n, shelf.result.value);
    assert shelf.(result := Some(shelf.result.value)) == shelf;
    if Reducer.Accepts(job, shelf.(result := Some(r))) {
      IdsAgree(job);
      var t := job.trials[0];
      assert Reducer.TrialAccepted(job, shelf, t) && Reducer.TrialAccepted(job, shelf.(result := Some(r)), t);
      assert r.selected == n;
    }
  }

  /** Replacing a trial's summary is noticed: the reducer accepts exactly the record the harness
      wrote. */
  lemma ReplacedTrial(jobs: set<Job>, digest: string, maxRetries: Option<nat>, s: Store, job: Job, t: PlannedTrial,
                      r: TrialRecord)
    requires InOrder(jobs, digest, maxRetries, s) && job in jobs && JobOk(job) && Done(job, s.At(job.Key()))
    requires Complete(job, s.At(job.Key()).attempts, s.At(job.Key()).result.value.selected) && AxesDistinct(job)
    requires t in job.trials
    ensures var shelf := s.At(job.Key());
      Reducer.TrialAccepted(job, shelf.(trials := shelf.trials[t.key.variant := r]), t) <==> r == shelf.trials[t.key.variant]
  {
    FinishedIsSound(jobs, digest, maxRetries, s, job);
    var shelf := s.At(job.Key());
    AcceptedTrial(job, shelf, shelf.(trials := shelf.trials[t.key.variant := r]), t);
  }

  /** Replacing a pair's summary is noticed in the same way. */
  lemma ReplacedPair(jobs: set<Job>, digest: string, maxRetries: Option<nat>, s: Store, job: Job, p: PairKey, r: PairResult)
    requires InOrder(jobs, digest, maxRetries, s) && job in jobs && JobOk(job) && Done(job, s.At(job.Key()))
    requires Complete(job, s.At(job.Key()).attempts, s.At(job.Key()).result.value.selected) && AxesDistinct(job)
    requires p in job.pairs
    ensures var shelf := s.At(job.Key());
      Reducer.PairAccepted(job, shelf.(pairs := shelf.pairs[p.axis := r]), p) <==> r == shelf.pairs[p.axis]
  {
    FinishedIsSound(jobs, digest, maxRetries, s, job);
    var shelf := s.At(job.Key());
    var other := shelf.(pairs := shelf.pairs[p.axis := r]);
    forall t | t in job.trials
      ensures Reducer.TrialAccepted(job, other, t)
    {
      AcceptedTrial(job, shelf, other, t);
    }
    SameAcceptedTrials(job, shelf, other);
    AcceptedPair(job, shelf, other, p);
  }

  // ---------------------------------------------------------------- any files replaced

  /** The claims of the block are those of the attempts up to the selected one. */
  ghost predicate ClaimsFit(job: Job, s: Store, r: BlockResult) {
    forall n: nat :: ClaimPath(job.Key(), n) in s.claims <==> 2 <= n <= r.selected
  }

  /** The result and the planned summaries are the same. */
  ghost predicate SameFiles(job: Job, shelf: Shelf, other: Shelf) {
    && other.result == shelf.result
    && (forall t :: t in job.trials ==> t.key.variant in other.trials && t.key.variant in shelf.trials
                                        && other.trials[t.key.variant] == shelf.trials[t.key.variant])
    && (forall p :: p in job.pairs ==> p.axis in other.pairs && p.axis in shelf.pairs && other.pairs[p.axis] == shelf.pairs[p.axis])
  }

  lemma SelectedByClaims(job: Job, s: Store, r: BlockResult, own: BlockResult)
    requires ClaimsFit(job, s, r) && ClaimsFit(job, s, own) && 1 <= r.selected <= own.selected
    ensures r.selected == own.selected
  {
    var last := ClaimPath(job.Key(), own.selected);
    assert last in s.claims <==> 2 <= own.selected;
    assert last in s.claims <==> 2 <= own.selected <= r.selected;
  }

  lemma OwnResultOnly(job: Job, s: Store, shelf: Shelf, n: nat, r: BlockResult)
    requires Sound(job, s, shelf, n) && ClaimsFit(job, s, shelf.result.value)
    requires Reducer.BlockAccepted(job, shelf.(result := Some(r))) && ClaimsFit(job, s, r)
    ensures r == shelf.result.value
  {
    AcceptedResults(job, s, shelf, n, r);
    SelectedByClaims(job, s, r, shelf.result.value);
    AcceptedResults(job, s, shelf, n, shelf.result.value);
    assert shelf.(result := Some(shelf.result.value)) == shelf;
  }

  lemma OwnFilesOnly(job: Job, shelf: Shelf, other: Shelf)
    requires JobOk(job) && Reducer.Accepts(job, shelf) && other.attempts == shelf.attempts && other.result == shelf.result
    ensures Reducer.Accepts(job, other) <==> SameFiles(job, shelf, other)
  {
    forall t | t in job.trials
      ensures Reducer.TrialAccepted(job, other, t) <==>
        t.key.variant in other.trials && other.trials[t.key.variant] == shelf.trials[t.key.variant]
    {
      AcceptedTrial(job, shelf, other, t);
    }
    if forall t :: t in job.trials ==> t.key.variant in other.trials && other.trials[t.key.variant] == shelf.trials[t.key.variant] {
      SameAcceptedTrials(job, shelf, other);
      forall p | p in job.pairs
        ensures Reducer.PairAccepted(job, other, p) <==> p.axis in other.pairs && other.pairs[p.axis] == shelf.pairs[p.axis]
      {
        AcceptedPair(job, shelf, other, p);
      }
    }
  }

  /** Whatever is put in place of the summaries of a finished, complete block: beside the same
      attempts and claims, the reducer accepts it if and only if the result and every planned
      summary are the ones the harness wrote. */
  lemma OnlyTheHarnessFilesPass(jobs: set<Job>, digest: string, maxRetries: Option<nat>, s: Store, job: Job, other: Shelf)
    requires InOrder(jobs, digest, maxRetries, s) && job in jobs && JobOk(job) && Done(job, s.At(job.Key()))
    requires Complete(job, s.At(job.Key()).attempts, s.At(job.Key()).result.value.selected) && AxesDistinct(job)
    requires other.attempts == s.At(job.Key()).attempts
    ensures other.result.Some? && Reducer.Accepts(job, other) && ClaimsFit(job, s, other.result.value)
      <==> SameFiles(job, s.At(job.Key()), other)
  {
    var shelf := s.At(job.Key());
    FinishedIsSound(jobs, digest, maxRetries, s, job);
    SelectedIsFirstResolving(jobs, digest, maxRetries, s, job);
    if other.result.Some? && Reducer.Accepts(job, other) && ClaimsFit(job, s, other.result.value) {
      assert Reducer.BlockAccepted(job, shelf.(result := other.result));
      OwnResultOnly(job, s, shelf, shelf.result.value.selected, other.result.value);
    }
    if other.result == shelf.result {
      OwnFilesOnly(job, shelf, other);
    }
  }

  // ---------------------------------------------------------------- claims

  ghost predicate NoFindings(jobs: set<Job>, digest: string, maxRetries: Option<nat>, s: Store) {
    forall f :: !Reducer.IsFinding(jobs, digest, maxRetries, s, f)
  }

  lemma ClaimUnchanged(jobs: set<Job>, digest: string, maxRetries: Option<nat>, s: Store, other: Store, path: ClaimPath)
    requires Reducer.Expected(jobs, other, path) <==> Reducer.Expected(jobs, s, path)
    requires NoFindings(jobs, digest, maxRetries, s) && NoFindings(jobs, digest, maxRetries, other)
    ensures path in other.claims <==> path in s.claims
    ensures path in other.claims && path in s.claims ==> other.claims[path] == s.claims[path]
  {
    assert !Reducer.IsFinding(jobs, digest, maxRetries, s, Reducer.Unexpected(path));
    assert !Reducer.IsFinding(jobs, digest, maxRetries, other, Reducer.Unexpected(path));
    assert !Reducer.IsFinding(jobs, digest, maxRetries, s, Reducer.MissingOrInvalid(path));
    assert !Reducer.IsFinding(jobs, digest, maxRetries, other, Reducer.MissingOrInvalid(path));
  }

  lemma SameExpected(jobs: set<Job>, s: Store, claims: Claims, path: ClaimPath)
    ensures Reducer.Expected(jobs, s.(claims := claims), path) <==> Reducer.Expected(jobs, s, path)
  {
    assert forall job :: Reducer.ExpectedOf(job, s.(claims := claims), path) <==> Reducer.ExpectedOf(job, s, path);
  }

  lemma ClaimsUnchanged(jobs: set<Job>, digest: string, maxRetries: Option<nat>, s: Store, claims: Claims)
    requires NoFindings(jobs, digest, maxRetries, s) && NoFindings(jobs, digest, maxRetries, s.(claims := claims))
    ensures claims == s.claims
  {
    forall path: ClaimPath
      ensures path in claims <==> path in s.claims
      ensures path in claims && path in s.claims ==> claims[path] == s.claims[path]
    {
      SameExpected(jobs, s, claims, path);
      ClaimUnchanged(jobs, digest, maxRetries, s, s.(claims := claims), path);
    }
  }

  /** Any change of the claims of finished blocks is a finding. */
  lemma ReplacedClaims(jobs: set<Job>, digest: string, maxRetries: Option<nat>, s: Store, claims: Claims)
    requires InOrder(jobs, digest, maxRetries, s) && forall job :: job in jobs ==> s.At(job.Key()).result.Some?
    ensures NoFindings(jobs, digest, maxRetries, s.(claims := claims)) <==> claims == s.claims
  {
    forall f
      ensures !Reducer.IsFinding(jobs, digest, maxRetries, s, f)
    {
      NoClaimFindings(jobs, digest, maxRetries, s, f);
    }
    if claims == s.claims {
      assert s.(claims := claims) == s;
    } else if NoFindings(jobs, digest, maxRetries, s.(claims := claims)) {
      ClaimsUnchanged(jobs, digest, maxRetries, s, claims);
    }
  }
}

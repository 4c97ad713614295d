/** The reducer's own validation of a finished experiment: it reads the manifest and the files
    and accepts or rejects every summary without using the harness. */
module Reducer {
  import opened Outcome
  import opened Records
  import opened Plan
  import opened Artifacts
  import opened Harness

  /** The attempt record at its path, if it is one of this plan and of this attempt. */
  predicate HasAttempt(job: Job, a: Attempts, variant: string, n: nat) {
    var key := AttemptKeyOf(job, variant, n);
    key in a && a[key].digest == job.digest && a[key].key == key
  }

  function AttemptAt(job: Job, a: Attempts, variant: string, n: nat): AttemptRecord
    requires HasAttempt(job, a, variant, n)
  {
    a[AttemptKeyOf(job, variant, n)]
  }

  function ExpectedAt(job: Job, variants: seq<string>, n: nat): (refs: seq<AttemptKey>)
    ensures |refs| == |variants|
  {
    seq(|variants|, i requires 0 <= i < |variants| => AttemptKeyOf(job, variants[i], n))
  }

  /** References to every attempt of every variant up to the selected attempt. */
  function ExpectedRefs(job: Job, variants: seq<string>, selected: nat): seq<AttemptKey> {
    if selected == 0 then [] else ExpectedRefs(job, variants, selected - 1) + ExpectedAt(job, variants, selected)
  }

  predicate AllRecorded(job: Job, a: Attempts, variants: seq<string>, selected: nat) {
    forall n, v :: 1 <= n <= selected && v in variants ==> HasAttempt(job, a, v, n)
  }

  predicate BlockMatches(job: Job, a: Attempts, r: BlockResult) {
    && r.key == job.Key() && 1 <= r.selected <= job.maxAttempts && r.resolved != r.exhausted && job.trials != []
    && AllRecorded(job, a, TrialIds(job.trials), r.selected)
    && r.refs == ExpectedRefs(job, TrialIds(job.trials), r.selected)
    && (r.resolved <==> forall v :: v in TrialIds(job.trials) && HasAttempt(job, a, v, r.selected) ==>
                          AttemptAt(job, a, v, r.selected).outcome.status.Measurable())
    && r.findings == (if r.resolved then [] else EXHAUSTED)
  }

  predicate BlockAccepted(job: Job, shelf: Shelf) {
    shelf.result.Some? && shelf.result.value.digest == job.digest && BlockMatches(job, shelf.attempts, shelf.result.value)
  }

  predicate TrialMatches(job: Job, shelf: Shelf, t: PlannedTrial, r: TrialRecord) {
    && r.key == t.key && r.memberships == t.memberships && 1 <= r.selected
    && BlockAccepted(job, shelf) && shelf.result.value.selected == r.selected
    && AllRecorded(job, shelf.attempts, [t.key.variant], r.selected)
    && r.refs == ExpectedRefs(job, [t.key.variant], r.selected)
    && HasAttempt(job, shelf.attempts, t.key.variant, r.selected)
    && r.outcome == AttemptAt(job, shelf.attempts, t.key.variant, r.selected).outcome
  }

  /** The summary of a planned trial is there and accepted. */
  predicate TrialAccepted(job: Job, shelf: Shelf, t: PlannedTrial) {
    && t.key.variant in shelf.trials && shelf.trials[t.key.variant].digest == job.digest
    && TrialMatches(job, shelf, t, shelf.trials[t.key.variant])
  }

  /** The accepted trial summaries, by variant. */
  function AcceptedTrials(job: Job, shelf: Shelf): map<string, TrialRecord> {
    map t <- job.trials | TrialAccepted(job, shelf, t) :: t.key.variant := shelf.trials[t.key.variant]
  }

  predicate PairMatches(job: Job, shelf: Shelf, trials: map<string, TrialRecord>, p: PairKey, r: PairResult) {
    && r.key == p && BlockAccepted(job, shelf)
    && p.control in trials && p.treatment in trials
    && var resolved := shelf.result.value.resolved;
       var diff := VariantDiff(trials[p.control].outcome.observed, trials[p.treatment].outcome.observed);
       var valid := && resolved && diff.Keys == {p.axis}
                    && trials[p.control].outcome.status.Measurable() && trials[p.treatment].outcome.status.Measurable();
      && r.selected == (if resolved then Some(shelf.result.value.selected) else None)
      && r.valid == valid && r.diff == diff && r.findings == (if valid then [] else PAIR_INVALID)
  }

  predicate PairAccepted(job: Job, shelf: Shelf, p: PairKey) {
    && p.axis in shelf.pairs && shelf.pairs[p.axis].digest == job.digest
    && PairMatches(job, shelf, AcceptedTrials(job, shelf), p, shelf.pairs[p.axis])
  }

  /** The reducer accepts every summary of the block. */
  predicate Accepts(job: Job, shelf: Shelf) {
    && BlockAccepted(job, shelf)
    && (forall t :: t in job.trials ==> TrialAccepted(job, shelf, t))
    && (forall p :: p in job.pairs ==> PairAccepted(job, shelf, p))
  }

  // ---------------------------------------------------------------- the checks

  method ExpectAttempts(job: Job, a: Attempts, variants: seq<string>,
                        selected: nat) returns (refs: Option<seq<AttemptKey>>)
    ensures refs.Some? <==> AllRecorded(job, a, variants, selected)
    ensures refs.Some? ==> refs.value == ExpectedRefs(job, variants, selected)
  {
    var all: seq<AttemptKey> := [];
    for n := 1 to selected + 1
      invariant AllRecorded(job, a, variants, n - 1) && all == ExpectedRefs(job, variants, n - 1)
    {
      ghost var before := all;
      for i := 0 to |variants|
        invariant forall v :: v in variants[..i] ==> HasAttempt(job, a, v, n)
        invariant all == before + ExpectedAt(job, variants[..i], n)
      {
        assert variants[i] in variants;
        if !HasAttempt(job, a, variants[i], n) {
          return None;
        }
        all := all + [AttemptKeyOf(job, variants[i], n)];
      }
      assert variants[..|variants|] == variants;
    }
    return Some(all);
  }

  method CheckBlock(job: Job, shelf: Shelf) returns (ok: bool)
    ensures ok <==> BlockAccepted(job, shelf)
  {
    if shelf.result.None? || shelf.result.value.digest != job.digest {
      return false;
    }
    var r := shelf.result.value;
    if r.key != job.Key() || r.selected < 1 || r.selected > job.maxAttempts || r.resolved == r.exhausted || job.trials == [] {
      return false;
    }
    var refs := ExpectAttempts(job, shelf.attempts, TrialIds(job.trials), r.selected);
    if refs.None? || r.refs != refs.value {
      return false;
    }
    var measurable := true;
    var ids := TrialIds(job.trials);
    for i := 0 to |ids|
      invariant measurable <==> forall v :: v in ids[..i] && HasAttempt(job, shelf.attempts, v, r.selected) ==>
        AttemptAt(job, shelf.attempts, v, r.selected).outcome.status.Measurable()
    {
      assert ids[i] in ids && ids[..i + 1] == ids[..i] + [ids[i]];
      measurable := measurable && AttemptAt(job, shelf.attempts, ids[i], r.selected).outcome.status.Measurable();
    }
    assert ids[..|ids|] == ids;
    return r.resolved == measurable && r.findings == (if r.resolved then [] else EXHAUSTED);
  }

  method CheckTrial(job: Job, shelf: Shelf, t: PlannedTrial) returns (ok: bool)
    ensures ok <==> TrialAccepted(job, shelf, t)
  {
    if t.key.variant !in shelf.trials || shelf.trials[t.key.variant].digest != job.digest {
      return false;
    }
    var r := shelf.trials[t.key.variant];
    if r.key != t.key || r.memberships != t.memberships || r.selected < 1 {
      return false;
    }
    var block := CheckBlock(job, shelf);
    if !block || shelf.result.value.selected != r.selected {
      return false;
    }
    var refs := ExpectAttempts(job, shelf.attempts, [t.key.variant], r.selected);
    if refs.None? || r.refs != refs.value {
      return false;
    }
    assert t.key.variant in [t.key.variant];
    return r.outcome == AttemptAt(job, shelf.attempts, t.key.variant, r.selected).outcome;
  }

  /** The findings on retry claims: one missing or altered, one unexpected, or too many. */
  datatype ClaimFinding = MissingOrInvalid(path: ClaimPath) | Unexpected(path: ClaimPath) | QuotaExceeded

  predicate Expected(jobs: set<Job>, s: Store, path: ClaimPath) {
    exists job :: job in jobs && job.Key() == path.key && ExpectedOf(job, s, path)
  }

  predicate ExpectedOf(job: Job, s: Store, path: ClaimPath) {
    var result := s.At(job.Key()).result;
    result.Some? && result.value.digest == job.digest && 2 <= path.attempt <= result.value.selected
  }

  ghost predicate IsFinding(jobs: set<Job>, digest: string, maxRetries: Option<nat>, s: Store, f: ClaimFinding) {
    match f
    case MissingOrInvalid(path) =>
      Expected(jobs, s, path) && (path in s.claims ==> s.claims[path] != Claim(digest, path.key, path.attempt))
    case Unexpected(path) => path in s.claims && !Expected(jobs, s, path)
    case QuotaExceeded => maxRetries.Some? && |s.claims| > maxRetries.value
  }

  method ExpectedClaims(jobs: seq<Job>, s: Store) returns (paths: set<ClaimPath>)
    ensures forall p :: p in paths <==> Expected((set j <- jobs), s, p)
  {
    paths := {};
    for i := 0 to |jobs|
      invariant forall p :: p in paths <==> exists j :: 0 <= j < i && jobs[j].Key() == p.key && ExpectedOf(jobs[j], s, p)
    {
      var job := jobs[i];
      var result := s.At(job.Key()).result;
      if result.Some? && result.value.digest == job.digest {
        paths := paths + set n | 2 <= n <= result.value.selected :: ClaimPath(job.Key(), n);
      }
    }
    forall p: ClaimPath
      ensures (exists j :: 0 <= j < |jobs| && jobs[j].Key() == p.key && ExpectedOf(jobs[j], s, p)) <==> Expected((set j <- jobs), s, p)
    {
      if job :| job in jobs && job.Key() == p.key && ExpectedOf(job, s, p) {
        var j :| 0 <= j < |jobs| && jobs[j] == job;
      }
    }
  }

  method ValidateRetryClaims(jobs: seq<Job>, digest: string, maxRetries: Option<nat>,
                             s: Store) returns (findings: set<ClaimFinding>)
    ensures forall f :: f in findings <==> IsFinding((set j <- jobs), digest, maxRetries, s, f)
  {
    var expected := ExpectedClaims(jobs, s);
    var actual := s.claims.Keys;
    findings := (set p <- expected | p !in s.claims || s.claims[p] != Claim(digest, p.key, p.attempt) :: MissingOrInvalid(p))
                + (set p <- actual | p !in expected :: Unexpected(p));
    if maxRetries.Some? && |actual| > maxRetries.value {
      findings := findings + {QuotaExceeded};
    }
  }
}

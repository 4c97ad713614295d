/** Running one comparison block: symmetric attempts, retry claims, summaries, and the two ways
    of finding after a restart that nothing is left to do. */
module Harness {
  import opened Outcome
  import opened Sequences
  import opened Records
  import opened Plan
  import opened PlanShape
  import opened Artifacts

  // ---------------------------------------------------------------- one block's job

  /** What a plan says about one block, and the limits on its retries. */
  datatype Job = Job(
    digest: string, variants: seq<Variant>, block: PlannedBlock, trials: seq<PlannedTrial>, pairs: seq<PairKey>,
    maxAttempts: nat, maxRetries: Option<nat>)
  {
    function Key(): BlockKey {
      block.key
    }

    function Variants(): set<string> {
      set v <- variants :: v.id
    }

    function SettingsOf(id: string): Settings
      requires id in Variants()
    {
      FirstSettings(variants, id)
    }
  }

  function JobOf(p: Plan, d: Definition, b: PlannedBlock): Job {
    Job(p.experiment, d.variants, b, TrialsOf(p.lists.trials, b.key), PairsOf(p.lists.pairs, b.key),
        p.spec.maxAttempts, p.spec.maxRetries)
  }

  predicate NamesEachVariantOnce(keys: seq<TrialKey>, key: BlockKey, variants: set<string>) {
    && (forall i, j :: 0 <= i < j < |keys| ==> keys[i].variant != keys[j].variant)
    && (forall k :: k in keys ==> k.Block() == key && k.variant in variants)
    && |keys| == |variants|
  }

  /** What the plan compiler guarantees about a job. */
  ghost predicate JobOk(job: Job) {
    && job.variants != [] && 1 <= job.maxAttempts
    && KeysOf(job.trials) == TrialKeys(job.Key(), job.variants)
    && NamesEachVariantOnce(KeysOf(job.trials), job.Key(), job.Variants())
    && NamesEachVariantOnce(job.block.trials, job.Key(), job.Variants())
    && (forall p :: p in job.pairs ==>
          && p.Block() == job.Key() && p.control in job.Variants() && p.treatment in job.Variants()
          && VariantDiff(job.SettingsOf(p.control), job.SettingsOf(p.treatment)).Keys == {p.axis})
  }

  // ---------------------------------------------------------------- executing trials

  /** What running a trial came to. */
  datatype Execution = Execution(
    status: Status, observed: Settings, verification: Verification, findings: seq<string>, details: string)

  /** The outcomes the trials have when this process executes them. */
  type World = AttemptKey -> Execution

  /** A trial that did not run under its variant's settings is an infrastructure failure. */
  function Recorded(e: Execution, declared: Settings): TrialOutcome {
    if e.observed != declared
    then TrialOutcome(InfrastructureFailure, declared, e.observed, Verification(VerificationNotRun, ["variant_drift"]),
                      e.findings + ["variant_drift"], e.details)
    else TrialOutcome(e.status, declared, e.observed, e.verification, e.findings, e.details)
  }

  function AttemptKeyOf(job: Job, variant: string, n: nat): AttemptKey {
    AttemptKey(job.Key(), variant, n)
  }

  function RecordOf(job: Job, world: World, variant: string, n: nat): AttemptRecord
    requires variant in job.Variants()
  {
    AttemptRecord(AttemptKeyOf(job, variant, n), job.digest, Recorded(world(AttemptKeyOf(job, variant, n)), job.SettingsOf(variant)))
  }

  function Executions(job: Job, keys: seq<TrialKey>, n: nat): (steps: seq<Step>)
    ensures |steps| == |keys|
  {
    seq(|keys|, i requires 0 <= i < |keys| => Execute(AttemptKeyOf(job, keys[i].variant, n)))
  }

  function Recordings(job: Job, world: World, keys: seq<TrialKey>, n: nat): (steps: seq<Step>)
    requires forall k :: k in keys ==> k.variant in job.Variants()
    ensures |steps| == |keys|
  {
    seq(|keys|, i requires 0 <= i < |keys| => RecordAttempt(RecordOf(job, world, keys[i].variant, n)))
  }

  /** All trials of the attempt run before the first of them is recorded. */
  function AttemptSteps(job: Job, world: World, n: nat): seq<Step>
    requires JobOk(job)
  {
    Executions(job, job.block.trials, n) + Recordings(job, world, job.block.trials, n)
  }

  // ---------------------------------------------------------------- reading attempts

  function ReadAttempt(job: Job, a: Attempts, variant: string, n: nat): Option<AttemptRecord> {
    var key := AttemptKeyOf(job, variant, n);
    if key in a && a[key].digest == job.digest && a[key].key == key then Some(a[key]) else None
  }

  /** The records present for one attempt of the block. */
  function Present(job: Job, a: Attempts, n: nat): map<string, AttemptRecord> {
    map v <- job.Variants() | ReadAttempt(job, a, v, n).Some? :: ReadAttempt(job, a, v, n).value
  }

  predicate AllMeasurable(records: map<string, AttemptRecord>) {
    forall v :: v in records ==> records[v].outcome.status.Measurable()
  }

  /** The attempt resolves the block: every variant is recorded, and measurably. */
  predicate Resolves(job: Job, a: Attempts, n: nat) {
    Present(job, a, n).Keys == job.Variants() && AllMeasurable(Present(job, a, n))
  }

  predicate Tried(job: Job, a: Attempts, n: nat) {
    Present(job, a, n) != map[]
  }

  // ---------------------------------------------------------------- summaries

  function RefsAt(job: Job, a: Attempts, variants: seq<string>, n: nat): seq<AttemptKey> {
    if variants == [] then []
    else if ReadAttempt(job, a, Last(variants), n).Some?
    then RefsAt(job, a, Init(variants), n) + [AttemptKeyOf(job, Last(variants), n)]
    else RefsAt(job, a, Init(variants), n)
  }

  /** The recorded attempts up to the selected one, attempt by attempt. */
  function Refs(job: Job, a: Attempts, variants: seq<string>, selected: nat): seq<AttemptKey> {
    if selected == 0 then [] else Refs(job, a, variants, selected - 1) + RefsAt(job, a, variants, selected)
  }

  function Ids(variants: seq<Variant>): (ids: seq<string>)
    ensures |ids| == |variants|
  {
    seq(|variants|, i requires 0 <= i < |variants| => variants[i].id)
  }

  const EXHAUSTED := ["comparison_block_attempts_exhausted"]

  function ResultOf(job: Job, a: Attempts, selected: nat, resolved: bool): BlockResult {
    BlockResult(job.Key(), job.digest, resolved, !resolved, selected, Refs(job, a, Ids(job.variants), selected),
                if resolved then [] else EXHAUSTED)
  }

  function MissingOutcome(job: Job, variant: string): TrialOutcome
    requires variant in job.Variants()
  {
    TrialOutcome(InfrastructureFailure, job.SettingsOf(variant), job.SettingsOf(variant), Verification(VerificationNotRun, []),
                 ["missing_attempt_record"], "")
  }

  function TrialSummary(job: Job, a: Attempts, t: PlannedTrial, selected: nat): TrialRecord
    requires t.key.variant in job.Variants()
  {
    var records := Present(job, a, selected);
    TrialRecord(t.key, job.digest, t.memberships, selected, Refs(job, a, [t.key.variant], selected),
                if t.key.variant in records then records[t.key.variant].outcome else MissingOutcome(job, t.key.variant))
  }

  function PairDiff(records: map<string, AttemptRecord>, p: PairKey): map<string, Difference> {
    if p.control in records && p.treatment in records
    then VariantDiff(records[p.control].outcome.observed, records[p.treatment].outcome.observed)
    else map[]
  }

  predicate PairValid(records: map<string, AttemptRecord>, p: PairKey, resolved: bool) {
    && resolved && p.control in records && p.treatment in records
    && PairDiff(records, p).Keys == {p.axis}
    && records[p.control].outcome.status.Measurable() && records[p.treatment].outcome.status.Measurable()
  }

  const PAIR_INVALID := ["pair_invalid_or_variant_drift"]

  function PairSummary(job: Job, a: Attempts, p: PairKey, selected: nat, resolved: bool): PairResult {
    var records := Present(job, a, selected);
    PairResult(p, job.digest, if resolved then Some(selected) else None, PairValid(records, p, resolved), PairDiff(records, p),
               if PairValid(records, p, resolved) then [] else PAIR_INVALID)
  }

  function TrialSteps(job: Job, a: Attempts, trials: seq<PlannedTrial>, selected: nat): (steps: seq<Step>)
    requires forall t :: t in trials ==> t.key.variant in job.Variants()
    ensures |steps| == |trials|
  {
    seq(|trials|, i requires 0 <= i < |trials| => WriteTrial(TrialSummary(job, a, trials[i], selected)))
  }

  function PairSteps(job: Job, a: Attempts, pairs: seq<PairKey>, selected: nat, resolved: bool): (steps: seq<Step>)
    ensures |steps| == |pairs|
  {
    seq(|pairs|, i requires 0 <= i < |pairs| => WritePair(PairSummary(job, a, pairs[i], selected, resolved)))
  }

  /** The block's result, then its trial summaries, then its pair summaries. */
  function FinishSteps(job: Job, a: Attempts, selected: nat, resolved: bool): seq<Step>
    requires forall t :: t in job.trials ==> t.key.variant in job.Variants()
  {
    [WriteResult(ResultOf(job, a, selected, resolved))] + TrialSteps(job, a, job.trials, selected)
    + PairSteps(job, a, job.pairs, selected, resolved)
  }

  lemma TrialsAreVariants(job: Job)
    requires JobOk(job)
    ensures forall t :: t in job.trials ==> t.key.variant in job.Variants() && t.key.Block() == job.Key()
  {
    forall t | t in job.trials
      ensures t.key.variant in job.Variants() && t.key.Block() == job.Key()
    {
      var i :| 0 <= i < |job.trials| && job.trials[i] == t;
      assert KeysOf(job.trials)[i] in KeysOf(job.trials);
    }
  }

  // ---------------------------------------------------------------- the run loop

  predicate MayClaim(job: Job, s: Store, n: nat) {
    ClaimPath(job.Key(), n) in s.claims || !QuotaUsedUp(s.claims, job.maxRetries)
  }

  function ClaimSteps(job: Job, s: Store, n: nat): seq<Step> {
    if n == 1 || ClaimPath(job.Key(), n) in s.claims then [] else [WriteClaim(Claim(job.digest, job.Key(), n))]
  }

  /** An attempt with any record is never executed again. */
  function TrySteps(job: Job, world: World, s: Store, n: nat): seq<Step>
    requires JobOk(job)
  {
    if Tried(job, s.At(job.Key()).attempts, n) then [] else AttemptSteps(job, world, n)
  }

  /** Everything from attempt `n` to the summaries. */
  function LoopSteps(job: Job, world: World, s: Store, n: nat): seq<Step>
    requires JobOk(job) && 1 <= n <= job.maxAttempts + 1
    decreases job.maxAttempts + 1 - n
  {
    TrialsAreVariants(job);
    if n > job.maxAttempts || (n > 1 && !MayClaim(job, s, n)) then FinishSteps(job, s.At(job.Key()).attempts, n - 1, false)
    else
      var before := ClaimSteps(job, s, n) + TrySteps(job, world, s, n);
      var later := ApplyAll(s, before);
      before
      + if Resolves(job, later.At(job.Key()).attempts, n) then FinishSteps(job, later.At(job.Key()).attempts, n, true)
        else LoopSteps(job, world, later, n + 1)
  }

  // ---------------------------------------------------------------- after a restart

  /** The trial summary is the one planned, for this selected attempt, with the outcome recorded. */
  predicate TrialIsCurrent(job: Job, shelf: Shelf, t: PlannedTrial, selected: nat) {
    && t.key.variant in shelf.trials
    && var r := shelf.trials[t.key.variant];
      && r.digest == job.digest && r.key == t.key && r.memberships == t.memberships && r.selected == selected
      && |Refs(job, shelf.attempts, [t.key.variant], selected)| == selected
      && r.refs == Refs(job, shelf.attempts, [t.key.variant], selected)
      && ReadAttempt(job, shelf.attempts, t.key.variant, selected).Some?
      && r.outcome == ReadAttempt(job, shelf.attempts, t.key.variant, selected).value.outcome
  }

  predicate PairIsCurrent(job: Job, shelf: Shelf, p: PairKey, selected: nat, resolved: bool) {
    && p.axis in shelf.pairs
    && var r := shelf.pairs[p.axis];
       var records := Present(job, shelf.attempts, selected);
      && r.digest == job.digest && r.key == p && r.selected == (if resolved then Some(selected) else None)
      && p.control in records && p.treatment in records
      && r.diff == PairDiff(records, p) && r.valid == PairValid(records, p, resolved)
  }

  predicate ClaimIsCurrent(job: Job, s: Store, n: nat) {
    ClaimPath(job.Key(), n) in s.claims && s.claims[ClaimPath(job.Key(), n)] == Claim(job.digest, job.Key(), n)
  }

  function TrialIds(trials: seq<PlannedTrial>): (ids: seq<string>)
    ensures |ids| == |trials|
  {
    seq(|trials|, i requires 0 <= i < |trials| => trials[i].key.variant)
  }

  predicate ResultIsCurrent(job: Job, s: Store, shelf: Shelf) {
    && shelf.result.Some?
    && var r := shelf.result.value;
      && r.digest == job.digest && r.key == job.Key() && r.resolved != r.exhausted && 1 <= r.selected
      && (forall n :: 2 <= n <= r.selected ==> ClaimIsCurrent(job, s, n))
      && job.trials != []
      && |Refs(job, shelf.attempts, TrialIds(job.trials), r.selected)| == r.selected * |job.trials|
      && r.refs == Refs(job, shelf.attempts, TrialIds(job.trials), r.selected)
  }

  predicate OutcomesAgree(job: Job, shelf: Shelf, selected: nat, resolved: bool) {
    resolved <==> forall t :: t in job.trials && ReadAttempt(job, shelf.attempts, t.key.variant, selected).Some? ==>
      ReadAttempt(job, shelf.attempts, t.key.variant, selected).value.outcome.status.Measurable()
  }

  /** The block is finished and all its files agree: a run skips it. */
  predicate Resumable(job: Job, s: Store) {
    var shelf := s.At(job.Key());
    && ResultIsCurrent(job, s, shelf)
    && var r := shelf.result.value;
      && (forall t :: t in job.trials ==> TrialIsCurrent(job, shelf, t, r.selected))
      && OutcomesAgree(job, shelf, r.selected, r.resolved)
      && (forall p :: p in job.pairs ==> PairIsCurrent(job, shelf, p, r.selected, r.resolved))
  }

  /** The selected attempts that the summaries on disk mention. */
  function Candidates(job: Job, shelf: Shelf): set<nat> {
    (if shelf.result.Some? && shelf.result.value.digest == job.digest && shelf.result.value.key == job.Key()
     then {shelf.result.value.selected} else {})
    + set t <- job.trials | t.key.variant in shelf.trials && shelf.trials[t.key.variant].digest == job.digest
                            && shelf.trials[t.key.variant].key == t.key
        :: shelf.trials[t.key.variant].selected
  }

  function TheOnly(c: set<nat>): (r: Option<nat>)
    ensures r.Some? <==> exists n :: c == {n}
    ensures r.Some? ==> c == {r.value}
  {
    if exists n :: n in c && c == {n} then
      var n :| n in c && c == {n};
      Some(n)
    else None
  }

  /** The summaries can be rewritten from the attempt they select. */
  predicate Rebuildable(job: Job, shelf: Shelf, selected: nat) {
    && Candidates(job, shelf) == {selected} && 1 <= selected <= job.maxAttempts
    && Present(job, shelf.attempts, selected).Keys == job.Variants()
    && (Resolves(job, shelf.attempts, selected) || selected == job.maxAttempts)
    && (shelf.result.Some? && shelf.result.value.digest == job.digest ==>
          && shelf.result.value.resolved != shelf.result.value.exhausted
          && shelf.result.value.resolved == Resolves(job, shelf.attempts, selected))
  }

  function RebuildSteps(job: Job, s: Store): seq<Step>
    requires JobOk(job)
  {
    TrialsAreVariants(job);
    var shelf := s.At(job.Key());
    match TheOnly(Candidates(job, shelf))
    case None => []
    case Some(selected) =>
      if Rebuildable(job, shelf, selected)
      then FinishSteps(job, shelf.attempts, selected, Resolves(job, shelf.attempts, selected))
      else []
  }

  /** Everything one run does for the block. */
  function RunSteps(job: Job, world: World, s: Store): seq<Step>
    requires JobOk(job)
  {
    if Resumable(job, s) then []
    else
      var rebuilt := RebuildSteps(job, s);
      var later := ApplyAll(s, rebuilt);
      if rebuilt != [] && Resumable(job, later) then rebuilt else rebuilt + LoopSteps(job, world, later, 1)
  }
}

/** The plan compiler: packs expand into trials, comparison blocks and pairs, and retrieval
    suites into cases and query blocks. */
module Plan {
  import opened Outcome
  import opened Sequences
  import opened CanonicalJson
  import opened Records

  // ---------------------------------------------------------------- definitions

  datatype Variant = Variant(id: string, settings: Settings)

  datatype PairSpec = PairSpec(axis: string, control: string, treatment: string)

  datatype RetrievalSuite = RetrievalSuite(id: string, queries: seq<string>, configurations: seq<string>)

  /** `extra` stands for the parts of a pack definition that only its digest depends on. */
  datatype Definition = Definition(
    packId: string, tasks: seq<string>, variants: seq<Variant>, pairs: seq<PairSpec>, suites: seq<RetrievalSuite>, extra: Json)
  {
    /** What the definition classes check when they are built. */
    predicate Valid() {
      && Distinct(tasks)
      && (forall i, j :: 0 <= i < j < |variants| ==> variants[i].id != variants[j].id)
      && (tasks != [] ==> variants != [])
      && (forall p :: p in pairs ==> p.control != p.treatment)
    }

    predicate HasVariant(id: string) {
      exists v :: v in variants && v.id == id
    }

    function SettingsOf(id: string): Settings
      requires HasVariant(id)
    {
      FirstSettings(variants, id)
    }
  }

  function FirstSettings(variants: seq<Variant>, id: string): Settings
    requires exists v :: v in variants && v.id == id
  {
    if variants[0].id == id then variants[0].settings else FirstSettings(variants[1..], id)
  }

  predicate Distinct(s: seq<string>) {
    forall i, j :: 0 <= i < j < |s| ==> s[i] != s[j]
  }

  datatype Spec = Spec(packIds: seq<string>, repetitions: nat, maxAttempts: nat, maxRetries: Option<nat>, extra: Json)
  {
    predicate Valid() {
      packIds != [] && Distinct(packIds) && 1 <= repetitions && 1 <= maxAttempts
    }
  }

  // ---------------------------------------------------------------- the plan

  datatype PlannedTrial = PlannedTrial(key: TrialKey, memberships: seq<PairKey>)

  datatype PlannedBlock = PlannedBlock(key: BlockKey, trials: seq<TrialKey>)

  datatype PlannedCase = PlannedCase(key: CaseKey, block: QueryKey)

  datatype PlannedQuery = PlannedQuery(key: QueryKey, cases: seq<CaseKey>)

  /** The five lists a plan consists of. */
  datatype Lists = Lists(
    trials: seq<PlannedTrial>, blocks: seq<PlannedBlock>, pairs: seq<PairKey>, cases: seq<PlannedCase>, queries: seq<PlannedQuery>)
  {
    function Plus(l: Lists): Lists {
      Lists(trials + l.trials, blocks + l.blocks, pairs + l.pairs, cases + l.cases, queries + l.queries)
    }
  }

  const EMPTY := Lists([], [], [], [], [])

  datatype Plan = Plan(experiment: string, spec: Spec, definitions: seq<Definition>, lists: Lists)

  datatype PlanError = WrongPacks | NotCanonical | UnknownVariant | AxisMismatch

  /** The pair names two variants whose settings differ on its axis and on nothing else. */
  predicate PairFits(d: Definition, p: PairSpec) {
    && d.HasVariant(p.control) && d.HasVariant(p.treatment)
    && VariantDiff(d.SettingsOf(p.control), d.SettingsOf(p.treatment)).Keys == {p.axis}
  }

  // ---------------------------------------------------------------- what one block of the plan is

  function PairKeys(x: string, d: Definition, task: string, rep: nat): (keys: seq<PairKey>)
    ensures |keys| == |d.pairs|
  {
    seq(|d.pairs|, i requires 0 <= i < |d.pairs| =>
      PairKey(x, d.packId, d.pairs[i].axis, task, rep, d.pairs[i].control, d.pairs[i].treatment))
  }

  /** The pairs a variant takes part in, in order. */
  function Memberships(pairs: seq<PairKey>, variant: string): seq<PairKey> {
    if pairs == [] then []
    else if variant == Last(pairs).control || variant == Last(pairs).treatment then Memberships(Init(pairs), variant) + [Last(pairs)]
    else Memberships(Init(pairs), variant)
  }

  function TrialKeyOf(b: BlockKey, variant: string): TrialKey {
    TrialKey(b.experiment, b.pack, b.task, variant, b.repetition)
  }

  function TrialKeys(b: BlockKey, variants: seq<Variant>): (keys: seq<TrialKey>)
    ensures |keys| == |variants|
  {
    seq(|variants|, i requires 0 <= i < |variants| => TrialKeyOf(b, variants[i].id))
  }

  function BlockTrials(b: BlockKey, variants: seq<Variant>, pairs: seq<PairKey>): (trials: seq<PlannedTrial>)
    ensures |trials| == |variants|
  {
    seq(|variants|, i requires 0 <= i < |variants| => PlannedTrial(TrialKeyOf(b, variants[i].id), Memberships(pairs, variants[i].id)))
  }

  function BlockJson(b: BlockKey): Json {
    JObject(map["experiment_id" := JText(b.experiment), "pack_id" := JText(b.pack), "task_id" := JText(b.task),
                "repetition" := JNumber(b.repetition)])
  }

  /** What the position of a trial in its block is drawn from. */
  function OrderPayload(experiment: Json, block: Json, variant: Json): Json {
    JObject(map["experiment_id" := experiment, "block" := block, "variant_id" := variant])
  }

  function TrialRank(digest: Digest, b: BlockKey): TrialKey -> string {
    (k: TrialKey) => digest(OrderPayload(JText(b.experiment), BlockJson(b), JText(k.variant)))
  }

  function EmitBlock(digest: Digest, x: string, d: Definition, task: string, rep: nat): Lists {
    var b := BlockKey(x, d.packId, task, rep);
    var pairs := PairKeys(x, d, task, rep);
    Lists(BlockTrials(b, d.variants, pairs), [PlannedBlock(b, SortByRank(TrialKeys(b, d.variants), TrialRank(digest, b)))],
          pairs, [], [])
  }

  function EmitTask(digest: Digest, x: string, d: Definition, task: string, reps: nat): Lists {
    if reps == 0 then EMPTY
    else EmitTask(digest, x, d, task, reps - 1).Plus(EmitBlock(digest, x, d, task, reps - 1))
  }

  function EmitTasks(digest: Digest, x: string, d: Definition, tasks: seq<string>, reps: nat): Lists {
    if tasks == [] then EMPTY
    else EmitTasks(digest, x, d, Init(tasks), reps).Plus(EmitTask(digest, x, d, Last(tasks), reps))
  }

  function CaseKeys(q: QueryKey, configurations: seq<string>): (keys: seq<CaseKey>)
    ensures |keys| == |configurations|
  {
    seq(|configurations|, i requires 0 <= i < |configurations| => CaseKey(q.experiment, q.suite, q.query, configurations[i]))
  }

  function PlannedCases(q: QueryKey, keys: seq<CaseKey>): (cases: seq<PlannedCase>)
    ensures |cases| == |keys|
  {
    seq(|keys|, i requires 0 <= i < |keys| => PlannedCase(keys[i], q))
  }

  function EmitQuery(x: string, suite: RetrievalSuite, query: string): Lists {
    var q := QueryKey(x, suite.id, query);
    var keys := CaseKeys(q, suite.configurations);
    Lists([], [], [], PlannedCases(q, keys), [PlannedQuery(q, keys)])
  }

  function EmitSuite(x: string, suite: RetrievalSuite, queries: seq<string>): Lists {
    if queries == [] then EMPTY else EmitSuite(x, suite, Init(queries)).Plus(EmitQuery(x, suite, Last(queries)))
  }

  function EmitSuites(x: string, suites: seq<RetrievalSuite>): Lists {
    if suites == [] then EMPTY else EmitSuites(x, Init(suites)).Plus(EmitSuite(x, Last(suites), Last(suites).queries))
  }

  function EmitDefinition(digest: Digest, x: string, d: Definition, reps: nat): Lists {
    EmitTasks(digest, x, d, d.tasks, reps).Plus(EmitSuites(x, d.suites))
  }

  function EmitDefinitions(digest: Digest, x: string, ds: seq<Definition>, reps: nat): Lists {
    if ds == [] then EMPTY
    else EmitDefinitions(digest, x, Init(ds), reps).Plus(EmitDefinition(digest, x, Last(ds), reps))
  }

  // ---------------------------------------------------------------- the compiler

  lemma PlusAssociates(a: Lists, b: Lists, c: Lists)
    ensures a.Plus(b).Plus(c) == a.Plus(b.Plus(c)) && a.Plus(EMPTY) == a
  {
  }

  method CompileBlock(digest: Digest, x: string, d: Definition, task: string, rep: nat) returns (l: Lists)
    ensures l == EmitBlock(digest, x, d, task, rep)
  {
    var b := BlockKey(x, d.packId, task, rep);
    var pairs := PairKeys(x, d, task, rep);
    var trials: seq<PlannedTrial> := [];
    var keys: seq<TrialKey> := [];
    for i := 0 to |d.variants|
      invariant trials == BlockTrials(b, d.variants[..i], pairs) && keys == TrialKeys(b, d.variants[..i])
    {
      var key := TrialKeyOf(b, d.variants[i].id);
      trials := trials + [PlannedTrial(key, Memberships(pairs, d.variants[i].id))];
      keys := keys + [key];
    }
    assert d.variants[..|d.variants|] == d.variants;
    l := Lists(trials, [PlannedBlock(b, SortByRank(keys, TrialRank(digest, b)))], pairs, [], []);
  }

  method CompileTasks(digest: Digest, x: string, d: Definition, reps: nat) returns (l: Lists)
    ensures l == EmitTasks(digest, x, d, d.tasks, reps)
  {
    l := EMPTY;
    for t := 0 to |d.tasks|
      invariant l == EmitTasks(digest, x, d, d.tasks[..t], reps)
    {
      ghost var before := l;
      PlusAssociates(before, EMPTY, EMPTY);
      for rep := 0 to reps
        invariant l == before.Plus(EmitTask(digest, x, d, d.tasks[t], rep))
      {
        var block := CompileBlock(digest, x, d, d.tasks[t], rep);
        PlusAssociates(before, EmitTask(digest, x, d, d.tasks[t], rep), block);
        l := l.Plus(block);
      }
      assert d.tasks[..t + 1] == d.tasks[..t] + [d.tasks[t]];
    }
    assert d.tasks[..|d.tasks|] == d.tasks;
  }

  method CompileSuites(x: string, suites: seq<RetrievalSuite>) returns (l: Lists)
    ensures l == EmitSuites(x, suites)
  {
    l := EMPTY;
    for s := 0 to |suites|
      invariant l == EmitSuites(x, suites[..s])
    {
      var suite := suites[s];
      ghost var before := l;
      PlusAssociates(before, EMPTY, EMPTY);
      for q := 0 to |suite.queries|
        invariant l == before.Plus(EmitSuite(x, suite, suite.queries[..q]))
      {
        var query := QueryKey(x, suite.id, suite.queries[q]);
        var keys := CaseKeys(query, suite.configurations);
        var more := Lists([], [], [], PlannedCases(query, keys), [PlannedQuery(query, keys)]);
        assert suite.queries[..q + 1] == suite.queries[..q] + [suite.queries[q]];
        PlusAssociates(before, EmitSuite(x, suite, suite.queries[..q]), more);
        l := l.Plus(more);
      }
      assert suite.queries[..|suite.queries|] == suite.queries;
      assert suites[..s + 1] == suites[..s] + [suite];
    }
    assert suites[..|suites|] == suites;
  }

  predicate AllPairsFit(ds: seq<Definition>) {
    forall d, p :: d in ds && p in d.pairs ==> PairFits(d, p)
  }

  method CheckPairs(d: Definition) returns (fault: Option<PlanError>)
    ensures fault.None? <==> forall p :: p in d.pairs ==> PairFits(d, p)
    ensures fault != Some(WrongPacks) && fault != Some(NotCanonical)
  {
    for i := 0 to |d.pairs|
      invariant forall p :: p in d.pairs[..i] ==> PairFits(d, p)
    {
      var pair := d.pairs[i];
      assert d.pairs[..i + 1] == d.pairs[..i] + [pair] && pair in d.pairs;
      if !d.HasVariant(pair.control) || !d.HasVariant(pair.treatment) {
        return Some(UnknownVariant);
      }
      if VariantDiff(d.SettingsOf(pair.control), d.SettingsOf(pair.treatment)).Keys != {pair.axis} {
        return Some(AxisMismatch);
      }
    }
    assert d.pairs[..|d.pairs|] == d.pairs;
    fault := None;
  }

  function PackIds(ds: seq<Definition>): (ids: seq<string>)
    ensures |ids| == |ds|
  {
    seq(|ds|, i requires 0 <= i < |ds| => ds[i].packId)
  }

  /** What a compiled plan is; `x` is the digest of the specification and the definitions. */
  function PlanOf(digest: Digest, x: string, spec: Spec, ds: seq<Definition>): Plan {
    Plan(x, spec, ds, EmitDefinitions(digest, x, ds, spec.repetitions))
  }

  method CompilePlan(digest: Digest, x: string, spec: Spec, ds: seq<Definition>) returns (r: Result<Plan, PlanError>)
    ensures r.Success? <==> PackIds(ds) == spec.packIds && AllPairsFit(ds)
    ensures r.Success? ==> r.value == PlanOf(digest, x, spec, ds)
    ensures r != Failure(NotCanonical)
  {
    if PackIds(ds) != spec.packIds {
      return Failure(WrongPacks);
    }
    var l := EMPTY;
    for i := 0 to |ds|
      invariant l == EmitDefinitions(digest, x, ds[..i], spec.repetitions) && AllPairsFit(ds[..i])
    {
      assert ds[..i + 1] == ds[..i] + [ds[i]] && ds[i] in ds;
      var fault := CheckPairs(ds[i]);
      if fault.Some? {
        return Failure(fault.value);
      }
      var blocks := CompileTasks(digest, x, ds[i], spec.repetitions);
      var retrieval := CompileSuites(x, ds[i].suites);
      PlusAssociates(l, blocks, retrieval);
      l := l.Plus(blocks).Plus(retrieval);
    }
    assert ds[..|ds|] == ds;
    r := Success(Plan(x, spec, ds, l));
  }
}

/** The frozen manifest of an experiment, and the second derivation of the plan from it, which
    reads untrusted JSON instead of checked definitions. */
module Manifest {
  import opened Outcome
  import opened Sequences
  import opened CanonicalJson
  import opened Records
  import opened Plan

  // ---------------------------------------------------------------- writing

  function TextList(s: seq<string>): Json {
    JList(seq(|s|, i requires 0 <= i < |s| => JText(s[i])))
  }

  function PairKeyJson(p: PairKey): Json {
    JObject(map["experiment_id" := JText(p.experiment), "pack_id" := JText(p.pack), "treatment_axis" := JText(p.axis),
                "task_id" := JText(p.task), "repetition" := JNumber(p.repetition),
                "control_variant_id" := JText(p.control), "treatment_variant_id" := JText(p.treatment)])
  }

  function TrialKeyJson(k: TrialKey): Json {
    JObject(map["experiment_id" := JText(k.experiment), "pack_id" := JText(k.pack), "task_id" := JText(k.task),
                "variant_id" := JText(k.variant), "repetition" := JNumber(k.repetition)])
  }

  function QueryKeyJson(q: QueryKey): Json {
    JObject(map["experiment_id" := JText(q.experiment), "retrieval_suite_id" := JText(q.suite), "query_id" := JText(q.query)])
  }

  function CaseKeyJson(c: CaseKey): Json {
    JObject(map["experiment_id" := JText(c.experiment), "retrieval_suite_id" := JText(c.suite), "query_id" := JText(c.query),
                "configuration_id" := JText(c.configuration)])
  }

  function Each<T>(s: seq<T>, f: T -> Json): (r: seq<Json>)
    ensures |r| == |s| && forall i :: 0 <= i < |s| ==> r[i] == f(s[i])
  {
    seq(|s|, i requires 0 <= i < |s| => f(s[i]))
  }

  function PlannedTrialJson(t: PlannedTrial): Json {
    JObject(map["key" := TrialKeyJson(t.key), "pair_memberships" := JList(Each(t.memberships, PairKeyJson))])
  }

  function PlannedBlockJson(b: PlannedBlock): Json {
    JObject(map["key" := BlockJson(b.key), "trial_keys" := JList(Each(b.trials, TrialKeyJson))])
  }

  function PlannedCaseJson(c: PlannedCase): Json {
    JObject(map["key" := CaseKeyJson(c.key), "query_block" := QueryKeyJson(c.block)])
  }

  function PlannedQueryJson(q: PlannedQuery): Json {
    JObject(map["key" := QueryKeyJson(q.key), "case_keys" := JList(Each(q.cases, CaseKeyJson))])
  }

  datatype JsonLists = JsonLists(trials: seq<Json>, blocks: seq<Json>, pairs: seq<Json>, cases: seq<Json>, queries: seq<Json>)
  {
    function Plus(l: JsonLists): JsonLists {
      JsonLists(trials + l.trials, blocks + l.blocks, pairs + l.pairs, cases + l.cases, queries + l.queries)
    }
  }

  const NONE := JsonLists([], [], [], [], [])

  function ListsJson(l: Lists): JsonLists {
    JsonLists(Each(l.trials, PlannedTrialJson), Each(l.blocks, PlannedBlockJson), Each(l.pairs, PairKeyJson),
              Each(l.cases, PlannedCaseJson), Each(l.queries, PlannedQueryJson))
  }

  function ValueJson(v: Value): Json {
    if v.Null? then JNull else JText(v.text)
  }

  function VariantJson(v: Variant): Json {
    JObject(map["variant_id" := JText(v.id), "settings" := JObject(map k <- v.settings.Keys :: ValueJson(v.settings[k]))])
  }

  function PairSpecJson(p: PairSpec): Json {
    JObject(map["treatment_axis" := JText(p.axis), "control_variant_id" := JText(p.control),
                "treatment_variant_id" := JText(p.treatment)])
  }

  function Tagged(name: string): string -> Json {
    (s: string) => JObject(map[name := JText(s)])
  }

  function SuiteJson(s: RetrievalSuite): Json {
    JObject(map["retrieval_suite_id" := JText(s.id), "queries" := JList(Each(s.queries, Tagged("query_id"))),
                "configurations" := JList(Each(s.configurations, Tagged("configuration_id")))])
  }

  function DefinitionJson(d: Definition): Json {
    JObject(map["pack_id" := JText(d.packId), "tasks" := JList(Each(d.tasks, Tagged("task_id"))),
                "variants" := JList(Each(d.variants, VariantJson)), "pairs" := JList(Each(d.pairs, PairSpecJson)),
                "retrieval_suites" := JList(Each(d.suites, SuiteJson)), "identity" := d.extra])
  }

  function SpecJson(s: Spec): Json {
    JObject(map["repetitions" := JNumber(s.repetitions), "pack_ids" := TextList(s.packIds),
                "max_comparison_block_attempts" := JNumber(s.maxAttempts),
                "max_comparison_block_retries_total" := if s.maxRetries.Some? then JNumber(s.maxRetries.value) else JNull,
                "identity" := s.extra])
  }

  /** What the experiment id is the digest of. */
  function IdentityJson(spec: Json, definitions: Json): Json {
    JObject(map["spec" := spec, "pack_definitions" := definitions])
  }

  /** The five derived lists stand beside the identity they are derived from. */
  function ManifestJson(p: Plan): Json {
    var l := ListsJson(p.lists);
    JObject(map["experiment_id" := JText(p.experiment), "plan_digest" := JText(p.experiment),
                "spec" := SpecJson(p.spec), "pack_definitions" := JList(Each(p.definitions, DefinitionJson)),
                "trials" := JList(l.trials), "comparison_blocks" := JList(l.blocks), "pairs" := JList(l.pairs),
                "retrieval_cases" := JList(l.cases), "retrieval_query_blocks" := JList(l.queries)])
  }

  /** The entry point of the compiler: it rejects an identity with a forbidden field name or an
      absolute path, and the experiment id is the digest of the identity. */
  method CompileExperiment(digest: Digest, spec: Spec, ds: seq<Definition>) returns (r: Result<Plan, PlanError>)
    ensures var identity := IdentityJson(SpecJson(spec), JList(Each(ds, DefinitionJson)));
      && (r.Success? <==> PackIds(ds) == spec.packIds && PlanValue(identity) && AllPairsFit(ds))
      && (r == Failure(NotCanonical) <==> PackIds(ds) == spec.packIds && !PlanValue(identity))
      && (r.Success? ==> r.value == PlanOf(digest, digest(identity), spec, ds))
  {
    var identity := IdentityJson(SpecJson(spec), JList(Each(ds, DefinitionJson)));
    if PackIds(ds) != spec.packIds {
      return Failure(WrongPacks);
    }
    if !PlanValue(identity) {
      return Failure(NotCanonical);
    }
    r := CompilePlan(digest, digest(identity), spec, ds);
  }

  // ---------------------------------------------------------------- reading

  predicate Hashable(j: Json) {
    !j.JList? && !j.JObject?
  }

  predicate GoodPair(p: Json) {
    Has(p, "treatment_axis") && Has(p, "control_variant_id") && Has(p, "treatment_variant_id")
  }

  predicate HashablePair(p: Json) {
    Hashable(Field(p, "control_variant_id")) && Hashable(Field(p, "treatment_variant_id"))
  }

  predicate GoodVariant(v: Json) {
    HasText(v, "variant_id")
  }

  /** Nothing raises while one repetition of one task is derived. */
  predicate GoodBlock(pairs: seq<Json>, variants: seq<Json>) {
    && (forall p :: p in pairs ==> GoodPair(p))
    && (forall v :: v in variants ==> GoodVariant(v))
    && (variants != [] ==> forall p :: p in pairs ==> HashablePair(p))
  }

  predicate GoodTask(t: Json) {
    HasText(t, "task_id")
  }

  predicate GoodTasks(tasks: seq<Json>, pairs: seq<Json>, variants: seq<Json>) {
    (forall t :: t in tasks ==> GoodTask(t)) && (tasks != [] ==> GoodBlock(pairs, variants))
  }

  predicate GoodSuite(s: Json) {
    && HasText(s, "retrieval_suite_id") && HasList(s, "queries") && HasList(s, "configurations")
    && (forall q :: q in Items(s, "queries") ==> HasText(q, "query_id"))
    && (Items(s, "queries") != [] ==> forall c :: c in Items(s, "configurations") ==> HasText(c, "configuration_id"))
  }

  predicate GoodDefinition(d: Json) {
    && HasText(d, "pack_id") && HasList(d, "tasks") && HasList(d, "variants") && HasList(d, "pairs") && HasList(d, "retrieval_suites")
    && GoodTasks(Items(d, "tasks"), Items(d, "pairs"), Items(d, "variants"))
    && (forall s :: s in Items(d, "retrieval_suites") ==> GoodSuite(s))
  }

  predicate AllGood(ds: seq<Json>) {
    forall d :: d in ds ==> GoodDefinition(d)
  }

  function PackIdsOf(ds: seq<Json>): seq<Json> {
    seq(|ds|, i requires 0 <= i < |ds| => Field(ds[i], "pack_id"))
  }

  /** The derivation does not raise. */
  predicate Derivable(x: Json, spec: Json, definitions: Json) {
    && x.JText? && spec.JObject? && definitions.JList?
    && Has(spec, "repetitions") && Field(spec, "repetitions").JNumber? && 1 <= Field(spec, "repetitions").n
    && HasList(spec, "pack_ids")
    && AllGood(definitions.items)
    && Items(spec, "pack_ids") == PackIdsOf(definitions.items)
  }

  // The derivation builds every key and entry itself; it shares no encoding with the writer above.

  function DerivedBlockKey(b: BlockKey): Json {
    JObject(map["experiment_id" := JText(b.experiment), "pack_id" := JText(b.pack), "task_id" := JText(b.task),
                "repetition" := JNumber(b.repetition)])
  }

  function DerivedTrialKey(b: BlockKey, variant: string): Json {
    JObject(map["experiment_id" := JText(b.experiment), "pack_id" := JText(b.pack), "task_id" := JText(b.task),
                "variant_id" := JText(variant), "repetition" := JNumber(b.repetition)])
  }

  function DerivedQueryKey(q: QueryKey): Json {
    JObject(map["experiment_id" := JText(q.experiment), "retrieval_suite_id" := JText(q.suite), "query_id" := JText(q.query)])
  }

  function DerivedCaseKey(q: QueryKey, configuration: string): Json {
    JObject(map["experiment_id" := JText(q.experiment), "retrieval_suite_id" := JText(q.suite), "query_id" := JText(q.query),
                "configuration_id" := JText(configuration)])
  }

  function DerivedTrialEntry(key: Json, memberships: seq<Json>): Json {
    JObject(map["key" := key, "pair_memberships" := JList(memberships)])
  }

  function DerivedBlockEntry(key: Json, trials: seq<Json>): Json {
    JObject(map["key" := key, "trial_keys" := JList(trials)])
  }

  function DerivedCaseEntry(key: Json, block: Json): Json {
    JObject(map["key" := key, "query_block" := block])
  }

  function DerivedQueryEntry(key: Json, cases: seq<Json>): Json {
    JObject(map["key" := key, "case_keys" := JList(cases)])
  }

  function DerivedOrder(b: BlockKey, variant: Json): Json {
    JObject(map["experiment_id" := JText(b.experiment), "block" := DerivedBlockKey(b), "variant_id" := variant])
  }

  function DerivedPairKey(x: string, pack: string, task: string, rep: nat, p: Json): Json {
    JObject(map["experiment_id" := JText(x), "pack_id" := JText(pack), "treatment_axis" := Field(p, "treatment_axis"),
                "task_id" := JText(task), "repetition" := JNumber(rep),
                "control_variant_id" := Field(p, "control_variant_id"),
                "treatment_variant_id" := Field(p, "treatment_variant_id")])
  }

  function DerivedPairKeys(x: string, pack: string, task: string, rep: nat, pairs: seq<Json>): (keys: seq<Json>)
    ensures |keys| == |pairs|
  {
    seq(|pairs|, i requires 0 <= i < |pairs| => DerivedPairKey(x, pack, task, rep, pairs[i]))
  }

  function DerivedMemberships(pairs: seq<Json>, variant: Json): seq<Json> {
    if pairs == [] then []
    else if variant == Field(Last(pairs), "control_variant_id") || variant == Field(Last(pairs), "treatment_variant_id")
    then DerivedMemberships(Init(pairs), variant) + [Last(pairs)]
    else DerivedMemberships(Init(pairs), variant)
  }

  function DerivedTrialKeys(b: BlockKey, variants: seq<Json>): (keys: seq<Json>)
    ensures |keys| == |variants|
  {
    seq(|variants|, i requires 0 <= i < |variants| => DerivedTrialKey(b, Text(variants[i], "variant_id")))
  }

  function DerivedTrials(b: BlockKey, variants: seq<Json>, pairs: seq<Json>): (trials: seq<Json>)
    ensures |trials| == |variants|
  {
    seq(|variants|, i requires 0 <= i < |variants| =>
      DerivedTrialEntry(DerivedTrialKey(b, Text(variants[i], "variant_id")),
                DerivedMemberships(pairs, JText(Text(variants[i], "variant_id")))))
  }

  function DerivedRank(digest: Digest, b: BlockKey): Json -> string {
    (k: Json) => digest(DerivedOrder(b, Field(k, "variant_id")))
  }

  function DerivedBlock(digest: Digest, x: string, pack: string, task: string, rep: nat, pairs: seq<Json>,
                        variants: seq<Json>): JsonLists {
    var b := BlockKey(x, pack, task, rep);
    var keys := DerivedPairKeys(x, pack, task, rep, pairs);
    JsonLists(DerivedTrials(b, variants, keys),
              [DerivedBlockEntry(DerivedBlockKey(b), SortByRank(DerivedTrialKeys(b, variants), DerivedRank(digest, b)))],
              keys, [], [])
  }

  function DerivedTask(digest: Digest, x: string, pack: string, task: string, reps: nat, pairs: seq<Json>,
                       variants: seq<Json>): JsonLists {
    if reps == 0 then NONE
    else DerivedTask(digest, x, pack, task, reps - 1, pairs, variants)
         .Plus(DerivedBlock(digest, x, pack, task, reps - 1, pairs, variants))
  }

  function DerivedTasks(digest: Digest, x: string, pack: string, tasks: seq<Json>, reps: nat, pairs: seq<Json>,
                        variants: seq<Json>): JsonLists {
    if tasks == [] then NONE
    else DerivedTasks(digest, x, pack, Init(tasks), reps, pairs, variants)
         .Plus(DerivedTask(digest, x, pack, Text(Last(tasks), "task_id"), reps, pairs, variants))
  }

  function DerivedCaseKeys(q: QueryKey, configurations: seq<Json>): (keys: seq<Json>)
    ensures |keys| == |configurations|
  {
    seq(|configurations|, i requires 0 <= i < |configurations| =>
      DerivedCaseKey(q, Text(configurations[i], "configuration_id")))
  }

  function DerivedCases(q: QueryKey, keys: seq<Json>): (cases: seq<Json>)
    ensures |cases| == |keys|
  {
    seq(|keys|, i requires 0 <= i < |keys| => DerivedCaseEntry(keys[i], DerivedQueryKey(q)))
  }

  function DerivedQuery(q: QueryKey, configurations: seq<Json>): JsonLists {
    var keys := DerivedCaseKeys(q, configurations);
    JsonLists([], [], [], DerivedCases(q, keys), [DerivedQueryEntry(DerivedQueryKey(q), keys)])
  }

  function DerivedQueries(x: string, suite: string, queries: seq<Json>, configurations: seq<Json>): JsonLists {
    if queries == [] then NONE
    else DerivedQueries(x, suite, Init(queries), configurations)
         .Plus(DerivedQuery(QueryKey(x, suite, Text(Last(queries), "query_id")), configurations))
  }

  function DerivedSuites(x: string, suites: seq<Json>): JsonLists {
    if suites == [] then NONE
    else DerivedSuites(x, Init(suites))
         .Plus(DerivedQueries(x, Text(Last(suites), "retrieval_suite_id"), Items(Last(suites), "queries"),
                              Items(Last(suites), "configurations")))
  }

  function DerivedDefinition(digest: Digest, x: string, d: Json, reps: nat): JsonLists {
    DerivedTasks(digest, x, Text(d, "pack_id"), Items(d, "tasks"), reps, Items(d, "pairs"), Items(d, "variants"))
    .Plus(DerivedSuites(x, Items(d, "retrieval_suites")))
  }

  function DerivedDefinitions(digest: Digest, x: string, ds: seq<Json>, reps: nat): JsonLists {
    if ds == [] then NONE
    else DerivedDefinitions(digest, x, Init(ds), reps).Plus(DerivedDefinition(digest, x, Last(ds), reps))
  }

  // ---------------------------------------------------------------- the derivation

  lemma JsonPlusAssociates(a: JsonLists, b: JsonLists, c: JsonLists)
    ensures a.Plus(b).Plus(c) == a.Plus(b.Plus(c)) && a.Plus(NONE) == a
  {
  }

  method DerivePairKeys(x: string, pack: string, task: string, rep: nat,
                        pairs: seq<Json>) returns (r: Option<seq<Json>>)
    ensures r.Some? <==> forall p :: p in pairs ==> GoodPair(p)
    ensures r.Some? ==> r.value == DerivedPairKeys(x, pack, task, rep, pairs)
  {
    var keys: seq<Json> := [];
    for i := 0 to |pairs|
      invariant (forall p :: p in pairs[..i] ==> GoodPair(p)) && keys == DerivedPairKeys(x, pack, task, rep, pairs[..i])
    {
      assert pairs[i] in pairs;
      if !GoodPair(pairs[i]) {
        return None;
      }
      keys := keys + [DerivedPairKey(x, pack, task, rep, pairs[i])];
    }
    assert pairs[..|pairs|] == pairs;
    r := Some(keys);
  }

  method DeriveTrials(b: BlockKey, variants: seq<Json>, pairs: seq<Json>) returns (r: Option<seq<Json>>,
                      keys: seq<Json>)
    ensures r.Some? <==> (forall v :: v in variants ==> GoodVariant(v)) && (variants != [] ==> forall p :: p in pairs ==> HashablePair(p))
    ensures r.Some? ==> r.value == DerivedTrials(b, variants, pairs) && keys == DerivedTrialKeys(b, variants)
  {
    var trials: seq<Json> := [];
    keys := [];
    for i := 0 to |variants|
      invariant forall v :: v in variants[..i] ==> GoodVariant(v)
      invariant i > 0 ==> forall p :: p in pairs ==> HashablePair(p)
      invariant trials == DerivedTrials(b, variants[..i], pairs) && keys == DerivedTrialKeys(b, variants[..i])
    {
      assert variants[i] in variants;
      if !GoodVariant(variants[i]) || exists p :: p in pairs && !HashablePair(p) {
        return None, [];
      }
      var key := DerivedTrialKey(b, Text(variants[i], "variant_id"));
      trials := trials + [DerivedTrialEntry(key, DerivedMemberships(pairs, JText(Text(variants[i], "variant_id"))))];
      keys := keys + [key];
    }
    assert variants[..|variants|] == variants;
    r := Some(trials);
  }

  lemma HashableKeys(x: string, pack: string, task: string, rep: nat, pairs: seq<Json>)
    ensures (forall p :: p in DerivedPairKeys(x, pack, task, rep, pairs) ==> HashablePair(p)) <==> (forall p :: p in pairs ==> HashablePair(p))
  {
    var keys := DerivedPairKeys(x, pack, task, rep, pairs);
    assert forall i :: 0 <= i < |pairs| ==> (HashablePair(keys[i]) <==> HashablePair(pairs[i]));
    assert forall p :: p in pairs ==> exists i :: 0 <= i < |pairs| && pairs[i] == p && keys[i] in keys;
  }

  method DeriveBlock(digest: Digest, x: string, pack: string, task: string, rep: nat, pairs: seq<Json>,
                     variants: seq<Json>)
    returns (r: Option<JsonLists>)
    ensures r.Some? <==> GoodBlock(pairs, variants)
    ensures r.Some? ==> r.value == DerivedBlock(digest, x, pack, task, rep, pairs, variants)
  {
    var b := BlockKey(x, pack, task, rep);
    var pairKeys := DerivePairKeys(x, pack, task, rep, pairs);
    if pairKeys.None? {
      return None;
    }
    HashableKeys(x, pack, task, rep, pairs);
    var trials, keys := DeriveTrials(b, variants, pairKeys.value);
    if trials.None? {
      return None;
    }
    r := Some(JsonLists(trials.value, [DerivedBlockEntry(DerivedBlockKey(b), SortByRank(keys, DerivedRank(digest, b)))], pairKeys.value, [], []));
  }

  method DeriveTasks(digest: Digest, x: string, pack: string, tasks: seq<Json>, reps: nat, pairs: seq<Json>,
                     variants: seq<Json>)
    returns (r: Option<JsonLists>)
    requires 1 <= reps
    ensures r.Some? <==> GoodTasks(tasks, pairs, variants)
    ensures r.Some? ==> r.value == DerivedTasks(digest, x, pack, tasks, reps, pairs, variants)
  {
    var l := NONE;
    for t := 0 to |tasks|
      invariant GoodTasks(tasks[..t], pairs, variants)
      invariant l == DerivedTasks(digest, x, pack, tasks[..t], reps, pairs, variants)
    {
      assert tasks[t] in tasks && tasks[..t + 1] == tasks[..t] + [tasks[t]];
      if !GoodTask(tasks[t]) {
        return None;
      }
      var task := Text(tasks[t], "task_id");
      ghost var before := l;
      JsonPlusAssociates(before, NONE, NONE);
      for rep := 0 to reps
        invariant rep > 0 ==> GoodBlock(pairs, variants)
        invariant l == before.Plus(DerivedTask(digest, x, pack, task, rep, pairs, variants))
      {
        var block := DeriveBlock(digest, x, pack, task, rep, pairs, variants);
        if block.None? {
          return None;
        }
        JsonPlusAssociates(before, DerivedTask(digest, x, pack, task, rep, pairs, variants), block.value);
        l := l.Plus(block.value);
      }
    }
    assert tasks[..|tasks|] == tasks;
    r := Some(l);
  }

  method DeriveSuite(x: string, suite: Json) returns (r: Option<JsonLists>)
    ensures r.Some? <==> GoodSuite(suite)
    ensures r.Some? ==>
      r.value == DerivedQueries(x, Text(suite, "retrieval_suite_id"), Items(suite, "queries"), Items(suite, "configurations"))
  {
    if !HasText(suite, "retrieval_suite_id") || !HasList(suite, "queries") || !HasList(suite, "configurations") {
      return None;
    }
    var id, queries, configurations := Text(suite, "retrieval_suite_id"), Items(suite, "queries"), Items(suite, "configurations");
    var l := NONE;
    for i := 0 to |queries|
      invariant forall q :: q in queries[..i] ==> HasText(q, "query_id")
      invariant i > 0 ==> forall c :: c in configurations ==> HasText(c, "configuration_id")
      invariant l == DerivedQueries(x, id, queries[..i], configurations)
    {
      assert queries[i] in queries && queries[..i + 1] == queries[..i] + [queries[i]];
      if !HasText(queries[i], "query_id") {
        return None;
      }
      var q := QueryKey(x, id, Text(queries[i], "query_id"));
      var keys: seq<Json> := [];
      var cases: seq<Json> := [];
      for j := 0 to |configurations|
        invariant forall c :: c in configurations[..j] ==> HasText(c, "configuration_id")
        invariant keys == DerivedCaseKeys(q, configurations[..j]) && cases == DerivedCases(q, keys)
      {
        assert configurations[j] in configurations;
        if !HasText(configurations[j], "configuration_id") {
          return None;
        }
        var key := DerivedCaseKey(q, Text(configurations[j], "configuration_id"));
        keys := keys + [key];
        cases := cases + [DerivedCaseEntry(key, DerivedQueryKey(q))];
      }
      assert configurations[..|configurations|] == configurations;
      l := l.Plus(JsonLists([], [], [], cases, [DerivedQueryEntry(DerivedQueryKey(q), keys)]));
    }
    assert queries[..|queries|] == queries;
    r := Some(l);
  }

  method DeriveSuites(x: string, suites: seq<Json>) returns (r: Option<JsonLists>)
    ensures r.Some? <==> forall s :: s in suites ==> GoodSuite(s)
    ensures r.Some? ==> r.value == DerivedSuites(x, suites)
  {
    var l := NONE;
    for i := 0 to |suites|
      invariant (forall s :: s in suites[..i] ==> GoodSuite(s)) && l == DerivedSuites(x, suites[..i])
    {
      assert suites[i] in suites && suites[..i + 1] == suites[..i] + [suites[i]];
      var more := DeriveSuite(x, suites[i]);
      if more.None? {
        return None;
      }
      l := l.Plus(more.value);
    }
    assert suites[..|suites|] == suites;
    r := Some(l);
  }

  method DeriveDefinition(digest: Digest, x: string, d: Json, reps: nat) returns (r: Option<JsonLists>)
    requires 1 <= reps
    ensures r.Some? <==> GoodDefinition(d)
    ensures r.Some? ==> r.value == DerivedDefinition(digest, x, d, reps)
  {
    if !HasText(d, "pack_id") || !HasList(d, "tasks") || !HasList(d, "variants") || !HasList(d, "pairs") || !HasList(d, "retrieval_suites") {
      return None;
    }
    var blocks := DeriveTasks(digest, x, Text(d, "pack_id"), Items(d, "tasks"), reps, Items(d, "pairs"), Items(d, "variants"));
    if blocks.None? {
      return None;
    }
    var retrieval := DeriveSuites(x, Items(d, "retrieval_suites"));
    if retrieval.None? {
      return None;
    }
    r := Some(blocks.value.Plus(retrieval.value));
  }

  lemma AllGoodSnoc(ds: seq<Json>, i: nat)
    requires i < |ds|
    ensures AllGood(ds[..i + 1]) <==> AllGood(ds[..i]) && GoodDefinition(ds[i])
    ensures AllGood(ds) ==> GoodDefinition(ds[i])
  {
    assert ds[..i + 1] == ds[..i] + [ds[i]];
  }

  method DeriveDefinitions(digest: Digest, x: string, ds: seq<Json>, reps: nat) returns (r: Option<JsonLists>)
    requires 1 <= reps
    ensures r.Some? <==> AllGood(ds)
    ensures r.Some? ==> r.value == DerivedDefinitions(digest, x, ds, reps)
  {
    var l := NONE;
    for i := 0 to |ds|
      invariant AllGood(ds[..i]) && l == DerivedDefinitions(digest, x, ds[..i], reps)
    {
      AllGoodSnoc(ds, i);
      var more := DeriveDefinition(digest, x, ds[i], reps);
      if more.None? {
        return None;
      }
      assert ds[..i + 1] == ds[..i] + [ds[i]];
      Snoc(ds[..i], ds[i]);
      l := l.Plus(more.value);
    }
    assert ds[..|ds|] == ds;
    r := Some(l);
  }

  method DeriveManifestPlan(digest: Digest, x: Json, spec: Json, definitions: Json) returns (r: Option<JsonLists>)
    ensures r.Some? <==> Derivable(x, spec, definitions)
    ensures r.Some? ==> r.value == DerivedDefinitions(digest, x.s, definitions.items, Field(spec, "repetitions").n)
  {
    if !x.JText? || !spec.JObject? || !definitions.JList? {
      return None;
    }
    if !Has(spec, "repetitions") || !Field(spec, "repetitions").JNumber? || Field(spec, "repetitions").n < 1 || !HasList(spec, "pack_ids") {
      return None;
    }
    r := DeriveDefinitions(digest, x.s, definitions.items, Field(spec, "repetitions").n);
    if r.Some? && Items(spec, "pack_ids") != PackIdsOf(definitions.items) {
      return None;
    }
  }

  /** The manifest carries exactly the derived lists. */
  predicate Carries(m: Json, l: JsonLists) {
    && Field(m, "trials") == JList(l.trials) && Field(m, "comparison_blocks") == JList(l.blocks)
    && Field(m, "pairs") == JList(l.pairs) && Field(m, "retrieval_cases") == JList(l.cases)
    && Field(m, "retrieval_query_blocks") == JList(l.queries)
  }

  predicate HasIdentity(m: Json) {
    && Has(m, "experiment_id") && Has(m, "spec") && Has(m, "pack_definitions")
    && Derivable(Field(m, "experiment_id"), Field(m, "spec"), Field(m, "pack_definitions"))
  }

  function Derived(digest: Digest, m: Json): JsonLists
    requires HasIdentity(m)
  {
    DerivedDefinitions(digest, Field(m, "experiment_id").s, Field(m, "pack_definitions").items, Field(Field(m, "spec"), "repetitions").n)
  }

  method ManifestMatchesIdentity(digest: Digest, m: Json) returns (ok: bool)
    ensures ok <==> HasIdentity(m) && Carries(m, Derived(digest, m))
  {
    if !Has(m, "experiment_id") || !Has(m, "spec") || !Has(m, "pack_definitions") {
      return false;
    }
    var l := DeriveManifestPlan(digest, Field(m, "experiment_id"), Field(m, "spec"), Field(m, "pack_definitions"));
    return l.Some? && Carries(m, l.value);
  }
}

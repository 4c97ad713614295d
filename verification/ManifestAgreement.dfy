/** The plan compiler and the derivation from the manifest agree. */
module ManifestAgreement {
  import opened Sequences
  import opened CanonicalJson
  import opened Records
  import opened Plan
  import opened Manifest

  lemma EachAppend<T>(s: seq<T>, t: seq<T>, f: T -> Json)
    ensures Each(s + t, f) == Each(s, f) + Each(t, f)
  {
  }

  lemma ListsJsonOfPlus(l: Lists, m: Lists)
    ensures ListsJson(l.Plus(m)) == ListsJson(l).Plus(ListsJson(m))
  {
    EachAppend(l.trials, m.trials, PlannedTrialJson);
    EachAppend(l.blocks, m.blocks, PlannedBlockJson);
    EachAppend(l.pairs, m.pairs, PairKeyJson);
    EachAppend(l.cases, m.cases, PlannedCaseJson);
    EachAppend(l.queries, m.queries, PlannedQueryJson);
  }

  lemma EachInit<T>(s: seq<T>, f: T -> Json)
    requires s != []
    ensures Init(Each(s, f)) == Each(Init(s), f) && Last(Each(s, f)) == f(Last(s))
  {
  }

  lemma PairKeysAgree(x: string, d: Definition, task: string, rep: nat)
    ensures DerivedPairKeys(x, d.packId, task, rep, Each(d.pairs, PairSpecJson)) == Each(PairKeys(x, d, task, rep), PairKeyJson)
  {
    forall i | 0 <= i < |d.pairs|
      ensures DerivedPairKey(x, d.packId, task, rep, PairSpecJson(d.pairs[i])) == PairKeyJson(PairKeys(x, d, task, rep)[i])
    {
    }
  }

  lemma {:induction false} MembershipsAgree(pairs: seq<PairKey>, variant: string)
    ensures DerivedMemberships(Each(pairs, PairKeyJson), JText(variant)) == Each(Memberships(pairs, variant), PairKeyJson)
  {
    if pairs != [] {
      EachInit(pairs, PairKeyJson);
      MembershipsAgree(Init(pairs), variant);
      var p := Last(pairs);
      assert Field(PairKeyJson(p), "control_variant_id") == JText(p.control);
      assert Field(PairKeyJson(p), "treatment_variant_id") == JText(p.treatment);
      EachAppend(Memberships(Init(pairs), variant), [p], PairKeyJson);
      assert Each([p], PairKeyJson) == [PairKeyJson(p)];
    }
  }

  lemma {:induction false} InsertAgrees(k: TrialKey, s: seq<TrialKey>, rank: TrialKey -> string,
                                        rankJson: Json -> string)
    requires forall t: TrialKey :: rankJson(TrialKeyJson(t)) == rank(t)
    ensures InsertByRank(TrialKeyJson(k), Each(s, TrialKeyJson), rankJson) == Each(InsertByRank(k, s, rank), TrialKeyJson)
  {
    if s == [] || Before(rank(k), rank(s[0])) {
      EachAppend([k], s, TrialKeyJson);
      assert Each([k], TrialKeyJson) == [TrialKeyJson(k)];
    } else {
      InsertAgrees(k, s[1..], rank, rankJson);
      assert Each(s, TrialKeyJson)[1..] == Each(s[1..], TrialKeyJson);
      EachAppend([s[0]], InsertByRank(k, s[1..], rank), TrialKeyJson);
      assert Each([s[0]], TrialKeyJson) == [TrialKeyJson(s[0])];
    }
  }

  lemma {:induction false} SortAgrees(s: seq<TrialKey>, rank: TrialKey -> string, rankJson: Json -> string)
    requires forall t: TrialKey :: rankJson(TrialKeyJson(t)) == rank(t)
    ensures SortByRank(Each(s, TrialKeyJson), rankJson) == Each(SortByRank(s, rank), TrialKeyJson)
  {
    if s != [] {
      EachInit(s, TrialKeyJson);
      SortAgrees(Init(s), rank, rankJson);
      InsertAgrees(Last(s), SortByRank(Init(s), rank), rank, rankJson);
    }
  }

  lemma VariantsAgree(b: BlockKey, variants: seq<Variant>, pairs: seq<PairKey>)
    ensures DerivedTrialKeys(b, Each(variants, VariantJson)) == Each(TrialKeys(b, variants), TrialKeyJson)
    ensures DerivedTrials(b, Each(variants, VariantJson), Each(pairs, PairKeyJson)) == Each(BlockTrials(b, variants, pairs), PlannedTrialJson)
  {
    forall i | 0 <= i < |variants|
      ensures Text(Each(variants, VariantJson)[i], "variant_id") == variants[i].id
      ensures DerivedMemberships(Each(pairs, PairKeyJson), JText(variants[i].id)) == Each(Memberships(pairs, variants[i].id), PairKeyJson)
    {
      assert Text(VariantJson(variants[i]), "variant_id") == variants[i].id;
      MembershipsAgree(pairs, variants[i].id);
    }
  }

  function PairsJson(d: Definition): seq<Json> {
    Each(d.pairs, PairSpecJson)
  }

  function VariantsJson(d: Definition): seq<Json> {
    Each(d.variants, VariantJson)
  }

  lemma BlockAgrees(digest: Digest, x: string, d: Definition, task: string, rep: nat)
    ensures DerivedBlock(digest, x, d.packId, task, rep, PairsJson(d), VariantsJson(d)) == ListsJson(EmitBlock(digest, x, d, task, rep))
  {
    var b := BlockKey(x, d.packId, task, rep);
    PairKeysAgree(x, d, task, rep);
    VariantsAgree(b, d.variants, PairKeys(x, d, task, rep));
    RanksAgree(digest, b);
    SortAgrees(TrialKeys(b, d.variants), TrialRank(digest, b), DerivedRank(digest, b));
  }

  /** Both sides draw a trial's position from the same payload. */
  lemma OrdersAgree(b: BlockKey, variant: string)
    ensures DerivedOrder(b, JText(variant)) == OrderPayload(JText(b.experiment), BlockJson(b), JText(variant))
  {
    assert DerivedBlockKey(b) == BlockJson(b);
  }

  lemma RanksAgree(digest: Digest, b: BlockKey)
    ensures forall t: TrialKey :: DerivedRank(digest, b)(TrialKeyJson(t)) == TrialRank(digest, b)(t)
  {
    forall t: TrialKey
      ensures DerivedRank(digest, b)(TrialKeyJson(t)) == TrialRank(digest, b)(t)
    {
      assert Field(TrialKeyJson(t), "variant_id") == JText(t.variant);
      OrdersAgree(b, t.variant);
    }
  }

  lemma EmptyAgrees()
    ensures ListsJson(EMPTY) == NONE
  {
  }

  lemma Join(a: JsonLists, b: JsonLists, l: Lists, m: Lists)
    requires a == ListsJson(l) && b == ListsJson(m)
    ensures a.Plus(b) == ListsJson(l.Plus(m))
  {
    ListsJsonOfPlus(l, m);
  }

  ghost predicate SameTask(digest: Digest, x: string, d: Definition, task: string, rep: nat) {
    DerivedTask(digest, x, d.packId, task, rep, PairsJson(d), VariantsJson(d)) == ListsJson(EmitTask(digest, x, d, task, rep))
  }

  lemma NoRepetitions(digest: Digest, x: string, d: Definition, task: string)
    ensures SameTask(digest, x, d, task, 0)
  {
    EmptyAgrees();
  }

  lemma OneMoreRepetition(digest: Digest, x: string, d: Definition, task: string, rep: nat, next: nat)
    requires next == rep + 1 && SameTask(digest, x, d, task, rep)
    ensures SameTask(digest, x, d, task, next)
  {
    BlockAgrees(digest, x, d, task, rep);
    ListsJsonOfPlus(EmitTask(digest, x, d, task, rep), EmitBlock(digest, x, d, task, rep));
  }

  lemma {:induction false} Climb(p: nat -> bool, n: nat)
    requires p(0) && forall k: nat, next: nat :: p(k) && next == k + 1 ==> p(next)
    ensures p(n)
  {
    if n > 0 {
      Climb(p, n - 1);
    }
  }

  lemma TaskAgrees(digest: Digest, x: string, d: Definition, task: string, reps: nat)
    ensures SameTask(digest, x, d, task, reps)
  {
    var same := (k: nat) => SameTask(digest, x, d, task, k);
    NoRepetitions(digest, x, d, task);
    forall k: nat, next: nat | same(k) && next == k + 1
      ensures same(next)
    {
      OneMoreRepetition(digest, x, d, task, k, next);
    }
    Climb(same, reps);
  }

  lemma {:induction false} TasksAgree(digest: Digest, x: string, d: Definition, tasks: seq<string>, reps: nat)
    ensures DerivedTasks(digest, x, d.packId, Each(tasks, Tagged("task_id")), reps, PairsJson(d), VariantsJson(d))
      == ListsJson(EmitTasks(digest, x, d, tasks, reps))
    decreases |tasks|
  {
    EmptyAgrees();
    if tasks != [] {
      EachInit(tasks, Tagged("task_id"));
      TasksAgree(digest, x, d, Init(tasks), reps);
      TaskAgrees(digest, x, d, Last(tasks), reps);
      ListsJsonOfPlus(EmitTasks(digest, x, d, Init(tasks), reps), EmitTask(digest, x, d, Last(tasks), reps));
    }
  }

  lemma QueryAgrees(q: QueryKey, configurations: seq<string>)
    ensures DerivedQuery(q, Each(configurations, Tagged("configuration_id")))
      == ListsJson(Lists([], [], [], PlannedCases(q, CaseKeys(q, configurations)), [PlannedQuery(q, CaseKeys(q, configurations))]))
  {
    var keys := CaseKeys(q, configurations);
    assert DerivedCaseKeys(q, Each(configurations, Tagged("configuration_id"))) == Each(keys, CaseKeyJson);
    assert DerivedCases(q, Each(keys, CaseKeyJson)) == Each(PlannedCases(q, keys), PlannedCaseJson);
    assert Each([PlannedQuery(q, keys)], PlannedQueryJson) == [PlannedQueryJson(PlannedQuery(q, keys))];
  }

  lemma {:induction false} QueriesAgree(x: string, suite: RetrievalSuite, queries: seq<string>)
    ensures DerivedQueries(x, suite.id, Each(queries, Tagged("query_id")), Each(suite.configurations, Tagged("configuration_id")))
      == ListsJson(EmitSuite(x, suite, queries))
  {
    EmptyAgrees();
    if queries != [] {
      EachInit(queries, Tagged("query_id"));
      QueriesAgree(x, suite, Init(queries));
      QueryAgrees(QueryKey(x, suite.id, Last(queries)), suite.configurations);
      ListsJsonOfPlus(EmitSuite(x, suite, Init(queries)), EmitQuery(x, suite, Last(queries)));
    }
  }

  lemma SuiteFields(s: RetrievalSuite)
    ensures Text(SuiteJson(s), "retrieval_suite_id") == s.id
    ensures Items(SuiteJson(s), "queries") == Each(s.queries, Tagged("query_id"))
    ensures Items(SuiteJson(s), "configurations") == Each(s.configurations, Tagged("configuration_id"))
    ensures GoodSuite(SuiteJson(s))
  {
  }

  lemma SuiteAgrees(x: string, suite: RetrievalSuite, j: Json)
    requires j == SuiteJson(suite)
    ensures DerivedQueries(x, Text(j, "retrieval_suite_id"), Items(j, "queries"), Items(j, "configurations"))
      == ListsJson(EmitSuite(x, suite, suite.queries))
  {
    SuiteFields(suite);
    QueriesAgree(x, suite, suite.queries);
  }

  lemma {:induction false} SuitesAgree(x: string, suites: seq<RetrievalSuite>)
    ensures DerivedSuites(x, Each(suites, SuiteJson)) == ListsJson(EmitSuites(x, suites))
  {
    EmptyAgrees();
    if suites != [] {
      var js, j := Each(suites, SuiteJson), SuiteJson(Last(suites));
      EachInit(suites, SuiteJson);
      SuitesAgree(x, Init(suites));
      SuiteAgrees(x, Last(suites), j);
      Join(DerivedSuites(x, Init(js)), DerivedQueries(x, Text(j, "retrieval_suite_id"), Items(j, "queries"), Items(j, "configurations")),
           EmitSuites(x, Init(suites)), EmitSuite(x, Last(suites), Last(suites).queries));
    }
  }

  lemma DefinitionFields(d: Definition, j: Json)
    requires j == DefinitionJson(d)
    ensures HasText(j, "pack_id") && HasList(j, "tasks") && HasList(j, "variants") && HasList(j, "pairs") && HasList(j, "retrieval_suites")
    ensures Text(j, "pack_id") == d.packId && Items(j, "tasks") == Each(d.tasks, Tagged("task_id"))
    ensures Items(j, "variants") == Each(d.variants, VariantJson) && Items(j, "pairs") == Each(d.pairs, PairSpecJson)
    ensures Items(j, "retrieval_suites") == Each(d.suites, SuiteJson)
  {
  }

  lemma PartsAreGood(d: Definition)
    ensures GoodTasks(Each(d.tasks, Tagged("task_id")), Each(d.pairs, PairSpecJson), Each(d.variants, VariantJson))
    ensures forall s :: s in Each(d.suites, SuiteJson) ==> GoodSuite(s)
  {
    forall i | 0 <= i < |d.suites|
      ensures GoodSuite(SuiteJson(d.suites[i]))
    {
      SuiteFields(d.suites[i]);
    }
  }

  lemma DefinitionIsGood(d: Definition)
    ensures GoodDefinition(DefinitionJson(d))
  {
    DefinitionFields(d, DefinitionJson(d));
    PartsAreGood(d);
  }

  lemma DefinitionAgrees(digest: Digest, x: string, d: Definition, j: Json, reps: nat)
    requires j == DefinitionJson(d)
    ensures DerivedDefinition(digest, x, j, reps) == ListsJson(EmitDefinition(digest, x, d, reps))
  {
    DefinitionFields(d, j);
    TasksAgree(digest, x, d, d.tasks, reps);
    SuitesAgree(x, d.suites);
    Join(DerivedTasks(digest, x, d.packId, Items(j, "tasks"), reps, Items(j, "pairs"), Items(j, "variants")),
         DerivedSuites(x, Items(j, "retrieval_suites")),
         EmitTasks(digest, x, d, d.tasks, reps), EmitSuites(x, d.suites));
  }

  lemma {:induction false} DefinitionsAgree(digest: Digest, x: string, ds: seq<Definition>, reps: nat)
    ensures DerivedDefinitions(digest, x, Each(ds, DefinitionJson), reps) == ListsJson(EmitDefinitions(digest, x, ds, reps))
  {
    EmptyAgrees();
    if ds != [] {
      EachInit(ds, DefinitionJson);
      DefinitionsAgree(digest, x, Init(ds), reps);
      DefinitionAgrees(digest, x, Last(ds), DefinitionJson(Last(ds)), reps);
      ListsJsonOfPlus(EmitDefinitions(digest, x, Init(ds), reps), EmitDefinition(digest, x, Last(ds), reps));
    }
  }

  lemma IdentityIsDerivable(digest: Digest, x: string, spec: Spec, ds: seq<Definition>)
    requires 1 <= spec.repetitions && PackIds(ds) == spec.packIds
    ensures Derivable(JText(x), SpecJson(spec), JList(Each(ds, DefinitionJson)))
  {
    forall d | d in Each(ds, DefinitionJson)
      ensures GoodDefinition(d)
    {
      var i :| 0 <= i < |ds| && Each(ds, DefinitionJson)[i] == d;
      DefinitionIsGood(ds[i]);
    }
    assert PackIdsOf(Each(ds, DefinitionJson)) == Items(SpecJson(spec), "pack_ids");
  }

  lemma ManifestFields(p: Plan, m: Json)
    requires m == ManifestJson(p)
    ensures Has(m, "experiment_id") && Has(m, "spec") && Has(m, "pack_definitions")
    ensures Field(m, "experiment_id") == JText(p.experiment) && Field(m, "spec") == SpecJson(p.spec)
    ensures Field(m, "pack_definitions") == JList(Each(p.definitions, DefinitionJson))
    ensures Carries(m, ListsJson(p.lists))
  {
  }

  lemma SpecRepetitions(spec: Spec)
    ensures Field(SpecJson(spec), "repetitions") == JNumber(spec.repetitions)
  {
  }

  lemma IdentityDerives(digest: Digest, x: string, spec: Spec, ds: seq<Definition>, m: Json)
    requires 1 <= spec.repetitions && PackIds(ds) == spec.packIds
    requires Has(m, "experiment_id") && Has(m, "spec") && Has(m, "pack_definitions")
    requires Field(m, "experiment_id") == JText(x) && Field(m, "spec") == SpecJson(spec)
    requires Field(m, "pack_definitions") == JList(Each(ds, DefinitionJson))
    ensures HasIdentity(m) && Derived(digest, m) == ListsJson(PlanOf(digest, x, spec, ds).lists)
  {
    IdentityIsDerivable(digest, x, spec, ds);
    SpecRepetitions(spec);
    DefinitionsAgree(digest, x, ds, spec.repetitions);
  }

  /** A manifest with the identity of a compiled plan passes the check exactly when its five
      lists are those of that plan. */
  lemma OnlyThePlanPasses(digest: Digest, x: string, spec: Spec, ds: seq<Definition>, m: Json)
    requires 1 <= spec.repetitions && PackIds(ds) == spec.packIds
    requires Has(m, "experiment_id") && Has(m, "spec") && Has(m, "pack_definitions")
    requires Field(m, "experiment_id") == JText(x) && Field(m, "spec") == SpecJson(spec)
    requires Field(m, "pack_definitions") == JList(Each(ds, DefinitionJson))
    ensures HasIdentity(m) && (Carries(m, Derived(digest, m)) <==> Carries(m, ListsJson(PlanOf(digest, x, spec, ds).lists)))
  {
    IdentityDerives(digest, x, spec, ds, m);
  }

  /** The two plan derivations coincide: on the manifest of a compiled plan, the derivation
      yields the compiler's trials, digest-ordered blocks, pairs, cases and query blocks. */
  lemma DerivationsCoincide(digest: Digest, x: string, spec: Spec, ds: seq<Definition>)
    requires 1 <= spec.repetitions && PackIds(ds) == spec.packIds
    ensures var m := ManifestJson(PlanOf(digest, x, spec, ds));
      && HasIdentity(m) && Derived(digest, m) == ListsJson(PlanOf(digest, x, spec, ds).lists) && Carries(m, Derived(digest, m))
  {
    var p := PlanOf(digest, x, spec, ds);
    ManifestFields(p, ManifestJson(p));
    IdentityDerives(digest, x, spec, ds, ManifestJson(p));
  }
}

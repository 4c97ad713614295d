/** Compiled plans with a block that is never accepted: two pairs on one axis, and a crash in the
    middle of recording an attempt. */
module HarnessWitness {
  import opened Outcome
  import opened Sequences
  import opened CanonicalJson
  import opened Records
  import opened Plan
  import opened Manifest
  import opened PlanShape
  import opened Artifacts
  import opened Harness
  import opened HarnessRuns
  import opened HarnessResults
  import opened HarnessPlan
  import opened HarnessPartial
  import Reducer

  function Arm(id: string, value: string): Variant {
    Variant(id, map["model" := Of(value)])
  }

  /** One task, a control and two treatments of one axis. */
  function OneAxis(pairs: seq<PairSpec>): Definition {
    Definition("pack", ["task"], [Arm("a", "1"), Arm("b", "2"), Arm("c", "3")], pairs, [], JNull)
  }

  const ONE_PAIR := [PairSpec("model", "a", "b")]

  const TWO_PAIRS := [PairSpec("model", "a", "b"), PairSpec("model", "a", "c")]

  const TWO_ATTEMPTS := Spec(["pack"], 1, 2, None, JNull)

  lemma ArmsOf(d: Definition)
    requires d.variants == [Arm("a", "1"), Arm("b", "2"), Arm("c", "3")]
    ensures d.HasVariant("a") && d.HasVariant("b") && d.HasVariant("c")
    ensures d.SettingsOf("a") == map["model" := Of("1")]
    ensures d.SettingsOf("b") == map["model" := Of("2")]
    ensures d.SettingsOf("c") == map["model" := Of("3")]
  {
    var v := d.variants;
    assert v[0] in v && v[1] in v && v[2] in v;
    FirstSettingsSkips(v, "b");
    FirstSettingsSkips(v, "c");
    FirstSettingsSkips(v[1..], "c");
  }

  lemma FirstSettingsSkips(variants: seq<Variant>, id: string)
    requires |variants| > 1 && variants[0].id != id && exists v :: v in variants && v.id == id
    ensures exists v :: v in variants[1..] && v.id == id
    ensures FirstSettings(variants, id) == FirstSettings(variants[1..], id)
  {
    var v :| v in variants && v.id == id;
    assert variants == [variants[0]] + variants[1..];
    assert v in variants[1..];
  }

  lemma ArmsDiffer(x: string, y: string)
    requires x != y
    ensures VariantDiff(map["model" := Of(x)], map["model" := Of(y)]).Keys == {"model"}
  {
    var a, b := map["model" := Of(x)], map["model" := Of(y)];
    assert Setting(a, "model") != Setting(b, "model");
    assert forall axis :: axis in VariantDiff(a, b) <==> axis == "model";
  }

  /** What the compiler asks of a plan. */
  ghost predicate Compiles(pairs: seq<PairSpec>) {
    && AllValid([OneAxis(pairs)]) && TWO_ATTEMPTS.Valid()
    && PackIds([OneAxis(pairs)]) == TWO_ATTEMPTS.packIds && AllPairsFit([OneAxis(pairs)])
    && PlanValue(IdentityJson(SpecJson(TWO_ATTEMPTS), JList(Each([OneAxis(pairs)], DefinitionJson))))
  }

  lemma OneAxisFits(pairs: seq<PairSpec>)
    requires pairs == ONE_PAIR || pairs == TWO_PAIRS
    ensures AllValid([OneAxis(pairs)]) && AllPairsFit([OneAxis(pairs)]) && TWO_ATTEMPTS.Valid()
    ensures PackIds([OneAxis(pairs)]) == TWO_ATTEMPTS.packIds
  {
    var d := OneAxis(pairs);
    ArmsOf(d);
    ArmsDiffer("1", "2");
    ArmsDiffer("1", "3");
    assert Init([d]) == [] && Last([d]) == d;
    assert d.Valid();
    forall p | p in d.pairs
      ensures PairFits(d, p)
    {
      assert p == PairSpec("model", "a", "b") || p == PairSpec("model", "a", "c");
    }
  }

  lemma OneAxisCompiles(pairs: seq<PairSpec>)
    requires pairs == ONE_PAIR || pairs == TWO_PAIRS
    ensures Compiles(pairs)
  {
    OneAxisFits(pairs);
    IdentityIsPlain(pairs);
  }

  // ---------------------------------------------------------------- the compiler takes the plan

  const SPEC_KEYS := ["spec", "pack_definitions", "repetitions", "pack_ids", "max_comparison_block_attempts",
                      "max_comparison_block_retries_total", "identity"]

  const DEFINITION_KEYS := ["pack_id", "tasks", "task_id", "variants", "variant_id", "settings", "model", "pairs",
                            "treatment_axis", "control_variant_id", "treatment_variant_id", "retrieval_suites"]

  lemma PlainSpecKeys()
    ensures forall k :: k in SPEC_KEYS ==> NormalKey(k) !in FORBIDDEN_KEYS
  {
    forall k | k in SPEC_KEYS
      ensures NormalKey(k) !in FORBIDDEN_KEYS
    {
      HarmlessKey(k);
    }
  }

  lemma PlainKeys()
    ensures forall k :: k in SPEC_KEYS || k in DEFINITION_KEYS ==> NormalKey(k) !in FORBIDDEN_KEYS
  {
    PlainSpecKeys();
    forall k | k in DEFINITION_KEYS
      ensures NormalKey(k) !in FORBIDDEN_KEYS
    {
      HarmlessKey(k);
    }
  }

  lemma PlainParts(d: Definition, j: Json)
    requires j == DefinitionJson(d) && PlanValue(d.extra) && PlanValue(JText(d.packId))
    requires PlanValue(JList(Each(d.tasks, Tagged("task_id")))) && PlanValue(JList(Each(d.variants, VariantJson)))
    requires PlanValue(JList(Each(d.pairs, PairSpecJson))) && PlanValue(JList(Each(d.suites, SuiteJson)))
    ensures PlanValue(j)
  {
    PlainKeys();
  }

  lemma PlainTasks()
    ensures PlanValue(JList(Each(["task"], Tagged("task_id"))))
  {
    PlainKeys();
    assert PlanValue(Tagged("task_id")("task"));
  }

  lemma PlainDefinition(pairs: seq<PairSpec>)
    requires pairs == ONE_PAIR || pairs == TWO_PAIRS
    ensures PlanValue(DefinitionJson(OneAxis(pairs)))
  {
    var d := OneAxis(pairs);
    PlainTasks();
    PlainVariants();
    PlainPairs(pairs);
    assert Each(d.suites, SuiteJson) == [];
    PlainParts(d, DefinitionJson(d));
  }

  /** Nothing in the plan's identity is forbidden. */
  lemma IdentityIsPlain(pairs: seq<PairSpec>)
    requires pairs == ONE_PAIR || pairs == TWO_PAIRS
    ensures PlanValue(IdentityJson(SpecJson(TWO_ATTEMPTS), JList(Each([OneAxis(pairs)], DefinitionJson))))
  {
    PlainDefinition(pairs);
    PlainSpec();
    PlainIdentity(SpecJson(TWO_ATTEMPTS), JList(Each([OneAxis(pairs)], DefinitionJson)));
  }

  lemma PlainIdentity(spec: Json, definitions: Json)
    requires PlanValue(spec) && PlanValue(definitions)
    ensures PlanValue(IdentityJson(spec, definitions))
  {
    PlainKeys();
  }

  lemma PlainSpec()
    ensures PlanValue(SpecJson(TWO_ATTEMPTS))
  {
    PlainKeys();
    assert PlanValue(JText("pack"));
    assert PlanValue(TextList(["pack"]));
  }

  lemma PlainVariants()
    ensures PlanValue(JList(Each([Arm("a", "1"), Arm("b", "2"), Arm("c", "3")], VariantJson)))
  {
    PlainVariant("a", "1");
    PlainVariant("b", "2");
    PlainVariant("c", "3");
  }

  lemma PlainVariant(id: string, value: string)
    requires |id| == 1 && |value| == 1 && id[0] != '/' && value[0] != '/'
    ensures PlanValue(VariantJson(Arm(id, value)))
  {
    PlainKeys();
    var settings := Arm(id, value).settings;
    assert PlanValue(JObject(map k <- settings.Keys :: ValueJson(settings[k])));
  }

  lemma PlainPairs(pairs: seq<PairSpec>)
    requires pairs == ONE_PAIR || pairs == TWO_PAIRS
    ensures PlanValue(JList(Each(pairs, PairSpecJson)))
  {
    PlainKeys();
    forall p | p in TWO_PAIRS
      ensures PlanValue(PairSpecJson(p))
    {
    }
  }

  /** The job of the plan's only block. */
  lemma OnlyJob(digest: Digest, pairs: seq<PairSpec>) returns (job: Job)
    requires pairs == ONE_PAIR || pairs == TWO_PAIRS
    ensures job in Jobs(PlanOf(digest, "x", TWO_ATTEMPTS, [OneAxis(pairs)]))
    ensures JobOk(job) && job.variants == OneAxis(pairs).variants && job.pairs == PairKeys("x", OneAxis(pairs), "task", 0)
  {
    var d := OneAxis(pairs);
    var p := PlanOf(digest, "x", TWO_ATTEMPTS, [d]);
    var key := BlockKey("x", "pack", "task", 0);
    OneAxisFits(pairs);
    assert d in [d] && "task" in d.tasks;
    assert InTasks("x", d, d.tasks, 1, key);
    EmittedBlocksArePlanned(digest, "x", [d], 1, key);
    var b :| b in p.lists.blocks && b.key == key;
    CompiledJobIsOk(digest, "x", TWO_ATTEMPTS, [d], d, b);
    PlannedBlockIs(digest, "x", TWO_ATTEMPTS, [d], d, b);
    job := JobOf(p, d, b);
  }

  /** A plan the compiler accepts, whose block has two pairs on one axis: a run that is not cut
      short finishes the block, and it is not accepted. */
  lemma SharedAxisIsNeverAccepted(digest: Digest, world: World) returns (job: Job)
    ensures Compiles(TWO_PAIRS)
    ensures job in Jobs(PlanOf(digest, "x", TWO_ATTEMPTS, [OneAxis(TWO_PAIRS)]))
    ensures JobOk(job) && !AxesDistinct(job)
    ensures Spoiled(job, ApplyAll(NOTHING_YET, RunSteps(job, world, NOTHING_YET)))
  {
    job := OnlyJob(digest, TWO_PAIRS);
    OneAxisCompiles(TWO_PAIRS);
    TwoPairsShareAxis(job, OneAxis(TWO_PAIRS));
    SharedAxisSpoilsBlock(job, world);
  }

  lemma TwoPairsShareAxis(job: Job, d: Definition)
    requires d.pairs == TWO_PAIRS && job.pairs == PairKeys("x", d, "task", 0)
    ensures !AxesDistinct(job)
  {
    assert job.pairs[0] in job.pairs && job.pairs[1] in job.pairs;
    assert job.pairs[0].treatment[0] != job.pairs[1].treatment[0];
  }

  /** A plan the compiler accepts, without such pairs: a crash after the first record and one
      completed run leave its block finished and never accepted. */
  lemma CrashedBlockIsNeverAccepted(digest: Digest, world: World, again: World) returns (job: Job, moves: seq<Move>)
    ensures Compiles(ONE_PAIR)
    ensures job in Jobs(PlanOf(digest, "x", TWO_ATTEMPTS, [OneAxis(ONE_PAIR)]))
    ensures JobOk(job) && AxesDistinct(job) && MovesOk({job}, moves)
    ensures Spoiled(job, Replay(NOTHING_YET, moves))
    ensures HalfRecorded(job, Replay(NOTHING_YET, moves).At(job.Key()).attempts, 1)
  {
    job := OnlyJob(digest, ONE_PAIR);
    OneAxisCompiles(ONE_PAIR);
    OnePairIsDistinct(job, OneAxis(ONE_PAIR));
    TwoArms(job);
    moves := CrashSpoilsBlock(job, world, again);
  }

  lemma OnePairIsDistinct(job: Job, d: Definition)
    requires d.pairs == ONE_PAIR && job.pairs == PairKeys("x", d, "task", 0)
    ensures AxesDistinct(job)
  {
    assert |job.pairs| == 1;
  }

  lemma TwoArms(job: Job)
    requires job.variants == [Arm("a", "1"), Arm("b", "2"), Arm("c", "3")]
    ensures |job.Variants()| >= 2
  {
    assert job.variants[0] in job.variants && job.variants[1] in job.variants;
    assert "a" in job.Variants() && "b" in job.Variants() && "a"[0] != "b"[0];
    TwoElements(job.Variants(), "a", "b");
  }

  lemma TwoElements(s: set<string>, a: string, b: string)
    requires a in s && b in s && a != b
    ensures |s| >= 2
  {
    assert s == {a, b} + (s - {a, b});
  }
}

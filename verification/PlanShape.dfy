/** The structure every compiled plan has. */
module PlanShape {
  import opened Sequences
  import opened CanonicalJson
  import opened Records
  import opened Plan

  // ---------------------------------------------------------------- one block's part of a plan

  function TrialsOf(trials: seq<PlannedTrial>, b: BlockKey): seq<PlannedTrial> {
    if trials == [] then []
    else if Last(trials).key.Block() == b then TrialsOf(Init(trials), b) + [Last(trials)]
    else TrialsOf(Init(trials), b)
  }

  function PairsOf(pairs: seq<PairKey>, b: BlockKey): seq<PairKey> {
    if pairs == [] then []
    else if Last(pairs).Block() == b then PairsOf(Init(pairs), b) + [Last(pairs)]
    else PairsOf(Init(pairs), b)
  }

  function BlocksOf(blocks: seq<PlannedBlock>, b: BlockKey): seq<PlannedBlock> {
    if blocks == [] then []
    else if Last(blocks).key == b then BlocksOf(Init(blocks), b) + [Last(blocks)]
    else BlocksOf(Init(blocks), b)
  }

  /** What a plan says about one block. */
  function Slice(l: Lists, b: BlockKey): Lists {
    Lists(TrialsOf(l.trials, b), BlocksOf(l.blocks, b), PairsOf(l.pairs, b), [], [])
  }

  lemma {:induction false} TrialsOfAppend(s: seq<PlannedTrial>, t: seq<PlannedTrial>, b: BlockKey)
    ensures TrialsOf(s + t, b) == TrialsOf(s, b) + TrialsOf(t, b)
  {
    if t == [] {
      assert s + t == s;
    } else {
      TrialsOfAppend(s, Init(t), b);
      assert Init(s + t) == s + Init(t) && Last(s + t) == Last(t);
    }
  }

  lemma {:induction false} PairsOfAppend(s: seq<PairKey>, t: seq<PairKey>, b: BlockKey)
    ensures PairsOf(s + t, b) == PairsOf(s, b) + PairsOf(t, b)
  {
    if t == [] {
      assert s + t == s;
    } else {
      PairsOfAppend(s, Init(t), b);
      assert Init(s + t) == s + Init(t) && Last(s + t) == Last(t);
    }
  }

  lemma {:induction false} BlocksOfAppend(s: seq<PlannedBlock>, t: seq<PlannedBlock>, b: BlockKey)
    ensures BlocksOf(s + t, b) == BlocksOf(s, b) + BlocksOf(t, b)
  {
    if t == [] {
      assert s + t == s;
    } else {
      BlocksOfAppend(s, Init(t), b);
      assert Init(s + t) == s + Init(t) && Last(s + t) == Last(t);
    }
  }

  lemma SliceOfPlus(l: Lists, m: Lists, b: BlockKey)
    ensures Slice(l.Plus(m), b) == Slice(l, b).Plus(Slice(m, b))
  {
    TrialsOfAppend(l.trials, m.trials, b);
    PairsOfAppend(l.pairs, m.pairs, b);
    BlocksOfAppend(l.blocks, m.blocks, b);
  }

  lemma {:induction false} AllTrials(trials: seq<PlannedTrial>, b: BlockKey)
    requires forall t :: t in trials ==> t.key.Block() == b
    ensures TrialsOf(trials, b) == trials
  {
    if trials != [] {
      assert trials == Init(trials) + [Last(trials)];
      AllTrials(Init(trials), b);
    }
  }

  lemma {:induction false} NoTrials(trials: seq<PlannedTrial>, b: BlockKey)
    requires forall t :: t in trials ==> t.key.Block() != b
    ensures TrialsOf(trials, b) == []
  {
    if trials != [] {
      assert trials == Init(trials) + [Last(trials)];
      NoTrials(Init(trials), b);
    }
  }

  lemma {:induction false} AllPairs(pairs: seq<PairKey>, b: BlockKey)
    requires forall p :: p in pairs ==> p.Block() == b
    ensures PairsOf(pairs, b) == pairs
  {
    if pairs != [] {
      assert pairs == Init(pairs) + [Last(pairs)];
      AllPairs(Init(pairs), b);
    }
  }

  lemma {:induction false} NoPairs(pairs: seq<PairKey>, b: BlockKey)
    requires forall p :: p in pairs ==> p.Block() != b
    ensures PairsOf(pairs, b) == []
  {
    if pairs != [] {
      assert pairs == Init(pairs) + [Last(pairs)];
      NoPairs(Init(pairs), b);
    }
  }

  lemma SliceOfBlock(digest: Digest, x: string, d: Definition, task: string, rep: nat, b: BlockKey)
    ensures Slice(EmitBlock(digest, x, d, task, rep), b)
      == if b == BlockKey(x, d.packId, task, rep) then EmitBlock(digest, x, d, task, rep) else EMPTY
  {
    var own, l := BlockKey(x, d.packId, task, rep), EmitBlock(digest, x, d, task, rep);
    if own == b {
      AllTrials(l.trials, b);
      AllPairs(l.pairs, b);
    } else {
      NoTrials(l.trials, b);
      NoPairs(l.pairs, b);
    }
    assert BlocksOf(l.blocks, b) == if own == b then l.blocks else [] by {
      assert Init(l.blocks) == [] && Last(l.blocks) == l.blocks[0];
    }
  }

  predicate InTask(x: string, d: Definition, task: string, reps: nat, b: BlockKey) {
    b.experiment == x && b.pack == d.packId && b.task == task && b.repetition < reps
  }

  lemma {:induction false} SliceOfTask(digest: Digest, x: string, d: Definition, task: string, reps: nat, b: BlockKey)
    ensures Slice(EmitTask(digest, x, d, task, reps), b)
      == if InTask(x, d, task, reps, b) then EmitBlock(digest, x, d, task, b.repetition) else EMPTY
    decreases reps
  {
    if reps > 0 {
      SliceOfTask(digest, x, d, task, reps - 1, b);
      SliceOfBlock(digest, x, d, task, reps - 1, b);
      SliceOfPlus(EmitTask(digest, x, d, task, reps - 1), EmitBlock(digest, x, d, task, reps - 1), b);
      PlusEmpty(Slice(EmitTask(digest, x, d, task, reps - 1), b));
      PlusEmpty(Slice(EmitBlock(digest, x, d, task, reps - 1), b));
    }
  }

  predicate InTasks(x: string, d: Definition, tasks: seq<string>, reps: nat, b: BlockKey) {
    b.experiment == x && b.pack == d.packId && b.task in tasks && b.repetition < reps
  }

  lemma {:induction false} SliceOfTasks(digest: Digest, x: string, d: Definition, tasks: seq<string>, reps: nat,
                                        b: BlockKey)
    requires Distinct(tasks)
    ensures Slice(EmitTasks(digest, x, d, tasks, reps), b)
      == if InTasks(x, d, tasks, reps, b) then EmitBlock(digest, x, d, b.task, b.repetition) else EMPTY
  {
    if tasks != [] {
      SliceOfTasks(digest, x, d, Init(tasks), reps, b);
      SliceOfTask(digest, x, d, Last(tasks), reps, b);
      SliceOfPlus(EmitTasks(digest, x, d, Init(tasks), reps), EmitTask(digest, x, d, Last(tasks), reps), b);
      PlusEmpty(Slice(EmitTasks(digest, x, d, Init(tasks), reps), b));
      PlusEmpty(Slice(EmitTask(digest, x, d, Last(tasks), reps), b));
      assert tasks == Init(tasks) + [Last(tasks)];
    }
  }

  lemma {:induction false} NoTrialsInSuite(x: string, suite: RetrievalSuite, queries: seq<string>)
    ensures EmitSuite(x, suite, queries).(cases := [], queries := []) == EMPTY
  {
    if queries != [] {
      NoTrialsInSuite(x, suite, Init(queries));
    }
  }

  lemma {:induction false} NoTrialsInSuites(x: string, suites: seq<RetrievalSuite>)
    ensures EmitSuites(x, suites).(cases := [], queries := []) == EMPTY
  {
    if suites != [] {
      NoTrialsInSuites(x, Init(suites));
      NoTrialsInSuite(x, Last(suites), Last(suites).queries);
    }
  }

  lemma SliceOfDefinition(digest: Digest, x: string, d: Definition, reps: nat, b: BlockKey)
    requires Distinct(d.tasks)
    ensures Slice(EmitDefinition(digest, x, d, reps), b)
      == if InTasks(x, d, d.tasks, reps, b) then EmitBlock(digest, x, d, b.task, b.repetition) else EMPTY
  {
    SliceOfTasks(digest, x, d, d.tasks, reps, b);
    NoTrialsInSuites(x, d.suites);
    SliceOfPlus(EmitTasks(digest, x, d, d.tasks, reps), EmitSuites(x, d.suites), b);
    assert Slice(EmitSuites(x, d.suites), b) == EMPTY;
  }

  predicate AllValid(ds: seq<Definition>) {
    && (forall d :: d in ds ==> d.Valid())
    && (forall i, j :: 0 <= i < j < |ds| ==> ds[i].packId != ds[j].packId)
  }

  /** The block is one of the plan's: its pack, its task and its repetition are. */
  predicate Planned(x: string, ds: seq<Definition>, reps: nat, b: BlockKey) {
    exists d :: d in ds && InTasks(x, d, d.tasks, reps, b)
  }

  lemma {:induction false} UnknownBlock(digest: Digest, x: string, ds: seq<Definition>, reps: nat, b: BlockKey)
    requires AllValid(ds) && !Planned(x, ds, reps, b)
    ensures Slice(EmitDefinitions(digest, x, ds, reps), b) == EMPTY
  {
    if ds != [] {
      assert Last(ds) in ds && forall d :: d in Init(ds) ==> d in ds;
      UnknownBlock(digest, x, Init(ds), reps, b);
      SliceOfDefinition(digest, x, Last(ds), reps, b);
      SliceOfPlus(EmitDefinitions(digest, x, Init(ds), reps), EmitDefinition(digest, x, Last(ds), reps), b);
    }
  }

  /** What a plan says about a block is what its own pack, task and repetition emit, once. */
  lemma {:induction false} KnownBlock(digest: Digest, x: string, ds: seq<Definition>, reps: nat, d: Definition,
                                      b: BlockKey)
    requires AllValid(ds) && d in ds && InTasks(x, d, d.tasks, reps, b)
    ensures Slice(EmitDefinitions(digest, x, ds, reps), b) == EmitBlock(digest, x, d, b.task, b.repetition)
    decreases |ds|
  {
    SliceOfLast(digest, x, ds, reps, b);
    if Last(ds) == d {
      OthersUnknown(x, ds, reps, b);
      UnknownBlock(digest, x, Init(ds), reps, b);
      PlusEmpty(EmitBlock(digest, x, d, b.task, b.repetition));
    } else {
      EarlierPack(ds, d);
      KnownBlock(digest, x, Init(ds), reps, d, b);
    }
  }

  lemma SliceOfLast(digest: Digest, x: string, ds: seq<Definition>, reps: nat, b: BlockKey)
    requires AllValid(ds) && ds != []
    ensures AllValid(Init(ds))
    ensures var earlier, d := Slice(EmitDefinitions(digest, x, Init(ds), reps), b), Last(ds);
      Slice(EmitDefinitions(digest, x, ds, reps), b)
      == if InTasks(x, d, d.tasks, reps, b) then earlier.Plus(EmitBlock(digest, x, d, b.task, b.repetition)) else earlier
  {
    assert Last(ds) in ds && Last(ds).Valid() && forall e :: e in Init(ds) ==> e in ds;
    SliceOfPlus(EmitDefinitions(digest, x, Init(ds), reps), EmitDefinition(digest, x, Last(ds), reps), b);
    SliceOfDefinition(digest, x, Last(ds), reps, b);
    PlusEmpty(Slice(EmitDefinitions(digest, x, Init(ds), reps), b));
  }

  lemma EarlierPack(ds: seq<Definition>, d: Definition)
    requires AllValid(ds) && d in ds && d != Last(ds)
    ensures d in Init(ds) && AllValid(Init(ds)) && Last(ds).packId != d.packId
  {
    var i :| 0 <= i < |ds| && ds[i] == d;
    assert Init(ds)[i] == d;
  }

  lemma PlusEmpty(l: Lists)
    ensures l.Plus(EMPTY) == l && EMPTY.Plus(l) == l
  {
  }

  lemma OthersUnknown(x: string, ds: seq<Definition>, reps: nat, b: BlockKey)
    requires AllValid(ds) && ds != [] && b.pack == Last(ds).packId
    ensures !Planned(x, Init(ds), reps, b)
  {
    forall e | e in Init(ds)
      ensures e.packId != b.pack
    {
      var j :| 0 <= j < |ds| - 1 && ds[j] == e;
    }
  }

  // ---------------------------------------------------------------- structure

  function KeysOf(trials: seq<PlannedTrial>): (keys: seq<TrialKey>)
    ensures |keys| == |trials|
  {
    seq(|trials|, i requires 0 <= i < |trials| => trials[i].key)
  }

  lemma {:induction false} TrialsOfMembers(trials: seq<PlannedTrial>, b: BlockKey)
    ensures forall t :: t in TrialsOf(trials, b) <==> t in trials && t.key.Block() == b
  {
    if trials != [] {
      TrialsOfMembers(Init(trials), b);
      assert trials == Init(trials) + [Last(trials)];
    }
  }

  lemma {:induction false} BlocksOfMembers(blocks: seq<PlannedBlock>, b: BlockKey)
    ensures forall p :: p in BlocksOf(blocks, b) <==> p in blocks && p.key == b
  {
    if blocks != [] {
      BlocksOfMembers(Init(blocks), b);
      assert blocks == Init(blocks) + [Last(blocks)];
    }
  }

  /** A trial belongs to exactly the pairs of its block that name its variant. */
  lemma {:induction false} MembershipsAreExact(pairs: seq<PairKey>, variant: string)
    ensures forall p :: p in Memberships(pairs, variant) <==> p in pairs && (variant == p.control || variant == p.treatment)
  {
    if pairs != [] {
      MembershipsAreExact(Init(pairs), variant);
      assert pairs == Init(pairs) + [Last(pairs)];
    }
  }

  /** The structure of one block of the plan. */
  ghost predicate WellShaped(digest: Digest, l: Lists, b: BlockKey, d: Definition) {
    && (exists p :: BlocksOf(l.blocks, b) == [p] &&
          multiset(p.trials) == multiset(KeysOf(TrialsOf(l.trials, b))) && Ordered(p.trials, TrialRank(digest, b)))
    && KeysOf(TrialsOf(l.trials, b)) == TrialKeys(b, d.variants)
    && forall t :: t in TrialsOf(l.trials, b) ==> t.memberships == Memberships(PairsOf(l.pairs, b), t.key.variant)
  }

  lemma BlockIsWellShaped(digest: Digest, x: string, ds: seq<Definition>, reps: nat, d: Definition, b: BlockKey)
    requires AllValid(ds) && d in ds && InTasks(x, d, d.tasks, reps, b)
    ensures WellShaped(digest, EmitDefinitions(digest, x, ds, reps), b, d)
  {
    KnownBlock(digest, x, ds, reps, d, b);
    var l := EmitBlock(digest, x, d, b.task, b.repetition);
    assert b == BlockKey(x, d.packId, b.task, b.repetition);
    assert KeysOf(l.trials) == TrialKeys(b, d.variants);
    SortOrders(TrialKeys(b, d.variants), TrialRank(digest, b));
  }

  lemma EmittedBlocksArePlanned(digest: Digest, x: string, ds: seq<Definition>, reps: nat, b: BlockKey)
    requires AllValid(ds)
    ensures var l := EmitDefinitions(digest, x, ds, reps);
      && ((exists t :: t in l.trials && t.key.Block() == b) ==> Planned(x, ds, reps, b))
      && ((exists p :: p in l.blocks && p.key == b) <==> Planned(x, ds, reps, b))
  {
    var l := EmitDefinitions(digest, x, ds, reps);
    TrialsOfMembers(l.trials, b);
    BlocksOfMembers(l.blocks, b);
    if Planned(x, ds, reps, b) {
      var d :| d in ds && InTasks(x, d, d.tasks, reps, b);
      KnownBlock(digest, x, ds, reps, d, b);
      var p := BlocksOf(l.blocks, b)[0];
      assert p in BlocksOf(l.blocks, b);
    } else {
      UnknownBlock(digest, x, ds, reps, b);
      assert TrialsOf(l.trials, b) == [] && BlocksOf(l.blocks, b) == [];
    }
  }

  /** Every comparison block of a compiled plan occurs once, its digest-ordered trials are a
      permutation of exactly the trials planned for it, one for each variant of its pack, and
      each of those belongs to exactly the pairs of the block that name its variant. */
  lemma EveryBlockIsWellShaped(digest: Digest, x: string, ds: seq<Definition>, reps: nat, p: PlannedBlock)
    requires AllValid(ds) && p in EmitDefinitions(digest, x, ds, reps).blocks
    ensures exists d :: d in ds && p.key.pack == d.packId && WellShaped(digest, EmitDefinitions(digest, x, ds, reps), p.key, d)
  {
    EmittedBlocksArePlanned(digest, x, ds, reps, p.key);
    var d :| d in ds && InTasks(x, d, d.tasks, reps, p.key);
    BlockIsWellShaped(digest, x, ds, reps, d, p.key);
  }

  /** What the position of a trial is drawn from. */
  function DrawnFrom(b: BlockKey, variant: string): Json {
    var block := JObject(map["experiment_id" := JText(b.experiment), "pack_id" := JText(b.pack), "task_id" := JText(b.task),
                             "repetition" := JNumber(b.repetition)]);
    JObject(map["experiment_id" := JText(b.experiment), "block" := block, "variant_id" := JText(variant)])
  }

  lemma DrawnIsRank(digest: Digest, b: BlockKey, k: TrialKey)
    ensures TrialRank(digest, b)(k) == digest(DrawnFrom(b, k.variant))
  {
    assert DrawnFrom(b, k.variant) == OrderPayload(JText(b.experiment), BlockJson(b), JText(k.variant)) by {
      assert BlockJson(b) == DrawnFrom(b, k.variant).fields["block"];
    }
  }

  /** The trials of every planned block stand in the order of the digests of what they are drawn
      from: the experiment, the block and the variant. */
  lemma OrderIsDrawn(digest: Digest, x: string, ds: seq<Definition>, reps: nat, p: PlannedBlock, i: nat, j: nat)
    requires AllValid(ds) && p in EmitDefinitions(digest, x, ds, reps).blocks && i < j < |p.trials|
    ensures !Before(digest(DrawnFrom(p.key, p.trials[j].variant)), digest(DrawnFrom(p.key, p.trials[i].variant)))
  {
    var l := EmitDefinitions(digest, x, ds, reps);
    EveryBlockIsWellShaped(digest, x, ds, reps, p);
    BlocksOfMembers(l.blocks, p.key);
    assert p in BlocksOf(l.blocks, p.key);
    assert Ordered(p.trials, TrialRank(digest, p.key));
    DrawnIsRank(digest, p.key, p.trials[i]);
    DrawnIsRank(digest, p.key, p.trials[j]);
  }

  // ---------------------------------------------------------------- pairs

  /** The pair is one the definition declares, for one of its tasks and one repetition. */
  predicate PairPlanned(x: string, d: Definition, tasks: seq<string>, reps: nat, p: PairKey) {
    exists spec :: spec in d.pairs && p.task in tasks && p.repetition < reps
                   && p == PairKey(x, d.packId, spec.axis, p.task, p.repetition, spec.control, spec.treatment)
  }

  lemma PairKeysAre(x: string, d: Definition, task: string, rep: nat)
    ensures forall p :: p in PairKeys(x, d, task, rep) <==>
      exists spec :: spec in d.pairs && p == PairKey(x, d.packId, spec.axis, task, rep, spec.control, spec.treatment)
  {
    var keys := PairKeys(x, d, task, rep);
    forall spec | spec in d.pairs
      ensures PairKey(x, d.packId, spec.axis, task, rep, spec.control, spec.treatment) in keys
    {
      var i :| 0 <= i < |d.pairs| && d.pairs[i] == spec;
      assert keys[i] == PairKey(x, d.packId, spec.axis, task, rep, spec.control, spec.treatment);
    }
    forall p | p in keys
      ensures exists spec :: spec in d.pairs && p == PairKey(x, d.packId, spec.axis, task, rep, spec.control, spec.treatment)
    {
      var i :| 0 <= i < |keys| && keys[i] == p;
      assert d.pairs[i] in d.pairs;
    }
  }

  lemma {:induction false} TaskPairs(digest: Digest, x: string, d: Definition, task: string, reps: nat)
    ensures forall p :: p in EmitTask(digest, x, d, task, reps).pairs <==> PairPlanned(x, d, [task], reps, p)
  {
    if reps > 0 {
      TaskPairs(digest, x, d, task, reps - 1);
      PairKeysAre(x, d, task, reps - 1);
    }
  }

  lemma {:induction false} TasksPairs(digest: Digest, x: string, d: Definition, tasks: seq<string>, reps: nat)
    ensures forall p :: p in EmitTasks(digest, x, d, tasks, reps).pairs <==> PairPlanned(x, d, tasks, reps, p)
  {
    if tasks != [] {
      TasksPairs(digest, x, d, Init(tasks), reps);
      TaskPairs(digest, x, d, Last(tasks), reps);
      assert tasks == Init(tasks) + [Last(tasks)];
    }
  }

  lemma {:induction false} SuitesHaveNoPairs(x: string, suites: seq<RetrievalSuite>)
    ensures EmitSuites(x, suites).pairs == []
  {
    NoTrialsInSuites(x, suites);
  }

  /** A plan's pairs are exactly those its definitions declare, control and treatment as declared,
      for every task and repetition. */
  lemma {:induction false} PairsArePlanned(digest: Digest, x: string, ds: seq<Definition>, reps: nat)
    ensures forall p :: p in EmitDefinitions(digest, x, ds, reps).pairs <==> exists d :: d in ds && PairPlanned(x, d, d.tasks, reps, p)
  {
    if ds != [] {
      var last := Last(ds);
      PairsArePlanned(digest, x, Init(ds), reps);
      TasksPairs(digest, x, last, last.tasks, reps);
      SuitesHaveNoPairs(x, last.suites);
      assert forall d :: d in ds <==> d in Init(ds) || d == last;
      assert EmitDefinition(digest, x, last, reps).pairs == EmitTasks(digest, x, last, last.tasks, reps).pairs;
    }
  }

  // ---------------------------------------------------------------- retrieval

  function CaseOf(x: string, suite: string, query: string, configuration: string): PlannedCase {
    PlannedCase(CaseKey(x, suite, query, configuration), QueryKey(x, suite, query))
  }

  /** The case is one query of one suite of one pack under one of the suite's configurations. */
  predicate CasePlanned(x: string, suites: seq<RetrievalSuite>, c: PlannedCase) {
    exists suite, query, configuration ::
      suite in suites && query in suite.queries && configuration in suite.configurations && c == CaseOf(x, suite.id, query, configuration)
  }

  /** The query block has one case for each configuration of its suite, in their order. */
  predicate QueryPlanned(x: string, suites: seq<RetrievalSuite>, q: PlannedQuery) {
    exists suite, query ::
      && suite in suites && query in suite.queries && q.key == QueryKey(x, suite.id, query) && |q.cases| == |suite.configurations|
      && forall i :: 0 <= i < |q.cases| ==> q.cases[i] == CaseKey(x, suite.id, query, suite.configurations[i])
  }

  lemma QueryEmits(x: string, suite: RetrievalSuite, query: string)
    ensures forall c :: c in EmitQuery(x, suite, query).cases <==>
      exists configuration :: configuration in suite.configurations && c == CaseOf(x, suite.id, query, configuration)
    ensures |EmitQuery(x, suite, query).queries| == 1
  {
    var l := EmitQuery(x, suite, query);
    forall configuration | configuration in suite.configurations
      ensures CaseOf(x, suite.id, query, configuration) in l.cases
    {
      var i :| 0 <= i < |suite.configurations| && suite.configurations[i] == configuration;
      assert l.cases[i] == CaseOf(x, suite.id, query, configuration);
    }
    forall c | c in l.cases
      ensures exists configuration :: configuration in suite.configurations && c == CaseOf(x, suite.id, query, configuration)
    {
      var i :| 0 <= i < |l.cases| && l.cases[i] == c;
      assert c == CaseOf(x, suite.id, query, suite.configurations[i]);
    }
  }

  lemma {:induction false} SuiteEmits(x: string, suite: RetrievalSuite, queries: seq<string>)
    ensures forall c :: c in EmitSuite(x, suite, queries).cases <==>
      exists query, configuration ::
        query in queries && configuration in suite.configurations && c == CaseOf(x, suite.id, query, configuration)
    ensures forall q :: q in EmitSuite(x, suite, queries).queries <==>
      exists query :: query in queries && q == EmitQuery(x, suite, query).queries[0]
  {
    if queries != [] {
      SuiteEmits(x, suite, Init(queries));
      QueryEmits(x, suite, Last(queries));
      assert queries == Init(queries) + [Last(queries)];
    }
  }

  lemma {:induction false} SuitesEmit(x: string, suites: seq<RetrievalSuite>)
    ensures forall c :: c in EmitSuites(x, suites).cases <==> CasePlanned(x, suites, c)
    ensures forall q :: q in EmitSuites(x, suites).queries ==> QueryPlanned(x, suites, q)
    ensures forall suite, query :: suite in suites && query in suite.queries ==>
      exists q :: q in EmitSuites(x, suites).queries && q.key == QueryKey(x, suite.id, query)
  {
    if suites != [] {
      SuitesEmit(x, Init(suites));
      LastSuiteEmits(x, suites);
    }
  }

  lemma LastSuiteEmits(x: string, suites: seq<RetrievalSuite>)
    requires suites != []
    requires forall c :: c in EmitSuites(x, Init(suites)).cases <==> CasePlanned(x, Init(suites), c)
    requires forall q :: q in EmitSuites(x, Init(suites)).queries ==> QueryPlanned(x, Init(suites), q)
    requires forall suite, query :: suite in Init(suites) && query in suite.queries ==>
      exists q :: q in EmitSuites(x, Init(suites)).queries && q.key == QueryKey(x, suite.id, query)
    ensures forall c :: c in EmitSuites(x, suites).cases <==> CasePlanned(x, suites, c)
    ensures forall q :: q in EmitSuites(x, suites).queries ==> QueryPlanned(x, suites, q)
    ensures forall suite, query :: suite in suites && query in suite.queries ==>
      exists q :: q in EmitSuites(x, suites).queries && q.key == QueryKey(x, suite.id, query)
  {
    var last := Last(suites);
    SuiteEmits(x, last, last.queries);
    assert forall suite :: suite in suites <==> suite in Init(suites) || suite == last;
    forall query | query in last.queries
      ensures EmitQuery(x, last, query).queries[0] in EmitSuites(x, suites).queries
    {
    }
  }

  lemma {:induction false} TaskHasNoCases(digest: Digest, x: string, d: Definition, task: string, reps: nat)
    ensures EmitTask(digest, x, d, task, reps).cases == [] && EmitTask(digest, x, d, task, reps).queries == []
  {
    if reps > 0 {
      TaskHasNoCases(digest, x, d, task, reps - 1);
    }
  }

  lemma {:induction false} TasksHaveNoCases(digest: Digest, x: string, d: Definition, tasks: seq<string>, reps: nat)
    ensures EmitTasks(digest, x, d, tasks, reps).cases == [] && EmitTasks(digest, x, d, tasks, reps).queries == []
  {
    if tasks != [] {
      TasksHaveNoCases(digest, x, d, Init(tasks), reps);
      TaskHasNoCases(digest, x, d, Last(tasks), reps);
    }
  }

  /** A plan's retrieval cases are exactly the queries of its packs' suites under each of their
      configurations, and each of its query blocks lists the cases of its query in the order of the
      configurations. */
  lemma {:induction false} RetrievalIsPlanned(digest: Digest, x: string, ds: seq<Definition>, reps: nat)
    ensures forall c :: c in EmitDefinitions(digest, x, ds, reps).cases <==> exists d :: d in ds && CasePlanned(x, d.suites, c)
    ensures forall q :: q in EmitDefinitions(digest, x, ds, reps).queries ==> exists d :: d in ds && QueryPlanned(x, d.suites, q)
  {
    if ds != [] {
      var last := Last(ds);
      RetrievalIsPlanned(digest, x, Init(ds), reps);
      TasksHaveNoCases(digest, x, last, last.tasks, reps);
      SuitesEmit(x, last.suites);
      assert forall d :: d in ds <==> d in Init(ds) || d == last;
      assert EmitDefinition(digest, x, last, reps).cases == EmitSuites(x, last.suites).cases;
      assert EmitDefinition(digest, x, last, reps).queries == EmitSuites(x, last.suites).queries;
    }
  }

  // ---------------------------------------------------------------- trials are distinct and counted

  function Occurrences(trials: seq<PlannedTrial>, k: TrialKey): nat {
    if trials == [] then 0 else Occurrences(Init(trials), k) + if Last(trials).key == k then 1 else 0
  }

  lemma {:induction false} OccurrencesInBlock(trials: seq<PlannedTrial>, k: TrialKey)
    ensures Occurrences(TrialsOf(trials, k.Block()), k) == Occurrences(trials, k)
  {
    if trials != [] {
      OccurrencesInBlock(Init(trials), k);
      if Last(trials).key.Block() == k.Block() {
        Snoc(TrialsOf(Init(trials), k.Block()), Last(trials));
      }
    }
  }

  lemma {:induction false} OccurrencesDistinct(trials: seq<PlannedTrial>, k: TrialKey)
    requires forall i, j :: 0 <= i < j < |trials| ==> trials[i].key != trials[j].key
    ensures Occurrences(trials, k) <= 1
    ensures Occurrences(trials, k) == 1 ==> exists t :: t in trials && t.key == k
  {
    if trials != [] {
      OccurrencesDistinct(Init(trials), k);
      if Occurrences(Init(trials), k) == 1 {
        var t :| t in Init(trials) && t.key == k;
        var i :| 0 <= i < |trials| - 1 && trials[i] == t;
        assert trials[i].key != trials[|trials| - 1].key;
      } else if Last(trials).key == k {
        assert Last(trials) in trials;
      }
    }
  }

  lemma {:induction false} OccurrencesFound(trials: seq<PlannedTrial>, i: nat)
    requires i < |trials|
    ensures Occurrences(trials, trials[i].key) >= 1
    ensures forall j :: i < j < |trials| && trials[j].key == trials[i].key ==> Occurrences(trials, trials[i].key) >= 2
  {
    if i < |trials| - 1 {
      OccurrencesFound(Init(trials), i);
      assert forall j :: i < j < |trials| - 1 ==> Init(trials)[j] == trials[j];
    }
  }

  /** No two trials of a compiled plan share a key. */
  lemma TrialKeysAreDistinct(digest: Digest, x: string, ds: seq<Definition>, reps: nat, i: nat, j: nat)
    requires AllValid(ds) && i < j < |EmitDefinitions(digest, x, ds, reps).trials|
    ensures EmitDefinitions(digest, x, ds, reps).trials[i].key != EmitDefinitions(digest, x, ds, reps).trials[j].key
  {
    var trials := EmitDefinitions(digest, x, ds, reps).trials;
    var k := trials[i].key;
    assert trials[i] in trials;
    EmittedBlocksArePlanned(digest, x, ds, reps, k.Block());
    var d :| d in ds && InTasks(x, d, d.tasks, reps, k.Block());
    KnownBlock(digest, x, ds, reps, d, k.Block());
    OccurrencesDistinct(EmitBlock(digest, x, d, k.task, k.repetition).trials, k);
    OccurrencesInBlock(trials, k);
    OccurrencesFound(trials, i);
  }

  function Sum(ds: seq<Definition>): nat {
    if ds == [] then 0 else Sum(Init(ds)) + |Last(ds).tasks| * |Last(ds).variants|
  }

  lemma {:induction false} TaskCount(digest: Digest, x: string, d: Definition, task: string, reps: nat)
    ensures |EmitTask(digest, x, d, task, reps).trials| == reps * |d.variants|
  {
    if reps > 0 {
      TaskCount(digest, x, d, task, reps - 1);
      assert (reps - 1) * |d.variants| + |d.variants| == reps * |d.variants|;
    }
  }

  lemma {:induction false} TasksCount(digest: Digest, x: string, d: Definition, tasks: seq<string>, reps: nat)
    ensures |EmitTasks(digest, x, d, tasks, reps).trials| == |tasks| * (reps * |d.variants|)
  {
    if tasks != [] {
      TasksCount(digest, x, d, Init(tasks), reps);
      TaskCount(digest, x, d, Last(tasks), reps);
      assert (|tasks| - 1) * (reps * |d.variants|) + reps * |d.variants| == |tasks| * (reps * |d.variants|);
    }
  }

  lemma Reorder(t: nat, r: nat, v: nat)
    ensures t * (r * v) == r * (t * v)
  {
    assert t * (r * v) == t * r * v;
    assert r * (t * v) == r * t * v;
  }

  lemma DefinitionCount(digest: Digest, x: string, d: Definition, reps: nat)
    ensures |EmitDefinition(digest, x, d, reps).trials| == reps * (|d.tasks| * |d.variants|)
  {
    TasksCount(digest, x, d, d.tasks, reps);
    NoTrialsInSuites(x, d.suites);
    Reorder(|d.tasks|, reps, |d.variants|);
  }

  lemma Split(r: nat, a: nat, b: nat)
    ensures r * (a + b) == r * a + r * b
  {
  }

  /** A plan has repetitions times the sum over its packs of tasks times variants trials. */
  lemma {:induction false} TrialCount(digest: Digest, x: string, ds: seq<Definition>, reps: nat)
    ensures |EmitDefinitions(digest, x, ds, reps).trials| == reps * Sum(ds)
    decreases |ds|
  {
    if ds != [] {
      TrialCount(digest, x, Init(ds), reps);
      DefinitionCount(digest, x, Last(ds), reps);
      SumSplits(reps, ds);
    }
  }

  lemma SumSplits(reps: nat, ds: seq<Definition>)
    requires ds != []
    ensures reps * Sum(ds) == reps * Sum(Init(ds)) + reps * (|Last(ds).tasks| * |Last(ds).variants|)
  {
    Split(reps, Sum(Init(ds)), |Last(ds).tasks| * |Last(ds).variants|);
  }
}

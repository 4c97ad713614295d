/** The worst-case estimate bounds the cost of every run that stays within the plan. */
module CostBound {
  import opened Sequences
  import opened CostEstimate
  import opened RetryRanking

  // ---------------------------------------------------------------- runs

  /** A trial of a block: which track, which of its blocks, which variant, which block attempt. */
  datatype Slot = Slot(track: nat, block: nat, arm: nat, attempt: nat)

  /** One dispatched request; `additional` if it repeats an earlier call of its trial. */
  datatype ProviderAttempt = ProviderAttempt(slot: Slot, input: int, output: int, additional: bool)

  type CallRun = seq<ProviderAttempt>

  predicate Planned(suite: Suite, tracks: seq<Track>, slot: Slot)
    requires AllPlannable(suite, tracks)
  {
    && slot.track < |tracks|
    && (assert Plannable(suite, tracks[slot.track].lines);
        var blocks := Blocks(tracks[slot.track].lines);
        slot.block < |blocks| && (assert blocks[slot.block].Divisible(); slot.arm < blocks[slot.block].Arms()))
    && 1 <= slot.attempt <= suite.blockAttempts
  }

  /** Calls that are all alike. */
  lemma {:induction false} TimesTokens(suite: Suite, n: nat, i: int, o: int)
    ensures Times(n, suite.TokenUsd(i, o)) == suite.TokenUsd(n * i, n * o)
  {
    if n == 0 {
      TokenUsdScales(suite, 0, 0, 0);
    } else {
      TimesTokens(suite, n - 1, i, o);
      TokenUsdAdds(suite, (n - 1) * i, (n - 1) * o, i, o);
      assert (n - 1) * i + i == n * i && (n - 1) * o + o == n * o;
    }
  }

  function PackOf(suite: Suite, tracks: seq<Track>, slot: Slot): (packId: string)
    requires AllPlannable(suite, tracks) && Planned(suite, tracks, slot)
    ensures suite.HasBudget(packId)
  {
    assert Plannable(suite, tracks[slot.track].lines);
    var blocks := Blocks(tracks[slot.track].lines);
    assert blocks[slot.block] in tracks[slot.track].lines;
    blocks[slot.block].packId
  }

  predicate Placed(suite: Suite, tracks: seq<Track>, a: ProviderAttempt)
    requires AllPlannable(suite, tracks)
  {
    && Planned(suite, tracks, a.slot)
    && a.input <= suite.BudgetFor(PackOf(suite, tracks, a.slot)).maxInput
    && a.output <= suite.BudgetFor(PackOf(suite, tracks, a.slot)).maxOutput
  }

  function RunUsd(suite: Suite, run: CallRun): real {
    if run == [] then 0.0 else RunUsd(suite, Init(run)) + suite.TokenUsd(Last(run).input, Last(run).output)
  }

  /** Logical calls of one trial. */
  function FirstCalls(run: CallRun, slot: Slot): nat {
    if run == [] then 0
    else FirstCalls(Init(run), slot) + if Last(run).slot == slot && !Last(run).additional then 1 else 0
  }

  function AdditionalCalls(run: CallRun): nat {
    if run == [] then 0 else AdditionalCalls(Init(run)) + if Last(run).additional then 1 else 0
  }

  function CallCeiling(suite: Suite, tracks: seq<Track>, slot: Slot): int
    requires AllPlannable(suite, tracks)
  {
    if Planned(suite, tracks, slot) then suite.BudgetFor(PackOf(suite, tracks, slot)).maxCalls else 0
  }

  /** How often each block of each track is retried. */
  type Claims = seq<seq<nat>>

  /** The retry candidates of a track, one for each of its blocks. */
  function TrackCandidates(suite: Suite, track: Track): (cs: seq<Candidate>)
    requires Plannable(suite, track.lines)
    ensures |cs| == |Blocks(track.lines)|
  {
    Candidates(suite, Blocks(track.lines))
  }

  /** No block is attempted more often than the policy permits, and no track retries more blocks
      than its cap. */
  ghost predicate ValidClaims(suite: Suite, tracks: seq<Track>, claims: Claims)
    requires AllPlannable(suite, tracks)
  {
    && |claims| == |tracks|
    && forall t :: 0 <= t < |tracks| ==>
      (assert tracks[t] in tracks;
       Choice(TrackCandidates(suite, tracks[t]), claims[t], suite.blockAttempts - 1, tracks[t].maxRetries))
  }

  /** A planned slot whose block attempt is the first or one of the claimed ones. */
  ghost predicate Claimed(suite: Suite, tracks: seq<Track>, claims: Claims, slot: Slot)
    requires AllPlannable(suite, tracks) && ValidClaims(suite, tracks, claims)
  {
    && Planned(suite, tracks, slot)
    && slot.attempt <= 1 + claims[slot.track][slot.block]
  }

  /** A run within the plan: the claims are valid, every request belongs to a trial of a first or
      claimed block attempt and keeps the trial's token ceilings, and no trial makes more logical
      calls than planned. */
  ghost predicate WithinPlan(suite: Suite, tracks: seq<Track>, run: CallRun, claims: Claims)
    requires AllPlannable(suite, tracks)
  {
    && ValidClaims(suite, tracks, claims)
    && (forall a :: a in run ==> Placed(suite, tracks, a) && Claimed(suite, tracks, claims, a.slot))
    && (forall slot :: FirstCalls(run, slot) <= CallCeiling(suite, tracks, slot))
  }

  // ---------------------------------------------------------------- pigeonholes

  datatype Filter = At(slot: Slot) | Elsewhere(slot: Slot) | FirstOnly | AdditionalOnly
  {
    predicate Keeps(a: ProviderAttempt) {
      match this
      case At(slot) => a.slot == slot
      case Elsewhere(slot) => a.slot != slot
      case FirstOnly => !a.additional
      case AdditionalOnly => a.additional
    }

    function Other(): Filter {
      match this
      case At(slot) => Elsewhere(slot)
      case Elsewhere(slot) => At(slot)
      case FirstOnly => AdditionalOnly
      case AdditionalOnly => FirstOnly
    }
  }

  function Keep(run: CallRun, f: Filter): CallRun {
    if run == [] then []
    else if f.Keeps(Last(run)) then Keep(Init(run), f) + [Last(run)]
    else Keep(Init(run), f)
  }

  lemma {:induction false} KeepMembers(run: CallRun, f: Filter)
    ensures forall a :: a in Keep(run, f) <==> a in run && f.Keeps(a)
  {
    if run != [] {
      KeepMembers(Init(run), f);
      assert run == Init(run) + [Last(run)];
    }
  }

  lemma {:induction false} KeepSplits(suite: Suite, run: CallRun, f: Filter)
    ensures RunUsd(suite, run) == RunUsd(suite, Keep(run, f)) + RunUsd(suite, Keep(run, f.Other()))
  {
    if run != [] {
      KeepSplits(suite, Init(run), f);
      Snoc(Keep(Init(run), f), Last(run));
      Snoc(Keep(Init(run), f.Other()), Last(run));
    }
  }

  lemma {:induction false} KeepElsewhere(run: CallRun, gone: Slot, slot: Slot)
    ensures Keep(Keep(run, Elsewhere(gone)), At(slot)) == if gone == slot then [] else Keep(run, At(slot))
  {
    if run != [] {
      KeepElsewhere(Init(run), gone, slot);
      Snoc(Keep(Init(run), Elsewhere(gone)), Last(run));
    }
  }

  function SumOver(slots: seq<Slot>, weight: Slot -> real): real {
    if slots == [] then 0.0 else SumOver(Init(slots), weight) + weight(Last(slots))
  }

  lemma {:induction false} SumOverAppend(a: seq<Slot>, b: seq<Slot>, weight: Slot -> real)
    ensures SumOver(a + b, weight) == SumOver(a, weight) + SumOver(b, weight)
  {
    if b == [] {
      assert a + b == a;
    } else {
      SumOverAppend(a, Init(b), weight);
      assert Init(a + b) == a + Init(b) && Last(a + b) == Last(b);
    }
  }

  /** If the requests of each slot cost at most its weight, all of them cost at most the sum. */
  lemma {:induction false} Pigeonholes(suite: Suite, run: CallRun, slots: seq<Slot>, weight: Slot -> real)
    requires forall a :: a in run ==> a.slot in slots
    requires forall s :: s in slots ==> 0.0 <= weight(s) && RunUsd(suite, Keep(run, At(s))) <= weight(s)
    ensures RunUsd(suite, run) <= SumOver(slots, weight)
    decreases |slots|
  {
    if slots == [] {
      assert forall i :: 0 <= i < |run| ==> run[i] in run;
    } else {
      var s, others := Last(slots), Keep(run, Elsewhere(Last(slots)));
      assert s in slots && forall x :: x in Init(slots) ==> x in slots;
      KeepSplits(suite, run, At(s));
      KeepMembers(run, Elsewhere(s));
      assert forall x :: x in slots ==> x in Init(slots) || x == s;
      forall x | x in Init(slots)
        ensures RunUsd(suite, Keep(others, At(x))) <= weight(x)
      {
        KeepElsewhere(run, s, x);
      }
      Pigeonholes(suite, others, Init(slots), weight);
    }
  }

  // ---------------------------------------------------------------- every slot of a plan

  /** The most the planned calls of one trial can cost. */
  function SlotUsd(suite: Suite, tracks: seq<Track>, slot: Slot): real
    requires AllPlannable(suite, tracks)
  {
    if Planned(suite, tracks, slot)
    then Times(CallCeiling(suite, tracks, slot), suite.UnitUsd(PackOf(suite, tracks, slot)))
    else 0.0
  }

  function ArmSlots(t: nat, b: nat, attempt: nat, arms: nat): seq<Slot> {
    if arms == 0 then [] else ArmSlots(t, b, attempt, arms - 1) + [Slot(t, b, arms - 1, attempt)]
  }

  /** The trials of the first `attempts` attempts of a block. */
  function AttemptSlots(t: nat, b: nat, attempts: nat, arms: nat): seq<Slot> {
    if attempts == 0 then [] else AttemptSlots(t, b, attempts - 1, arms) + ArmSlots(t, b, attempts, arms)
  }

  /** The trials of all blocks of a track, each attempted once more than it is retried. */
  function BlockSlots(t: nat, blocks: seq<PackLine>, retries: seq<nat>): seq<Slot>
    requires |retries| == |blocks| && forall line :: line in blocks ==> line.Divisible() && 0 <= line.trials
  {
    if blocks == [] then []
    else
      assert Last(blocks) in blocks && Last(blocks).Divisible();
      BlockSlots(t, Init(blocks), Init(retries)) + AttemptSlots(t, |blocks| - 1, 1 + Last(retries), Last(blocks).Arms())
  }

  lemma {:induction false} ArmSum(t: nat, b: nat, attempt: nat, arms: nat, weight: Slot -> real, w: real)
    requires forall i: nat :: i < arms ==> weight(Slot(t, b, i, attempt)) == w
    ensures SumOver(ArmSlots(t, b, attempt, arms), weight) == Times(arms, w)
  {
    if arms > 0 {
      ArmSum(t, b, attempt, arms - 1, weight, w);
      Snoc(ArmSlots(t, b, attempt, arms - 1), Slot(t, b, arms - 1, attempt));
    }
  }

  /** The weight of a trial of block `b` of line `line`. */
  ghost predicate WeighsLike(suite: Suite, line: PackLine, t: nat, b: nat, attempt: nat, weight: Slot -> real)
    requires suite.HasBudget(line.packId) && line.Divisible()
  {
    forall i: nat :: i < line.Arms() ==>
      weight(Slot(t, b, i, attempt)) == Times(suite.BudgetFor(line.packId).maxCalls, suite.UnitUsd(line.packId))
  }

  lemma ArmsAreNatural(line: PackLine)
    requires line.Divisible() && 0 <= line.trials
    ensures 0 <= line.Arms()
  {
  }

  lemma RetryCost(suite: Suite, line: PackLine, arms: nat)
    requires suite.Valid() && suite.HasBudget(line.packId) && line.Divisible() && arms == line.Arms()
    ensures RetryOf(suite, line).usd == Times(arms, Times(suite.BudgetFor(line.packId).maxCalls, suite.UnitUsd(line.packId)))
  {
    var p := suite.BudgetFor(line.packId);
    TimesTimes(arms, p.maxCalls, suite.UnitUsd(line.packId));
    TimesTokens(suite, ProductOf(arms, p.maxCalls), p.maxInput, p.maxOutput);
  }

  function ProductOf(a: nat, b: nat): (p: nat)
    ensures p == a * b
  {
    a * b
  }

  /** One block at its ceilings costs what its retry candidate says. */
  lemma BlockCost(suite: Suite, line: PackLine, t: nat, b: nat, attempt: nat, weight: Slot -> real)
    requires suite.Valid() && suite.HasBudget(line.packId) && line.Divisible() && 0 <= line.trials
    requires WeighsLike(suite, line, t, b, attempt, weight)
    ensures SumOver(ArmSlots(t, b, attempt, line.Arms()), weight) == RetryOf(suite, line).usd
  {
    ArmsAreNatural(line);
    RetryCost(suite, line, line.Arms());
    ArmSum(t, b, attempt, line.Arms(), weight, Times(suite.BudgetFor(line.packId).maxCalls, suite.UnitUsd(line.packId)));
  }

  ghost predicate AttemptsWeigh(t: nat, b: nat, attempts: int, arms: nat, weight: Slot -> real, usd: real) {
    forall n: nat :: 1 <= n <= attempts ==> SumOver(ArmSlots(t, b, n, arms), weight) == usd
  }

  /** Every attempt of a block weighs the same. */
  lemma {:induction false} AttemptSum(t: nat, b: nat, attempts: nat, arms: nat, weight: Slot -> real, usd: real)
    requires AttemptsWeigh(t, b, attempts, arms, weight, usd)
    ensures SumOver(AttemptSlots(t, b, attempts, arms), weight) == Times(attempts, usd)
  {
    if attempts > 0 {
      AttemptSum(t, b, attempts - 1, arms, weight, usd);
      SumOverAppend(AttemptSlots(t, b, attempts - 1, arms), ArmSlots(t, b, attempts, arms), weight);
    }
  }

  /** Every attempt of every block weighs what its candidate costs. */
  ghost predicate BlocksWeigh(blocks: seq<PackLine>, cs: seq<Candidate>, t: nat, attempts: int, weight: Slot -> real)
    requires |cs| == |blocks| && forall line :: line in blocks ==> line.Divisible() && 0 <= line.trials
  {
    forall b: nat :: b < |blocks| ==>
      (assert blocks[b] in blocks; AttemptsWeigh(t, b, attempts, blocks[b].Arms(), weight, cs[b].usd))
  }

  /** One more block, attempted `1 + retries` times. */
  lemma BlockStep(t: nat, before: seq<Slot>, b: nat, retries: nat, arms: nat, attempts: int, weight: Slot -> real, usd: real)
    requires AttemptsWeigh(t, b, attempts, arms, weight, usd) && retries <= attempts - 1
    ensures SumOver(before + AttemptSlots(t, b, 1 + retries, arms), weight)
      == SumOver(before, weight) + usd + Times(retries, usd)
  {
    AttemptSum(t, b, 1 + retries, arms, weight, usd);
    TimesAdds(1, retries, usd);
    TimesFirst(usd);
    SumOverAppend(before, AttemptSlots(t, b, 1 + retries, arms), weight);
  }

  lemma {:induction false} BlockSum(t: nat, blocks: seq<PackLine>, cs: seq<Candidate>, retries: seq<nat>, attempts: int,
                                    weight: Slot -> real)
    requires |retries| == |blocks| == |cs| && forall line :: line in blocks ==> line.Divisible() && 0 <= line.trials
    requires BlocksWeigh(blocks, cs, t, attempts, weight) && EachAtMost(retries, attempts - 1)
    ensures SumOver(BlockSlots(t, blocks, retries), weight) == SumUsd(cs) + RetriedUsd(cs, retries)
    decreases |blocks|
  {
    if blocks != [] {
      var rest, line := Init(blocks), Last(blocks);
      BlocksSplit(t, blocks, cs, retries, attempts, weight);
      BlockSum(t, rest, Init(cs), Init(retries), attempts, weight);
      BlockStep(t, BlockSlots(t, rest, Init(retries)), |rest|, Last(retries), line.Arms(), attempts, weight, Last(cs).usd);
      SumUsdLast(cs);
    }
  }

  lemma BlocksSplit(t: nat, blocks: seq<PackLine>, cs: seq<Candidate>, retries: seq<nat>, attempts: int,
                    weight: Slot -> real)
    requires |retries| == |blocks| == |cs| && forall line :: line in blocks ==> line.Divisible() && 0 <= line.trials
    requires BlocksWeigh(blocks, cs, t, attempts, weight) && EachAtMost(retries, attempts - 1) && blocks != []
    ensures forall line :: line in Init(blocks) ==> line.Divisible() && 0 <= line.trials
    ensures Last(blocks).Divisible() && 0 <= Last(blocks).trials
    ensures BlocksWeigh(Init(blocks), Init(cs), t, attempts, weight) && EachAtMost(Init(retries), attempts - 1)
    ensures AttemptsWeigh(t, |Init(blocks)|, attempts, Last(blocks).Arms(), weight, Last(cs).usd)
    ensures Last(retries) <= attempts - 1
  {
    var n := |blocks| - 1;
    assert Last(blocks) in blocks && forall x :: x in Init(blocks) ==> x in blocks;
    assert Last(retries) in retries && forall r :: r in Init(retries) ==> r in retries;
    assert AttemptsWeigh(t, n, attempts, blocks[n].Arms(), weight, cs[n].usd);
    forall b: nat | b < n
      ensures AttemptsWeigh(t, b, attempts, Init(blocks)[b].Arms(), weight, Init(cs)[b].usd)
    {
      assert Init(blocks)[b] == blocks[b] && Init(cs)[b] == cs[b];
      assert AttemptsWeigh(t, b, attempts, blocks[b].Arms(), weight, cs[b].usd);
    }
  }

  lemma {:induction false} SumUsdLast(cs: seq<Candidate>)
    requires cs != []
    ensures SumUsd(cs) == SumUsd(Init(cs)) + Last(cs).usd
    decreases |cs|
  {
    if |cs| > 1 {
      SumUsdLast(cs[1..]);
      assert Init(cs)[1..] == Init(cs[1..]);
    }
  }

  // ---------------------------------------------------------------- what the estimate adds up

  ghost predicate PricedAsTotals(suite: Suite, cs: seq<Candidate>) {
    forall c :: c in cs ==> c.usd == c.totals.Usd(suite)
  }

  lemma PlusUsd(suite: Suite, a: Totals, b: Totals)
    ensures a.Plus(b).Usd(suite) == a.Usd(suite) + b.Usd(suite)
  {
    TokenUsdAdds(suite, a.input, a.output, b.input, b.output);
  }

  lemma {:induction false} SumUsdIsTotals(suite: Suite, cs: seq<Candidate>)
    requires PricedAsTotals(suite, cs)
    ensures SumUsd(cs) == SumTotals(cs).Usd(suite)
  {
    if cs == [] {
      TokenUsdScales(suite, 0, 0, 0);
    } else {
      assert cs[0] in cs && forall c :: c in cs[1..] ==> c in cs;
      SumUsdIsTotals(suite, cs[1..]);
      assert cs == [cs[0]] + cs[1..];
      SumTotalsAppend([cs[0]], cs[1..]);
      assert Init([cs[0]]) == [] && Last([cs[0]]) == cs[0];
      assert SumTotals([cs[0]]) == cs[0].totals;
      PlusUsd(suite, cs[0].totals, SumTotals(cs[1..]));
    }
  }

  lemma OneMore(n: int, x: int)
    ensures n * x + x == (n + 1) * x
  {
  }

  lemma {:induction false} RepeatTotals(n: nat, c: Candidate)
    ensures SumTotals(Repeat(n, c)) == Totals(n * c.totals.calls, n * c.totals.input, n * c.totals.output)
  {
    if n > 0 {
      assert Repeat(n, c) == Repeat(n - 1, c) + [c];
      Snoc(Repeat(n - 1, c), c);
      RepeatTotals(n - 1, c);
      OneMore(n - 1, c.totals.calls);
      OneMore(n - 1, c.totals.input);
      OneMore(n - 1, c.totals.output);
    }
  }

  /** All blocks of a pack together make up its planned trials. */
  lemma BlocksOfLine(suite: Suite, line: PackLine)
    requires suite.HasBudget(line.packId) && line.Divisible()
    ensures SumTotals(Repeat(line.blocks, RetryOf(suite, line))) == TrialTotals(suite, line.packId, line.trials)
  {
    var p := suite.BudgetFor(line.packId);
    RepeatTotals(line.blocks, RetryOf(suite, line));
    assert line.blocks * line.Arms() == line.trials;
    Assoc(line.blocks, line.Arms(), p.maxCalls);
    Assoc(line.blocks, line.Arms() * p.maxCalls, p.maxInput);
    Assoc(line.blocks, line.Arms() * p.maxCalls, p.maxOutput);
  }

  lemma Assoc(a: int, b: int, c: int)
    ensures a * (b * c) == a * b * c
  {
  }

  /** The planned totals are those of all retry candidates. */
  lemma {:induction false} PlannedIsEveryBlock(suite: Suite, lines: seq<PackLine>)
    requires Plannable(suite, lines)
    ensures Plannable(suite, Blocks(lines)) && SumTotals(Candidates(suite, Blocks(lines))) == PlannedTotals(suite, lines)
  {
    if lines != [] {
      var rest, line := Init(lines), Last(lines);
      assert line in lines && forall x :: x in rest ==> x in lines;
      PlannedIsEveryBlock(suite, rest);
      BlocksOfLine(suite, line);
      assert Candidates(suite, Blocks(lines)) == Candidates(suite, Blocks(rest)) + Repeat(line.blocks, RetryOf(suite, line));
      SumTotalsAppend(Candidates(suite, Blocks(rest)), Repeat(line.blocks, RetryOf(suite, line)));
    }
  }

  // ---------------------------------------------------------------- one track

  // ---------------------------------------------------------------- which slots are listed

  lemma {:induction false} ArmListed(t: nat, b: nat, attempt: nat, arms: nat)
    ensures forall s :: s in ArmSlots(t, b, attempt, arms)
                        <==> s.track == t && s.block == b && s.attempt == attempt && s.arm < arms
  {
    if arms > 0 {
      ArmListed(t, b, attempt, arms - 1);
    }
  }

  lemma {:induction false} AttemptListed(t: nat, b: nat, attempts: nat, arms: nat)
    ensures forall s :: s in AttemptSlots(t, b, attempts, arms)
                        <==> s.track == t && s.block == b && 1 <= s.attempt <= attempts && s.arm < arms
  {
    if attempts > 0 {
      AttemptListed(t, b, attempts - 1, arms);
      ArmListed(t, b, attempts, arms);
    }
  }

  /** An attempt of a block of the track that is the first or a retry. */
  predicate InBlocks(t: nat, blocks: seq<PackLine>, retries: seq<nat>, s: Slot)
    requires |retries| == |blocks| && forall line :: line in blocks ==> line.Divisible() && 0 <= line.trials
  {
    && s.track == t && s.block < |blocks| && 1 <= s.attempt <= 1 + retries[s.block]
    && (assert blocks[s.block] in blocks; s.arm < blocks[s.block].Arms())
  }

  lemma {:induction false} BlockListed(t: nat, blocks: seq<PackLine>, retries: seq<nat>)
    requires |retries| == |blocks| && forall line :: line in blocks ==> line.Divisible() && 0 <= line.trials
    ensures forall s :: s in BlockSlots(t, blocks, retries) <==> InBlocks(t, blocks, retries, s)
  {
    if blocks != [] {
      BlockListed(t, Init(blocks), Init(retries));
      AttemptListed(t, |blocks| - 1, 1 + Last(retries), Last(blocks).Arms());
    }
  }

  lemma RetryNonNegative(suite: Suite, line: PackLine)
    requires suite.Valid() && suite.HasBudget(line.packId) && line.Divisible() && 0 <= line.trials
    ensures 0.0 <= RetryOf(suite, line).usd
  {
    ArmsAreNatural(line);
    RetryCost(suite, line, line.Arms());
    UnitNonNegative(suite, line.packId);
    TimesMonotone(0, suite.BudgetFor(line.packId).maxCalls, suite.UnitUsd(line.packId));
    TimesMonotone(0, line.Arms(), Times(suite.BudgetFor(line.packId).maxCalls, suite.UnitUsd(line.packId)));
  }

  lemma CandidatesNonNegative(suite: Suite, blocks: seq<PackLine>)
    requires suite.Valid() && Plannable(suite, blocks)
    ensures NonNegative(Candidates(suite, blocks)) && PricedAsTotals(suite, Candidates(suite, blocks))
  {
    forall line | line in blocks
      ensures 0.0 <= RetryOf(suite, line).usd
    {
      RetryNonNegative(suite, line);
    }
  }

  lemma UnitNonNegative(suite: Suite, packId: string)
    requires suite.Valid() && suite.HasBudget(packId)
    ensures 0.0 <= suite.UnitUsd(packId) && 1 <= suite.BudgetFor(packId).maxCalls
  {
    TokenUsdMonotone(suite, 0, 0, suite.BudgetFor(packId).maxInput, suite.BudgetFor(packId).maxOutput);
    TokenUsdScales(suite, 0, 0, 0);
  }

  lemma SelectedCost(suite: Suite, track: Track)
    requires suite.Valid() && Plannable(suite, track.lines) && 0 <= track.maxRetries
    requires Plannable(suite, Blocks(track.lines))
    ensures SumUsd(Selected(suite, track)) == SumTotals(Selected(suite, track)).Usd(suite)
  {
    var cs := Candidates(suite, Blocks(track.lines));
    CandidatesNonNegative(suite, Blocks(track.lines));
    SortByCostSorts(cs);
    forall c | c in Selected(suite, track)
      ensures c.usd == c.totals.Usd(suite)
    {
      assert c in multiset(SortByCost(cs));
    }
    SumUsdIsTotals(suite, Selected(suite, track));
  }

  /** A track's first attempts and retries at their ceilings. */
  function TrackUsd(suite: Suite, track: Track, retries: seq<nat>): real
    requires Plannable(suite, track.lines) && |retries| == |TrackCandidates(suite, track)|
  {
    PlannedTotals(suite, track.lines).Usd(suite) + RetriedUsd(TrackCandidates(suite, track), retries)
  }

  lemma TrackCost(suite: Suite, t: nat, track: Track, retries: seq<nat>, weight: Slot -> real)
    requires suite.Valid() && Plannable(suite, track.lines) && Plannable(suite, Blocks(track.lines))
    requires |retries| == |Blocks(track.lines)| && EachAtMost(retries, suite.blockAttempts - 1)
    requires TrackWeighs(suite, track, t, weight)
    ensures SumOver(BlockSlots(t, Blocks(track.lines), retries), weight) == TrackUsd(suite, track, retries)
  {
    var blocks, cs := Blocks(track.lines), TrackCandidates(suite, track);
    TrackWeighsUp(suite, t, track, weight);
    BlockSum(t, blocks, cs, retries, suite.blockAttempts, weight);
    CandidatesNonNegative(suite, blocks);
    SumUsdIsTotals(suite, cs);
    PlannedIsEveryBlock(suite, track.lines);
  }

  ghost predicate TrackWeighs(suite: Suite, track: Track, t: nat, weight: Slot -> real)
    requires Plannable(suite, track.lines)
  {
    forall b: nat, n: nat :: b < |Blocks(track.lines)| && 1 <= n <= suite.blockAttempts ==>
      (assert Blocks(track.lines)[b] in track.lines; WeighsLike(suite, Blocks(track.lines)[b], t, b, n, weight))
  }

  lemma TrackWeighsUp(suite: Suite, t: nat, track: Track, weight: Slot -> real)
    requires suite.Valid() && Plannable(suite, track.lines) && TrackWeighs(suite, track, t, weight)
    ensures BlocksWeigh(Blocks(track.lines), TrackCandidates(suite, track), t, suite.blockAttempts, weight)
  {
    forall b: nat, n: nat | b < |Blocks(track.lines)| && 1 <= n <= suite.blockAttempts
      ensures SumOver(ArmSlots(t, b, n, Blocks(track.lines)[b].Arms()), weight) == TrackCandidates(suite, track)[b].usd
    {
      assert Blocks(track.lines)[b] in track.lines;
      BlockCost(suite, Blocks(track.lines)[b], t, b, n, weight);
    }
  }

  // ---------------------------------------------------------------- all tracks

  function AllSlots(suite: Suite, tracks: seq<Track>, claims: Claims): seq<Slot>
    requires AllPlannable(suite, tracks) && ValidClaims(suite, tracks, claims)
  {
    if tracks == [] then []
    else
      assert Plannable(suite, Last(tracks).lines);
      InitClaims(suite, tracks, claims);
      AllSlots(suite, Init(tracks), Init(claims)) + BlockSlots(|tracks| - 1, Blocks(Last(tracks).lines), Last(claims))
  }

  lemma InitClaims(suite: Suite, tracks: seq<Track>, claims: Claims)
    requires AllPlannable(suite, tracks) && ValidClaims(suite, tracks, claims) && tracks != []
    ensures AllPlannable(suite, Init(tracks)) && ValidClaims(suite, Init(tracks), Init(claims))
    ensures Plannable(suite, Last(tracks).lines)
    ensures Choice(TrackCandidates(suite, Last(tracks)), Last(claims), suite.blockAttempts - 1, Last(tracks).maxRetries)
  {
    assert forall t :: t in Init(tracks) ==> t in tracks;
    assert Last(tracks) == tracks[|tracks| - 1] && Last(claims) == claims[|tracks| - 1];
    assert forall t :: 0 <= t < |Init(tracks)| ==> Init(tracks)[t] == tracks[t] && Init(claims)[t] == claims[t];
  }

  /** Every trial of every block of every track weighs its calls at its pack's ceilings. */
  ghost predicate Weighs(suite: Suite, tracks: seq<Track>, weight: Slot -> real)
    requires AllPlannable(suite, tracks)
  {
    forall t: nat :: t < |tracks| ==>
      (assert tracks[t] in tracks; TrackWeighs(suite, tracks[t], t, weight))
  }

  /** What a campaign with those claims costs when every trial uses up its ceilings. */
  function ClaimedUsd(suite: Suite, tracks: seq<Track>, claims: Claims): real
    requires AllPlannable(suite, tracks) && ValidClaims(suite, tracks, claims)
  {
    if tracks == [] then 0.0
    else
      InitClaims(suite, tracks, claims);
      ClaimedUsd(suite, Init(tracks), Init(claims)) + TrackUsd(suite, Last(tracks), Last(claims))
  }

  lemma {:induction false} AllSlotsCost(suite: Suite, tracks: seq<Track>, claims: Claims, weight: Slot -> real)
    requires suite.Valid() && AllPlannable(suite, tracks) && ValidClaims(suite, tracks, claims) && Weighs(suite, tracks, weight)
    ensures SumOver(AllSlots(suite, tracks, claims), weight) == ClaimedUsd(suite, tracks, claims)
  {
    if tracks != [] {
      var rest, track, t := Init(tracks), Last(tracks), |tracks| - 1;
      InitClaims(suite, tracks, claims);
      assert forall i: nat :: i < |rest| ==> rest[i] == tracks[i];
      AllSlotsCost(suite, rest, Init(claims), weight);
      assert tracks[t] == track;
      TrackCost(suite, t, track, Last(claims), weight);
      SumOverAppend(AllSlots(suite, rest, Init(claims)), BlockSlots(t, Blocks(track.lines), Last(claims)), weight);
    }
  }

  /** The campaign's totals, track by track. */
  function TotalsUsd(suite: Suite, tracks: seq<Track>): real
    requires AllPlannable(suite, tracks)
  {
    if tracks == [] then 0.0
    else
      assert Plannable(suite, Last(tracks).lines);
      TotalsUsd(suite, Init(tracks)) + PlannedTotals(suite, Last(tracks).lines).Usd(suite) + SumUsd(Selected(suite, Last(tracks)))
  }

  lemma FourTotals(suite: Suite, p: Totals, p': Totals, r: Totals, r': Totals)
    ensures p.Plus(p').Plus(r.Plus(r')).Usd(suite) == p.Plus(r).Usd(suite) + p'.Usd(suite) + r'.Usd(suite)
  {
    assert p.Plus(p').Plus(r.Plus(r')) == p.Plus(r).Plus(p').Plus(r');
    PlusUsd(suite, p.Plus(r).Plus(p'), r');
    PlusUsd(suite, p.Plus(r), p');
  }

  /** What one more track adds to the campaign's totals. */
  lemma OneMoreTrack(suite: Suite, tracks: seq<Track>, rest: seq<Track>, track: Track)
    requires suite.Valid() && tracks != [] && rest == Init(tracks) && track == Last(tracks)
    requires AllPlannable(suite, tracks) && AllPlannable(suite, rest) && Plannable(suite, track.lines) && 0 <= track.maxRetries
    ensures CampaignTotals(suite, tracks)
      == PlannedAll(suite, rest).Plus(PlannedTotals(suite, track.lines))
           .Plus(SumTotals(SelectedAll(suite, rest)).Plus(SumTotals(Selected(suite, track))))
  {
    SumTotalsAppend(SelectedAll(suite, rest), Selected(suite, track));
  }

  lemma TotalsStep(suite: Suite, tracks: seq<Track>, rest: seq<Track>, track: Track, usd: real)
    requires suite.Valid() && tracks != [] && rest == Init(tracks) && track == Last(tracks)
    requires AllPlannable(suite, tracks) && AllPlannable(suite, rest) && Plannable(suite, track.lines) && 0 <= track.maxRetries
    requires Plannable(suite, Blocks(track.lines)) && usd == CampaignTotals(suite, rest).Usd(suite)
    ensures CampaignTotals(suite, tracks).Usd(suite)
      == usd + PlannedTotals(suite, track.lines).Usd(suite) + SumUsd(Selected(suite, track))
  {
    OneMoreTrack(suite, tracks, rest, track);
    SelectedCost(suite, track);
    FourTotals(suite, PlannedAll(suite, rest), PlannedTotals(suite, track.lines), SumTotals(SelectedAll(suite, rest)),
               SumTotals(Selected(suite, track)));
  }

  lemma {:induction false} TotalsAreSums(suite: Suite, tracks: seq<Track>)
    requires suite.Valid() && AllPlannable(suite, tracks)
    ensures TotalsUsd(suite, tracks) == CampaignTotals(suite, tracks).Usd(suite)
  {
    if tracks == [] {
      TokenUsdScales(suite, 0, 0, 0);
    } else {
      assert Last(tracks) in tracks && forall x :: x in Init(tracks) ==> x in tracks;
      TotalsAreSums(suite, Init(tracks));
      TotalsStep(suite, tracks, Init(tracks), Last(tracks), TotalsUsd(suite, Init(tracks)));
    }
  }

  /** The slots a run may use are the claimed ones. */
  lemma {:induction false} SlotsListed(suite: Suite, tracks: seq<Track>, claims: Claims)
    requires AllPlannable(suite, tracks) && ValidClaims(suite, tracks, claims)
    ensures forall s :: s in AllSlots(suite, tracks, claims) <==> Claimed(suite, tracks, claims, s)
  {
    if tracks != [] {
      var rest, t := Init(tracks), |tracks| - 1;
      InitClaims(suite, tracks, claims);
      SlotsListed(suite, rest, Init(claims));
      BlockListed(t, Blocks(Last(tracks).lines), Last(claims));
      forall s: Slot
        ensures s in AllSlots(suite, tracks, claims) <==> Claimed(suite, tracks, claims, s)
      {
        assert s.track < t ==> rest[s.track] == tracks[s.track] && Init(claims)[s.track] == claims[s.track];
        if s.track == t {
          LastClaimed(suite, tracks, claims, s);
        }
      }
    }
  }

  lemma LastClaimed(suite: Suite, tracks: seq<Track>, claims: Claims, s: Slot)
    requires AllPlannable(suite, tracks) && ValidClaims(suite, tracks, claims) && tracks != []
    requires s.track == |tracks| - 1
    ensures Plannable(suite, Last(tracks).lines) && |Last(claims)| == |Blocks(Last(tracks).lines)|
    ensures Claimed(suite, tracks, claims, s) <==> InBlocks(|tracks| - 1, Blocks(Last(tracks).lines), Last(claims), s)
  {
    InitClaims(suite, tracks, claims);
    if s.block < |Last(claims)| {
      assert Last(claims)[s.block] in Last(claims);
    }
  }

  // ---------------------------------------------------------------- when the retries are covered

  /** The tracks are the suite's own, in any number and order. */
  predicate Belong(suite: Suite, tracks: seq<Track>) {
    forall t :: t in tracks ==> t == suite.calibration || t == suite.formal
  }

  /** The estimate's retries of that track come to as much as any permitted ones: blocks are
      attempted at most twice, or at most one retry is permitted, or the dearest blocks, as many
      as may be retried, cost the same. */
  predicate RetriesCovered(suite: Suite, track: Track)
    requires Plannable(suite, track.lines)
  {
    RepeatsCovered(TrackCandidates(suite, track), suite.blockAttempts, track.maxRetries)
  }

  predicate AllRetriesCovered(suite: Suite, tracks: seq<Track>)
    requires AllPlannable(suite, tracks)
  {
    forall t :: t in tracks ==> RetriesCovered(suite, t)
  }

  lemma {:induction false} BlocksAreCounted(lines: seq<PackLine>)
    requires forall line :: line in lines ==> line.Divisible()
    ensures |Blocks(lines)| == BlockCount(lines)
  {
    if lines != [] {
      BlocksAreCounted(Init(lines));
      assert Last(lines).Divisible();
    }
  }

  lemma TrackIsCovered(suite: Suite, track: Track, retries: seq<nat>)
    requires suite.Valid() && suite.ValidTrack(track) && Plannable(suite, track.lines)
    requires Choice(TrackCandidates(suite, track), retries, suite.blockAttempts - 1, track.maxRetries)
    requires RetriesCovered(suite, track)
    ensures RetriedUsd(TrackCandidates(suite, track), retries) <= SumUsd(Selected(suite, track))
  {
    var cs := TrackCandidates(suite, track);
    CandidatesNonNegative(suite, Blocks(track.lines));
    BlocksAreCounted(track.lines);
    CoveredBound(cs, retries, suite.blockAttempts, track.maxRetries);
    TopIsTake(SortByCost(cs), track.maxRetries);
  }

  lemma {:induction false} ClaimsAreCovered(suite: Suite, tracks: seq<Track>, claims: Claims)
    requires suite.Valid() && Belong(suite, tracks)
    requires AllPlannable(suite, tracks) && ValidClaims(suite, tracks, claims) && AllRetriesCovered(suite, tracks)
    ensures ClaimedUsd(suite, tracks, claims) <= TotalsUsd(suite, tracks)
  {
    if tracks != [] {
      InitClaims(suite, tracks, claims);
      assert Last(tracks) in tracks && forall x :: x in Init(tracks) ==> x in tracks;
      ClaimsAreCovered(suite, Init(tracks), Init(claims));
      TrackIsCovered(suite, Last(tracks), Last(claims));
    }
  }

  // ---------------------------------------------------------------- runs against the estimate

  function Weight(suite: Suite, tracks: seq<Track>): Slot -> real
    requires AllPlannable(suite, tracks)
  {
    (s: Slot) => if AllPlannable(suite, tracks) then SlotUsd(suite, tracks, s) else 0.0
  }

  lemma WeightWeighs(suite: Suite, tracks: seq<Track>)
    requires AllPlannable(suite, tracks)
    ensures Weighs(suite, tracks, Weight(suite, tracks))
  {
  }

  lemma {:induction false} CallsCost(suite: Suite, run: CallRun, unit: real)
    requires forall a :: a in run ==> suite.TokenUsd(a.input, a.output) <= unit
    ensures RunUsd(suite, run) <= Times(|run|, unit)
  {
    if run != [] {
      assert Last(run) in run && forall a :: a in Init(run) ==> a in run;
      CallsCost(suite, Init(run), unit);
    }
  }

  lemma {:induction false} KeptCounts(run: CallRun, slot: Slot)
    ensures |Keep(Keep(run, FirstOnly), At(slot))| == FirstCalls(run, slot)
    ensures |Keep(run, AdditionalOnly)| == AdditionalCalls(run)
  {
    if run != [] {
      KeptCounts(Init(run), slot);
      Snoc(Keep(Init(run), FirstOnly), Last(run));
    }
  }

  lemma OneTrial(suite: Suite, tracks: seq<Track>, run: CallRun, slot: Slot)
    requires suite.Valid() && AllPlannable(suite, tracks) && Planned(suite, tracks, slot)
    requires forall a :: a in run ==> Placed(suite, tracks, a)
    requires FirstCalls(run, slot) <= CallCeiling(suite, tracks, slot)
    ensures RunUsd(suite, Keep(Keep(run, FirstOnly), At(slot))) <= SlotUsd(suite, tracks, slot)
    ensures 0.0 <= SlotUsd(suite, tracks, slot)
  {
    var mine := Keep(Keep(run, FirstOnly), At(slot));
    var packId := PackOf(suite, tracks, slot);
    KeepMembers(run, FirstOnly);
    KeepMembers(Keep(run, FirstOnly), At(slot));
    KeptCounts(run, slot);
    UnitNonNegative(suite, packId);
    forall a | a in mine
      ensures suite.TokenUsd(a.input, a.output) <= suite.UnitUsd(packId)
    {
      assert a in run;
      TokenUsdMonotone(suite, a.input, a.output, suite.BudgetFor(packId).maxInput, suite.BudgetFor(packId).maxOutput);
    }
    CallsCost(suite, mine, suite.UnitUsd(packId));
    TimesMonotone(|mine|, CallCeiling(suite, tracks, slot), suite.UnitUsd(packId));
  }

  lemma AdditionalCost(suite: Suite, tracks: seq<Track>, run: CallRun, c: CallCandidate)
    requires suite.Valid() && AllPlannable(suite, tracks) && IsDearest(c, CallCandidates(suite, tracks))
    requires forall a :: a in run ==> Placed(suite, tracks, a)
    ensures RunUsd(suite, Keep(run, AdditionalOnly)) <= Times(AdditionalCalls(run), c.usd)
  {
    KeepMembers(run, AdditionalOnly);
    KeptCounts(run, Slot(0, 0, 0, 1));
    forall a | a in Keep(run, AdditionalOnly)
      ensures suite.TokenUsd(a.input, a.output) <= c.usd
    {
      assert a in run;
      PlacedCostsAtMost(suite, tracks, a, c);
    }
    CallsCost(suite, Keep(run, AdditionalOnly), c.usd);
  }

  /** No request of a planned trial costs more than the dearest call. */
  lemma PlacedCostsAtMost(suite: Suite, tracks: seq<Track>, a: ProviderAttempt, c: CallCandidate)
    requires suite.Valid() && AllPlannable(suite, tracks) && IsDearest(c, CallCandidates(suite, tracks))
    requires Placed(suite, tracks, a)
    ensures suite.TokenUsd(a.input, a.output) <= c.usd
  {
    var packId := PackOf(suite, tracks, a.slot);
    TokenUsdMonotone(suite, a.input, a.output, suite.BudgetFor(packId).maxInput, suite.BudgetFor(packId).maxOutput);
    CallCandidatesAreUnits(suite, tracks);
    assert tracks[a.slot.track] in tracks;
    assert Blocks(tracks[a.slot.track].lines)[a.slot.block] in tracks[a.slot.track].lines;
    assert CallCandidate(suite.UnitUsd(packId), packId) in CallCandidates(suite, tracks);
  }

  /** The first requests of a run cost at most what its claims come to. */
  lemma FirstCallsCost(suite: Suite, tracks: seq<Track>, run: CallRun, claims: Claims)
    requires suite.Valid() && AllPlannable(suite, tracks) && WithinPlan(suite, tracks, run, claims)
    ensures RunUsd(suite, Keep(run, FirstOnly)) <= ClaimedUsd(suite, tracks, claims)
  {
    var slots, weight, firsts := AllSlots(suite, tracks, claims), Weight(suite, tracks), Keep(run, FirstOnly);
    KeepMembers(run, FirstOnly);
    SlotsListed(suite, tracks, claims);
    forall s: Slot
      ensures 0.0 <= weight(s) && RunUsd(suite, Keep(firsts, At(s))) <= weight(s)
    {
      if Planned(suite, tracks, s) {
        OneTrial(suite, tracks, run, s);
      } else {
        Unplanned(suite, tracks, firsts, s);
      }
    }
    Pigeonholes(suite, firsts, slots, weight);
    WeightWeighs(suite, tracks);
    AllSlotsCost(suite, tracks, claims, weight);
  }

  lemma Unplanned(suite: Suite, tracks: seq<Track>, run: CallRun, slot: Slot)
    requires AllPlannable(suite, tracks) && !Planned(suite, tracks, slot)
    requires forall a :: a in run ==> Placed(suite, tracks, a)
    ensures Keep(run, At(slot)) == []
  {
    KeepMembers(run, At(slot));
    var kept := Keep(run, At(slot));
    assert forall i :: 0 <= i < |kept| ==> kept[i] in kept;
  }

  /** Every run within the plan whose retries are covered costs at most the campaign's totals and
      its repeated calls at the dearest price. */
  lemma RunCost(suite: Suite, tracks: seq<Track>, run: CallRun, claims: Claims, c: CallCandidate)
    requires suite.Valid() && Belong(suite, tracks) && AllPlannable(suite, tracks)
    requires WithinPlan(suite, tracks, run, claims) && AllRetriesCovered(suite, tracks)
    requires IsDearest(c, CallCandidates(suite, tracks))
    ensures RunUsd(suite, run) <= CampaignTotals(suite, tracks).Usd(suite) + Times(AdditionalCalls(run), c.usd)
  {
    KeepSplits(suite, run, FirstOnly);
    FirstCallsCost(suite, tracks, run, claims);
    ClaimsAreCovered(suite, tracks, claims);
    TotalsAreSums(suite, tracks);
    AdditionalCost(suite, tracks, run, c);
  }

  lemma PriceParts(suite: Suite, trials: int, t: Totals, b: PackBudget)
    requires 0 <= suite.maxAdditional
    ensures PriceTotals(suite, trials, t, b).usd == t.Usd(suite) + Times(suite.maxAdditional, suite.TokenUsd(b.maxInput, b.maxOutput))
  {
    TimesTokens(suite, suite.maxAdditional, b.maxInput, b.maxOutput);
    TokenUsdAdds(suite, t.input, t.output, suite.maxAdditional * b.maxInput, suite.maxAdditional * b.maxOutput);
  }

  lemma UsdBound(suite: Suite, tracks: seq<Track>, run: CallRun, claims: Claims, c: CallCandidate)
    requires suite.Valid() && Belong(suite, tracks) && AllPlannable(suite, tracks)
    requires WithinPlan(suite, tracks, run, claims) && AllRetriesCovered(suite, tracks)
    requires IsDearest(c, CallCandidates(suite, tracks)) && suite.HasBudget(c.packId)
    requires AdditionalCalls(run) <= suite.maxAdditional
    ensures RunUsd(suite, run) <= EstimateWith(suite, tracks, c.packId).usd
  {
    RunCost(suite, tracks, run, claims, c);
    CallCandidatesAreUnits(suite, tracks);
    UnitNonNegative(suite, c.packId);
    PriceParts(suite, PlannedTrials(tracks), CampaignTotals(suite, tracks), suite.BudgetFor(c.packId));
    TimesMonotone(AdditionalCalls(run), suite.maxAdditional, c.usd);
  }

  /** The estimate covers a run, the external reserve included. */
  ghost predicate Covers(suite: Suite, e: CostEstimate, usd: real) {
    usd <= e.usd && usd * suite.usdToCny + suite.externalReserveCny <= e.cny
  }

  lemma CoversInCny(suite: Suite, trials: int, t: Totals, b: PackBudget, usd: real)
    requires suite.Valid() && usd <= PriceTotals(suite, trials, t, b).usd
    ensures Covers(suite, PriceTotals(suite, trials, t, b), usd)
  {
    ScaleMonotone(usd, PriceTotals(suite, trials, t, b).usd, suite.usdToCny);
  }

  /** The estimate, with the dearest call it picks, bounds the cost in CNY of every run within
      the plan that repeats at most the permitted number of calls, if the retries are covered. */
  lemma EstimateIsUpperBound(suite: Suite, tracks: seq<Track>, run: CallRun, claims: Claims, c: CallCandidate)
    requires suite.Valid() && Belong(suite, tracks) && AllPlannable(suite, tracks)
    requires WithinPlan(suite, tracks, run, claims) && AllRetriesCovered(suite, tracks)
    requires IsDearest(c, CallCandidates(suite, tracks)) && suite.HasBudget(c.packId)
    requires AdditionalCalls(run) <= suite.maxAdditional
    ensures Covers(suite, EstimateWith(suite, tracks, c.packId), RunUsd(suite, run))
  {
    UsdBound(suite, tracks, run, claims, c);
    CoversInCny(suite, PlannedTrials(tracks), CampaignTotals(suite, tracks), suite.BudgetFor(c.packId), RunUsd(suite, run));
  }
}

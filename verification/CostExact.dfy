/** The worst-case estimate bounds every run within the plan exactly when the retries it picks
    come to as much as any permitted ones, and its counts cover every choice of retries exactly
    when the ranking by cost agrees with the ranking by that count. */
module CostExact {
  import opened Sequences
  import opened CostEstimate
  import opened RetryRanking
  import opened CostBound

  // ---------------------------------------------------------------- slots are listed once

  lemma DistinctAppend<T>(a: seq<T>, b: seq<T>)
    requires NoDuplicates(a) && NoDuplicates(b) && forall x :: x in a ==> x !in b
    ensures NoDuplicates(a + b)
  {
    forall i, j | 0 <= i < j < |a + b|
      ensures (a + b)[i] != (a + b)[j]
    {
      if i < |a| <= j {
        assert a[i] in a && b[j - |a|] in b;
      }
    }
  }

  lemma {:induction false} ArmsDiffer(t: nat, b: nat, attempt: nat, arms: nat)
    ensures NoDuplicates(ArmSlots(t, b, attempt, arms))
  {
    if arms > 0 {
      ArmsDiffer(t, b, attempt, arms - 1);
      ArmListed(t, b, attempt, arms - 1);
      DistinctAppend(ArmSlots(t, b, attempt, arms - 1), [Slot(t, b, arms - 1, attempt)]);
    }
  }

  lemma LaterAttemptDiffers(t: nat, b: nat, earlier: nat, attempt: nat, arms: nat)
    requires earlier < attempt
    ensures forall s :: s in AttemptSlots(t, b, earlier, arms) ==> s !in ArmSlots(t, b, attempt, arms)
  {
    AttemptListed(t, b, earlier, arms);
    ArmListed(t, b, attempt, arms);
  }

  lemma {:induction false} AttemptsDiffer(t: nat, b: nat, attempts: nat, arms: nat)
    ensures NoDuplicates(AttemptSlots(t, b, attempts, arms))
  {
    if attempts > 0 {
      AttemptsDiffer(t, b, attempts - 1, arms);
      ArmsDiffer(t, b, attempts, arms);
      LaterAttemptDiffers(t, b, attempts - 1, attempts, arms);
      DistinctAppend(AttemptSlots(t, b, attempts - 1, arms), ArmSlots(t, b, attempts, arms));
    }
  }

  lemma {:induction false} BlocksDiffer(t: nat, blocks: seq<PackLine>, retries: seq<nat>)
    requires |retries| == |blocks| && forall line :: line in blocks ==> line.Divisible() && 0 <= line.trials
    ensures NoDuplicates(BlockSlots(t, blocks, retries))
  {
    if blocks != [] {
      var n, arms := |blocks| - 1, Last(blocks).Arms();
      BlocksDiffer(t, Init(blocks), Init(retries));
      BlockListed(t, Init(blocks), Init(retries));
      AttemptsDiffer(t, n, 1 + Last(retries), arms);
      AttemptListed(t, n, 1 + Last(retries), arms);
      DistinctAppend(BlockSlots(t, Init(blocks), Init(retries)), AttemptSlots(t, n, 1 + Last(retries), arms));
    }
  }

  lemma {:induction false} SlotsDiffer(suite: Suite, tracks: seq<Track>, claims: Claims)
    requires AllPlannable(suite, tracks) && ValidClaims(suite, tracks, claims)
    ensures NoDuplicates(AllSlots(suite, tracks, claims))
  {
    if tracks != [] {
      var rest, t, blocks := Init(tracks), |tracks| - 1, Blocks(Last(tracks).lines);
      InitClaims(suite, tracks, claims);
      SlotsDiffer(suite, rest, Init(claims));
      SlotsListed(suite, rest, Init(claims));
      BlocksDiffer(t, blocks, Last(claims));
      BlockListed(t, blocks, Last(claims));
      DistinctAppend(AllSlots(suite, rest, Init(claims)), BlockSlots(t, blocks, Last(claims)));
    }
  }

  // ---------------------------------------------------------------- runs that use up every ceiling

  /** `n` calls of one trial at its pack's token ceilings. */
  function Calls(suite: Suite, tracks: seq<Track>, slot: Slot, n: nat, additional: bool): CallRun
    requires AllPlannable(suite, tracks) && Planned(suite, tracks, slot)
  {
    var b := suite.BudgetFor(PackOf(suite, tracks, slot));
    if n == 0 then []
    else Calls(suite, tracks, slot, n - 1, additional) + [ProviderAttempt(slot, b.maxInput, b.maxOutput, additional)]
  }

  function NumberOf(suite: Suite, tracks: seq<Track>, slot: Slot): nat
    requires suite.Valid() && AllPlannable(suite, tracks)
  {
    CallCeiling(suite, tracks, slot)
  }

  /** Every listed trial makes all its calls. */
  function FullRun(suite: Suite, tracks: seq<Track>, slots: seq<Slot>): CallRun
    requires suite.Valid() && AllPlannable(suite, tracks) && forall s :: s in slots ==> Planned(suite, tracks, s)
  {
    if slots == [] then []
    else
      assert forall s :: s in Init(slots) ==> s in slots;
      FullRun(suite, tracks, Init(slots))
      + Calls(suite, tracks, Last(slots), NumberOf(suite, tracks, Last(slots)), false)
  }

  lemma {:induction false} RunAppend(suite: Suite, a: CallRun, b: CallRun)
    ensures RunUsd(suite, a + b) == RunUsd(suite, a) + RunUsd(suite, b)
    ensures AdditionalCalls(a + b) == AdditionalCalls(a) + AdditionalCalls(b)
    ensures forall s :: FirstCalls(a + b, s) == FirstCalls(a, s) + FirstCalls(b, s)
    decreases |b|
  {
    if b == [] {
      assert a + b == a;
    } else {
      RunAppend(suite, a, Init(b));
      assert Init(a + b) == a + Init(b) && Last(a + b) == Last(b);
    }
  }

  lemma {:induction false} CallsCostAndCount(suite: Suite, tracks: seq<Track>, slot: Slot, n: nat, additional: bool)
    requires AllPlannable(suite, tracks) && Planned(suite, tracks, slot)
    ensures var run := Calls(suite, tracks, slot, n, additional);
      && RunUsd(suite, run) == Times(n, suite.UnitUsd(PackOf(suite, tracks, slot)))
      && AdditionalCalls(run) == (if additional then n else 0)
      && (forall s :: FirstCalls(run, s) == if s == slot && !additional then n else 0)
      && (forall a :: a in run ==> Placed(suite, tracks, a) && a.slot == slot)
  {
    if n > 0 {
      CallsCostAndCount(suite, tracks, slot, n - 1, additional);
      Snoc(Calls(suite, tracks, slot, n - 1, additional), Last(Calls(suite, tracks, slot, n, additional)));
    }
  }

  /** A full run costs what its trials weigh, makes as many calls as their ceilings permit, and
      stays in their slots. */
  ghost predicate IsFull(suite: Suite, tracks: seq<Track>, slots: seq<Slot>, run: CallRun)
    requires suite.Valid() && AllPlannable(suite, tracks)
  {
    && RunUsd(suite, run) == SumOver(slots, Weight(suite, tracks))
    && AdditionalCalls(run) == 0
    && (forall s :: FirstCalls(run, s) == if s in slots then NumberOf(suite, tracks, s) else 0)
    && (forall a :: a in run ==> Placed(suite, tracks, a) && a.slot in slots)
  }

  lemma OneMoreTrial(suite: Suite, tracks: seq<Track>, slots: seq<Slot>, run: CallRun, last: Slot)
    requires suite.Valid() && AllPlannable(suite, tracks) && IsFull(suite, tracks, slots, run)
    requires Planned(suite, tracks, last) && last !in slots
    ensures IsFull(suite, tracks, slots + [last], run + Calls(suite, tracks, last, NumberOf(suite, tracks, last), false))
  {
    var n := NumberOf(suite, tracks, last);
    CallsCostAndCount(suite, tracks, last, n, false);
    RunAppend(suite, run, Calls(suite, tracks, last, n, false));
    Snoc(slots, last);
  }

  lemma {:induction false} FullRunCosts(suite: Suite, tracks: seq<Track>, slots: seq<Slot>)
    requires suite.Valid() && AllPlannable(suite, tracks) && forall s :: s in slots ==> Planned(suite, tracks, s)
    requires NoDuplicates(slots)
    ensures IsFull(suite, tracks, slots, FullRun(suite, tracks, slots))
  {
    if slots != [] {
      LastIsNew(slots);
      FullRunCosts(suite, tracks, Init(slots));
      OneMoreTrial(suite, tracks, Init(slots), FullRun(suite, tracks, Init(slots)), Last(slots));
      assert slots == Init(slots) + [Last(slots)];
    }
  }

  lemma LastIsNew<T>(s: seq<T>)
    requires NoDuplicates(s) && s != []
    ensures Last(s) !in Init(s) && forall x :: x in s <==> x in Init(s) || x == Last(s)
  {
    assert s == Init(s) + [Last(s)];
  }

  /** Every claim can be used up: some run within the plan costs all that its claims come to. */
  lemma ClaimsAreAttained(suite: Suite, tracks: seq<Track>, claims: Claims) returns (run: CallRun)
    requires suite.Valid() && AllPlannable(suite, tracks) && ValidClaims(suite, tracks, claims)
    ensures WithinPlan(suite, tracks, run, claims) && AdditionalCalls(run) == 0
    ensures RunUsd(suite, run) == ClaimedUsd(suite, tracks, claims)
  {
    var slots := AllSlots(suite, tracks, claims);
    SlotsListed(suite, tracks, claims);
    SlotsDiffer(suite, tracks, claims);
    run := FullRun(suite, tracks, slots);
    FullRunCosts(suite, tracks, slots);
    WeightWeighs(suite, tracks);
    AllSlotsCost(suite, tracks, claims, Weight(suite, tracks));
    forall s: Slot
      ensures FirstCalls(run, s) <= CallCeiling(suite, tracks, s)
    {
      assert FirstCalls(run, s) == if s in slots then NumberOf(suite, tracks, s) else 0;
    }
  }

  // ---------------------------------------------------------------- claims that escape

  /** Retries of one track that come to as much as the estimate's, or to more if it does not
      cover them. */
  lemma DearestRetries(suite: Suite, track: Track) returns (retries: seq<nat>)
    requires suite.Valid() && (track == suite.calibration || track == suite.formal) && Plannable(suite, track.lines)
    ensures Choice(TrackCandidates(suite, track), retries, suite.blockAttempts - 1, track.maxRetries)
    ensures SumUsd(Selected(suite, track)) <= RetriedUsd(TrackCandidates(suite, track), retries)
    ensures !RetriesCovered(suite, track) ==>
      SumUsd(Selected(suite, track)) < RetriedUsd(TrackCandidates(suite, track), retries)
  {
    var cs, k := TrackCandidates(suite, track), track.maxRetries;
    CandidatesNonNegative(suite, Blocks(track.lines));
    BlocksAreCounted(track.lines);
    TopIsTake(SortByCost(cs), k);
    if RetriesCovered(suite, track) {
      retries := TopAttained(cs, k);
      AtMostSum(retries);
    } else {
      retries := Escape(cs, suite.blockAttempts, k);
    }
  }

  lemma AppendClaims(suite: Suite, tracks: seq<Track>, rest: Claims, retries: seq<nat>)
    requires tracks != [] && AllPlannable(suite, tracks) && AllPlannable(suite, Init(tracks))
    requires Plannable(suite, Last(tracks).lines) && ValidClaims(suite, Init(tracks), rest)
    requires Choice(TrackCandidates(suite, Last(tracks)), retries, suite.blockAttempts - 1, Last(tracks).maxRetries)
    ensures ValidClaims(suite, tracks, rest + [retries])
    ensures ClaimedUsd(suite, tracks, rest + [retries])
      == ClaimedUsd(suite, Init(tracks), rest) + TrackUsd(suite, Last(tracks), retries)
  {
    Snoc(rest, retries);
    forall t | 0 <= t < |tracks|
      ensures tracks[t] in tracks
      ensures Choice(TrackCandidates(suite, tracks[t]), (rest + [retries])[t], suite.blockAttempts - 1, tracks[t].maxRetries)
    {
      assert t < |rest| ==> Init(tracks)[t] == tracks[t] && (rest + [retries])[t] == rest[t];
    }
  }

  /** Claims that come to as much as the campaign's totals, or to more if some track's retries
      are not covered. */
  lemma {:induction false} DearestClaims(suite: Suite, tracks: seq<Track>) returns (claims: Claims)
    requires suite.Valid() && Belong(suite, tracks) && AllPlannable(suite, tracks)
    ensures ValidClaims(suite, tracks, claims)
    ensures TotalsUsd(suite, tracks) <= ClaimedUsd(suite, tracks, claims)
    ensures !AllRetriesCovered(suite, tracks) ==> TotalsUsd(suite, tracks) < ClaimedUsd(suite, tracks, claims)
    decreases |tracks|
  {
    if tracks == [] {
      claims := [];
    } else {
      assert Last(tracks) in tracks && forall x :: x in tracks <==> x in Init(tracks) || x == Last(tracks);
      var rest := DearestClaims(suite, Init(tracks));
      var retries := DearestRetries(suite, Last(tracks));
      AppendClaims(suite, tracks, rest, retries);
      claims := rest + [retries];
    }
  }

  // ---------------------------------------------------------------- exactly when the estimate is a bound

  /** Every run within the plan costs at most the campaign's totals and its repeated calls at the
      dearest price. */
  ghost predicate TotalsBoundRuns(suite: Suite, tracks: seq<Track>, c: CallCandidate)
    requires AllPlannable(suite, tracks)
  {
    forall run, claims :: WithinPlan(suite, tracks, run, claims) ==>
      RunUsd(suite, run) <= CampaignTotals(suite, tracks).Usd(suite) + Times(AdditionalCalls(run), c.usd)
  }

  /** The estimate covers every run within the plan that repeats at most the permitted calls. */
  ghost predicate EstimateBoundsRuns(suite: Suite, tracks: seq<Track>, e: CostEstimate)
    requires AllPlannable(suite, tracks)
  {
    forall run, claims :: WithinPlan(suite, tracks, run, claims) && AdditionalCalls(run) <= suite.maxAdditional ==>
      Covers(suite, e, RunUsd(suite, run))
  }

  lemma TotalsBoundExactly(suite: Suite, tracks: seq<Track>, c: CallCandidate)
    requires suite.Valid() && Belong(suite, tracks) && AllPlannable(suite, tracks)
    requires IsDearest(c, CallCandidates(suite, tracks))
    ensures TotalsBoundRuns(suite, tracks, c) <==> AllRetriesCovered(suite, tracks)
  {
    if AllRetriesCovered(suite, tracks) {
      forall run, claims | WithinPlan(suite, tracks, run, claims)
        ensures RunUsd(suite, run) <= CampaignTotals(suite, tracks).Usd(suite) + Times(AdditionalCalls(run), c.usd)
      {
        RunCost(suite, tracks, run, claims, c);
      }
    } else {
      var claims := DearestClaims(suite, tracks);
      var run := ClaimsAreAttained(suite, tracks, claims);
      TotalsAreSums(suite, tracks);
      TimesFirst(c.usd);
      assert WithinPlan(suite, tracks, run, claims);
    }
  }

  /** Some trial of the pack whose calls are dearest is planned. */
  ghost predicate DearestIsPlanned(suite: Suite, tracks: seq<Track>, c: CallCandidate)
    requires AllPlannable(suite, tracks)
  {
    exists slot: Slot :: slot.attempt == 1 && Planned(suite, tracks, slot) && PackOf(suite, tracks, slot) == c.packId
  }

  /** Any further calls may repeat planned ones of the dearest pack. */
  lemma RepeatDearest(suite: Suite, tracks: seq<Track>, run: CallRun, claims: Claims, c: CallCandidate, n: nat)
    returns (longer: CallRun)
    requires suite.Valid() && AllPlannable(suite, tracks) && WithinPlan(suite, tracks, run, claims)
    requires IsDearest(c, CallCandidates(suite, tracks)) && (n == 0 || DearestIsPlanned(suite, tracks, c))
    ensures WithinPlan(suite, tracks, longer, claims) && AdditionalCalls(longer) == AdditionalCalls(run) + n
    ensures RunUsd(suite, longer) == RunUsd(suite, run) + Times(n, c.usd)
  {
    if n == 0 {
      TimesFirst(c.usd);
      longer := run;
    } else {
      var slot: Slot :| slot.attempt == 1 && Planned(suite, tracks, slot) && PackOf(suite, tracks, slot) == c.packId;
      CallCandidatesAreUnits(suite, tracks);
      var repeats := Calls(suite, tracks, slot, n, true);
      CallsCostAndCount(suite, tracks, slot, n, true);
      RunAppend(suite, run, repeats);
      longer := run + repeats;
    }
  }

  /** The estimate bounds every run within the plan if and only if, on every track, blocks are
      attempted at most twice, or at most one retry is permitted, or the dearest blocks, as many
      as may be retried, cost the same. */
  lemma EstimateBoundsExactly(suite: Suite, tracks: seq<Track>, c: CallCandidate)
    requires suite.Valid() && Belong(suite, tracks) && AllPlannable(suite, tracks)
    requires IsDearest(c, CallCandidates(suite, tracks)) && suite.HasBudget(c.packId)
    requires suite.maxAdditional == 0 || DearestIsPlanned(suite, tracks, c)
    ensures EstimateBoundsRuns(suite, tracks, EstimateWith(suite, tracks, c.packId)) <==> AllRetriesCovered(suite, tracks)
  {
    var e := EstimateWith(suite, tracks, c.packId);
    if AllRetriesCovered(suite, tracks) {
      forall run, claims | WithinPlan(suite, tracks, run, claims) && AdditionalCalls(run) <= suite.maxAdditional
        ensures Covers(suite, e, RunUsd(suite, run))
      {
        EstimateIsUpperBound(suite, tracks, run, claims, c);
      }
    } else {
      var claims := DearestClaims(suite, tracks);
      var full := ClaimsAreAttained(suite, tracks, claims);
      var run := RepeatDearest(suite, tracks, full, claims, c, suite.maxAdditional);
      TotalsAreSums(suite, tracks);
      CallCandidatesAreUnits(suite, tracks);
      PriceParts(suite, PlannedTrials(tracks), CampaignTotals(suite, tracks), suite.BudgetFor(c.packId));
      assert WithinPlan(suite, tracks, run, claims);
    }
  }

  // ---------------------------------------------------------------- counts

  lemma CandidateCounts(suite: Suite, track: Track, m: Measure)
    requires suite.Valid() && Plannable(suite, track.lines)
    ensures forall c :: c in TrackCandidates(suite, track) ==> 0 <= m.Of(c.totals)
  {
    var cs, blocks := TrackCandidates(suite, track), Blocks(track.lines);
    forall c | c in cs
      ensures 0 <= m.Of(c.totals)
    {
      var i :| 0 <= i < |cs| && cs[i] == c;
      assert blocks[i] in track.lines;
      CountNonNegative(suite, blocks[i]);
    }
  }

  lemma CountNonNegative(suite: Suite, line: PackLine)
    requires suite.Valid() && suite.HasBudget(line.packId) && line.Divisible() && 0 <= line.trials
    ensures var t := RetryOf(suite, line).totals; 0 <= t.calls && 0 <= t.input && 0 <= t.output
  {
    var b := suite.BudgetFor(line.packId);
    ArmsAreNatural(line);
    var calls := ProductOf(line.Arms(), b.maxCalls);
    assert ProductOf(calls, b.maxInput) >= 0 && ProductOf(calls, b.maxOutput) >= 0;
  }

  lemma {:induction false} SumOfCountsNonNegative(cs: seq<Candidate>)
    requires forall c :: c in cs ==> 0 <= c.totals.calls
    ensures 0 <= SumTotals(cs).calls
    decreases |cs|
  {
    if cs != [] {
      assert Last(cs) in cs && forall c :: c in Init(cs) ==> c in cs;
      SumOfCountsNonNegative(Init(cs));
    }
  }

  lemma {:induction false} PlannedCalls(suite: Suite, lines: seq<PackLine>)
    requires suite.Valid() && Plannable(suite, lines)
    ensures 0 <= PlannedTotals(suite, lines).calls
    decreases |lines|
  {
    if lines != [] {
      var line := Last(lines);
      assert line in lines && forall x :: x in Init(lines) ==> x in lines;
      PlannedCalls(suite, Init(lines));
      assert TrialTotals(suite, line.packId, line.trials).calls == ProductOf(line.trials, suite.BudgetFor(line.packId).maxCalls);
    }
  }

  lemma SelectedCalls(suite: Suite, track: Track)
    requires suite.Valid() && Plannable(suite, track.lines) && 0 <= track.maxRetries
    ensures 0 <= SumTotals(Selected(suite, track)).calls
  {
    var cs := TrackCandidates(suite, track);
    CandidateCounts(suite, track, Measure.Calls);
    SortByCostSorts(cs);
    forall c | c in Selected(suite, track)
      ensures 0 <= c.totals.calls
    {
      assert c in multiset(SortByCost(cs));
      assert 0 <= Measure.Calls.Of(c.totals);
    }
    SumOfCountsNonNegative(Selected(suite, track));
  }

  /** A campaign never counts a negative number of calls. */
  lemma {:induction false} CampaignCalls(suite: Suite, tracks: seq<Track>)
    requires suite.Valid() && AllPlannable(suite, tracks)
    ensures 0 <= PlannedAll(suite, tracks).calls && 0 <= SumTotals(SelectedAll(suite, tracks)).calls
    decreases |tracks|
  {
    if tracks != [] {
      assert Last(tracks) in tracks && forall x :: x in Init(tracks) ==> x in tracks;
      CampaignCalls(suite, Init(tracks));
      PlannedCalls(suite, Last(tracks).lines);
      SelectedCalls(suite, Last(tracks));
      SumTotalsAppend(SelectedAll(suite, Init(tracks)), Selected(suite, Last(tracks)));
    }
  }

  /** The reported calls or tokens of a track cover every choice of single retries within its
      cap. */
  ghost predicate CountCoversRetries(suite: Suite, track: Track, m: Measure)
    requires Plannable(suite, track.lines) && 0 <= track.maxRetries
  {
    forall retries :: Choice(TrackCandidates(suite, track), retries, 1, track.maxRetries) ==>
      m.Of(PlannedTotals(suite, track.lines)) + RetriedCount(TrackCandidates(suite, track), retries, m)
      <= m.Of(PlannedTotals(suite, track.lines).Plus(SumTotals(Selected(suite, track))))
  }

  /** Retries are ranked by cost. The reported calls, input tokens and output tokens cover every
      choice of retries exactly when the chosen blocks come to as much, in that count, as the
      first blocks of the ranking by the count itself. */
  lemma CountsCoveredExactly(suite: Suite, track: Track, m: Measure)
    requires suite.Valid() && Plannable(suite, track.lines) && 0 <= track.maxRetries
    ensures CountCoversRetries(suite, track, m)
      <==> TopCount(TrackCandidates(suite, track), m, track.maxRetries) <= MeasureSum(Selected(suite, track), m)
  {
    CandidateCounts(suite, track, m);
    CountCoversExactly(TrackCandidates(suite, track), m, track.maxRetries, MeasureSum(Selected(suite, track), m));
  }

  // ---------------------------------------------------------------- campaigns that escape

  /** Two blocks of different price, one trial each, the first pack making `calls` calls. */
  function TwoBlocks(attempts: nat, retries: nat, first: PackBudget, second: PackBudget): Suite {
    var track := Track([PackLine("a", 1, 1), PackLine("b", 1, 1)], retries);
    Suite(1.0, 0.0, 1.0, 0.0, 0, 1, attempts, [first, second], track, track)
  }

  /** The candidates of such a track, the dearer block first. */
  lemma TwoBlocksRanked(suite: Suite, x: Candidate, y: Candidate)
    requires suite.HasBudget("a") && suite.HasBudget("b")
    requires x == RetryOf(suite, PackLine("a", 1, 1)) && y == RetryOf(suite, PackLine("b", 1, 1)) && x.usd > y.usd
    ensures var lines := [PackLine("a", 1, 1), PackLine("b", 1, 1)];
      && Plannable(suite, lines)
      && Candidates(suite, Blocks(lines)) == [x, y] && SortByCost([x, y]) == [x, y]
      && PlannedTotals(suite, lines) == x.totals.Plus(y.totals)
  {
    var a, b := PackLine("a", 1, 1), PackLine("b", 1, 1);
    assert [a, b] == [a] + [b] && [x, y] == [x] + [y];
    Snoc([a], b);
    Snoc([x], y);
    Snoc([], a);
    Snoc([], x);
    assert [] + [a] == [a] && [] + [x] == [x];
    assert Blocks([a]) == [a] && Blocks([a, b]) == [a, b];
    assert SortByCost([x]) == [x];
    assert [x][1..] == [];
    assert Insert(y, [x]) == [x] + Insert(y, []);
    assert PlannedTotals(suite, [a]) == x.totals;
  }

  lemma OneTrack(suite: Suite, track: Track)
    requires Plannable(suite, track.lines) && 0 <= track.maxRetries
    ensures AllPlannable(suite, [track])
    ensures PlannedAll(suite, [track]) == PlannedTotals(suite, track.lines)
    ensures SelectedAll(suite, [track]) == Selected(suite, track)
  {
    assert Init([track]) == [] && Last([track]) == track;
    assert PlannedAll(suite, []) == NOTHING && SelectedAll(suite, []) == [];
  }

  lemma SumOfTwo(x: Candidate, y: Candidate)
    ensures SumTotals([x]) == x.totals && SumTotals([x, y]) == x.totals.Plus(y.totals)
  {
    assert [x, y] == [x] + [y];
    Snoc([x], y);
    assert Init([x]) == [] && Last([x]) == x;
  }

  const DEAR := PackBudget("a", 1, 2000000, 1)
  const CHEAP := PackBudget("b", 1, 1000000, 1)

  lemma BlockPrices(suite: Suite, first: PackBudget, second: PackBudget)
    requires suite.budgets == [first, second] && first.packId == "a" && second.packId == "b"
    ensures suite.HasBudget("a") && suite.HasBudget("b")
    ensures suite.BudgetFor("a") == first && suite.BudgetFor("b") == second
    ensures RetryOf(suite, PackLine("a", 1, 1)).totals
      == Totals(first.maxCalls, first.maxCalls * first.maxInput, first.maxCalls * first.maxOutput)
    ensures RetryOf(suite, PackLine("b", 1, 1)).totals
      == Totals(second.maxCalls, second.maxCalls * second.maxInput, second.maxCalls * second.maxOutput)
  {
    assert first in suite.budgets && second in suite.budgets;
    assert suite.budgets[1..] == [second];
  }

  lemma TwoBlocksValid(suite: Suite, attempts: nat, retries: nat, first: PackBudget, second: PackBudget)
    requires suite == TwoBlocks(attempts, retries, first, second) && 2 <= attempts && retries <= 2
    requires first.packId == "a" && second.packId == "b"
    requires forall b :: b in [first, second] ==> 1 <= b.maxCalls && 1 <= b.maxInput && 1 <= b.maxOutput
    ensures suite.Valid()
  {
    var a, b := PackLine("a", 1, 1), PackLine("b", 1, 1);
    assert first in suite.budgets && second in suite.budgets;
    assert [a, b] == [a] + [b];
    Snoc([a], b);
    Snoc([], a);
    assert [] + [a] == [a];
    assert BlockCount([a]) == 1 && BlockCount([a, b]) == 2;
  }

  /** What the two candidates of the escaping campaign cost. */
  lemma EscapePrices(suite: Suite, x: Candidate, y: Candidate)
    requires suite == TwoBlocks(3, 2, DEAR, CHEAP) && suite.HasBudget("a") && suite.HasBudget("b")
    requires x == RetryOf(suite, PackLine("a", 1, 1)) && y == RetryOf(suite, PackLine("b", 1, 1))
    ensures x == Candidate(2.0, Totals(1, 2000000, 1)) && y == Candidate(1.0, Totals(1, 1000000, 1))
  {
    BlockPrices(suite, DEAR, CHEAP);
  }

  lemma EscapeTotals(suite: Suite, tracks: seq<Track>, x: Candidate, y: Candidate)
    requires AllPlannable(suite, tracks)
    requires x.totals == Totals(1, 2000000, 1) && y.totals == Totals(1, 1000000, 1)
    requires PlannedAll(suite, tracks) == x.totals.Plus(y.totals) && SelectedAll(suite, tracks) == [x, y]
    ensures CampaignTotals(suite, tracks) == Totals(4, 6000000, 4)
  {
    SumOfTwo(x, y);
  }

  lemma SixMillion(suite: Suite, t: Totals)
    requires suite == TwoBlocks(3, 2, DEAR, CHEAP) && suite.HasBudget("a") && t == Totals(4, 6000000, 4)
    ensures PriceTotals(suite, PlannedTrials([suite.formal]), t, suite.BudgetFor("a")).usd == 6.0
  {
    PriceParts(suite, PlannedTrials([suite.formal]), t, suite.BudgetFor("a"));
  }

  lemma TwiceAndNever(x: Candidate, y: Candidate)
    ensures Choice([x, y], [2, 0], 2, 2) && RetriedUsd([x, y], [2, 0]) == x.usd + x.usd
  {
    assert [x, y] == [x] + [y] && [2, 0] == [2] + [0];
    Snoc([x], y);
    Snoc([2], 0);
    assert Init([x]) == [] && Last([x]) == x && Init([2]) == [] && Last([2]) == 2;
    TimesFirst(x.usd);
    TimesFirst(y.usd);
    assert Times(2, x.usd) == Times(1, x.usd) + x.usd;
    assert RetriedUsd([x], [2]) == RetriedUsd([], []) + Times(2, x.usd);
    assert Sum([2]) == Sum([]) + 2 && Sum([2, 0]) == Sum([2]) + 0;
  }

  lemma EscapeClaims(suite: Suite, x: Candidate, y: Candidate)
    requires suite == TwoBlocks(3, 2, DEAR, CHEAP) && AllPlannable(suite, [suite.formal])
    requires x == Candidate(2.0, Totals(1, 2000000, 1)) && y == Candidate(1.0, Totals(1, 1000000, 1))
    requires Plannable(suite, suite.formal.lines) && TrackCandidates(suite, suite.formal) == [x, y]
    requires PlannedTotals(suite, suite.formal.lines) == x.totals.Plus(y.totals)
    ensures ValidClaims(suite, [suite.formal], [[2, 0]])
    ensures ClaimedUsd(suite, [suite.formal], [[2, 0]]) == 7.0
  {
    TwiceAndNever(x, y);
    assert Init([suite.formal]) == [] && Last([suite.formal]) == suite.formal;
    assert ValidClaims(suite, [], []) && ClaimedUsd(suite, [], []) == 0.0;
    AppendClaims(suite, [suite.formal], [], [2, 0]);
    assert [] + [[2, 0]] == [[2, 0]];
    assert x.totals.Plus(y.totals).Usd(suite) == 3.0;
  }

  /** A campaign the suite's classes accept: two blocks of different price, two retries, and up to
      three attempts of a block. Retrying the dearer block twice costs more than the estimate,
      which pays for retrying each once. */
  lemma ThirdAttemptEscapes() returns (run: CallRun)
    ensures var suite := TwoBlocks(3, 2, DEAR, CHEAP);
      && suite.Valid() && AllPlannable(suite, [suite.formal]) && suite.HasBudget("a")
      && WithinPlan(suite, [suite.formal], run, [[2, 0]])
      && EstimateWith(suite, [suite.formal], "a").usd == 6.0 && RunUsd(suite, run) == 7.0
  {
    var suite := TwoBlocks(3, 2, DEAR, CHEAP);
    TwoBlocksValid(suite, 3, 2, DEAR, CHEAP);
    BlockPrices(suite, DEAR, CHEAP);
    var x, y := RetryOf(suite, PackLine("a", 1, 1)), RetryOf(suite, PackLine("b", 1, 1));
    EscapePrices(suite, x, y);
    TwoBlocksRanked(suite, x, y);
    OneTrack(suite, suite.formal);
    EscapeTotals(suite, [suite.formal], x, y);
    SixMillion(suite, CampaignTotals(suite, [suite.formal]));
    EscapeClaims(suite, x, y);
    run := ClaimsAreAttained(suite, [suite.formal], [[2, 0]]);
  }

  // ---------------------------------------------------------------- counts that fall short

  const DEAR_CALL := PackBudget("a", 1, 3000000, 1)
  const CHEAP_CALLS := PackBudget("b", 2, 1000000, 1)

  lemma CallPrices(suite: Suite, x: Candidate, y: Candidate)
    requires suite == TwoBlocks(2, 1, DEAR_CALL, CHEAP_CALLS) && suite.HasBudget("a") && suite.HasBudget("b")
    requires x == RetryOf(suite, PackLine("a", 1, 1)) && y == RetryOf(suite, PackLine("b", 1, 1))
    ensures x == Candidate(3.0, Totals(1, 3000000, 1)) && y == Candidate(2.0, Totals(2, 2000000, 2))
  {
    BlockPrices(suite, DEAR_CALL, CHEAP_CALLS);
  }

  lemma CheaperRetryEscapes(suite: Suite, track: Track, x: Candidate, y: Candidate)
    requires Plannable(suite, track.lines) && track.maxRetries == 1 && x.totals.calls < y.totals.calls
    requires TrackCandidates(suite, track) == [x, y] && SortByCost([x, y]) == [x, y]
    ensures !CountCoversRetries(suite, track, Measure.Calls)
  {
    SumOfTwo(x, y);
    assert Take([x, y], 1) == [x];
    NeverAndOnce(x, y);
    assert Choice(TrackCandidates(suite, track), [0, 1], 1, 1);
  }

  /** A campaign the suite's classes accept, whose dearer block makes fewer calls: the reported
      calls do not cover retrying the cheaper one. */
  lemma CheaperBlockMakesMoreCalls()
    ensures var suite := TwoBlocks(2, 1, DEAR_CALL, CHEAP_CALLS);
      suite.Valid() && Plannable(suite, suite.formal.lines) && !CountCoversRetries(suite, suite.formal, Measure.Calls)
  {
    var suite := TwoBlocks(2, 1, DEAR_CALL, CHEAP_CALLS);
    TwoBlocksValid(suite, 2, 1, DEAR_CALL, CHEAP_CALLS);
    BlockPrices(suite, DEAR_CALL, CHEAP_CALLS);
    var x, y := RetryOf(suite, PackLine("a", 1, 1)), RetryOf(suite, PackLine("b", 1, 1));
    CallPrices(suite, x, y);
    TwoBlocksRanked(suite, x, y);
    CheaperRetryEscapes(suite, suite.formal, x, y);
  }

  lemma NeverAndOnce(x: Candidate, y: Candidate)
    ensures Choice([x, y], [0, 1], 1, 1) && RetriedCount([x, y], [0, 1], Measure.Calls) == y.totals.calls
  {
    assert [x, y] == [x] + [y] && [0, 1] == [0] + [1];
    Snoc([x], y);
    Snoc([0], 1);
    assert Init([x]) == [] && Last([x]) == x && Init([0]) == [] && Last([0]) == 0;
    assert RetriedCount([x], [0], Measure.Calls) == RetriedCount([], [], Measure.Calls) + 0;
    assert Sum([0]) == Sum([]) + 0 && Sum([0, 1]) == Sum([0]) + 1;
  }
}

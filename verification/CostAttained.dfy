/** The estimate's counts, tokens and cost are those of a run within the plan, and exactly when no run
    makes more requests than it says. */
module CostAttained {
  import opened Sequences
  import opened CostEstimate
  import opened RetryRanking
  import opened CostBound
  import opened CostExact

  // ---------------------------------------------------------------- counting a run

  function MeasureOf(a: ProviderAttempt, m: Measure): int {
    match m
    case Calls => 1
    case InputTokens => a.input
    case OutputTokens => a.output
  }

  /** The requests of a run, or their input or output tokens. */
  function RunMeasure(run: CallRun, m: Measure): int {
    if run == [] then 0 else RunMeasure(Init(run), m) + MeasureOf(Last(run), m)
  }

  lemma {:induction false} RunLength(run: CallRun)
    ensures RunMeasure(run, Measure.Calls) == |run|
  {
    if run != [] {
      RunLength(Init(run));
    }
  }

  lemma {:induction false} MeasureAppend(a: CallRun, b: CallRun, m: Measure)
    ensures RunMeasure(a + b, m) == RunMeasure(a, m) + RunMeasure(b, m)
    decreases |b|
  {
    if b == [] {
      assert a + b == a;
    } else {
      MeasureAppend(a, Init(b), m);
      assert Init(a + b) == a + Init(b) && Last(a + b) == Last(b);
    }
  }

  /** The cost of a run is that of its tokens. */
  lemma {:induction false} RunCostsItsTokens(suite: Suite, run: CallRun)
    ensures RunUsd(suite, run) == suite.TokenUsd(RunMeasure(run, InputTokens), RunMeasure(run, OutputTokens))
  {
    if run == [] {
      TokenUsdScales(suite, 0, 0, 0);
    } else {
      RunCostsItsTokens(suite, Init(run));
      TokenUsdAdds(suite, RunMeasure(Init(run), InputTokens), RunMeasure(Init(run), OutputTokens), Last(run).input, Last(run).output);
    }
  }

  // ---------------------------------------------------------------- what a slot, a block and a track count

  /** One call of a pack at its ceilings. */
  function PerCall(b: PackBudget, m: Measure): int {
    match m
    case Calls => 1
    case InputTokens => b.maxInput
    case OutputTokens => b.maxOutput
  }

  /** The calls of one trial of a pack at its ceilings. */
  function PerTrial(b: PackBudget, m: Measure): int {
    b.maxCalls * PerCall(b, m)
  }

  function CountWeight(suite: Suite, tracks: seq<Track>, m: Measure): Slot -> real
    requires AllPlannable(suite, tracks)
  {
    (s: Slot) =>
      if AllPlannable(suite, tracks) && Planned(suite, tracks, s)
      then PerTrial(suite.BudgetFor(PackOf(suite, tracks, s)), m) as real
      else 0.0
  }

  lemma Regroup(a: int, b: int, c: int)
    ensures a * b * c == a * (b * c)
  {
  }

  lemma TrialTotalsCount(suite: Suite, packId: string, trials: int, m: Measure)
    requires suite.HasBudget(packId)
    ensures m.Of(TrialTotals(suite, packId, trials)) == trials * PerTrial(suite.BudgetFor(packId), m)
  {
    var b := suite.BudgetFor(packId);
    Regroup(trials, b.maxCalls, PerCall(b, m));
  }

  /** The trials of one block attempt count what its retry candidate says. */
  lemma BlockCounts(suite: Suite, line: PackLine, t: nat, b: nat, n: nat, weight: Slot -> real, m: Measure)
    requires suite.HasBudget(line.packId) && line.Divisible() && 0 <= line.trials
    requires forall i: nat :: i < line.Arms() ==> weight(Slot(t, b, i, n)) == PerTrial(suite.BudgetFor(line.packId), m) as real
    ensures SumOver(ArmSlots(t, b, n, line.Arms()), weight) == m.Of(RetryOf(suite, line).totals) as real
  {
    ArmsAreNatural(line);
    var per := PerTrial(suite.BudgetFor(line.packId), m);
    ArmSum(t, b, n, line.Arms(), weight, per as real);
    TimesIsProduct(line.Arms(), per);
    TrialTotalsCount(suite, line.packId, line.Arms(), m);
  }

  lemma {:induction false} RankedTotals(cs: seq<Candidate>, m: Measure)
    ensures SumTotals(Ranked(cs, m)) == SumTotals(cs)
    decreases |cs|
  {
    if cs != [] {
      RankedTotals(Init(cs), m);
      assert Init(Ranked(cs, m)) == Ranked(Init(cs), m);
    }
  }

  lemma RankedSum(cs: seq<Candidate>, m: Measure)
    ensures SumUsd(Ranked(cs, m)) == MeasureSum(cs, m) as real
  {
    SumOfCounts(Ranked(cs, m), m);
    RankedTotals(cs, m);
  }

  /** A track's first attempts and retries at their ceilings. */
  function TrackCount(suite: Suite, track: Track, retries: seq<nat>, m: Measure): int
    requires Plannable(suite, track.lines) && |retries| == |TrackCandidates(suite, track)|
  {
    m.Of(PlannedTotals(suite, track.lines)) + RetriedCount(TrackCandidates(suite, track), retries, m)
  }

  ghost predicate TrackCounts(suite: Suite, track: Track, t: nat, weight: Slot -> real, m: Measure)
    requires Plannable(suite, track.lines)
  {
    forall b: nat, n: nat, i: nat ::
      b < |Blocks(track.lines)| && 1 <= n <= suite.blockAttempts && i < (assert Blocks(track.lines)[b] in track.lines; Blocks(track.lines)[b].Arms()) ==>
        weight(Slot(t, b, i, n)) == PerTrial(suite.BudgetFor(Blocks(track.lines)[b].packId), m) as real
  }

  lemma TrackCountsUp(suite: Suite, t: nat, track: Track, weight: Slot -> real, m: Measure)
    requires Plannable(suite, track.lines) && TrackCounts(suite, track, t, weight, m)
    ensures BlocksWeigh(Blocks(track.lines), Ranked(TrackCandidates(suite, track), m), t, suite.blockAttempts, weight)
  {
    forall b: nat, n: nat | b < |Blocks(track.lines)| && 1 <= n <= suite.blockAttempts
      ensures SumOver(ArmSlots(t, b, n, Blocks(track.lines)[b].Arms()), weight) == Ranked(TrackCandidates(suite, track), m)[b].usd
    {
      assert Blocks(track.lines)[b] in track.lines;
      BlockCounts(suite, Blocks(track.lines)[b], t, b, n, weight, m);
    }
  }

  lemma TrackSum(suite: Suite, t: nat, track: Track, retries: seq<nat>, weight: Slot -> real, m: Measure)
    requires Plannable(suite, track.lines) && Plannable(suite, Blocks(track.lines))
    requires |retries| == |Blocks(track.lines)| && EachAtMost(retries, suite.blockAttempts - 1)
    requires TrackCounts(suite, track, t, weight, m)
    ensures SumOver(BlockSlots(t, Blocks(track.lines), retries), weight) == TrackCount(suite, track, retries, m) as real
  {
    var blocks, cs := Blocks(track.lines), TrackCandidates(suite, track);
    TrackCountsUp(suite, t, track, weight, m);
    BlockSum(t, blocks, Ranked(cs, m), retries, suite.blockAttempts, weight);
    RankedSum(cs, m);
    RankedCost(cs, retries, m);
    PlannedIsEveryBlock(suite, track.lines);
  }

  // ---------------------------------------------------------------- all tracks

  /** What a campaign with those claims counts when every trial uses up its ceilings. */
  function ClaimedCount(suite: Suite, tracks: seq<Track>, claims: Claims, m: Measure): int
    requires AllPlannable(suite, tracks) && ValidClaims(suite, tracks, claims)
  {
    if tracks == [] then 0
    else
      InitClaims(suite, tracks, claims);
      ClaimedCount(suite, Init(tracks), Init(claims), m) + TrackCount(suite, Last(tracks), Last(claims), m)
  }

  ghost predicate AllCount(suite: Suite, tracks: seq<Track>, weight: Slot -> real, m: Measure)
    requires AllPlannable(suite, tracks)
  {
    forall t: nat :: t < |tracks| ==> (assert tracks[t] in tracks; TrackCounts(suite, tracks[t], t, weight, m))
  }

  lemma WeightCounts(suite: Suite, tracks: seq<Track>, m: Measure)
    requires AllPlannable(suite, tracks)
    ensures AllCount(suite, tracks, CountWeight(suite, tracks, m), m)
  {
  }

  lemma {:induction false} AllSlotsCount(suite: Suite, tracks: seq<Track>, claims: Claims, weight: Slot -> real, m: Measure)
    requires AllPlannable(suite, tracks) && ValidClaims(suite, tracks, claims) && AllCount(suite, tracks, weight, m)
    ensures SumOver(AllSlots(suite, tracks, claims), weight) == ClaimedCount(suite, tracks, claims, m) as real
  {
    if tracks != [] {
      var rest, track, t := Init(tracks), Last(tracks), |tracks| - 1;
      InitClaims(suite, tracks, claims);
      assert forall i: nat :: i < |rest| ==> rest[i] == tracks[i];
      AllSlotsCount(suite, rest, Init(claims), weight, m);
      assert tracks[t] == track;
      TrackSum(suite, t, track, Last(claims), weight, m);
      SumOverAppend(AllSlots(suite, rest, Init(claims)), BlockSlots(t, Blocks(track.lines), Last(claims)), weight);
    }
  }

  // ---------------------------------------------------------------- full runs

  lemma {:induction false} CallsCount(suite: Suite, tracks: seq<Track>, slot: Slot, n: nat, additional: bool, m: Measure)
    requires AllPlannable(suite, tracks) && Planned(suite, tracks, slot)
    ensures RunMeasure(CostExact.Calls(suite, tracks, slot, n, additional), m)
      == n * PerCall(suite.BudgetFor(PackOf(suite, tracks, slot)), m)
  {
    if n > 0 {
      CallsCount(suite, tracks, slot, n - 1, additional, m);
      Snoc(CostExact.Calls(suite, tracks, slot, n - 1, additional), Last(CostExact.Calls(suite, tracks, slot, n, additional)));
      OneMore(n - 1, PerCall(suite.BudgetFor(PackOf(suite, tracks, slot)), m));
    }
  }

  lemma {:induction false} FullRunCounts(suite: Suite, tracks: seq<Track>, slots: seq<Slot>, m: Measure)
    requires suite.Valid() && AllPlannable(suite, tracks) && forall s :: s in slots ==> Planned(suite, tracks, s)
    ensures RunMeasure(FullRun(suite, tracks, slots), m) as real == SumOver(slots, CountWeight(suite, tracks, m))
  {
    if slots != [] {
      var last, n := Last(slots), NumberOf(suite, tracks, Last(slots));
      assert last in slots && forall s :: s in Init(slots) ==> s in slots;
      FullRunCounts(suite, tracks, Init(slots), m);
      CallsCount(suite, tracks, last, n, false, m);
      MeasureAppend(FullRun(suite, tracks, Init(slots)), CostExact.Calls(suite, tracks, last, n, false), m);
    }
  }

  /** Some run within the plan uses up given claims: in calls, in tokens and in cost. */
  lemma ClaimsAreUsedUp(suite: Suite, tracks: seq<Track>, claims: Claims) returns (run: CallRun)
    requires suite.Valid() && AllPlannable(suite, tracks) && ValidClaims(suite, tracks, claims)
    ensures WithinPlan(suite, tracks, run, claims) && AdditionalCalls(run) == 0
    ensures forall m :: RunMeasure(run, m) == ClaimedCount(suite, tracks, claims, m)
  {
    var slots := AllSlots(suite, tracks, claims);
    SlotsListed(suite, tracks, claims);
    SlotsDiffer(suite, tracks, claims);
    run := FullRun(suite, tracks, slots);
    FullRunCosts(suite, tracks, slots);
    forall m
      ensures RunMeasure(run, m) == ClaimedCount(suite, tracks, claims, m)
    {
      FullRunCounts(suite, tracks, slots, m);
      WeightCounts(suite, tracks, m);
      AllSlotsCount(suite, tracks, claims, CountWeight(suite, tracks, m), m);
    }
    forall s: Slot
      ensures FirstCalls(run, s) <= CallCeiling(suite, tracks, s)
    {
      assert FirstCalls(run, s) == if s in slots then NumberOf(suite, tracks, s) else 0;
    }
  }

  /** Any further calls may repeat those of a claimed trial. */
  lemma RepeatCalls(suite: Suite, tracks: seq<Track>, run: CallRun, claims: Claims, slot: Slot, n: nat) returns (longer: CallRun)
    requires suite.Valid() && AllPlannable(suite, tracks) && WithinPlan(suite, tracks, run, claims)
    requires Claimed(suite, tracks, claims, slot)
    ensures WithinPlan(suite, tracks, longer, claims) && AdditionalCalls(longer) == AdditionalCalls(run) + n
    ensures forall m ::
      RunMeasure(longer, m) == RunMeasure(run, m) + n * PerCall(suite.BudgetFor(PackOf(suite, tracks, slot)), m)
  {
    var repeats := CostExact.Calls(suite, tracks, slot, n, true);
    CallsCostAndCount(suite, tracks, slot, n, true);
    RunAppend(suite, run, repeats);
    longer := run + repeats;
    forall m
      ensures RunMeasure(longer, m) == RunMeasure(run, m) + n * PerCall(suite.BudgetFor(PackOf(suite, tracks, slot)), m)
    {
      CallsCount(suite, tracks, slot, n, true, m);
      MeasureAppend(run, repeats, m);
    }
  }

  // ---------------------------------------------------------------- the selected retries

  lemma TakeCons(x: Candidate, s: seq<Candidate>, k: nat)
    requires k > 0
    ensures Take([x] + s, k) == [x] + Take(s, k - 1)
  {
  }

  lemma InsertBelow(x: Candidate, head: Candidate, s: seq<Candidate>)
    requires !(head.usd < x.usd)
    ensures Insert(x, [head] + s) == [head] + Insert(x, s)
  {
    assert ([head] + s)[1..] == s;
  }

  /** Inserting a candidate either leaves the first `k` alone or puts the candidate among them. */
  lemma {:induction false} InsertTake(x: Candidate, s: seq<Candidate>, k: nat)
    ensures Take(Insert(x, s), k) == Take(s, k) || (k > 0 && Take(Insert(x, s), k) == Insert(x, Take(s, k - 1)))
    decreases |s|
  {
    if k > 0 {
      if s == [] || s[0].usd < x.usd {
        TakeCons(x, s, k);
      } else {
        var head, rest := s[0], s[1..];
        assert s == [head] + rest;
        InsertTake(x, rest, k - 1);
        InsertBelow(x, head, rest);
        TakeCons(head, Insert(x, rest), k);
        TakeCons(head, rest, k);
        if k > 1 {
          TakeCons(head, rest, k - 1);
          InsertBelow(x, head, Take(rest, k - 2));
        }
      }
    }
  }

  lemma {:induction false} InsertAdds(x: Candidate, s: seq<Candidate>)
    ensures SumTotals(Insert(x, s)) == SumTotals(s).Plus(x.totals)
    decreases |s|
  {
    assert SumTotals([x]) == x.totals by {
      assert Init([x]) == [] && Last([x]) == x;
    }
    if s == [] || s[0].usd < x.usd {
      SumTotalsAppend([x], s);
    } else {
      InsertAdds(x, s[1..]);
      assert s == [s[0]] + s[1..];
      SumTotalsAppend([s[0]], s[1..]);
      SumTotalsAppend([s[0]], Insert(x, s[1..]));
    }
  }

  ghost predicate CountsLike(cs: seq<Candidate>, retries: seq<nat>, chosen: seq<Candidate>)
    requires |retries| == |cs|
  {
    forall m: Measure :: RetriedCount(cs, retries, m) == MeasureSum(chosen, m)
  }

  lemma ExtendCounts(cs: seq<Candidate>, rest: seq<nat>, r: nat, chosen: seq<Candidate>)
    requires cs != [] && |rest| == |Init(cs)| && r <= 1 && CountsLike(Init(cs), rest, chosen)
    ensures CountsLike(cs, rest + [r], if r == 0 then chosen else Insert(Last(cs), chosen))
  {
    Snoc(rest, r);
    InsertAdds(Last(cs), chosen);
    forall m: Measure
      ensures RetriedCount(cs, rest + [r], m) == RetriedCount(Init(cs), rest, m) + r * m.Of(Last(cs).totals)
    {
    }
  }

  /** Retrying exactly the selected blocks once each counts what they count. */
  lemma {:induction false} SelectedAsRetries(cs: seq<Candidate>, k: nat) returns (retries: seq<nat>)
    ensures Choice(cs, retries, 1, k) && CountsLike(cs, retries, Take(SortByCost(cs), k))
    decreases |cs|
  {
    if cs == [] {
      retries := [];
    } else {
      var x, s := Last(cs), SortByCost(Init(cs));
      InsertTake(x, s, k);
      var r := if Take(Insert(x, s), k) == Take(s, k) then 0 else 1;
      var rest := SelectedAsRetries(Init(cs), k - r);
      ExtendChoice(cs, rest, r, k);
      ExtendCounts(cs, rest, r, Take(s, k - r));
      retries := rest + [r];
    }
  }

  lemma SingleRetriesAreValid(suite: Suite, track: Track, retries: seq<nat>)
    requires suite.Valid() && (track == suite.calibration || track == suite.formal) && Plannable(suite, track.lines)
    requires Choice(TrackCandidates(suite, track), retries, 1, track.maxRetries)
    ensures Choice(TrackCandidates(suite, track), retries, suite.blockAttempts - 1, track.maxRetries)
  {
    AtMostSum(retries);
  }

  lemma OneMoreTrackCount(suite: Suite, tracks: seq<Track>, m: Measure)
    requires AllPlannable(suite, tracks) && tracks != []
    ensures AllPlannable(suite, Init(tracks)) && Plannable(suite, Last(tracks).lines) && 0 <= Last(tracks).maxRetries
    ensures m.Of(CampaignTotals(suite, tracks))
      == m.Of(CampaignTotals(suite, Init(tracks))) + m.Of(PlannedTotals(suite, Last(tracks).lines)) + MeasureSum(Selected(suite, Last(tracks)), m)
  {
    assert Last(tracks) in tracks && forall x :: x in Init(tracks) ==> x in tracks;
    SumTotalsAppend(SelectedAll(suite, Init(tracks)), Selected(suite, Last(tracks)));
  }

  lemma AppendCount(suite: Suite, tracks: seq<Track>, rest: Claims, retries: seq<nat>, m: Measure)
    requires tracks != [] && AllPlannable(suite, tracks) && AllPlannable(suite, Init(tracks))
    requires Plannable(suite, Last(tracks).lines) && ValidClaims(suite, Init(tracks), rest)
    requires Choice(TrackCandidates(suite, Last(tracks)), retries, suite.blockAttempts - 1, Last(tracks).maxRetries)
    requires ValidClaims(suite, tracks, rest + [retries])
    ensures ClaimedCount(suite, tracks, rest + [retries], m)
      == ClaimedCount(suite, Init(tracks), rest, m) + TrackCount(suite, Last(tracks), retries, m)
  {
    Snoc(rest, retries);
  }

  /** The claims come to the campaign's totals in calls and in tokens. */
  ghost predicate ComesTo(suite: Suite, tracks: seq<Track>, claims: Claims)
    requires AllPlannable(suite, tracks) && ValidClaims(suite, tracks, claims)
  {
    forall m: Measure :: ClaimedCount(suite, tracks, claims, m) == m.Of(CampaignTotals(suite, tracks))
  }

  lemma SelectedStep(suite: Suite, tracks: seq<Track>, rest: Claims, retries: seq<nat>)
    requires tracks != [] && AllPlannable(suite, tracks) && AllPlannable(suite, Init(tracks))
    requires Plannable(suite, Last(tracks).lines) && 0 <= Last(tracks).maxRetries
    requires ValidClaims(suite, Init(tracks), rest) && ComesTo(suite, Init(tracks), rest)
    requires Choice(TrackCandidates(suite, Last(tracks)), retries, suite.blockAttempts - 1, Last(tracks).maxRetries)
    requires CountsLike(TrackCandidates(suite, Last(tracks)), retries, Selected(suite, Last(tracks)))
    ensures ValidClaims(suite, tracks, rest + [retries]) && ComesTo(suite, tracks, rest + [retries])
  {
    AppendClaims(suite, tracks, rest, retries);
    forall m: Measure
      ensures ClaimedCount(suite, tracks, rest + [retries], m) == m.Of(CampaignTotals(suite, tracks))
    {
      OneMoreTrackCount(suite, tracks, m);
      AppendCount(suite, tracks, rest, retries, m);
      assert ClaimedCount(suite, Init(tracks), rest, m) == m.Of(CampaignTotals(suite, Init(tracks)));
    }
  }

  lemma SelectedTrack(suite: Suite, track: Track) returns (retries: seq<nat>)
    requires suite.Valid() && (track == suite.calibration || track == suite.formal) && Plannable(suite, track.lines)
    ensures Choice(TrackCandidates(suite, track), retries, suite.blockAttempts - 1, track.maxRetries)
    ensures 0 <= track.maxRetries && CountsLike(TrackCandidates(suite, track), retries, Selected(suite, track))
  {
    retries := SelectedAsRetries(TrackCandidates(suite, track), track.maxRetries);
    SingleRetriesAreValid(suite, track, retries);
  }

  lemma NoTotals(suite: Suite)
    ensures CampaignTotals(suite, []) == NOTHING
  {
    assert PlannedAll(suite, []) == NOTHING && SelectedAll(suite, []) == [];
    assert SumTotals([]) == NOTHING;
  }

  lemma OfNothing(m: Measure)
    ensures m.Of(NOTHING) == 0
  {
  }

  lemma NothingCounts(suite: Suite, m: Measure)
    ensures ClaimedCount(suite, [], [], m) == m.Of(CampaignTotals(suite, []))
  {
    NoTotals(suite);
    OfNothing(m);
  }

  lemma SelectLast(suite: Suite, tracks: seq<Track>, rest: Claims) returns (claims: Claims)
    requires suite.Valid() && Belong(suite, tracks) && AllPlannable(suite, tracks) && tracks != []
    requires AllPlannable(suite, Init(tracks)) && ValidClaims(suite, Init(tracks), rest) && ComesTo(suite, Init(tracks), rest)
    ensures ValidClaims(suite, tracks, claims) && ComesTo(suite, tracks, claims)
  {
    assert Last(tracks) in tracks;
    var retries := SelectedTrack(suite, Last(tracks));
    SelectedStep(suite, tracks, rest, retries);
    claims := rest + [retries];
  }

  /** Claims that retry exactly the blocks the estimate selects. */
  lemma {:induction false} SelectedClaims(suite: Suite, tracks: seq<Track>) returns (claims: Claims)
    requires suite.Valid() && Belong(suite, tracks) && AllPlannable(suite, tracks)
    ensures ValidClaims(suite, tracks, claims) && ComesTo(suite, tracks, claims)
    decreases |tracks|
  {
    if tracks == [] {
      claims := [];
      forall m: Measure
        ensures ClaimedCount(suite, [], [], m) == m.Of(CampaignTotals(suite, []))
      {
        NothingCounts(suite, m);
      }
    } else {
      assert forall x :: x in Init(tracks) ==> x in tracks;
      var rest := SelectedClaims(suite, Init(tracks));
      claims := SelectLast(suite, tracks, rest);
    }
  }

  // ---------------------------------------------------------------- the estimate is attained

  lemma FirstSlotIsClaimed(suite: Suite, tracks: seq<Track>, run: CallRun, claims: Claims) returns (slot: Slot)
    requires AllPlannable(suite, tracks) && WithinPlan(suite, tracks, run, claims) && run != []
    ensures Claimed(suite, tracks, claims, slot)
  {
    slot := run[0].slot;
    assert run[0] in run;
  }

  /** What the suite's capacity check asks of the additional attempts. */
  predicate CapacityFits(suite: Suite, tracks: seq<Track>)
    requires AllPlannable(suite, tracks)
  {
    suite.maxAdditional <= CampaignTotals(suite, tracks).calls * (suite.callMaxAttempts - 1)
  }

  lemma RequestFields(suite: Suite, tracks: seq<Track>, packId: string)
    requires AllPlannable(suite, tracks) && suite.HasBudget(packId)
    ensures var e, calls := EstimateWith(suite, tracks, packId), CampaignTotals(suite, tracks).calls;
      e.logicalCalls == calls && e.additionalAttempts == suite.maxAdditional && e.requestAttempts == calls + suite.maxAdditional
  {
  }

  /** The selected retries and all additional attempts. */
  lemma SelectedRequests(suite: Suite, tracks: seq<Track>) returns (run: CallRun, claims: Claims)
    requires suite.Valid() && Belong(suite, tracks) && AllPlannable(suite, tracks) && CapacityFits(suite, tracks)
    ensures WithinPlan(suite, tracks, run, claims) && AdditionalCalls(run) == suite.maxAdditional
    ensures |run| == CampaignTotals(suite, tracks).calls + suite.maxAdditional
  {
    claims := SelectedClaims(suite, tracks);
    run := ClaimsAreUsedUp(suite, tracks, claims);
    RunLength(run);
    assert Measure.Calls.Of(CampaignTotals(suite, tracks)) == CampaignTotals(suite, tracks).calls;
    if suite.maxAdditional > 0 {
      var slot := FirstSlotIsClaimed(suite, tracks, run, claims);
      run := RepeatCalls(suite, tracks, run, claims, slot, suite.maxAdditional);
      RunLength(run);
    }
  }

  /** Some run within the plan makes exactly the requests the estimate reports: the planned calls,
      those of the selected retries, and all additional attempts. */
  lemma RequestsAreAttained(suite: Suite, tracks: seq<Track>, packId: string) returns (run: CallRun, claims: Claims)
    requires suite.Valid() && Belong(suite, tracks) && AllPlannable(suite, tracks) && suite.HasBudget(packId)
    requires CapacityFits(suite, tracks)
    ensures WithinPlan(suite, tracks, run, claims) && AdditionalCalls(run) == suite.maxAdditional
    ensures |run| == EstimateWith(suite, tracks, packId).requestAttempts
    ensures |run| - AdditionalCalls(run) == EstimateWith(suite, tracks, packId).logicalCalls
    ensures AdditionalCalls(run) == EstimateWith(suite, tracks, packId).additionalAttempts
  {
    run, claims := SelectedRequests(suite, tracks);
    RequestFields(suite, tracks, packId);
  }

  lemma PriceFields(suite: Suite, trials: int, t: Totals, b: PackBudget)
    ensures var e := PriceTotals(suite, trials, t, b);
      && e.maximumInput == t.input + suite.maxAdditional * b.maxInput
      && e.maximumOutput == t.output + suite.maxAdditional * b.maxOutput
      && e.usd == suite.TokenUsd(e.maximumInput, e.maximumOutput) && e.cny == e.usd * suite.usdToCny + suite.externalReserveCny
  {
  }

  /** A run that uses the estimate's tokens and costs what the estimate says. */
  ghost predicate Spends(suite: Suite, run: CallRun, e: CostEstimate) {
    && RunMeasure(run, InputTokens) == e.maximumInput && RunMeasure(run, OutputTokens) == e.maximumOutput
    && RunUsd(suite, run) == e.usd && e.cny == RunUsd(suite, run) * suite.usdToCny + suite.externalReserveCny
  }

  lemma SpendsTotals(suite: Suite, run: CallRun, trials: int, t: Totals, b: PackBudget)
    requires RunMeasure(run, InputTokens) == t.input + suite.maxAdditional * b.maxInput
    requires RunMeasure(run, OutputTokens) == t.output + suite.maxAdditional * b.maxOutput
    ensures Spends(suite, run, PriceTotals(suite, trials, t, b))
  {
    PriceFields(suite, trials, t, b);
    RunCostsItsTokens(suite, run);
  }

  /** A run that makes the totals' calls and repeats calls of a pack. */
  ghost predicate UsesUp(run: CallRun, t: Totals, n: int, b: PackBudget) {
    forall m: Measure :: RunMeasure(run, m) == m.Of(t) + n * PerCall(b, m)
  }

  /** The selected retries and all additional attempts, each a repeat of a call of that pack. */
  lemma SelectedAndRepeats(suite: Suite, tracks: seq<Track>, packId: string) returns (run: CallRun, claims: Claims)
    requires suite.Valid() && Belong(suite, tracks) && AllPlannable(suite, tracks) && suite.HasBudget(packId)
    requires suite.maxAdditional == 0
             || exists slot: Slot :: slot.attempt == 1 && Planned(suite, tracks, slot) && PackOf(suite, tracks, slot) == packId
    ensures WithinPlan(suite, tracks, run, claims) && AdditionalCalls(run) == suite.maxAdditional
    ensures UsesUp(run, CampaignTotals(suite, tracks), suite.maxAdditional, suite.BudgetFor(packId))
  {
    claims := SelectedClaims(suite, tracks);
    run := ClaimsAreUsedUp(suite, tracks, claims);
    if suite.maxAdditional > 0 {
      var slot: Slot :| slot.attempt == 1 && Planned(suite, tracks, slot) && PackOf(suite, tracks, slot) == packId;
      run := RepeatCalls(suite, tracks, run, claims, slot, suite.maxAdditional);
    }
  }

  lemma UsesTokens(suite: Suite, run: CallRun, trials: int, t: Totals, b: PackBudget)
    requires UsesUp(run, t, suite.maxAdditional, b)
    ensures Spends(suite, run, PriceTotals(suite, trials, t, b))
  {
    TokensUsed(run, t, suite.maxAdditional, b);
    SpendsTotals(suite, run, trials, t, b);
  }

  lemma TokensUsed(run: CallRun, t: Totals, n: int, b: PackBudget)
    requires UsesUp(run, t, n, b)
    ensures RunMeasure(run, InputTokens) == t.input + n * b.maxInput
    ensures RunMeasure(run, OutputTokens) == t.output + n * b.maxOutput
  {
    assert RunMeasure(run, InputTokens) == InputTokens.Of(t) + n * PerCall(b, InputTokens);
    assert RunMeasure(run, OutputTokens) == OutputTokens.Of(t) + n * PerCall(b, OutputTokens);
  }

  /** And some run uses exactly the tokens and costs exactly the money the estimate reports, when
      the additional attempts repeat calls of the dearest pack. */
  lemma TokensAreAttained(suite: Suite, tracks: seq<Track>, c: CallCandidate) returns (run: CallRun, claims: Claims)
    requires suite.Valid() && Belong(suite, tracks) && AllPlannable(suite, tracks) && suite.HasBudget(c.packId)
    requires suite.maxAdditional == 0 || DearestIsPlanned(suite, tracks, c)
    ensures WithinPlan(suite, tracks, run, claims) && AdditionalCalls(run) == suite.maxAdditional
    ensures Spends(suite, run, EstimateWith(suite, tracks, c.packId))
  {
    run, claims := SelectedAndRepeats(suite, tracks, c.packId);
    UsesTokens(suite, run, PlannedTrials(tracks), CampaignTotals(suite, tracks), suite.BudgetFor(c.packId));
  }

  // ---------------------------------------------------------------- planned trials

  lemma {:induction false} ArmLength(t: nat, b: nat, attempt: nat, arms: nat)
    ensures |ArmSlots(t, b, attempt, arms)| == arms
  {
    if arms > 0 {
      ArmLength(t, b, attempt, arms - 1);
    }
  }

  function ArmsOf(blocks: seq<PackLine>): int
    requires forall line :: line in blocks ==> line.Divisible()
  {
    if blocks == [] then 0
    else
      assert Last(blocks) in blocks;
      ArmsOf(Init(blocks)) + Last(blocks).Arms()
  }

  lemma {:induction false} BlockLength(t: nat, blocks: seq<PackLine>)
    requires forall line :: line in blocks ==> line.Divisible() && 0 <= line.trials
    ensures |NoRetries(|blocks|)| == |blocks|
    ensures |BlockSlots(t, blocks, NoRetries(|blocks|))| == ArmsOf(blocks)
  {
    if blocks != [] {
      var n, arms := |blocks| - 1, Last(blocks).Arms();
      BlockLength(t, Init(blocks));
      Snoc(NoRetries(n), 0);
      ArmLength(t, n, 1, arms);
      assert AttemptSlots(t, n, 1, arms) == AttemptSlots(t, n, 0, arms) + ArmSlots(t, n, 1, arms);
    }
  }

  lemma {:induction false} ArmsAppend(blocks: seq<PackLine>, line: PackLine, n: nat)
    requires line.Divisible() && forall b :: b in blocks ==> b.Divisible()
    ensures ArmsOf(blocks + Repeat(n, line)) == ArmsOf(blocks) + n * line.Arms()
  {
    if n == 0 {
      assert blocks + Repeat(0, line) == blocks;
    } else {
      ArmsAppend(blocks, line, n - 1);
      assert blocks + Repeat(n, line) == blocks + Repeat(n - 1, line) + [line];
      Snoc(blocks + Repeat(n - 1, line), line);
      OneMore(n - 1, line.Arms());
    }
  }

  lemma BlocksTimesArms(line: PackLine)
    requires line.Divisible()
    ensures line.blocks * line.Arms() == line.trials
  {
  }

  lemma {:induction false} ArmsAreTrials(lines: seq<PackLine>)
    requires forall line :: line in lines ==> line.Divisible()
    ensures ArmsOf(Blocks(lines)) == LineTrials(lines)
    decreases |lines|
  {
    if lines != [] {
      var line := Last(lines);
      assert line in lines && forall x :: x in Init(lines) ==> x in lines;
      ArmsAreTrials(Init(lines));
      ArmsAppend(Blocks(Init(lines)), line, line.blocks);
      BlocksTimesArms(line);
    }
  }

  ghost predicate NoneRetried(claims: Claims) {
    forall t: nat, b: nat :: t < |claims| && b < |claims[t]| ==> claims[t][b] == 0
  }

  lemma OneMoreFirst(suite: Suite, tracks: seq<Track>, rest: Claims) returns (claims: Claims)
    requires suite.Valid() && AllPlannable(suite, tracks) && tracks != [] && AllPlannable(suite, Init(tracks))
    requires ValidClaims(suite, Init(tracks), rest) && NoneRetried(rest)
    requires |AllSlots(suite, Init(tracks), rest)| == PlannedTrials(Init(tracks))
    ensures ValidClaims(suite, tracks, claims) && NoneRetried(claims)
    ensures |AllSlots(suite, tracks, claims)| == PlannedTrials(tracks)
  {
    var track := Last(tracks);
    assert track in tracks;
    var n := |TrackCandidates(suite, track)|;
    NoRetriesChosen(TrackCandidates(suite, track), suite.blockAttempts - 1, track.maxRetries);
    NoneIsZero(n);
    AppendClaims(suite, tracks, rest, NoRetries(n));
    claims := rest + [NoRetries(n)];
    BlockLength(|tracks| - 1, Blocks(track.lines));
    ArmsAreTrials(track.lines);
    Snoc(rest, NoRetries(n));
  }

  /** Claims under which no block is retried. */
  lemma {:induction false} FirstAttempts(suite: Suite, tracks: seq<Track>) returns (claims: Claims)
    requires suite.Valid() && AllPlannable(suite, tracks)
    ensures ValidClaims(suite, tracks, claims) && NoneRetried(claims)
    ensures |AllSlots(suite, tracks, claims)| == PlannedTrials(tracks)
    decreases |tracks|
  {
    if tracks == [] {
      claims := [];
    } else {
      assert forall x :: x in Init(tracks) ==> x in tracks;
      var rest := FirstAttempts(suite, Init(tracks));
      claims := OneMoreFirst(suite, tracks, rest);
    }
  }

  lemma {:induction false} NoneIsZero(n: nat)
    ensures |NoRetries(n)| == n && forall i :: 0 <= i < n ==> NoRetries(n)[i] == 0
  {
    if n > 0 {
      NoneIsZero(n - 1);
    }
  }

  /** The reported number of trials is the number of planned trials, each counted once. */
  lemma TrialsAreCounted(suite: Suite, tracks: seq<Track>, packId: string) returns (slots: seq<Slot>)
    requires suite.Valid() && AllPlannable(suite, tracks) && suite.HasBudget(packId)
    ensures NoDuplicates(slots) && |slots| == EstimateWith(suite, tracks, packId).trialCount
    ensures forall s :: s in slots <==> Planned(suite, tracks, s) && s.attempt == 1
  {
    var claims := FirstAttempts(suite, tracks);
    slots := AllSlots(suite, tracks, claims);
    SlotsDiffer(suite, tracks, claims);
    SlotsListed(suite, tracks, claims);
    forall s
      ensures s in slots <==> Planned(suite, tracks, s) && s.attempt == 1
    {
      if Planned(suite, tracks, s) {
        assert tracks[s.track] in tracks;
        assert claims[s.track][s.block] == 0;
      }
    }
  }

  // ---------------------------------------------------------------- exactly when no run makes more requests

  /** The selected retries of that track make as many calls as any permitted ones. */
  predicate CallsCovered(suite: Suite, track: Track)
    requires Plannable(suite, track.lines) && 0 <= track.maxRetries
  {
    var cs := TrackCandidates(suite, track);
    && TopCount(cs, Measure.Calls, track.maxRetries) <= MeasureSum(Selected(suite, track), Measure.Calls)
    && RepeatsCovered(Ranked(cs, Measure.Calls), suite.blockAttempts, track.maxRetries)
  }

  predicate AllCallsCovered(suite: Suite, tracks: seq<Track>)
    requires AllPlannable(suite, tracks)
  {
    forall t :: t in tracks ==> CallsCovered(suite, t)
  }

  lemma RankedNonNegative(cs: seq<Candidate>, m: Measure)
    requires forall c :: c in cs ==> 0 <= m.Of(c.totals)
    ensures NonNegative(Ranked(cs, m))
  {
  }

  lemma TopCountIsTop(cs: seq<Candidate>, m: Measure, k: nat)
    ensures TopUsd(SortByCost(Ranked(cs, m)), k) == TopCount(cs, m, k) as real
  {
    TopCountIs(cs, m, k);
    TopIsTake(SortByCost(Ranked(cs, m)), k);
  }

  lemma TrackCallsCovered(suite: Suite, track: Track, retries: seq<nat>)
    requires suite.Valid() && (track == suite.calibration || track == suite.formal) && Plannable(suite, track.lines)
    requires Choice(TrackCandidates(suite, track), retries, suite.blockAttempts - 1, track.maxRetries)
    requires CallsCovered(suite, track)
    ensures RetriedCount(TrackCandidates(suite, track), retries, Measure.Calls) <= MeasureSum(Selected(suite, track), Measure.Calls)
  {
    var cs, m := TrackCandidates(suite, track), Measure.Calls;
    CandidateCounts(suite, track, m);
    RankedNonNegative(cs, m);
    BlocksAreCounted(track.lines);
    CoveredBound(Ranked(cs, m), retries, suite.blockAttempts, track.maxRetries);
    TopCountIsTop(cs, m, track.maxRetries);
    RankedCost(cs, retries, m);
  }

  lemma SelectedIsAtMostTop(cs: seq<Candidate>, m: Measure, k: nat)
    requires forall c :: c in cs ==> 0 <= m.Of(c.totals)
    ensures MeasureSum(Take(SortByCost(cs), k), m) <= TopCount(cs, m, k)
  {
    var retries := SelectedAsRetries(cs, k);
    RankedNonNegative(cs, m);
    TopBounds(Ranked(cs, m), retries, k);
    TopCountIsTop(cs, m, k);
    RankedCost(cs, retries, m);
  }

  /** Retries of one track that make as many calls as the selected ones, or more if those are not
      covered. */
  lemma MostRetries(suite: Suite, track: Track) returns (retries: seq<nat>)
    requires suite.Valid() && (track == suite.calibration || track == suite.formal) && Plannable(suite, track.lines)
    ensures Choice(TrackCandidates(suite, track), retries, suite.blockAttempts - 1, track.maxRetries)
    ensures MeasureSum(Selected(suite, track), Measure.Calls) <= RetriedCount(TrackCandidates(suite, track), retries, Measure.Calls)
    ensures !CallsCovered(suite, track) ==>
      MeasureSum(Selected(suite, track), Measure.Calls) < RetriedCount(TrackCandidates(suite, track), retries, Measure.Calls)
  {
    var cs, m, k := TrackCandidates(suite, track), Measure.Calls, track.maxRetries;
    CandidateCounts(suite, track, m);
    RankedNonNegative(cs, m);
    BlocksAreCounted(track.lines);
    TopCountIsTop(cs, m, k);
    SelectedIsAtMostTop(cs, m, k);
    if RepeatsCovered(Ranked(cs, m), suite.blockAttempts, k) {
      retries := TopAttained(Ranked(cs, m), k);
      SingleRetriesAreValid(suite, track, retries);
    } else {
      retries := Escape(Ranked(cs, m), suite.blockAttempts, k);
    }
    RankedCost(cs, retries, m);
  }

  /** Claims that make as many calls as the campaign's totals, or more if some track is not covered. */
  lemma {:induction false} MostClaims(suite: Suite, tracks: seq<Track>) returns (claims: Claims)
    requires suite.Valid() && Belong(suite, tracks) && AllPlannable(suite, tracks)
    ensures ValidClaims(suite, tracks, claims)
    ensures CampaignTotals(suite, tracks).calls <= ClaimedCount(suite, tracks, claims, Measure.Calls)
    ensures !AllCallsCovered(suite, tracks) ==> CampaignTotals(suite, tracks).calls < ClaimedCount(suite, tracks, claims, Measure.Calls)
    decreases |tracks|
  {
    if tracks == [] {
      claims := [];
    } else {
      assert Last(tracks) in tracks && forall x :: x in tracks <==> x in Init(tracks) || x == Last(tracks);
      var rest := MostClaims(suite, Init(tracks));
      var retries := MostRetries(suite, Last(tracks));
      AppendClaims(suite, tracks, rest, retries);
      AppendCount(suite, tracks, rest, retries, Measure.Calls);
      OneMoreTrackCount(suite, tracks, Measure.Calls);
      claims := rest + [retries];
    }
  }

  lemma {:induction false} ClaimsMakeNoMore(suite: Suite, tracks: seq<Track>, claims: Claims)
    requires suite.Valid() && Belong(suite, tracks)
    requires AllPlannable(suite, tracks) && ValidClaims(suite, tracks, claims) && AllCallsCovered(suite, tracks)
    ensures ClaimedCount(suite, tracks, claims, Measure.Calls) <= CampaignTotals(suite, tracks).calls
    decreases |tracks|
  {
    if tracks != [] {
      InitClaims(suite, tracks, claims);
      assert Last(tracks) in tracks && forall x :: x in Init(tracks) ==> x in tracks;
      ClaimsMakeNoMore(suite, Init(tracks), Init(claims));
      TrackCallsCovered(suite, Last(tracks), Last(claims));
      OneMoreTrackCount(suite, tracks, Measure.Calls);
    }
  }

  // ---------------------------------------------------------------- counting first calls

  lemma {:induction false} KeepSizes(run: CallRun, f: Filter)
    ensures |run| == |Keep(run, f)| + |Keep(run, f.Other())|
  {
    if run != [] {
      KeepSizes(Init(run), f);
    }
  }

  lemma FirstIsIn<T>(s: seq<T>)
    ensures s == [] || s[0] in s
  {
  }

  /** If each slot makes at most its weight in requests, all of them make at most the sum. */
  lemma {:induction false} CountPigeonholes(run: CallRun, slots: seq<Slot>, weight: Slot -> real)
    requires forall a :: a in run ==> a.slot in slots
    requires forall s :: s in slots ==> 0.0 <= weight(s) && |Keep(run, At(s))| as real <= weight(s)
    ensures |run| as real <= SumOver(slots, weight)
    decreases |slots|
  {
    if slots == [] {
      FirstIsIn(run);
    } else {
      var s, others := Last(slots), Keep(run, Elsewhere(Last(slots)));
      assert s in slots && forall x :: x in Init(slots) ==> x in slots;
      KeepSizes(run, At(s));
      KeepMembers(run, Elsewhere(s));
      assert forall x :: x in slots ==> x in Init(slots) || x == s;
      forall x | x in Init(slots)
        ensures |Keep(others, At(x))| as real <= weight(x)
      {
        KeepElsewhere(run, s, x);
      }
      CountPigeonholes(others, Init(slots), weight);
    }
  }

  lemma SlotMakesNoMore(suite: Suite, tracks: seq<Track>, run: CallRun, claims: Claims, s: Slot)
    requires suite.Valid() && AllPlannable(suite, tracks) && WithinPlan(suite, tracks, run, claims)
    ensures var w := CountWeight(suite, tracks, Measure.Calls)(s);
      0.0 <= w && |Keep(Keep(run, FirstOnly), At(s))| as real <= w
  {
    KeptCounts(run, s);
    assert FirstCalls(run, s) <= CallCeiling(suite, tracks, s);
  }

  lemma RunSplits(run: CallRun)
    ensures |run| == |Keep(run, FirstOnly)| + AdditionalCalls(run)
  {
    KeepSizes(run, FirstOnly);
    KeptCounts(run, Slot(0, 0, 0, 1));
  }

  lemma FirstsFitSlots(suite: Suite, tracks: seq<Track>, run: CallRun, claims: Claims)
    requires suite.Valid() && AllPlannable(suite, tracks) && WithinPlan(suite, tracks, run, claims)
    ensures |Keep(run, FirstOnly)| as real <= SumOver(AllSlots(suite, tracks, claims), CountWeight(suite, tracks, Measure.Calls))
  {
    var slots, weight, firsts := AllSlots(suite, tracks, claims), CountWeight(suite, tracks, Measure.Calls), Keep(run, FirstOnly);
    KeepMembers(run, FirstOnly);
    SlotsListed(suite, tracks, claims);
    forall s | s in slots
      ensures 0.0 <= weight(s) && |Keep(firsts, At(s))| as real <= weight(s)
    {
      SlotMakesNoMore(suite, tracks, run, claims, s);
    }
    CountPigeonholes(firsts, slots, weight);
  }

  /** The first calls of a run are at most those of its claims. */
  lemma FirstCallsCounted(suite: Suite, tracks: seq<Track>, run: CallRun, claims: Claims)
    requires suite.Valid() && AllPlannable(suite, tracks) && WithinPlan(suite, tracks, run, claims)
    ensures |run| - AdditionalCalls(run) <= ClaimedCount(suite, tracks, claims, Measure.Calls)
  {
    FirstsFitSlots(suite, tracks, run, claims);
    WeightCounts(suite, tracks, Measure.Calls);
    AllSlotsCount(suite, tracks, claims, CountWeight(suite, tracks, Measure.Calls), Measure.Calls);
    RunSplits(run);
  }

  lemma RequestsWithin(suite: Suite, tracks: seq<Track>, run: CallRun, claims: Claims)
    requires suite.Valid() && Belong(suite, tracks) && AllPlannable(suite, tracks)
    requires WithinPlan(suite, tracks, run, claims) && AllCallsCovered(suite, tracks)
    ensures |run| <= CampaignTotals(suite, tracks).calls + AdditionalCalls(run)
  {
    FirstCallsCounted(suite, tracks, run, claims);
    ClaimsMakeNoMore(suite, tracks, claims);
  }

  /** No run within the plan that repeats at most the permitted calls makes more requests. */
  ghost predicate RequestsBound(suite: Suite, tracks: seq<Track>, requests: int)
    requires AllPlannable(suite, tracks)
  {
    forall run, claims :: WithinPlan(suite, tracks, run, claims) && AdditionalCalls(run) <= suite.maxAdditional ==>
      |run| <= requests
  }

  lemma MostRequests(suite: Suite, tracks: seq<Track>) returns (run: CallRun, claims: Claims)
    requires suite.Valid() && Belong(suite, tracks) && AllPlannable(suite, tracks) && !AllCallsCovered(suite, tracks)
    ensures WithinPlan(suite, tracks, run, claims) && AdditionalCalls(run) == suite.maxAdditional
    ensures |run| > CampaignTotals(suite, tracks).calls + suite.maxAdditional
  {
    claims := MostClaims(suite, tracks);
    run := ClaimsAreUsedUp(suite, tracks, claims);
    RunLength(run);
    CampaignCalls(suite, tracks);
    var slot := FirstSlotIsClaimed(suite, tracks, run, claims);
    run := RepeatCalls(suite, tracks, run, claims, slot, suite.maxAdditional);
    RunLength(run);
  }

  /** The reported requests bound those of every run within the plan if and only if, on every
      track, the selected retries make as many calls as any permitted ones: as the first blocks in
      the ranking by calls, each retried once, and, where blocks may be attempted more than twice,
      those make the same number of calls. */
  lemma RequestsBoundExactly(suite: Suite, tracks: seq<Track>, packId: string)
    requires suite.Valid() && Belong(suite, tracks) && AllPlannable(suite, tracks) && suite.HasBudget(packId)
    ensures RequestsBound(suite, tracks, EstimateWith(suite, tracks, packId).requestAttempts) <==> AllCallsCovered(suite, tracks)
  {
    if AllCallsCovered(suite, tracks) {
      forall run, claims | WithinPlan(suite, tracks, run, claims) && AdditionalCalls(run) <= suite.maxAdditional
        ensures |run| <= CampaignTotals(suite, tracks).calls + suite.maxAdditional
      {
        RequestsWithin(suite, tracks, run, claims);
      }
    } else {
      var run, claims := MostRequests(suite, tracks);
      assert WithinPlan(suite, tracks, run, claims);
    }
  }
}

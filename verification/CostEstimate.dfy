/** The worst-case cost of a paid campaign, and why it is one. */
module CostEstimate {
  import opened Outcome
  import opened Sequences

  // ---------------------------------------------------------------- campaign suite

  datatype PackBudget = PackBudget(packId: string, maxCalls: int, maxInput: int, maxOutput: int)

  /** One pack of a track: its planned trials and comparison blocks. */
  datatype PackLine = PackLine(packId: string, trials: int, blocks: int)
  {
    predicate Divisible() {
      1 <= blocks && trials % blocks == 0
    }

    /** Trials per block, one for each variant. */
    function Arms(): int
      requires Divisible()
    {
      trials / blocks
    }
  }

  datatype Track = Track(lines: seq<PackLine>, maxRetries: int)

  datatype Mode = Smoke | Calibration | Formal | Ship

  datatype Suite = Suite(
    inputUsdPerMillion: real, outputUsdPerMillion: real, usdToCny: real, externalReserveCny: real,
    maxAdditional: int, callMaxAttempts: int, blockAttempts: int, budgets: seq<PackBudget>, calibration: Track, formal: Track)
  {
    /** The constraints the suite's classes check when they are built. */
    predicate Valid() {
      && 0.0 <= inputUsdPerMillion && 0.0 <= outputUsdPerMillion && 0.0 <= usdToCny && 0.0 <= externalReserveCny
      && 0 <= maxAdditional && 1 <= callMaxAttempts && 1 <= blockAttempts
      && (callMaxAttempts == 1 ==> maxAdditional == 0)
      && (blockAttempts == 1 ==> calibration.maxRetries == 0 && formal.maxRetries == 0)
      && (forall b :: b in budgets ==> 1 <= b.maxCalls && 1 <= b.maxInput && 1 <= b.maxOutput)
      && ValidTrack(calibration) && ValidTrack(formal)
    }

    predicate ValidTrack(track: Track) {
      && track.lines != [] && 0 <= track.maxRetries <= BlockCount(track.lines)
      && forall line :: line in track.lines ==> 0 <= line.trials && 0 <= line.blocks && HasBudget(line.packId)
    }

    predicate HasBudget(packId: string) {
      exists b :: b in budgets && b.packId == packId
    }

    /** The first budget listed for a benchmark pack. */
    function BudgetFor(packId: string): (b: PackBudget)
      requires HasBudget(packId)
      ensures b in budgets && b.packId == packId
    {
      FirstBudget(budgets, packId)
    }

    function TokenUsd(input: int, output: int): real {
      input as real / 1000000.0 * inputUsdPerMillion + output as real / 1000000.0 * outputUsdPerMillion
    }

    /** The most one call of a trial of that pack can cost. */
    function UnitUsd(packId: string): real
      requires HasBudget(packId)
    {
      TokenUsd(BudgetFor(packId).maxInput, BudgetFor(packId).maxOutput)
    }

    function TracksOf(modes: seq<Mode>): seq<Track> {
      seq(|modes|, i requires 0 <= i < |modes| => if modes[i].Calibration? then calibration else formal)
    }
  }

  /** How many comparison blocks the packs of a track plan. */
  function BlockCount(lines: seq<PackLine>): int {
    if lines == [] then 0 else BlockCount(Init(lines)) + Last(lines).blocks
  }

  function FirstBudget(budgets: seq<PackBudget>, packId: string): (b: PackBudget)
    requires exists b :: b in budgets && b.packId == packId
    ensures b in budgets && b.packId == packId
  {
    if budgets[0].packId == packId then budgets[0] else FirstBudget(budgets[1..], packId)
  }

  lemma TokenUsdAdds(suite: Suite, i: int, o: int, i': int, o': int)
    ensures suite.TokenUsd(i + i', o + o') == suite.TokenUsd(i, o) + suite.TokenUsd(i', o')
  {
    var r, q := suite.inputUsdPerMillion, suite.outputUsdPerMillion;
    assert (i + i') as real / 1000000.0 * r == i as real / 1000000.0 * r + i' as real / 1000000.0 * r;
    assert (o + o') as real / 1000000.0 * q == o as real / 1000000.0 * q + o' as real / 1000000.0 * q;
  }

  lemma {:induction false} TokenUsdScales(suite: Suite, n: nat, i: int, o: int)
    ensures suite.TokenUsd(n * i, n * o) == n as real * suite.TokenUsd(i, o)
  {
    if n == 0 {
      assert suite.TokenUsd(0, 0) == 0.0;
    } else {
      TokenUsdScales(suite, n - 1, i, o);
      TokenUsdAdds(suite, (n - 1) * i, (n - 1) * o, i, o);
      assert (n - 1) * i + i == n * i && (n - 1) * o + o == n * o;
    }
  }

  lemma TokenUsdMonotone(suite: Suite, i: int, o: int, i': int, o': int)
    requires suite.Valid() && i <= i' && o <= o'
    ensures suite.TokenUsd(i, o) <= suite.TokenUsd(i', o')
  {
    var r, q := suite.inputUsdPerMillion, suite.outputUsdPerMillion;
    assert i as real / 1000000.0 * r <= i' as real / 1000000.0 * r;
    assert o as real / 1000000.0 * q <= o' as real / 1000000.0 * q;
  }

  // ---------------------------------------------------------------- totals

  datatype Totals = Totals(calls: int, input: int, output: int)
  {
    function Plus(t: Totals): Totals {
      Totals(calls + t.calls, input + t.input, output + t.output)
    }

    function Usd(suite: Suite): real {
      suite.TokenUsd(input, output)
    }
  }

  const NOTHING := Totals(0, 0, 0)

  /** `trials` trials of a pack at their ceilings. */
  function TrialTotals(suite: Suite, packId: string, trials: int): Totals
    requires suite.HasBudget(packId)
  {
    var b := suite.BudgetFor(packId);
    var calls := trials * b.maxCalls;
    Totals(calls, calls * b.maxInput, calls * b.maxOutput)
  }

  function PlannedTotals(suite: Suite, lines: seq<PackLine>): Totals
    requires forall line :: line in lines ==> suite.HasBudget(line.packId)
  {
    if lines == [] then NOTHING
    else PlannedTotals(suite, Init(lines)).Plus(TrialTotals(suite, Last(lines).packId, Last(lines).trials))
  }

  datatype Candidate = Candidate(usd: real, totals: Totals)

  /** Retrying one block of such a pack. */
  function RetryOf(suite: Suite, line: PackLine): Candidate
    requires suite.HasBudget(line.packId) && line.Divisible()
  {
    var t := TrialTotals(suite, line.packId, line.Arms());
    Candidate(t.Usd(suite), t)
  }

  function Repeat<T>(n: nat, x: T): seq<T> {
    seq(n, _ => x)
  }

  predicate Plannable(suite: Suite, lines: seq<PackLine>) {
    forall line :: line in lines ==> 0 <= line.trials && suite.HasBudget(line.packId) && line.Divisible()
  }

  /** Every block of a track, by its pack, in plan order. */
  function Blocks(lines: seq<PackLine>): seq<PackLine>
    requires forall line :: line in lines ==> line.Divisible()
    ensures forall b :: b in Blocks(lines) ==> b in lines
  {
    if lines == [] then [] else
      assert Last(lines).Divisible();
      Blocks(Init(lines)) + Repeat(Last(lines).blocks, Last(lines))
  }

  /** One retry candidate for every block. */
  function Candidates(suite: Suite, blocks: seq<PackLine>): seq<Candidate>
    requires Plannable(suite, blocks)
  {
    seq(|blocks|, i requires 0 <= i < |blocks| => RetryOf(suite, blocks[i]))
  }

  /** Insertion into a list sorted by falling cost, after equal ones: the sort is stable. */
  function Insert(x: Candidate, sorted: seq<Candidate>): seq<Candidate> {
    if sorted == [] || sorted[0].usd < x.usd then [x] + sorted
    else [sorted[0]] + Insert(x, sorted[1..])
  }

  function SortByCost(cs: seq<Candidate>): seq<Candidate> {
    if cs == [] then [] else Insert(Last(cs), SortByCost(Init(cs)))
  }

  function Take<T>(s: seq<T>, n: nat): seq<T> {
    if n <= |s| then s[..n] else s
  }

  function Selected(suite: Suite, track: Track): seq<Candidate>
    requires Plannable(suite, track.lines) && 0 <= track.maxRetries
  {
    Take(SortByCost(Candidates(suite, Blocks(track.lines))), track.maxRetries)
  }

  function SumTotals(cs: seq<Candidate>): Totals {
    if cs == [] then NOTHING else SumTotals(Init(cs)).Plus(Last(cs).totals)
  }

  predicate AllPlannable(suite: Suite, tracks: seq<Track>) {
    forall t :: t in tracks ==> Plannable(suite, t.lines) && 0 <= t.maxRetries
  }

  function PlannedAll(suite: Suite, tracks: seq<Track>): Totals
    requires AllPlannable(suite, tracks)
  {
    if tracks == [] then NOTHING
    else
      assert Plannable(suite, Last(tracks).lines);
      PlannedAll(suite, Init(tracks)).Plus(PlannedTotals(suite, Last(tracks).lines))
  }

  function SelectedAll(suite: Suite, tracks: seq<Track>): seq<Candidate>
    requires AllPlannable(suite, tracks)
  {
    if tracks == [] then []
    else SelectedAll(suite, Init(tracks)) + Selected(suite, Last(tracks))
  }

  /** Planned trials and the dearest permitted retries of every track. */
  function CampaignTotals(suite: Suite, tracks: seq<Track>): Totals
    requires AllPlannable(suite, tracks)
  {
    PlannedAll(suite, tracks).Plus(SumTotals(SelectedAll(suite, tracks)))
  }

  // ---------------------------------------------------------------- the estimate

  datatype EstimateError = NoPaidMode | UnpaidMode | NotDivisible | AdditionalCapExceedsCapacity

  datatype CostEstimate = CostEstimate(
    trialCount: int, logicalCalls: int, additionalAttempts: int, requestAttempts: int,
    maximumInput: int, maximumOutput: int, usd: real, cny: real)

  /** Repeating one call of a pack. */
  datatype CallCandidate = CallCandidate(usd: real, packId: string)

  function LineCalls(suite: Suite, lines: seq<PackLine>): seq<CallCandidate>
    requires forall line :: line in lines ==> suite.HasBudget(line.packId)
  {
    seq(|lines|, i requires 0 <= i < |lines| => CallCandidate(suite.UnitUsd(lines[i].packId), lines[i].packId))
  }

  function CallCandidates(suite: Suite, tracks: seq<Track>): seq<CallCandidate>
    requires AllPlannable(suite, tracks)
  {
    if tracks == [] then []
    else
      assert Plannable(suite, Last(tracks).lines);
      CallCandidates(suite, Init(tracks)) + LineCalls(suite, Last(tracks).lines)
  }

  predicate IsDearest(c: CallCandidate, cs: seq<CallCandidate>) {
    c in cs && forall x :: x in cs ==> x.usd <= c.usd
  }

  /** The first candidate of greatest cost. */
  method MostExpensive(cs: seq<CallCandidate>) returns (c: CallCandidate)
    requires cs != []
    ensures IsDearest(c, cs)
  {
    c := cs[0];
    for i := 1 to |cs|
      invariant c in cs && forall j :: 0 <= j < i ==> cs[j].usd <= c.usd
    {
      if c.usd < cs[i].usd {
        c := cs[i];
      }
    }
  }

  /** What the loop over packs has collected after `lines`. */
  ghost predicate Scanned(suite: Suite, lines: seq<PackLine>, totals: Totals, candidates: seq<Candidate>,
                          calls: seq<CallCandidate>) {
    && Plannable(suite, lines)
    && totals == PlannedTotals(suite, lines)
    && candidates == Candidates(suite, Blocks(lines))
    && calls == LineCalls(suite, lines)
  }

  lemma ScanLine(suite: Suite, lines: seq<PackLine>, totals: Totals, candidates: seq<Candidate>,
                 calls: seq<CallCandidate>, line: PackLine)
    requires Scanned(suite, lines, totals, candidates, calls)
    requires 0 <= line.trials && suite.HasBudget(line.packId) && line.Divisible()
    ensures Scanned(suite, lines + [line], totals.Plus(TrialTotals(suite, line.packId, line.trials)),
                    candidates + Repeat(line.blocks, RetryOf(suite, line)),
                    calls + [CallCandidate(suite.UnitUsd(line.packId), line.packId)])
  {
    Snoc(lines, line);
  }

  /** The loop over one track's packs. */
  method ScanTrack(suite: Suite, track: Track)
    returns (r: Result<Totals, EstimateError>, candidates: seq<Candidate>, calls: seq<CallCandidate>)
    requires suite.ValidTrack(track)
    ensures r.Success? <==> Plannable(suite, track.lines)
    ensures r.Success? ==>
      && r.value == PlannedTotals(suite, track.lines) && candidates == Candidates(suite, Blocks(track.lines))
      && calls == LineCalls(suite, track.lines)
  {
    var totals := NOTHING;
    candidates, calls := [], [];
    for i := 0 to |track.lines|
      invariant Scanned(suite, track.lines[..i], totals, candidates, calls)
    {
      var line := track.lines[i];
      assert line in track.lines;
      if line.blocks < 1 || line.trials % line.blocks != 0 {
        return Failure(NotDivisible), [], [];
      }
      ScanLine(suite, track.lines[..i], totals, candidates, calls, line);
      assert track.lines[..i + 1] == track.lines[..i] + [line];
      totals := totals.Plus(TrialTotals(suite, line.packId, line.trials));
      candidates := candidates + Repeat(line.blocks, RetryOf(suite, line));
      calls := calls + [CallCandidate(suite.UnitUsd(line.packId), line.packId)];
    }
    assert track.lines[..|track.lines|] == track.lines;
    r := Success(totals);
  }

  /** Totals `t` priced together with the additional attempts, each one a call of budget `b`. */
  function PriceTotals(suite: Suite, trials: int, t: Totals, b: PackBudget): CostEstimate {
    var input := t.input + suite.maxAdditional * b.maxInput;
    var output := t.output + suite.maxAdditional * b.maxOutput;
    var usd := suite.TokenUsd(input, output);
    CostEstimate(trials, t.calls, suite.maxAdditional, t.calls + suite.maxAdditional,
                 input, output, usd, usd * suite.usdToCny + suite.externalReserveCny)
  }

  /** The estimate when repeated calls are priced in pack `dearest`. */
  function EstimateWith(suite: Suite, tracks: seq<Track>, dearest: string): CostEstimate
    requires AllPlannable(suite, tracks) && suite.HasBudget(dearest)
  {
    PriceTotals(suite, PlannedTrials(tracks), CampaignTotals(suite, tracks), suite.BudgetFor(dearest))
  }

  function LineTrials(lines: seq<PackLine>): int {
    if lines == [] then 0 else LineTrials(Init(lines)) + Last(lines).trials
  }

  function PlannedTrials(tracks: seq<Track>): int {
    if tracks == [] then 0 else PlannedTrials(Init(tracks)) + LineTrials(Last(tracks).lines)
  }

  predicate Paid(modes: seq<Mode>) {
    modes != [] && forall m :: m in modes ==> m.Calibration? || m.Formal?
  }

  /** What the loop over tracks has collected after `tracks`. */
  ghost predicate Collected(suite: Suite, tracks: seq<Track>, planned: Totals, retries: seq<Candidate>,
                            calls: seq<CallCandidate>) {
    && AllPlannable(suite, tracks)
    && planned == PlannedAll(suite, tracks)
    && retries == SelectedAll(suite, tracks)
    && calls == CallCandidates(suite, tracks)
  }

  lemma CollectTrack(suite: Suite, tracks: seq<Track>, planned: Totals, retries: seq<Candidate>,
                     calls: seq<CallCandidate>,
                     track: Track, chosen: seq<Candidate>)
    requires Collected(suite, tracks, planned, retries, calls)
    requires Plannable(suite, track.lines) && 0 <= track.maxRetries && chosen == Selected(suite, track)
    ensures Collected(suite, tracks + [track], planned.Plus(PlannedTotals(suite, track.lines)), retries + chosen,
                      calls + LineCalls(suite, track.lines))
  {
    Snoc(tracks, track);
    assert forall t :: t in tracks + [track] <==> t in tracks || t == track;
  }

  /** The loop over tracks: planned totals, the chosen retries, and the call candidates. */
  method ScanTracks(suite: Suite, tracks: seq<Track>)
    returns (r: Result<Totals, EstimateError>, retries: seq<Candidate>, calls: seq<CallCandidate>)
    requires forall i :: 0 <= i < |tracks| ==> suite.ValidTrack(tracks[i])
    ensures r.Success? <==> AllPlannable(suite, tracks)
    ensures r.Success? ==> Collected(suite, tracks, r.value, retries, calls)
  {
    var planned := NOTHING;
    retries, calls := [], [];
    for i := 0 to |tracks|
      invariant Collected(suite, tracks[..i], planned, retries, calls)
    {
      var track := tracks[i];
      var scanned, candidates, trackCalls := ScanTrack(suite, track);
      if scanned.Failure? {
        return Failure(scanned.error), [], [];
      }
      var chosen := Take(SortByCost(candidates), track.maxRetries);
      CollectTrack(suite, tracks[..i], planned, retries, calls, track, chosen);
      assert tracks[..i + 1] == tracks[..i] + [track];
      planned := planned.Plus(scanned.value);
      retries := retries + chosen;
      calls := calls + trackCalls;
    }
    assert tracks[..|tracks|] == tracks;
    r := Success(planned);
  }

  method AddRetries(planned: Totals, retries: seq<Candidate>) returns (t: Totals)
    ensures t == planned.Plus(SumTotals(retries))
  {
    t := planned;
    for i := 0 to |retries|
      invariant t == planned.Plus(SumTotals(retries[..i]))
    {
      assert retries[..i + 1] == retries[..i] + [retries[i]];
      Snoc(retries[..i], retries[i]);
      t := t.Plus(retries[i].totals);
    }
    assert retries[..|retries|] == retries;
  }

  method EstimateWorstCaseCost(suite: Suite, modes: seq<Mode>) returns (r: Result<CostEstimate, EstimateError>)
    requires suite.Valid()
    ensures r.Success? <==>
      && Paid(modes) && AllPlannable(suite, suite.TracksOf(modes))
      && suite.maxAdditional <= CampaignTotals(suite, suite.TracksOf(modes)).calls * (suite.callMaxAttempts - 1)
    ensures r.Success? ==> exists c ::
      && IsDearest(c, CallCandidates(suite, suite.TracksOf(modes))) && suite.HasBudget(c.packId)
      && r.value == EstimateWith(suite, suite.TracksOf(modes), c.packId)
  {
    if modes == [] {
      return Failure(NoPaidMode);
    }
    if Smoke in modes || Ship in modes {
      return Failure(UnpaidMode);
    }
    var tracks := suite.TracksOf(modes);
    var scanned, retries, calls := ScanTracks(suite, tracks);
    if scanned.Failure? {
      return Failure(scanned.error);
    }
    var t := AddRetries(scanned.value, retries);
    if suite.maxAdditional > t.calls * (suite.callMaxAttempts - 1) {
      return Failure(AdditionalCapExceedsCapacity);
    }
    CallCandidatesAreUnits(suite, tracks);
    var dearest := MostExpensive(calls);
    var e := Price(suite, PlannedTrials(tracks), t, suite.BudgetFor(dearest.packId));
    return Success(e);
  }

  /** The end of the estimate: add the repeated calls and price everything. */
  method Price(suite: Suite, trials: int, t: Totals, dearest: PackBudget) returns (e: CostEstimate)
    requires 0 <= suite.maxAdditional
    ensures e == PriceTotals(suite, trials, t, dearest)
  {
    var input, output := t.input, t.output;
    if suite.maxAdditional > 0 {
      input := input + suite.maxAdditional * dearest.maxInput;
      output := output + suite.maxAdditional * dearest.maxOutput;
    }
    var usd := suite.TokenUsd(input, output);
    e := CostEstimate(trials, t.calls, suite.maxAdditional, t.calls + suite.maxAdditional, input, output,
                      usd, usd * suite.usdToCny + suite.externalReserveCny);
  }

  /** Every pack of every track has its candidate, priced at one call at its ceilings. */
  lemma {:induction false} CallCandidatesAreUnits(suite: Suite, tracks: seq<Track>)
    requires AllPlannable(suite, tracks)
    ensures forall c :: c in CallCandidates(suite, tracks) ==> suite.HasBudget(c.packId) && c.usd == suite.UnitUsd(c.packId)
    ensures forall t, line :: t in tracks && line in t.lines && suite.HasBudget(line.packId) ==>
      CallCandidate(suite.UnitUsd(line.packId), line.packId) in CallCandidates(suite, tracks)
  {
    if tracks != [] {
      CallCandidatesAreUnits(suite, Init(tracks));
      var calls := LineCalls(suite, Last(tracks).lines);
      assert forall i :: 0 <= i < |calls| ==> calls[i].packId == Last(tracks).lines[i].packId;
    }
  }

  lemma {:induction false} SumTotalsAppend(a: seq<Candidate>, b: seq<Candidate>)
    ensures SumTotals(a + b) == SumTotals(a).Plus(SumTotals(b))
  {
    if b == [] {
      assert a + b == a;
    } else {
      SumTotalsAppend(a, Init(b));
      assert Init(a + b) == a + Init(b) && Last(a + b) == Last(b);
    }
  }
}

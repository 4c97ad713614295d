/** Ranking retry candidates: the first of them in falling order are the most that as many
    single retries can come to, and when repeated retries can come to more. */
module RetryRanking {
  import opened Sequences
  import opened CostEstimate

  // ---------------------------------------------------------------- the sort and its top

  predicate Falling(cs: seq<Candidate>) {
    forall i, j :: 0 <= i < j < |cs| ==> cs[i].usd >= cs[j].usd
  }

  lemma ConsFalls(x: Candidate, s: seq<Candidate>)
    requires Falling(s) && forall y :: y in s ==> y.usd <= x.usd
    ensures Falling([x] + s)
  {
  }

  lemma {:induction false} InsertKeeps(x: Candidate, s: seq<Candidate>)
    ensures multiset(Insert(x, s)) == multiset(s) + multiset{x}
    ensures forall y :: y in Insert(x, s) <==> y in s || y == x
  {
    if s != [] && s[0].usd >= x.usd {
      InsertKeeps(x, s[1..]);
      assert s == [s[0]] + s[1..];
    }
  }

  lemma {:induction false} InsertFalls(x: Candidate, s: seq<Candidate>)
    requires Falling(s)
    ensures Falling(Insert(x, s))
  {
    if s == [] || s[0].usd < x.usd {
      ConsFalls(x, s);
    } else {
      InsertFalls(x, s[1..]);
      InsertKeeps(x, s[1..]);
      ConsFalls(s[0], Insert(x, s[1..]));
    }
  }

  /** Candidates are sorted by falling cost and are still the same candidates. */
  lemma {:induction false} SortByCostSorts(cs: seq<Candidate>)
    ensures Falling(SortByCost(cs)) && multiset(SortByCost(cs)) == multiset(cs)
  {
    if cs != [] {
      SortByCostSorts(Init(cs));
      InsertFalls(Last(cs), SortByCost(Init(cs)));
      InsertKeeps(Last(cs), SortByCost(Init(cs)));
      assert cs == Init(cs) + [Last(cs)];
    }
  }

  function SumUsd(cs: seq<Candidate>): real {
    if cs == [] then 0.0 else cs[0].usd + SumUsd(cs[1..])
  }

  function TopUsd(s: seq<Candidate>, k: nat): real {
    if s == [] || k == 0 then 0.0 else s[0].usd + TopUsd(s[1..], k - 1)
  }

  lemma {:induction false} TopIsTake(s: seq<Candidate>, k: nat)
    ensures TopUsd(s, k) == SumUsd(Take(s, k))
  {
    if s != [] && k != 0 {
      TopIsTake(s[1..], k - 1);
      assert Take(s, k)[1..] == Take(s[1..], k - 1);
    }
  }

  predicate NonNegative(cs: seq<Candidate>) {
    forall c :: c in cs ==> 0.0 <= c.usd
  }

  lemma {:induction false} DroppingHeadLowersTop(s: seq<Candidate>, k: nat)
    requires Falling(s) && NonNegative(s) && s != []
    ensures 0.0 <= TopUsd(s[1..], k) <= TopUsd(s, k)
    decreases |s|
  {
    if k != 0 && |s| > 1 {
      assert s[0].usd >= s[1].usd && s[1..][0] == s[1] && s[1] in s;
      assert forall c :: c in s[1..] ==> c in s;
      DroppingHeadLowersTop(s[1..], k - 1);
    } else {
      assert s[0] in s;
    }
  }

  lemma TopOfCons(x: Candidate, s: seq<Candidate>, k: nat)
    requires k > 0
    ensures TopUsd([x] + s, k) == x.usd + TopUsd(s, k - 1)
  {
    assert ([x] + s)[1..] == s;
  }

  lemma HeadRaisesTop(x: Candidate, s: seq<Candidate>, k: nat)
    requires Falling(s) && NonNegative(s) && 0.0 <= x.usd && k > 0 && (s != [] ==> s[0].usd < x.usd)
    ensures TopUsd(s, k) <= TopUsd([x] + s, k) && x.usd + TopUsd(s, k - 1) <= TopUsd([x] + s, k)
  {
    TopOfCons(x, s, k);
    if s != [] {
      DroppingHeadLowersTop(s, k - 1);
    }
  }

  lemma TopUnfolds(s: seq<Candidate>, k: nat)
    requires s != [] && k > 0
    ensures TopUsd(s, k) == s[0].usd + TopUsd(s[1..], k - 1)
  {
  }

  lemma TailStays(s: seq<Candidate>)
    requires Falling(s) && NonNegative(s) && s != []
    ensures Falling(s[1..]) && NonNegative(s[1..])
  {
    assert forall c :: c in s[1..] ==> c in s;
  }

  /** Putting a candidate into the list raises the top by at least what it displaces. */
  lemma {:induction false} InsertRaisesTop(x: Candidate, s: seq<Candidate>, k: nat)
    requires Falling(s) && NonNegative(s) && 0.0 <= x.usd && k > 0
    ensures TopUsd(s, k) <= TopUsd(Insert(x, s), k)
    ensures x.usd + TopUsd(s, k - 1) <= TopUsd(Insert(x, s), k)
    decreases |s|
  {
    if s == [] || s[0].usd < x.usd {
      HeadRaisesTop(x, s, k);
    } else {
      TailStays(s);
      TopUnfolds(s, k);
      TopOfCons(s[0], Insert(x, s[1..]), k);
      if k > 1 {
        TopUnfolds(s, k - 1);
        InsertRaisesTop(x, s[1..], k - 1);
      }
    }
  }

  lemma SortedNonNegative(cs: seq<Candidate>)
    requires NonNegative(cs)
    ensures Falling(SortByCost(cs)) && NonNegative(SortByCost(cs))
  {
    SortByCostSorts(cs);
    assert forall c :: c in SortByCost(cs) ==> c in multiset(SortByCost(cs));
  }

  // ---------------------------------------------------------------- choices of retries

  /** `n` times the price `u`, nothing for a negative count. */
  function Times(n: int, u: real): real {
    if n <= 0 then 0.0 else Times(n - 1, u) + u
  }

  lemma {:induction false} TimesMonotone(m: int, n: int, u: real)
    requires m <= n && 0.0 <= u
    ensures 0.0 <= Times(m, u) <= Times(n, u)
    decreases n
  {
    if 0 < n {
      TimesMonotone(if m == n then m - 1 else m, n - 1, u);
    }
  }

  lemma {:induction false} TimesAdds(m: nat, n: nat, u: real)
    ensures Times(m + n, u) == Times(m, u) + Times(n, u)
  {
    if n > 0 {
      TimesAdds(m, n - 1, u);
    }
  }

  lemma {:induction false} TimesTimes(m: nat, n: nat, u: real)
    ensures Times(m, Times(n, u)) == Times(m * n, u)
  {
    if m > 0 {
      TimesTimes(m - 1, n, u);
      TimesAdds((m - 1) * n, n, u);
      assert (m - 1) * n + n == m * n;
    }
  }

  function Sum(ns: seq<nat>): nat {
    if ns == [] then 0 else Sum(Init(ns)) + Last(ns)
  }

  predicate EachAtMost(ns: seq<nat>, n: int) {
    forall r :: r in ns ==> r <= n
  }

  /** The cost of retrying every candidate as often as `retries` says. */
  function RetriedUsd(cs: seq<Candidate>, retries: seq<nat>): real
    requires |cs| == |retries|
  {
    if cs == [] then 0.0 else RetriedUsd(Init(cs), Init(retries)) + Times(Last(retries), Last(cs).usd)
  }

  /** At most `total` retries, at most `each` of any candidate. */
  predicate Choice(cs: seq<Candidate>, retries: seq<nat>, each: int, total: int) {
    |retries| == |cs| && EachAtMost(retries, each) && Sum(retries) <= total
  }

  lemma ChoiceInit(cs: seq<Candidate>, retries: seq<nat>, each: int, total: int)
    requires Choice(cs, retries, each, total) && cs != []
    ensures Choice(Init(cs), Init(retries), each, total - Last(retries)) && Last(retries) <= each
  {
    assert Last(retries) in retries && forall r :: r in Init(retries) ==> r in retries;
  }

  /** One more candidate: if the rest is dominated, so is the longer list. */
  lemma TopStep(x: Candidate, s: seq<Candidate>, k: nat, retries: nat, rest: real)
    requires Falling(s) && NonNegative(s) && 0.0 <= x.usd && retries <= 1 && retries <= k
    requires rest <= TopUsd(s, k - retries)
    ensures rest + Times(retries, x.usd) <= TopUsd(Insert(x, s), k)
  {
    assert Times(0, x.usd) == 0.0;
    if k > 0 {
      InsertRaisesTop(x, s, k);
    }
  }

  lemma SplitNonNegative(cs: seq<Candidate>)
    requires NonNegative(cs) && cs != []
    ensures NonNegative(Init(cs)) && 0.0 <= Last(cs).usd
  {
    assert Last(cs) in cs && forall c :: c in Init(cs) ==> c in cs;
  }

  /** No choice of at most `k` single retries costs more than the first `k` candidates. */
  lemma {:induction false} TopBounds(cs: seq<Candidate>, retries: seq<nat>, k: nat)
    requires NonNegative(cs) && Choice(cs, retries, 1, k)
    ensures RetriedUsd(cs, retries) <= TopUsd(SortByCost(cs), k)
    decreases |cs|
  {
    if cs != [] {
      SplitNonNegative(cs);
      ChoiceInit(cs, retries, 1, k);
      SortedNonNegative(Init(cs));
      TopBounds(Init(cs), Init(retries), k - Last(retries));
      TopStep(Last(cs), SortByCost(Init(cs)), k, Last(retries), RetriedUsd(Init(cs), Init(retries)));
    }
  }

  /** Inserting a candidate either leaves the top alone or puts the candidate into it. */
  lemma {:induction false} InsertTop(x: Candidate, s: seq<Candidate>, k: nat)
    ensures TopUsd(Insert(x, s), k) == TopUsd(s, k)
            || (k > 0 && TopUsd(Insert(x, s), k) == x.usd + TopUsd(s, k - 1))
    decreases |s|
  {
    if k > 0 {
      if s == [] || s[0].usd < x.usd {
        TopOfCons(x, s, k);
      } else {
        TopOfCons(s[0], Insert(x, s[1..]), k);
        TopUnfolds(s, k);
        InsertTop(x, s[1..], k - 1);
        if k > 1 {
          TopUnfolds(s, k - 1);
        }
      }
    }
  }

  lemma AddRetry(retries: seq<nat>, r: nat)
    ensures Sum(retries + [r]) == Sum(retries) + r
  {
    Snoc(retries, r);
  }

  function NoRetries(n: nat): seq<nat> {
    if n == 0 then [] else NoRetries(n - 1) + [0]
  }

  lemma {:induction false} NoRetriesChosen(cs: seq<Candidate>, each: nat, total: nat)
    ensures Choice(cs, NoRetries(|cs|), each, total) && Sum(NoRetries(|cs|)) == 0
  {
    if cs != [] {
      NoRetriesChosen(Init(cs), each, total);
      AddRetry(NoRetries(|cs| - 1), 0);
    }
  }

  /** One more candidate, retried `r` times or not at all. */
  lemma ExtendChoice(cs: seq<Candidate>, rest: seq<nat>, r: nat, k: nat)
    requires cs != [] && r <= 1 && r <= k && Choice(Init(cs), rest, 1, k - r)
    ensures Choice(cs, rest + [r], 1, k)
    ensures RetriedUsd(cs, rest + [r]) == RetriedUsd(Init(cs), rest) + Times(r, Last(cs).usd)
  {
    AddRetry(rest, r);
    Snoc(rest, r);
    assert forall x :: x in rest + [r] ==> x in rest || x == r;
  }

  /** Some choice of at most `k` single retries costs as much as the first `k` candidates. */
  lemma {:induction false} TopAttained(cs: seq<Candidate>, k: nat) returns (retries: seq<nat>)
    ensures Choice(cs, retries, 1, k) && RetriedUsd(cs, retries) == TopUsd(SortByCost(cs), k)
    decreases |cs|
  {
    if cs == [] {
      retries := [];
    } else {
      var x, s := Last(cs), SortByCost(Init(cs));
      InsertTop(x, s, k);
      TimesFirst(x.usd);
      var r := if TopUsd(Insert(x, s), k) == TopUsd(s, k) then 0 else 1;
      var rest := TopAttained(Init(cs), k - r);
      ExtendChoice(cs, rest, r, k);
      retries := rest + [r];
    }
  }

  lemma TimesFirst(u: real)
    ensures Times(0, u) == 0.0 && Times(1, u) == u
  {
    assert Times(1, u) == Times(0, u) + u;
  }

  /** The first `k` of the sorted candidates cost at least as much as any `k` of them, and some
      `k` of them cost exactly that. */
  lemma TopDominates(cs: seq<Candidate>, retries: seq<nat>, k: nat) returns (best: seq<nat>)
    requires NonNegative(cs) && Choice(cs, retries, 1, k)
    ensures RetriedUsd(cs, retries) <= SumUsd(Take(SortByCost(cs), k))
    ensures Choice(cs, best, 1, k) && RetriedUsd(cs, best) == SumUsd(Take(SortByCost(cs), k))
  {
    TopBounds(cs, retries, k);
    TopIsTake(SortByCost(cs), k);
    best := TopAttained(cs, k);
  }

  // ---------------------------------------------------------------- repeated retries

  /** The first `k` candidates cost the same. */
  predicate SameTop(s: seq<Candidate>, k: int) {
    forall i :: 0 <= i < k && i < |s| ==> s[i].usd == s[0].usd
  }

  /** When single retries already come to the most that retries can come to. */
  predicate RepeatsCovered(cs: seq<Candidate>, attempts: int, k: int) {
    attempts <= 2 || k <= 1 || SameTop(SortByCost(cs), k)
  }

  lemma {:induction false} AtMostSum(retries: seq<nat>)
    ensures EachAtMost(retries, Sum(retries))
  {
    if retries != [] {
      AtMostSum(Init(retries));
      assert retries == Init(retries) + [Last(retries)];
    }
  }

  lemma {:induction false} RetriedAtMost(cs: seq<Candidate>, retries: seq<nat>, p: real)
    requires |cs| == |retries| && 0.0 <= p && forall c :: c in cs ==> c.usd <= p
    ensures RetriedUsd(cs, retries) <= Times(Sum(retries), p)
    decreases |cs|
  {
    if cs != [] {
      assert Last(cs) in cs && forall c :: c in Init(cs) ==> c in cs;
      RetriedAtMost(Init(cs), Init(retries), p);
      TimesAdds(Sum(Init(retries)), Last(retries), p);
      TimesDearer(Last(retries), Last(cs).usd, p);
    }
  }

  lemma {:induction false} TimesDearer(n: nat, u: real, v: real)
    requires u <= v
    ensures Times(n, u) <= Times(n, v)
  {
    if n > 0 {
      TimesDearer(n - 1, u, v);
    }
  }

  lemma {:induction false} SameTopUsd(s: seq<Candidate>, k: nat, p: real)
    requires k <= |s| && forall i :: 0 <= i < k ==> s[i].usd == p
    ensures TopUsd(s, k) == Times(k, p)
    decreases |s|
  {
    if k > 0 {
      TopUnfolds(s, k);
      assert forall i :: 0 <= i < k - 1 ==> s[1..][i] == s[i + 1];
      SameTopUsd(s[1..], k - 1, p);
    }
  }

  lemma FirstIsGreatest(cs: seq<Candidate>, c: Candidate)
    requires NonNegative(cs) && c in cs
    ensures SortByCost(cs) != [] && c.usd <= SortByCost(cs)[0].usd
  {
    SortByCostSorts(cs);
    var s := SortByCost(cs);
    assert c in multiset(s);
    var i :| 0 <= i < |s| && s[i] == c;
  }

  lemma SortKeepsLength(cs: seq<Candidate>)
    ensures |SortByCost(cs)| == |cs|
  {
    SortByCostSorts(cs);
    assert |multiset(SortByCost(cs))| == |multiset(cs)|;
  }

  /** Retries of at most `attempts - 1` for each candidate and `k` in all stay within the first
      `k` candidates if those are covered. */
  lemma CoveredBound(cs: seq<Candidate>, retries: seq<nat>, attempts: int, k: nat)
    requires NonNegative(cs) && Choice(cs, retries, attempts - 1, k) && k <= |cs| && RepeatsCovered(cs, attempts, k)
    ensures RetriedUsd(cs, retries) <= TopUsd(SortByCost(cs), k)
  {
    AtMostSum(retries);
    if attempts <= 2 || k <= 1 {
      TopBounds(cs, retries, k);
    } else {
      var s := SortByCost(cs);
      SortKeepsLength(cs);
      SortedNonNegative(cs);
      assert s[0] in s;
      forall c | c in cs
        ensures c.usd <= s[0].usd
      {
        FirstIsGreatest(cs, c);
      }
      RetriedAtMost(cs, retries, s[0].usd);
      TimesMonotone(Sum(retries), k, s[0].usd);
      SameTopUsd(s, k, s[0].usd);
    }
  }

  lemma {:induction false} TopGrows(s: seq<Candidate>, k: nat)
    requires 0 < k <= |s|
    ensures TopUsd(s, k) == TopUsd(s, k - 1) + s[k - 1].usd
    decreases |s|
  {
    TopUnfolds(s, k);
    if k > 1 {
      TopGrows(s[1..], k - 1);
      TopUnfolds(s, k - 1);
    }
  }

  /** One more retry of a candidate that is retried at most once. */
  lemma {:induction false} RetryAgain(cs: seq<Candidate>, retries: seq<nat>, i: nat)
    requires |cs| == |retries| && i < |cs|
    ensures RetriedUsd(cs, retries[i := retries[i] + 1]) == RetriedUsd(cs, retries) + cs[i].usd
    ensures Sum(retries[i := retries[i] + 1]) == Sum(retries) + 1
    decreases |cs|
  {
    var more := retries[i := retries[i] + 1];
    if i < |cs| - 1 {
      RetryAgain(Init(cs), Init(retries), i);
      assert Init(more) == Init(retries)[i := retries[i] + 1];
    } else {
      assert Init(more) == Init(retries);
    }
  }

  lemma NotSameTop(s: seq<Candidate>, k: nat)
    requires Falling(s) && 1 < k <= |s| && !SameTop(s, k)
    ensures s[k - 1].usd < s[0].usd
  {
    var i :| 0 <= i < k && i < |s| && s[i].usd != s[0].usd;
    assert s[0].usd >= s[i].usd;
    assert i < k - 1 ==> s[i].usd >= s[k - 1].usd;
  }

  /** Where the first `k` candidates are not covered, some permitted choice costs more: retry the
      dearest candidate once more instead of the cheapest of the first `k`. */
  lemma Escape(cs: seq<Candidate>, attempts: int, k: nat) returns (retries: seq<nat>)
    requires NonNegative(cs) && k <= |cs| && !RepeatsCovered(cs, attempts, k)
    ensures Choice(cs, retries, attempts - 1, k) && RetriedUsd(cs, retries) > TopUsd(SortByCost(cs), k)
  {
    var s := SortByCost(cs);
    SortByCostSorts(cs);
    SortKeepsLength(cs);
    NotSameTop(s, k);
    TopGrows(s, k);
    assert s[0] in multiset(cs);
    var i :| 0 <= i < |cs| && cs[i] == s[0];
    var single := TopAttained(cs, k - 1);
    RetryAgain(cs, single, i);
    retries := single[i := single[i] + 1];
    assert single[i] in single;
    assert forall r :: r in retries ==> r in single || r == single[i] + 1;
  }

  // ---------------------------------------------------------------- calls and tokens

  datatype Measure = Calls | InputTokens | OutputTokens
  {
    function Of(t: Totals): int {
      match this
      case Calls => t.calls
      case InputTokens => t.input
      case OutputTokens => t.output
    }
  }

  /** The candidates, priced by a count instead of a cost. */
  function Ranked(cs: seq<Candidate>, m: Measure): (r: seq<Candidate>)
    ensures |r| == |cs|
  {
    seq(|cs|, i requires 0 <= i < |cs| => Candidate(m.Of(cs[i].totals) as real, cs[i].totals))
  }

  function MeasureSum(cs: seq<Candidate>, m: Measure): int {
    m.Of(SumTotals(cs))
  }

  /** What a choice of retries adds to a count. */
  function RetriedCount(cs: seq<Candidate>, retries: seq<nat>, m: Measure): int
    requires |cs| == |retries|
  {
    if cs == [] then 0
    else RetriedCount(Init(cs), Init(retries), m) + Last(retries) * m.Of(Last(cs).totals)
  }

  lemma {:induction false} TimesIsProduct(n: nat, x: int)
    ensures Times(n, x as real) == (n * x) as real
  {
    if n > 0 {
      TimesIsProduct(n - 1, x);
      assert (n - 1) * x + x == n * x;
    }
  }

  lemma {:induction false} RankedCost(cs: seq<Candidate>, retries: seq<nat>, m: Measure)
    requires |cs| == |retries|
    ensures RetriedUsd(Ranked(cs, m), retries) == RetriedCount(cs, retries, m) as real
    decreases |cs|
  {
    if cs != [] {
      assert Init(Ranked(cs, m)) == Ranked(Init(cs), m);
      RankedCost(Init(cs), Init(retries), m);
      TimesIsProduct(Last(retries), m.Of(Last(cs).totals));
    }
  }

  predicate CountsAre(cs: seq<Candidate>, m: Measure) {
    forall c :: c in cs ==> c.usd == m.Of(c.totals) as real
  }

  lemma {:induction false} SumOfCounts(cs: seq<Candidate>, m: Measure)
    requires CountsAre(cs, m)
    ensures SumUsd(cs) == MeasureSum(cs, m) as real
    decreases |cs|
  {
    if cs != [] {
      assert cs[0] in cs && forall c :: c in cs[1..] ==> c in cs;
      SumOfCounts(cs[1..], m);
      assert cs == [cs[0]] + cs[1..];
      SumTotalsAppend([cs[0]], cs[1..]);
      assert Init([cs[0]]) == [] && Last([cs[0]]) == cs[0];
      assert SumTotals([cs[0]]) == NOTHING.Plus(cs[0].totals);
    }
  }

  /** The first `k` candidates when they are ranked by the count itself. */
  function TopCount(cs: seq<Candidate>, m: Measure, k: nat): int {
    MeasureSum(Take(SortByCost(Ranked(cs, m)), k), m)
  }

  lemma TopCountIs(cs: seq<Candidate>, m: Measure, k: nat)
    ensures SumUsd(Take(SortByCost(Ranked(cs, m)), k)) == TopCount(cs, m, k) as real
  {
    var s := SortByCost(Ranked(cs, m));
    SortByCostSorts(Ranked(cs, m));
    forall c | c in Take(s, k)
      ensures c.usd == m.Of(c.totals) as real
    {
      assert c in multiset(s);
    }
    SumOfCounts(Take(s, k), m);
  }

  /** `count` covers every choice of at most `k` single retries. */
  ghost predicate CoversEveryChoice(cs: seq<Candidate>, m: Measure, k: nat, count: int) {
    forall retries :: Choice(cs, retries, 1, k) ==> RetriedCount(cs, retries, m) <= count
  }

  /** A count covers every choice of retries exactly when it reaches the first candidates in the
      ranking by that count. */
  lemma CountCoversExactly(cs: seq<Candidate>, m: Measure, k: nat, count: int)
    requires forall c :: c in cs ==> 0 <= m.Of(c.totals)
    ensures CoversEveryChoice(cs, m, k, count) <==> TopCount(cs, m, k) <= count
  {
    var ranked := Ranked(cs, m);
    TopCountIs(cs, m, k);
    TopIsTake(SortByCost(ranked), k);
    forall retries | Choice(cs, retries, 1, k)
      ensures RetriedCount(cs, retries, m) <= TopCount(cs, m, k)
    {
      TopBounds(ranked, retries, k);
      RankedCost(cs, retries, m);
    }
    var best := TopAttained(ranked, k);
    RankedCost(cs, best, m);
    assert Choice(cs, best, 1, k);
  }
}

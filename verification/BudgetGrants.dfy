/** Exactly which reservations the ledger grants, in terms of the request, the limits, the counts in
    scope and the money, and what each of them records. */
module BudgetGrants {
  import opened Outcome
  import opened Sequences
  import opened BudgetLog
  import opened BudgetLedger
  import opened BudgetSafety
  import opened BudgetMoney

  /** Nothing on the log blocks further spending: no settlement over a ceiling, and no call whose
      usage was missing, inconsistent or negative although the provider reported no error. */
  predicate Accountable(log: Log) {
    forall e :: e in log ==>
      && (e.Settled? ==> e.violations == [])
      && (e.Failed? ==> e.reason.ProviderErrorUsageMissing? || e.reason.ProviderErrorUsageTotalMismatch? || e.reason.ProviderException?)
  }

  /** The request's own limits fit the campaign's, and its estimate fits them. */
  predicate FitsCeilings(cfg: Config, q: Request, input: int, output: int) {
    && 1 <= input <= cfg.maxInput && q.estimatedInput <= input
    && 1 <= output <= cfg.maxOutput
    && 1 <= q.maxAttempts && (q.maxLogicalCalls.Some? ==> 0 <= q.maxLogicalCalls.value)
  }

  /** The attempts made since the baseline leave room for one more. */
  predicate LeavesAttempts(cfg: Config, log: Log, q: Request) {
    && 0 <= cfg.baseline <= |Reservations(log)| < cfg.maxTotalAttempts
    && var rs := Reservations(log)[cfg.baseline..];
       var tries := Tries(rs, q.trialId, q.requestDigest);
       && ScopedReadable(rs)
       && tries < q.maxAttempts
       && (tries == 0 && q.maxLogicalCalls.Some? ==> |TrialCalls(rs, q.trialId)| < q.maxLogicalCalls.value)
       && (tries > 0 && cfg.maxAdditional.Some? ==> Additional(rs) < cfg.maxAdditional.value)
  }

  function TryPlaces(rs: seq<Event>, trialId: string, requestDigest: string): set<int> {
    set i | 0 <= i < |rs| && rs[i].Reserved? && rs[i].trialId == trialId && rs[i].requestDigest == requestDigest
  }

  /** The earlier reservations for the same call of the same trial. */
  function Tries(rs: seq<Event>, trialId: string, requestDigest: string): nat {
    |TryPlaces(rs, trialId, requestDigest)|
  }

  function Price(cfg: Config, input: int, output: int): real {
    (input as real / 1000000.0 * cfg.inputUsdPerMillion + output as real / 1000000.0 * cfg.outputUsdPerMillion) * cfg.usdToCny
  }

  /** What was charged, what is held and the external reserve leave that price under the cap. */
  predicate LeavesMoney(cfg: Config, log: Log, price: real) {
    Spent(log) + Held(log) + cfg.externalReserveCny + price <= cfg.hardCapCny
  }

  /** When a request is granted. */
  predicate Fundable(cfg: Config, log: Log, q: Request) {
    var input := if q.maxInput.Some? then q.maxInput.value else cfg.maxInput;
    var output := if q.maxOutput.Some? then q.maxOutput.value else cfg.maxOutput;
    && FitsCeilings(cfg, q, input, output) && Accountable(log) && LeavesAttempts(cfg, log, q)
    && LeavesMoney(cfg, log, Price(cfg, input, output))
  }

  lemma OneMoreTry(rs: ReservationSeq, call: LogicalCall)
    requires rs != []
    ensures Tries(rs, call.trialId, call.requestDigest)
      == Tries(Init(rs), call.trialId, call.requestDigest) + if Last(rs).Call() == call then 1 else 0
  {
    var places, earlier := TryPlaces(rs, call.trialId, call.requestDigest), TryPlaces(Init(rs), call.trialId, call.requestDigest);
    if Last(rs).Call() == call {
      assert places == earlier + {|rs| - 1};
    } else {
      assert places == earlier;
    }
  }

  lemma {:induction false} TriesAreAttempts(rs: ReservationSeq, call: LogicalCall)
    ensures Tries(rs, call.trialId, call.requestDigest) == Attempts(rs, call)
  {
    if rs == [] {
      assert TryPlaces(rs, call.trialId, call.requestDigest) == {};
    } else {
      TriesAreAttempts(Init(rs), call);
      OneMoreTry(rs, call);
    }
  }

  lemma AccountableMeansOpen(log: Log)
    ensures Accountable(log) <==> !Blocked(log)
  {
    if Accountable(log) {
      assert forall e :: e in log ==> !e.Blocking();
    }
    if e :| e in log && e.Blocking() {
      assert !Accountable(log);
    }
  }

  lemma AttemptsLeft(cfg: Config, log: Log, q: Request)
    requires WellFormed(log) && 1 <= q.maxAttempts
    ensures LeavesAttempts(cfg, log, q) <==>
      |ReservedIds(log)| < cfg.maxTotalAttempts && ScopeReadable(cfg, log) && RetryRefusal(cfg, Scope(log, cfg.baseline), q).None?
  {
    ReservationCount(log);
    if BaselineInside(log, cfg.baseline) {
      TriesAreAttempts(Scope(log, cfg.baseline), q.Call());
    }
  }

  lemma MoneyLeft(cfg: Config, log: Log, q: Request)
    requires WellFormed(log)
    ensures LeavesMoney(cfg, log, Price(cfg, q.InputCeiling(cfg), q.OutputCeiling(cfg))) <==> !CrossesCap(cfg, log, q)
  {
    MoneyConserved(log);
  }

  lemma CeilingsFit(cfg: Config, q: Request)
    ensures RequestRefusal(cfg, q).None? <==> FitsCeilings(cfg, q, q.InputCeiling(cfg), q.OutputCeiling(cfg))
  {
  }

  lemma FundableIsGranted(cfg: Config, log: Log, q: Request)
    requires WellFormed(log)
    ensures Fundable(cfg, log, q) <==> Grants(cfg, log, q)
  {
    CeilingsFit(cfg, q);
    AccountableMeansOpen(log);
    MoneyLeft(cfg, log, q);
    if 1 <= q.maxAttempts {
      AttemptsLeft(cfg, log, q);
    }
  }

  /** The event a granted request leaves. */
  function Recorded(cfg: Config, log: Log, q: Request, id: string): Event
    requires 0 <= cfg.baseline <= |Reservations(log)|
  {
    var tries := Tries(Reservations(log)[cfg.baseline..], q.trialId, q.requestDigest);
    var input := if q.maxInput.Some? then q.maxInput.value else cfg.maxInput;
    var output := if q.maxOutput.Some? then q.maxOutput.value else cfg.maxOutput;
    Event.Reserved(id, q.trialId, q.requestDigest, Some(LogicalCall(q.trialId, q.requestDigest)), Some(tries + 1), Some(tries > 0),
                   input, output, Price(cfg, input, output))
  }

  lemma RecordedIs(cfg: Config, log: Log, q: Request, id: string)
    requires BaselineInside(log, cfg.baseline)
    ensures ReservedEvent(cfg, log, q, id) == Recorded(cfg, log, q, id)
  {
    TriesAreAttempts(Scope(log, cfg.baseline), q.Call());
  }

  lemma AfterReserving(cfg: Config, log: Log, q: Request, id: string)
    requires WellFormed(log) && Fresh(log, Op.Reserve(q, id))
    ensures Fundable(cfg, log, q) ==> After(cfg, log, Op.Reserve(q, id)) == log + [Recorded(cfg, log, q, id)]
    ensures !Fundable(cfg, log, q) ==> After(cfg, log, Op.Reserve(q, id)) == log
  {
    FundableIsGranted(cfg, log, q);
    GrantAppends(cfg, log, q, id);
    if Fundable(cfg, log, q) {
      RecordedIs(cfg, log, q, id);
    }
  }

  /** A reservation changes the log exactly if the ledger opens and the request's estimate, ceilings,
      counts and price leave room for it, and then it records just that. */
  lemma GrantedExactly(cfg: Config, d: Disk, q: Request, id: string)
    requires cfg.Valid() && Fresh(d.log, Op.Reserve(q, id))
    ensures var later := Final(d, Writes(cfg, d, Op.Reserve(q, id)));
      && (later.log != d.log <==> Accepts(cfg, d) && Fundable(cfg, d.log, q))
      && (Accepts(cfg, d) && Fundable(cfg, d.log, q) ==> later.log == d.log + [Recorded(cfg, d.log, q, id)])
  {
    Completed(cfg, d, Op.Reserve(q, id));
    if Accepts(cfg, d) {
      AfterReserving(cfg, d.log, q, id);
      FundableTakesLock(cfg, d.log, q);
    }
  }

  lemma FundableTakesLock(cfg: Config, log: Log, q: Request)
    ensures Fundable(cfg, log, q) ==> RequestRefusal(cfg, q).None?
  {
    CeilingsFit(cfg, q);
  }

  // ---------------------------------------------------------------- the scoped reader

  /** The reservation names its trial and its request, and what it records about its logical call
      and its attempt, where it records it, is what the earlier reservations say. */
  predicate SaysTheTruth(earlier: seq<Event>, e: Event) {
    && e.Reserved? && e.trialId != "" && e.requestDigest != ""
    && (e.recordedCall.Some? ==> e.recordedCall.value == LogicalCall(e.trialId, e.requestDigest))
    && (e.recordedOrdinal.Some? ==> e.recordedOrdinal.value == Tries(earlier, e.trialId, e.requestDigest) + 1)
    && (e.recordedAdditional.Some? ==> (e.recordedAdditional.value <==> Tries(earlier, e.trialId, e.requestDigest) > 0))
  }

  /** The scoped reader accepts exactly the reservations that say the truth. */
  lemma {:induction false} ReadableExactly(rs: ReservationSeq)
    ensures ScopedReadable(rs) <==> forall i :: 0 <= i < |rs| ==> SaysTheTruth(rs[..i], rs[i])
  {
    if rs != [] {
      var n := |rs| - 1;
      ReadableExactly(Init(rs));
      TriesAreAttempts(Init(rs), Last(rs).Call());
      assert rs[..n] == Init(rs);
      assert forall i :: 0 <= i < n ==> Init(rs)[..i] == rs[..i] && Init(rs)[i] == rs[i];
    }
  }

  // ---------------------------------------------------------------- over runs

  lemma {:induction false} FeasibleUpTo(cfg: Config, d: Disk, moves: seq<Move>, k: nat)
    requires cfg.Valid() && Feasible(cfg, d, moves) && k <= |moves|
    ensures Feasible(cfg, d, moves[..k])
    ensures k < |moves| ==> Fresh(Replay(cfg, d, moves[..k]).log, moves[k].op)
    decreases |moves|
  {
    if k < |moves| - 1 {
      FeasibleUpTo(cfg, d, Init(moves), k);
      assert Init(moves)[..k] == moves[..k];
    } else if k == |moves| {
      assert moves[..k] == moves;
    } else {
      assert moves[..k] == Init(moves);
    }
  }

  /** The reservation that the `k`-th move of a run added, if it is one that reached the log. */
  ghost predicate Added(cfg: Config, d: Disk, moves: seq<Move>, k: nat, e: Event)
    requires cfg.Valid() && Feasible(cfg, d, moves) && k < |moves|
  {
    FeasibleUpTo(cfg, d, moves, k);
    FeasibleUpTo(cfg, d, moves, k + 1);
    Replay(cfg, d, moves[..k + 1]).log == Replay(cfg, d, moves[..k]).log + [e]
  }

  lemma MoveAdds(cfg: Config, d: Disk, m: Move, e: Event)
    requires cfg.Valid() && WellFormed(d.log) && Fresh(d.log, m.op) && m.op.Reserve?
    requires DiskAfter(cfg, d, m).log == d.log + [e]
    ensures Fundable(cfg, d.log, m.op.request) && e == Recorded(cfg, d.log, m.op.request, m.op.freshId)
  {
    MoveOnLog(cfg, d, m);
    AfterReserving(cfg, d.log, m.op.request, m.op.freshId);
    assert Last(d.log + [e]) == e;
  }

  /** Every reservation of every run, crashes included, was fundable when it was added, and its
      request's estimate is at most the input ceiling it recorded. */
  lemma EstimatesFitReservations(cfg: Config, d: Disk, moves: seq<Move>, k: nat, e: Event)
    requires cfg.Valid() && Feasible(cfg, d, moves) && WellFormed(d.log) && k < |moves| && moves[k].op.Reserve?
    requires Added(cfg, d, moves, k, e)
    ensures Feasible(cfg, d, moves[..k])
    ensures var log, q := Replay(cfg, d, moves[..k]).log, moves[k].op.request;
      && Fundable(cfg, log, q) && e == Recorded(cfg, log, q, moves[k].op.freshId)
      && q.estimatedInput <= e.maxInput <= cfg.maxInput
  {
    FeasibleUpTo(cfg, d, moves, k);
    FeasibleUpTo(cfg, d, moves, k + 1);
    CrashesAreInvisible(cfg, d, moves[..k]);
    assert Init(moves[..k + 1]) == moves[..k] && Last(moves[..k + 1]) == moves[k];
    MoveAdds(cfg, Replay(cfg, d, moves[..k]), moves[k], e);
  }
}

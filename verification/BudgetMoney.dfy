/** The ledger's money: it is conserved, and exactly when the hard cap holds on every run. */
module BudgetMoney {
  import opened Outcome
  import opened Sequences
  import opened BudgetLog
  import opened BudgetLedger
  import opened BudgetSafety

  // ---------------------------------------------------------------- conservation

  /** Charges of completed calls. */
  function Spent(log: Log): real {
    if log == [] then 0.0
    else Spent(Init(log)) + if Last(log).Terminal() then Last(log).chargedCny else 0.0
  }

  /** An amount, added up over the reservations of `rs` that are still open. */
  function OpenTotal(rs: ReservationSeq, open: set<string>, amount: Event -> real): real {
    if rs == [] then 0.0
    else OpenTotal(Init(rs), open, amount) + if Last(rs).requestId in open then amount(Last(rs)) else 0.0
  }

  /** Amounts held by the open reservations. */
  function Held(log: Log): real {
    OpenTotal(Reservations(log), OpenIds(log), HeldBy())
  }

  function HeldBy(): Event -> real {
    (e: Event) => if e.Reserved? then e.reservedCny else 0.0
  }

  lemma {:induction false} ReservationsCarryIds(log: Log)
    ensures forall e :: e in Reservations(log) ==> e.requestId in ReservedIds(log)
  {
    if log != [] {
      ReservationsCarryIds(Init(log));
    }
  }

  lemma {:induction false} OpenFrame(rs: ReservationSeq, open: set<string>, open': set<string>, amount: Event -> real)
    requires forall e :: e in rs ==> (e.requestId in open <==> e.requestId in open')
    ensures OpenTotal(rs, open, amount) == OpenTotal(rs, open', amount)
  {
    if rs != [] {
      OpenFrame(Init(rs), open, open', amount);
    }
  }

  lemma {:induction false} OpenRelease(log: Log, open: set<string>, id: string, amount: Event -> real)
    requires WellFormed(log) && id in ReservedIds(log) && id in open
    ensures OpenTotal(Reservations(log), open - {id}, amount)
      == OpenTotal(Reservations(log), open, amount) - amount(Reservation(log, id))
  {
    var prior, e := Init(log), Last(log);
    ReservationsCarryIds(prior);
    if e.Reserved? {
      assert Reservations(log) == Reservations(prior) + [e];
      Snoc(Reservations(prior), e);
    } else {
      assert Reservations(log) == Reservations(prior);
    }
    if id in ReservedIds(prior) {
      OpenRelease(prior, open, id, amount);
    } else {
      OpenFrame(Reservations(prior), open, open - {id}, amount);
    }
  }

  /** A new reservation adds its amount, a terminal event takes its reservation's amount away. */
  lemma OpenTotalAfter(log: Log, amount: Event -> real)
    requires WellFormed(log) && log != []
    ensures var before := OpenTotal(Reservations(Init(log)), OpenIds(Init(log)), amount);
      OpenTotal(Reservations(log), OpenIds(log), amount)
      == if Last(log).Reserved? then before + amount(Last(log)) else before - amount(Reservation(Init(log), Last(log).requestId))
  {
    var prior, e := Init(log), Last(log);
    if e.Reserved? {
      TerminalsAreReserved(prior);
      ReservationsCarryIds(prior);
      assert Reservations(log) == Reservations(prior) + [e];
      Snoc(Reservations(prior), e);
      OpenFrame(Reservations(prior), OpenIds(prior), OpenIds(log), amount);
    } else {
      assert Reservations(log) == Reservations(prior);
      assert OpenIds(log) == OpenIds(prior) - {e.requestId};
      OpenRelease(prior, OpenIds(prior), e.requestId, amount);
    }
  }

  /** Conservation: committed money is what completed calls were charged plus what open
      reservations hold. */
  lemma {:induction false} MoneyConserved(log: Log)
    requires WellFormed(log)
    ensures Charged(log) == Spent(log) + Held(log)
  {
    if log != [] {
      MoneyConserved(Init(log));
      OpenTotalAfter(log, HeldBy());
    }
  }

  // ---------------------------------------------------------------- overshoot and prices

  /** How far settled charges went over their reservations in violation of a ceiling. */
  function Overshoot(log: Log): (excess: real)
    requires WellFormed(log)
    ensures 0.0 <= excess
  {
    if log == [] then 0.0
    else
      var e := Last(log);
      Overshoot(Init(log)) +
        if e.Settled? && e.violations != [] && e.chargedCny > Reservation(Init(log), e.requestId).reservedCny
        then e.chargedCny - Reservation(Init(log), e.requestId).reservedCny
        else 0.0
  }

  predicate Violated(log: Log) {
    exists e :: e in log && e.Settled? && e.violations != []
  }

  lemma {:induction false} NoViolationNoOvershoot(log: Log)
    requires WellFormed(log) && !Violated(log)
    ensures Overshoot(log) == 0.0
  {
    if log != [] {
      assert Last(log) in log;
      assert forall e :: e in Init(log) ==> e in log;
      NoViolationNoOvershoot(Init(log));
    }
  }

  /** Open reservations hold at least what their ceilings cost at the current rates. */
  predicate Priced(cfg: Config, log: Log) {
    forall id :: id in OpenIds(log) ==>
      var e := Reservation(log, id);
      cfg.CostCny(e.maxInput, e.maxOutput) <= e.reservedCny
  }

  predicate WithinCap(cfg: Config, log: Log)
    requires WellFormed(log)
  {
    Charged(log) + cfg.externalReserveCny <= cfg.hardCapCny + Overshoot(log)
  }

  lemma AppendKeepsPriced(cfg: Config, log: Log, op: Op)
    requires WellFormed(log) && Priced(cfg, log) && Fresh(log, op) && Appended(cfg, log, op).Some?
    ensures Priced(cfg, After(cfg, log, op))
  {
    var e := Appended(cfg, log, op).value;
    if e.Reserved? {
      ReservationKeepsPriced(cfg, log, e);
    } else {
      TerminalKeepsPriced(cfg, log, e);
    }
  }

  lemma ReservationKeepsPriced(cfg: Config, log: Log, e: Event)
    requires WellFormed(log) && Priced(cfg, log) && e.Reserved? && e.requestId !in ReservedIds(log)
    requires cfg.CostCny(e.maxInput, e.maxOutput) <= e.reservedCny
    ensures Priced(cfg, log + [e])
  {
    Snoc(log, e);
    TerminalsAreReserved(log);
    ReservationsSnoc(log, e);
    assert OpenIds(log + [e]) == OpenIds(log) + {e.requestId};
    assert Reservation(log + [e], e.requestId) == e;
  }

  lemma TerminalKeepsPriced(cfg: Config, log: Log, e: Event)
    requires WellFormed(log) && Priced(cfg, log) && e.Terminal()
    ensures Priced(cfg, log + [e])
  {
    Snoc(log, e);
    ReservationsSnoc(log, e);
    assert OpenIds(log + [e]) <= OpenIds(log);
  }

  // ---------------------------------------------------------------- what settling can still add

  /** How much more the ceilings of a reservation cost at the current rates than it holds. */
  function MissingFrom(cfg: Config): Event -> real {
    (e: Event) =>
      if e.Reserved? && e.reservedCny < cfg.CostCny(e.maxInput, e.maxOutput)
      then cfg.CostCny(e.maxInput, e.maxOutput) - e.reservedCny
      else 0.0
  }

  /** What the open reservations lack at the current rates. */
  function Shortfall(cfg: Config, log: Log): real {
    OpenTotal(Reservations(log), OpenIds(log), MissingFrom(cfg))
  }

  lemma {:induction false} MissingNonNegative(cfg: Config, rs: ReservationSeq, open: set<string>)
    ensures 0.0 <= OpenTotal(rs, open, MissingFrom(cfg))
    ensures OpenTotal(rs, open, MissingFrom(cfg)) == 0.0
      <==> forall e :: e in rs && e.requestId in open ==> MissingFrom(cfg)(e) == 0.0
  {
    if rs != [] {
      MissingNonNegative(cfg, Init(rs), open);
      assert rs == Init(rs) + [Last(rs)];
      assert 0.0 <= MissingFrom(cfg)(Last(rs));
    }
  }

  lemma {:induction false} OpenAreListed(log: Log)
    requires WellFormed(log)
    ensures forall id :: id in ReservedIds(log) ==> Reservation(log, id) in Reservations(log)
    ensures forall e :: e in Reservations(log) ==> e.requestId in ReservedIds(log) && Reservation(log, e.requestId) == e
  {
    if log != [] {
      OpenAreListed(Init(log));
    }
  }

  /** Reservations are priced exactly when nothing is missing from them. */
  lemma PricedLacksNothing(cfg: Config, log: Log)
    requires WellFormed(log)
    ensures 0.0 <= Shortfall(cfg, log)
    ensures Priced(cfg, log) <==> Shortfall(cfg, log) == 0.0
  {
    MissingNonNegative(cfg, Reservations(log), OpenIds(log));
    OpenAreListed(log);
    if Shortfall(cfg, log) == 0.0 {
      forall id | id in OpenIds(log)
        ensures cfg.CostCny(Reservation(log, id).maxInput, Reservation(log, id).maxOutput) <= Reservation(log, id).reservedCny
      {
        assert MissingFrom(cfg)(Reservation(log, id)) == 0.0;
      }
    }
  }

  // ---------------------------------------------------------------- every run under the cap

  /** Charged money and what its open reservations lack, without the overshoot. */
  function Exposure(cfg: Config, log: Log): real
    requires WellFormed(log)
  {
    Charged(log) + Shortfall(cfg, log) - Overshoot(log)
  }

  /** Ending a reservation never raises the exposure. */
  lemma EndingKeepsExposure(cfg: Config, log: Log, op: Op)
    requires cfg.RatesNonNegative() && WellFormed(log)
    requires !op.Reserve? && Appended(cfg, log, op).Some?
    ensures WellFormed(After(cfg, log, op))
    ensures Exposure(cfg, After(cfg, log, op)) <= Exposure(cfg, log)
    ensures Shortfall(cfg, After(cfg, log, op)) <= Shortfall(cfg, log)
  {
    AfterWellFormed(cfg, log, op);
    var e := Appended(cfg, log, op).value;
    var r := Reservation(log, e.requestId);
    Snoc(log, e);
    OpenTotalAfter(log + [e], MissingFrom(cfg));
    assert 0.0 <= MissingFrom(cfg)(r);
    if e.Settled? && e.violations == [] {
      CostMonotone(cfg, e.inputTokens, e.outputTokens, r.maxInput, r.maxOutput);
    }
  }

  /** A granted reservation holds what its ceilings cost and stays under the cap. */
  lemma ReservingKeepsShortfall(cfg: Config, log: Log, op: Op)
    requires WellFormed(log) && op.Reserve? && Fresh(log, op) && Appended(cfg, log, op).Some?
    ensures WellFormed(After(cfg, log, op)) && Shortfall(cfg, After(cfg, log, op)) == Shortfall(cfg, log)
    ensures Charged(After(cfg, log, op)) + cfg.externalReserveCny <= cfg.hardCapCny
    ensures Overshoot(After(cfg, log, op)) == Overshoot(log)
  {
    AfterWellFormed(cfg, log, op);
    var e := Appended(cfg, log, op).value;
    Snoc(log, e);
    OpenTotalAfter(log + [e], MissingFrom(cfg));
  }

  /** `cap` covers the exposure left when what was missing at first was `missing`. */
  predicate Exposed(cfg: Config, log: Log, missing: real)
    requires WellFormed(log)
  {
    && Exposure(cfg, log) + cfg.externalReserveCny <= cfg.hardCapCny + missing
    && Shortfall(cfg, log) <= missing
  }

  lemma {:induction false} ExposureOnLogs(cfg: Config, log: Log, ops: seq<Op>)
    requires cfg.RatesNonNegative() && WellFormed(log) && FreshIds(cfg, log, ops) && WithinCap(cfg, log)
    ensures Exposed(cfg, Perform(cfg, log, ops), Shortfall(cfg, log))
  {
    if ops != [] {
      var earlier, op := Perform(cfg, log, Init(ops)), Last(ops);
      ExposureOnLogs(cfg, log, Init(ops));
      if Appended(cfg, earlier, op).Some? {
        if op.Reserve? {
          ReservingKeepsShortfall(cfg, earlier, op);
        } else {
          EndingKeepsExposure(cfg, earlier, op);
        }
      }
    }
  }

  /** Safety of the hard cap over every run from every log: charged money, open reservations
      included, plus the external reserve stays at or under the cap, except for what the
      reservations open at the start lack at the current rates and for what violating settlements
      charged beyond their reservations. */
  lemma HardCapHolds(cfg: Config, d: Disk, moves: seq<Move>)
    requires cfg.Valid() && cfg.RatesNonNegative() && Feasible(cfg, d, moves)
    requires WellFormed(d.log) && WithinCap(cfg, d.log)
    ensures var log := Replay(cfg, d, moves).log;
      && WellFormed(log)
      && Charged(log) + cfg.externalReserveCny <= cfg.hardCapCny + Shortfall(cfg, d.log) + Overshoot(log)
      && (Priced(cfg, d.log) && !Violated(log) ==> Charged(log) + cfg.externalReserveCny <= cfg.hardCapCny)
  {
    CrashesAreInvisible(cfg, d, moves);
    ExposureOnLogs(cfg, d.log, Effective(cfg, d, moves));
    var log := Replay(cfg, d, moves).log;
    PricedLacksNothing(cfg, d.log);
    PricedLacksNothing(cfg, log);
    if !Violated(log) {
      NoViolationNoOvershoot(log);
    }
  }

  // ---------------------------------------------------------------- the bound is reached

  /** The token ceilings of open reservations are not negative. */
  predicate OpenCeilings(log: Log) {
    forall id :: id in OpenIds(log) ==> 0 <= Reservation(log, id).maxInput && 0 <= Reservation(log, id).maxOutput
  }

  predicate NoReservations(moves: seq<Move>) {
    forall m :: m in moves ==> !m.op.Reserve?
  }

  predicate OnlyEnds(ops: seq<Op>) {
    forall op :: op in ops ==> !op.Reserve?
  }

  /** Settling a reservation for exactly what it holds and lacks leaves the exposure as it is. */
  lemma SettledInFull(cfg: Config, log: Log, e: Event)
    requires WellFormed(log) && OpenCeilings(log) && e.Settled? && e.requestId in OpenIds(log) && e.violations == []
    requires e.chargedCny == Reservation(log, e.requestId).reservedCny + MissingFrom(cfg)(Reservation(log, e.requestId))
    ensures WellFormed(log + [e]) && OpenCeilings(log + [e]) && OpenIds(log + [e]) == OpenIds(log) - {e.requestId}
    ensures Exposure(cfg, log + [e]) == Exposure(cfg, log) && Overshoot(log + [e]) == Overshoot(log)
  {
    Snoc(log, e);
    OpenTotalAfter(log + [e], MissingFrom(cfg));
    ReservationsSnoc(log, e);
    assert OpenIds(log + [e]) == OpenIds(log) - {e.requestId};
  }

  /** Settles one open reservation at its ceilings. */
  lemma SettleAtCeilings(cfg: Config, log: Log, id: string)
    requires WellFormed(log) && OpenCeilings(log) && id in OpenIds(log)
    requires MissingFrom(cfg)(Reservation(log, id)) > 0.0
    ensures var r := Reservation(log, id);
      var later := After(cfg, log, Settle(id, r.maxInput, r.maxOutput));
      && WellFormed(later) && OpenCeilings(later) && OpenIds(later) == OpenIds(log) - {id}
      && Exposure(cfg, later) == Exposure(cfg, log) && Overshoot(later) == Overshoot(log)
  {
    var r := Reservation(log, id);
    var e := Settled(id, r.maxInput, r.maxOutput, cfg.CostCny(r.maxInput, r.maxOutput), []);
    assert Violations(r, r.maxInput, r.maxOutput) == [];
    assert Appended(cfg, log, Settle(id, r.maxInput, r.maxOutput)) == Some(e);
    SettledInFull(cfg, log, e);
  }

  lemma OneFirst(cfg: Config, log: Log, op: Op)
    requires WellFormed(log) && !op.Reserve? && WellFormed(After(cfg, log, op))
    ensures FreshIds(cfg, log, [op]) && Perform(cfg, log, [op]) == After(cfg, log, op)
  {
    assert Init([op]) == [] && Last([op]) == op;
    assert FreshIds(cfg, log, []) && Perform(cfg, log, []) == log;
  }

  lemma ConsStep(cfg: Config, log: Log, later: Log, op: Op, ops: seq<Op>, last: Op)
    requires WellFormed(log) && WellFormed(later) && !last.Reserve?
    requires FreshIds(cfg, later, ops) && FreshIds(cfg, log, [op] + ops)
    requires Perform(cfg, log, [op] + ops) == Perform(cfg, later, ops)
    ensures FreshIds(cfg, later, ops + [last]) && FreshIds(cfg, log, [op] + (ops + [last]))
    ensures Perform(cfg, log, [op] + (ops + [last])) == Perform(cfg, later, ops + [last])
  {
    PerformSnoc(cfg, log, [op] + ops, last);
    PerformSnoc(cfg, later, ops, last);
    assert [op] + ops + [last] == [op] + (ops + [last]);
  }

  lemma PerformCons(cfg: Config, log: Log, op: Op, ops: seq<Op>)
    requires WellFormed(log) && !op.Reserve? && OnlyEnds(ops) && WellFormed(After(cfg, log, op))
    ensures FreshIds(cfg, After(cfg, log, op), ops) && FreshIds(cfg, log, [op] + ops)
    ensures Perform(cfg, log, [op] + ops) == Perform(cfg, After(cfg, log, op), ops)
    decreases |ops|
  {
    if ops == [] {
      OneFirst(cfg, log, op);
      assert [op] + ops == [op];
    } else {
      var earlier, last := Init(ops), Last(ops);
      assert ops == earlier + [last] && last in ops && forall x :: x in earlier ==> x in ops;
      PerformCons(cfg, log, op, earlier);
      ConsStep(cfg, log, After(cfg, log, op), op, earlier, last);
    }
  }

  /** Settling every short reservation at its ceilings charges all that was missing, without
      violating a ceiling. */
  lemma ShortfallIsCharged(cfg: Config, log: Log) returns (ops: seq<Op>)
    requires WellFormed(log) && OpenCeilings(log)
    ensures OnlyEnds(ops) && FreshIds(cfg, log, ops)
    ensures var later := Perform(cfg, log, ops);
      Charged(later) == Charged(log) + Shortfall(cfg, log) && Overshoot(later) == Overshoot(log)
    decreases |OpenIds(log)|
  {
    PricedLacksNothing(cfg, log);
    if Priced(cfg, log) {
      ops := [];
    } else {
      var id :| id in OpenIds(log) && cfg.CostCny(Reservation(log, id).maxInput, Reservation(log, id).maxOutput) > Reservation(log, id).reservedCny;
      var op := Settle(id, Reservation(log, id).maxInput, Reservation(log, id).maxOutput);
      SettleAtCeilings(cfg, log, id);
      var rest := ShortfallIsCharged(cfg, After(cfg, log, op));
      PerformCons(cfg, log, op, rest);
      ops := [op] + rest;
    }
  }

  lemma MoveInFull(cfg: Config, d: Disk, op: Op) returns (m: Move)
    requires cfg.Valid() && Accepts(cfg, d) && !op.Reserve?
    ensures m.op == op && DiskAfter(cfg, d, m).log == After(cfg, d.log, op)
  {
    Completed(cfg, d, op);
    m := Move(op, |Writes(cfg, d, op)|);
    assert Writes(cfg, d, op)[..m.durable] == Writes(cfg, d, op);
  }

  lemma ReplaySnoc(cfg: Config, d: Disk, moves: seq<Move>, m: Move)
    requires cfg.Valid() && Feasible(cfg, d, moves) && Fresh(Replay(cfg, d, moves).log, m.op)
    ensures Feasible(cfg, d, moves + [m]) && Replay(cfg, d, moves + [m]) == DiskAfter(cfg, Replay(cfg, d, moves), m)
  {
    Snoc(moves, m);
  }

  /** One more operation, completed, on a disk that a run left. */
  lemma CompleteOne(cfg: Config, d: Disk, moves: seq<Move>, op: Op) returns (longer: seq<Move>)
    requires cfg.Valid() && Feasible(cfg, d, moves) && Accepts(cfg, d) && !op.Reserve? && NoReservations(moves)
    ensures Feasible(cfg, d, longer) && NoReservations(longer) && WellFormed(Replay(cfg, d, moves).log)
    ensures Replay(cfg, d, longer).log == After(cfg, Replay(cfg, d, moves).log, op)
  {
    CrashRecovery(cfg, d, moves);
    var m := MoveInFull(cfg, Replay(cfg, d, moves), op);
    ReplaySnoc(cfg, d, moves, m);
    longer := moves + [m];
  }

  /** Operations that end reservations, each completed, on a disk whose record is current. */
  lemma {:induction false} RunInFull(cfg: Config, log: Log, ops: seq<Op>, d: Disk) returns (moves: seq<Move>)
    requires cfg.Valid() && WellFormed(log) && OnlyEnds(ops) && FreshIds(cfg, log, ops)
    requires Accepts(cfg, d) && d.log == log
    ensures Feasible(cfg, d, moves) && NoReservations(moves) && Replay(cfg, d, moves).log == Perform(cfg, log, ops)
    decreases |ops|
  {
    if ops == [] {
      moves := [];
    } else {
      assert Last(ops) in ops && forall x :: x in Init(ops) ==> x in ops;
      var rest := RunInFull(cfg, log, Init(ops), d);
      moves := CompleteOne(cfg, d, rest, Last(ops));
    }
  }

  /** A run that settles what is missing. */
  lemma ShortfallIsReached(cfg: Config, log: Log) returns (d: Disk, moves: seq<Move>)
    requires cfg.Valid() && WellFormed(log) && OpenCeilings(log) && PrefixMatches(cfg, log)
    ensures d.log == log && Feasible(cfg, d, moves) && NoReservations(moves)
    ensures var later := Replay(cfg, d, moves).log;
      WellFormed(later) && Charged(later) == Charged(log) + Shortfall(cfg, log) && Overshoot(later) == Overshoot(log)
  {
    var ops := ShortfallIsCharged(cfg, log);
    d := Disk(log, Some(HighWaterOf(log)));
    moves := RunInFull(cfg, log, ops, d);
  }

  // ---------------------------------------------------------------- exactly when the cap holds

  /** Every run from every disk with that log stays under the cap, overshoot aside. */
  ghost predicate RunsKeepCap(cfg: Config, log: Log)
    requires cfg.Valid()
  {
    forall d: Disk, moves: seq<Move> :: d.log == log && Feasible(cfg, d, moves) ==>
      WellFormed(Replay(cfg, d, moves).log) && WithinCap(cfg, Replay(cfg, d, moves).log)
  }

  /** Every run that makes no new reservation does. */
  ghost predicate EndingsKeepCap(cfg: Config, log: Log)
    requires cfg.Valid()
  {
    forall d: Disk, moves: seq<Move> :: d.log == log && Feasible(cfg, d, moves) && NoReservations(moves) ==>
      WellFormed(Replay(cfg, d, moves).log) && WithinCap(cfg, Replay(cfg, d, moves).log)
  }

  lemma {:induction false} EndingsOnLogs(cfg: Config, log: Log, ops: seq<Op>)
    requires cfg.RatesNonNegative() && WellFormed(log) && OnlyEnds(ops) && FreshIds(cfg, log, ops)
    ensures Exposure(cfg, Perform(cfg, log, ops)) <= Exposure(cfg, log)
  {
    if ops != [] {
      var earlier, op := Perform(cfg, log, Init(ops)), Last(ops);
      assert op in ops && forall x :: x in Init(ops) ==> x in ops;
      EndingsOnLogs(cfg, log, Init(ops));
      if Appended(cfg, earlier, op).Some? {
        EndingKeepsExposure(cfg, earlier, op);
      }
    }
  }

  /** With one fixed cap: every run that only ends reservations stays under it, overshoot aside,
      exactly when charged money, what open reservations lack and the reserve are under it. */
  lemma EndingsKeepCapExactly(cfg: Config, log: Log)
    requires cfg.Valid() && cfg.RatesNonNegative()
    requires WellFormed(log) && OpenCeilings(log) && PrefixMatches(cfg, log)
    ensures EndingsKeepCap(cfg, log)
      <==> Charged(log) + Shortfall(cfg, log) + cfg.externalReserveCny <= cfg.hardCapCny + Overshoot(log)
  {
    if Exposure(cfg, log) + cfg.externalReserveCny <= cfg.hardCapCny {
      forall d: Disk, moves: seq<Move> | d.log == log && Feasible(cfg, d, moves) && NoReservations(moves)
        ensures WellFormed(Replay(cfg, d, moves).log) && WithinCap(cfg, Replay(cfg, d, moves).log)
      {
        CrashesAreInvisible(cfg, d, moves);
        EffectiveAreMoves(cfg, d, moves);
        EndingsOnLogs(cfg, log, Effective(cfg, d, moves));
        PricedLacksNothing(cfg, Replay(cfg, d, moves).log);
      }
    } else {
      var d, moves := ShortfallIsReached(cfg, log);
      assert !WithinCap(cfg, Replay(cfg, d, moves).log);
    }
  }

  ghost predicate EveryCapIsKept(cfg: Config, log: Log)
    requires cfg.Valid() && WellFormed(log)
  {
    forall cap :: WithinCap(cfg.(hardCapCny := cap), log) ==> RunsKeepCap(cfg.(hardCapCny := cap), log)
  }

  lemma PricedKeepsCap(cfg: Config, log: Log)
    requires cfg.Valid() && cfg.RatesNonNegative() && WellFormed(log) && Priced(cfg, log) && WithinCap(cfg, log)
    ensures RunsKeepCap(cfg, log)
  {
    PricedLacksNothing(cfg, log);
    forall d: Disk, moves: seq<Move> | d.log == log && Feasible(cfg, d, moves)
      ensures WellFormed(Replay(cfg, d, moves).log) && WithinCap(cfg, Replay(cfg, d, moves).log)
    {
      HardCapHolds(cfg, d, moves);
    }
  }

  lemma SamePrices(cfg: Config, cap: real, log: Log)
    ensures Priced(cfg.(hardCapCny := cap), log) <==> Priced(cfg, log)
  {
    var other := cfg.(hardCapCny := cap);
    forall i, o
      ensures other.CostCny(i, o) == cfg.CostCny(i, o)
    {
    }
  }

  /** Open reservations are priced at the current rates if and only if, under every hard cap that
      the log is within, every run stays within it, overshoot aside. */
  lemma CapHoldsExactly(cfg: Config, log: Log)
    requires cfg.Valid() && cfg.RatesNonNegative()
    requires WellFormed(log) && OpenCeilings(log) && PrefixMatches(cfg, log)
    ensures EveryCapIsKept(cfg, log) <==> Priced(cfg, log)
  {
    if Priced(cfg, log) {
      forall cap | WithinCap(cfg.(hardCapCny := cap), log)
        ensures RunsKeepCap(cfg.(hardCapCny := cap), log)
      {
        SamePrices(cfg, cap, log);
        PricedKeepsCap(cfg.(hardCapCny := cap), log);
      }
    } else {
      var tight := cfg.(hardCapCny := Charged(log) + cfg.externalReserveCny - Overshoot(log));
      SamePrices(cfg, tight.hardCapCny, log);
      PricedLacksNothing(tight, log);
      var d, moves := ShortfallIsReached(tight, log);
      assert WithinCap(tight, log) && !WithinCap(tight, Replay(tight, d, moves).log);
    }
  }

  /** The pricing premise is needed: a reservation made under cheaper rates settles at the
      current ones, within its token ceilings and still over the cap. */
  lemma CheaperReservationBreaksCap() returns (cfg: Config, log: Log, op: Op)
    ensures cfg.Valid() && cfg.RatesNonNegative() && WellFormed(log) && WithinCap(cfg, log) && !Priced(cfg, log)
    ensures Appended(cfg, log, op).Some? && WellFormed(After(cfg, log, op)) && !Violated(After(cfg, log, op))
    ensures Charged(After(cfg, log, op)) + cfg.externalReserveCny > cfg.hardCapCny
  {
    cfg := Config(5.0, 0.0, 1, 1000000, 1, 10.0, 0.0, 1.0, None, 0, None, 0, None, 0.0);
    var e := Reserved("r", "t", "q", None, None, None, 1000000, 1, 1.0);
    log := [e];
    op := Settle("r", 1000000, 0);
    assert Init(log) == [] && Last(log) == e;
    assert ReservedIds(log) == ReservedIds(Init(log)) + {"r"};
    assert TerminalIds(log) == {};
    assert Reservation(log, "r") == e;
    var settled := Settled("r", 1000000, 0, cfg.CostCny(1000000, 0), []);
    assert Violations(e, 1000000, 0) == [];
    assert "r" in OpenIds(log);
    assert Appended(cfg, log, op) == Some(settled);
    Snoc(log, settled);
    AfterWellFormed(cfg, log, op);
    assert cfg.CostCny(1000000, 0) == 10.0;
    assert Charged(log) == 1.0;
    assert Charged(log + [settled]) == 10.0;
  }
}

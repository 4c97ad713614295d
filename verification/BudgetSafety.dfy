/** What every run of the provider budget ledger keeps. A run is any sequence of
    operations, by any number of processes sharing one configuration; each operation holds
    the lock, and a crash may cut it short after any of its durable writes. */
module BudgetSafety {
  import opened Outcome
  import opened Sequences
  import opened BudgetLog
  import opened BudgetLedger

  // ---------------------------------------------------------------- runs

  /** An operation of which only the first `durable` writes reached the disk; a completed
      operation has `durable` at least as large as its number of writes. */
  datatype Move = Move(op: Op, durable: nat)

  function DiskAfter(cfg: Config, d: Disk, m: Move): Disk
    requires cfg.Valid() && Fresh(d.log, m.op)
  {
    var writes := Writes(cfg, d, m.op);
    Final(d, if m.durable <= |writes| then writes[..m.durable] else writes)
  }

  /** Every reservation in the run takes an id that is new at that point. */
  predicate Feasible(cfg: Config, d: Disk, moves: seq<Move>)
    requires cfg.Valid()
    decreases |moves|, 0
  {
    moves == [] || (Feasible(cfg, d, Init(moves)) && Fresh(Replay(cfg, d, Init(moves)).log, Last(moves).op))
  }

  function Replay(cfg: Config, d: Disk, moves: seq<Move>): Disk
    requires cfg.Valid() && Feasible(cfg, d, moves)
    decreases |moves|, 1
  {
    if moves == [] then d else DiskAfter(cfg, Replay(cfg, d, Init(moves)), Last(moves))
  }

  /** A move leaves the log alone or appends the one event its operation calls for. */
  lemma MoveShape(cfg: Config, d: Disk, m: Move)
    requires cfg.Valid() && Fresh(d.log, m.op)
    ensures DiskAfter(cfg, d, m) == d ||
      (&& Accepts(cfg, d) && WellFormed(After(cfg, d.log, m.op))
       && var d' := DiskAfter(cfg, d, m);
          || (d'.log == d.log && InSync(d'))
          || (&& Appended(cfg, d.log, m.op).Some? && d'.log == After(cfg, d.log, m.op)
              && (InSync(d') || d'.highWater == Some(HighWaterOf(d.log)))))
  {
    Completed(cfg, d, m.op);
  }

  /** The log after performing operations in full, one after the other. */
  function Perform(cfg: Config, log: Log, ops: seq<Op>): Log
    requires WellFormed(log) && FreshIds(cfg, log, ops)
    ensures WellFormed(Perform(cfg, log, ops))
    decreases |ops|, 1
  {
    if ops == [] then log
    else
      AfterWellFormed(cfg, Perform(cfg, log, Init(ops)), Last(ops));
      After(cfg, Perform(cfg, log, Init(ops)), Last(ops))
  }

  predicate FreshIds(cfg: Config, log: Log, ops: seq<Op>)
    requires WellFormed(log)
    decreases |ops|, 0
  {
    ops == [] || (FreshIds(cfg, log, Init(ops)) && Fresh(Perform(cfg, log, Init(ops)), Last(ops)))
  }

  /** The operations of a run whose event reached the disk. */
  function Effective(cfg: Config, d: Disk, moves: seq<Move>): seq<Op>
    requires cfg.Valid() && Feasible(cfg, d, moves)
  {
    if moves == [] then []
    else if Replay(cfg, d, moves).log == Replay(cfg, d, Init(moves)).log then Effective(cfg, d, Init(moves))
    else Effective(cfg, d, Init(moves)) + [Last(moves).op]
  }

  /** A move whose event did not reach the disk left the log alone; the others performed
      their operation. */
  lemma MoveOnLog(cfg: Config, d: Disk, m: Move)
    requires cfg.Valid() && Fresh(d.log, m.op) && WellFormed(d.log)
    ensures DiskAfter(cfg, d, m).log == d.log || DiskAfter(cfg, d, m).log == After(cfg, d.log, m.op)
  {
    MoveShape(cfg, d, m);
  }

  lemma PerformSnoc(cfg: Config, log: Log, ops: seq<Op>, op: Op)
    requires WellFormed(log) && FreshIds(cfg, log, ops) && Fresh(Perform(cfg, log, ops), op)
    ensures FreshIds(cfg, log, ops + [op]) && Perform(cfg, log, ops + [op]) == After(cfg, Perform(cfg, log, ops), op)
  {
    Snoc(ops, op);
  }

  /** Crashes are invisible in the log: a run leaves exactly the log that its effective
      operations leave when each of them is performed in full. */
  lemma {:induction false} CrashesAreInvisible(cfg: Config, d: Disk, moves: seq<Move>)
    requires cfg.Valid() && Feasible(cfg, d, moves) && WellFormed(d.log)
    ensures FreshIds(cfg, d.log, Effective(cfg, d, moves))
    ensures Replay(cfg, d, moves).log == Perform(cfg, d.log, Effective(cfg, d, moves))
  {
    if moves != [] {
      CrashesAreInvisible(cfg, d, Init(moves));
      MoveOnLog(cfg, Replay(cfg, d, Init(moves)), Last(moves));
      PerformSnoc(cfg, d.log, Effective(cfg, d, Init(moves)), Last(moves).op);
    }
  }

  lemma {:induction false} EffectiveAreMoves(cfg: Config, d: Disk, moves: seq<Move>)
    requires cfg.Valid() && Feasible(cfg, d, moves)
    ensures forall op :: op in Effective(cfg, d, moves) ==> exists m :: m in moves && m.op == op
  {
    if moves != [] {
      EffectiveAreMoves(cfg, d, Init(moves));
      assert forall m :: m in Init(moves) ==> m in moves;
      assert Last(moves) in moves;
    }
  }

  // ---------------------------------------------------------------- recovery

  /** With an authentic record on disk, opening accepts a log exactly when it extends the
      recorded one: a log cut short or rewritten below the record is always rejected. */
  lemma HighWaterDecides(cfg: Config, recorded: Log, log: Log)
    requires cfg.Valid() && WellFormed(recorded)
    ensures Accepts(cfg, Disk(log, Some(HighWaterOf(recorded)))) <==>
            PrefixMatches(cfg, log) && WellFormed(log) && recorded <= log
  {
    if recorded <= log {
      assert log[..|recorded|] == recorded;
      if |recorded| == |log| {
        assert log == recorded;
      }
    }
  }

  lemma PrefixStays(cfg: Config, log: Log, log': Log)
    requires cfg.Valid() && PrefixMatches(cfg, log) && log <= log'
    ensures PrefixMatches(cfg, log')
  {
    if cfg.prefixDigest.Some? {
      assert log'[..cfg.prefixCount] == log[..cfg.prefixCount];
    }
  }

  lemma MoveRecovers(cfg: Config, d: Disk, m: Move)
    requires cfg.Valid() && Accepts(cfg, d) && Fresh(d.log, m.op)
    ensures Accepts(cfg, DiskAfter(cfg, d, m)) && d.log <= DiskAfter(cfg, d, m).log
  {
    MoveShape(cfg, d, m);
    var d' := DiskAfter(cfg, d, m);
    if d' != d {
      assert d.log <= After(cfg, d.log, m.op);
      PrefixStays(cfg, d.log, d'.log);
      HighWaterDecides(cfg, d.log, d'.log);
      HighWaterDecides(cfg, d'.log, d'.log);
    }
  }

  /** However a run is cut by crashes, the next opening accepts what it finds, keeps every
      event that was ever on disk, and rolls the record forward to it. */
  lemma {:induction false} CrashRecovery(cfg: Config, d: Disk, moves: seq<Move>)
    requires cfg.Valid() && Accepts(cfg, d) && Feasible(cfg, d, moves)
    ensures Accepts(cfg, Replay(cfg, d, moves)) && d.log <= Replay(cfg, d, moves).log
    ensures RollsForward(cfg, Replay(cfg, d, moves))
  {
    if moves != [] {
      CrashRecovery(cfg, d, Init(moves));
      MoveRecovers(cfg, Replay(cfg, d, Init(moves)), Last(moves));
    }
    Completed(cfg, Replay(cfg, d, moves), Snapshot);
  }

  /** Opening `d` for a mere snapshot brings its record up to its log. */
  predicate RollsForward(cfg: Config, d: Disk)
    requires cfg.Valid() && Accepts(cfg, d)
  {
    Final(d, Writes(cfg, d, Snapshot)) == Disk(d.log, Some(HighWaterOf(d.log)))
  }

  /** Once an approval exists, a run never loses the record, and a ledger whose record has
      vanished is never changed again. */
  lemma {:induction false} MissingRecordIsFinal(cfg: Config, d: Disk, moves: seq<Move>)
    requires cfg.Valid() && cfg.approval.Some? && Feasible(cfg, d, moves)
    ensures d.highWater.None? ==> Replay(cfg, d, moves) == d
    ensures Accepts(cfg, d) ==> Replay(cfg, d, moves).highWater.Some?
  {
    if Accepts(cfg, d) {
      CrashRecovery(cfg, d, moves);
    } else if moves != [] {
      MissingRecordIsFinal(cfg, d, Init(moves));
      MoveShape(cfg, Replay(cfg, d, Init(moves)), Last(moves));
    }
  }

  // ---------------------------------------------------------------- blocked accounting

  lemma BlockedStep(cfg: Config, log: Log, op: Op)
    requires WellFormed(log) && Blocked(log)
    ensures Blocked(After(cfg, log, op)) && Reservations(After(cfg, log, op)) == Reservations(log)
  {
    if Appended(cfg, log, op).Some? {
      var e := Appended(cfg, log, op).value;
      assert !op.Reserve?;
      BlockedSnoc(log, e);
      Snoc(log, e);
    }
  }

  lemma {:induction false} BlockedStays(cfg: Config, log: Log, ops: seq<Op>)
    requires WellFormed(log) && FreshIds(cfg, log, ops) && Blocked(log)
    ensures Blocked(Perform(cfg, log, ops)) && Reservations(Perform(cfg, log, ops)) == Reservations(log)
  {
    if ops != [] {
      BlockedStays(cfg, log, Init(ops));
      BlockedStep(cfg, Perform(cfg, log, Init(ops)), Last(ops));
    }
  }

  /** Once accounting is blocked, no run ever reserves again. */
  lemma BlockedForever(cfg: Config, d: Disk, moves: seq<Move>)
    requires cfg.Valid() && Feasible(cfg, d, moves) && WellFormed(d.log) && Blocked(d.log)
    ensures Blocked(Replay(cfg, d, moves).log)
    ensures Reservations(Replay(cfg, d, moves).log) == Reservations(d.log)
  {
    CrashesAreInvisible(cfg, d, moves);
    BlockedStays(cfg, d.log, Effective(cfg, d, moves));
  }

  /** Settling negative usage charges the whole reservation, and it is the end: whatever runs
      afterwards, nothing is reserved again. */
  lemma NegativeUsageBlocks(cfg: Config, d: Disk, id: string, input: int, output: int, moves: seq<Move>)
    requires cfg.Valid() && Accepts(cfg, d) && id in OpenIds(d.log) && (input < 0 || output < 0)
    requires Feasible(cfg, Final(d, Writes(cfg, d, Settle(id, input, output))), moves)
    ensures var later := Final(d, Writes(cfg, d, Settle(id, input, output)));
      && WellFormed(later.log) && Charged(later.log) == Charged(d.log)
      && Reservations(Replay(cfg, later, moves).log) == Reservations(d.log)
  {
    var op := Settle(id, input, output);
    Completed(cfg, d, op);
    var e := Appended(cfg, d.log, op).value;
    Snoc(d.log, e);
    BlockedSnoc(d.log, e);
    BlockedForever(cfg, Final(d, Writes(cfg, d, op)), moves);
  }

  // ---------------------------------------------------------------- screened reservations

  /** A reservation within the campaign's ceilings, held at the price of its own. */
  predicate Screened(cfg: Config, e: Event)
    requires e.Reserved?
  {
    && 1 <= e.maxInput <= cfg.maxInput && 1 <= e.maxOutput <= cfg.maxOutput
    && e.reservedCny == cfg.CostCny(e.maxInput, e.maxOutput)
    && e.reservedCny <= cfg.MaximumRequestCny()
  }

  predicate NewAreScreened(cfg: Config, earlier: Log, log: Log) {
    forall e :: e in Reservations(log) ==> e in Reservations(earlier) || Screened(cfg, e)
  }

  lemma GrantIsScreened(cfg: Config, log: Log, q: Request, id: string)
    requires cfg.RatesNonNegative() && WellFormed(log) && Grants(cfg, log, q)
    ensures Screened(cfg, ReservedEvent(cfg, log, q, id))
  {
    CostMonotone(cfg, q.InputCeiling(cfg), q.OutputCeiling(cfg), cfg.maxInput, cfg.maxOutput);
  }

  lemma EventIsScreened(cfg: Config, start: Log, log: Log, e: Event)
    requires NewAreScreened(cfg, start, log) && (e.Reserved? ==> Screened(cfg, e))
    ensures NewAreScreened(cfg, start, log + [e])
  {
    Snoc(log, e);
  }

  lemma StepIsScreened(cfg: Config, start: Log, log: Log, op: Op)
    requires cfg.RatesNonNegative() && WellFormed(log) && NewAreScreened(cfg, start, log)
    ensures NewAreScreened(cfg, start, After(cfg, log, op))
  {
    if Appended(cfg, log, op).Some? {
      if op.Reserve? {
        GrantIsScreened(cfg, log, op.request, op.freshId);
      }
      EventIsScreened(cfg, start, log, Appended(cfg, log, op).value);
    }
  }

  lemma {:induction false} ScreenedOnLogs(cfg: Config, log: Log, ops: seq<Op>)
    requires cfg.RatesNonNegative() && WellFormed(log) && FreshIds(cfg, log, ops)
    ensures NewAreScreened(cfg, log, Perform(cfg, log, ops))
  {
    if ops != [] {
      ScreenedOnLogs(cfg, log, Init(ops));
      StepIsScreened(cfg, log, Perform(cfg, log, Init(ops)), Last(ops));
    }
  }

  /** No run reserves beyond the campaign's ceilings: whatever requests arrive, each reservation
      it adds has ceilings of at least one and at most the campaign's, holds exactly their price,
      and so at most the price of the greatest request. */
  lemma ReservationsAreScreened(cfg: Config, d: Disk, moves: seq<Move>)
    requires cfg.Valid() && cfg.RatesNonNegative() && Feasible(cfg, d, moves) && WellFormed(d.log)
    ensures NewAreScreened(cfg, d.log, Replay(cfg, d, moves).log)
  {
    CrashesAreInvisible(cfg, d, moves);
    ScreenedOnLogs(cfg, d.log, Effective(cfg, d, moves));
  }

  // ---------------------------------------------------------------- attempt ceilings

  lemma {:induction false} ReservationCount(log: Log)
    requires WellFormed(log)
    ensures |Reservations(log)| == |ReservedIds(log)|
  {
    if log != [] {
      ReservationCount(Init(log));
    }
  }

  lemma EventRecordsItself(cfg: Config, rs: ReservationSeq, q: Request, id: string, e: Event)
    requires e == EventFor(cfg, q, id, Attempts(rs, q.Call()) + 1)
    ensures e.Reserved? && e.Call() == q.Call() && RecordsItself(rs, e)
  {
  }

  /** What is known of the event a granted reservation appends. */
  lemma GrantedReservation(cfg: Config, log: Log, q: Request, id: string)
    requires BaselineInside(log, cfg.baseline)
    ensures var e := ReservedEvent(cfg, log, q, id);
      && e.Reserved? && e.Call() == q.Call() && RecordsItself(Scope(log, cfg.baseline), e)
  {
    EventRecordsItself(cfg, Scope(log, cfg.baseline), q, id, ReservedEvent(cfg, log, q, id));
  }

  /** The scope a trial runs in: how many logical calls, and attempts at each. */
  datatype TrialLimits = TrialLimits(logicalCalls: int, attempts: int)

  /** Every reservation of the run passes the limits of its trial. */
  predicate RespectsScopes(ops: seq<Op>, limits: string -> TrialLimits) {
    forall op :: op in ops && op.Reserve? ==> InScope(op.request, limits)
  }

  predicate InScope(q: Request, limits: string -> TrialLimits) {
    q.maxLogicalCalls == Some(limits(q.trialId).logicalCalls) && q.maxAttempts == limits(q.trialId).attempts
  }

  ghost predicate WithinCeilings(cfg: Config, log: Log, limits: string -> TrialLimits) {
    && BaselineInside(log, cfg.baseline)
    && |ReservedIds(log)| <= cfg.maxTotalAttempts
    && (cfg.maxAdditional.Some? ==> Additional(Scope(log, cfg.baseline)) <= cfg.maxAdditional.value)
    && TrialsWithin(Scope(log, cfg.baseline), limits)
  }

  ghost predicate TrialsWithin(rs: ReservationSeq, limits: string -> TrialLimits) {
    && (forall e :: e in rs ==> |TrialCalls(rs, e.trialId)| <= limits(e.trialId).logicalCalls)
    && (forall e :: e in rs ==> Attempts(rs, e.Call()) <= limits(e.trialId).attempts)
  }

  lemma GrantKeepsTrialsWithin(cfg: Config, rs: ReservationSeq, q: Request, e: Event, limits: string -> TrialLimits)
    requires TrialsWithin(rs, limits) && RetryRefusal(cfg, rs, q).None?
    requires e.Reserved? && e.Call() == q.Call() && InScope(q, limits)
    ensures TrialsWithin(rs + [e], limits)
  {
    forall x | x in rs + [e]
      ensures |TrialCalls(rs + [e], x.trialId)| <= limits(x.trialId).logicalCalls
      ensures Attempts(rs + [e], x.Call()) <= limits(x.trialId).attempts
    {
      GrantKeepsCalls(cfg, rs, q, e, limits, x.trialId);
      AttemptsSnoc(rs, e, x.Call());
    }
  }

  lemma GrantKeepsCalls(cfg: Config, rs: ReservationSeq, q: Request, e: Event, limits: string -> TrialLimits,
                        trialId: string)
    requires TrialsWithin(rs, limits) && RetryRefusal(cfg, rs, q).None?
    requires e.Reserved? && e.Call() == q.Call() && InScope(q, limits)
    ensures trialId == q.trialId || TrialCalls(rs, trialId) != {} ==> |TrialCalls(rs + [e], trialId)| <= limits(trialId).logicalCalls
    ensures forall x :: x in rs && x.trialId == trialId ==> TrialCalls(rs, trialId) != {}
  {
    AttemptsPositive(rs, e.Call());
    TrialCallsSnoc(rs, e, trialId);
    forall x | x in rs && x.trialId == trialId
      ensures TrialCalls(rs, trialId) != {}
    {
      assert x.Call() in TrialCalls(rs, trialId);
    }
    if trialId == q.trialId && Attempts(rs, q.Call()) > 0 {
      assert TrialCalls(rs + [e], trialId) == TrialCalls(rs, trialId);
      var y :| y in rs && y.Call() == q.Call();
    }
  }

  lemma ReservationKeepsCeilings(cfg: Config, log: Log, q: Request, e: Event, limits: string -> TrialLimits)
    requires WithinCeilings(cfg, log, limits) && |ReservedIds(log)| < cfg.maxTotalAttempts
    requires e.Reserved? && e.Call() == q.Call() && InScope(q, limits)
    requires RetryRefusal(cfg, Scope(log, cfg.baseline), q).None?
    ensures WithinCeilings(cfg, log + [e], limits)
  {
    Snoc(log, e);
    ScopeSnoc(log, e, cfg.baseline);
    GrantKeepsTrialsWithin(cfg, Scope(log, cfg.baseline), q, e, limits);
    AttemptsSnoc(Scope(log, cfg.baseline), e, e.Call());
  }

  lemma TerminalKeepsCeilings(cfg: Config, log: Log, e: Event, limits: string -> TrialLimits)
    requires WithinCeilings(cfg, log, limits) && !e.Reserved?
    ensures WithinCeilings(cfg, log + [e], limits)
  {
    Snoc(log, e);
    ScopeSnoc(log, e, cfg.baseline);
    assert Scope(log + [e], cfg.baseline) == Scope(log, cfg.baseline);
  }

  lemma AppendKeepsCeilings(cfg: Config, log: Log, op: Op, limits: string -> TrialLimits)
    requires WellFormed(log) && WithinCeilings(cfg, log, limits) && (op.Reserve? ==> InScope(op.request, limits))
    ensures WithinCeilings(cfg, After(cfg, log, op), limits)
  {
    if Appended(cfg, log, op).Some? {
      var e := Appended(cfg, log, op).value;
      if op.Reserve? {
        GrantedReservation(cfg, log, op.request, op.freshId);
        ReservationKeepsCeilings(cfg, log, op.request, e, limits);
      } else {
        TerminalKeepsCeilings(cfg, log, e, limits);
      }
    }
  }

  lemma {:induction false} CeilingsHoldOnLogs(cfg: Config, log: Log, ops: seq<Op>, limits: string -> TrialLimits)
    requires WellFormed(log) && FreshIds(cfg, log, ops) && RespectsScopes(ops, limits)
    requires WithinCeilings(cfg, log, limits)
    ensures WithinCeilings(cfg, Perform(cfg, log, ops), limits)
  {
    if ops != [] {
      var earlier := Perform(cfg, log, Init(ops));
      assert forall op :: op in Init(ops) ==> op in ops;
      CeilingsHoldOnLogs(cfg, log, Init(ops), limits);
      assert Last(ops) in ops;
      AppendKeepsCeilings(cfg, earlier, Last(ops), limits);
    }
  }

  /** In every reachable state logical calls per trial, attempts per call, additional
      attempts and lifetime attempts stay within their limits. */
  lemma CeilingsHold(cfg: Config, d: Disk, moves: seq<Move>, limits: string -> TrialLimits)
    requires cfg.Valid() && Feasible(cfg, d, moves) && WellFormed(d.log)
    requires forall m :: m in moves && m.op.Reserve? ==> InScope(m.op.request, limits)
    requires WithinCeilings(cfg, d.log, limits)
    ensures WithinCeilings(cfg, Replay(cfg, d, moves).log, limits)
  {
    CrashesAreInvisible(cfg, d, moves);
    EffectiveAreMoves(cfg, d, moves);
    CeilingsHoldOnLogs(cfg, d.log, Effective(cfg, d, moves), limits);
  }

  // ---------------------------------------------------------------- readers and writers

  /** `e` records the identity the scoped reader recomputes for it after `rs`. */
  predicate RecordsItself(rs: ReservationSeq, e: Event)
    requires e.Reserved?
  {
    var ordinal := Attempts(rs, e.Call()) + 1;
    && e.recordedCall == Some(e.Call())
    && e.recordedOrdinal == Some(ordinal)
    && e.recordedAdditional == Some(ordinal > 1)
  }

  predicate Faithful(rs: ReservationSeq) {
    rs == [] || (Faithful(Init(rs)) && RecordsItself(Init(rs), Last(rs)))
  }

  predicate Identified(rs: ReservationSeq) {
    forall e :: e in rs ==> e.trialId != "" && e.requestDigest != ""
  }

  lemma {:induction false} FaithfulIsReadable(rs: ReservationSeq)
    requires Faithful(rs)
    ensures ScopedReadable(rs) <==> Identified(rs)
  {
    if rs != [] {
      FaithfulIsReadable(Init(rs));
      assert rs == Init(rs) + [Last(rs)];
    }
  }

  lemma AppendKeepsFaithful(log: Log, e: Event, baseline: int)
    requires BaselineInside(log, baseline) && Faithful(Scope(log, baseline))
    requires e.Reserved? ==> RecordsItself(Scope(log, baseline), e)
    ensures BaselineInside(log + [e], baseline) && Faithful(Scope(log + [e], baseline))
  {
    ScopeSnoc(log, e, baseline);
    if e.Reserved? {
      Snoc(Scope(log, baseline), e);
    } else {
      assert Scope(log + [e], baseline) == Scope(log, baseline);
    }
  }

  lemma {:induction false} FaithfulStays(cfg: Config, log: Log, ops: seq<Op>)
    requires WellFormed(log) && FreshIds(cfg, log, ops)
    requires BaselineInside(log, cfg.baseline) && Faithful(Scope(log, cfg.baseline))
    ensures BaselineInside(Perform(cfg, log, ops), cfg.baseline)
    ensures Faithful(Scope(Perform(cfg, log, ops), cfg.baseline))
  {
    if ops != [] {
      var earlier := Perform(cfg, log, Init(ops));
      FaithfulStays(cfg, log, Init(ops));
      if Appended(cfg, earlier, Last(ops)).Some? {
        if Last(ops).Reserve? {
          GrantedReservation(cfg, earlier, Last(ops).request, Last(ops).freshId);
        }
        AppendKeepsFaithful(earlier, Appended(cfg, earlier, Last(ops)).value, cfg.baseline);
      }
    }
  }

  /** Every log a run leaves, under one baseline, is accepted by the ledger reader, and so
      is each of its prefixes; what its reservations record is what the scoped reader
      recomputes. The scoped reader accepts it exactly when no reservation in scope has an
      empty trial id or request digest. */
  lemma ReadersAgree(cfg: Config, d: Disk, moves: seq<Move>)
    requires cfg.Valid() && Feasible(cfg, d, moves) && WellFormed(d.log)
    requires BaselineInside(d.log, cfg.baseline) && Faithful(Scope(d.log, cfg.baseline))
    ensures var log := Replay(cfg, d, moves).log;
      && (forall k :: 0 <= k <= |log| ==> WellFormed(log[..k]))
      && BaselineInside(log, cfg.baseline) && Faithful(Scope(log, cfg.baseline))
      && (ScopeReadable(cfg, log) <==> Identified(Scope(log, cfg.baseline)))
  {
    CrashesAreInvisible(cfg, d, moves);
    FaithfulStays(cfg, d.log, Effective(cfg, d, moves));
    var log := Replay(cfg, d, moves).log;
    forall k | 0 <= k <= |log|
      ensures WellFormed(log[..k])
    {
      WellFormedPrefix(log, k);
    }
    FaithfulIsReadable(Scope(log, cfg.baseline));
  }

  lemma {:induction false} UnreadableStays(cfg: Config, log: Log, later: Log)
    requires BaselineInside(log, cfg.baseline) && !ScopeReadable(cfg, log) && log <= later
    ensures BaselineInside(later, cfg.baseline) && !ScopeReadable(cfg, later)
    decreases |later|
  {
    if later == log {
    } else {
      assert log <= Init(later) && later == Init(later) + [Last(later)];
      UnreadableStays(cfg, log, Init(later));
      ScopeSnoc(Init(later), Last(later), cfg.baseline);
      if Last(later).Reserved? {
        AttemptsSnoc(Scope(Init(later), cfg.baseline), Last(later), Last(later).Call());
      } else {
        assert Scope(later, cfg.baseline) == Scope(Init(later), cfg.baseline);
      }
    }
  }

  /** A reservation with an empty identity is granted like any other, and it is the last:
      no log that extends it is ever read in scope, so no later reservation succeeds. */
  lemma EmptyIdentityIsFinal(cfg: Config, log: Log, q: Request, id: string, later: Log)
    requires WellFormed(log) && Grants(cfg, log, q)
    requires After(cfg, log, Op.Reserve(q, id)) <= later && WellFormed(later)
    ensures ScopeReadable(cfg, After(cfg, log, Op.Reserve(q, id))) <==> q.trialId != "" && q.requestDigest != ""
    ensures q.trialId == "" || q.requestDigest == "" ==> forall q' :: !Grants(cfg, later, q')
  {
    var e := ReservedEvent(cfg, log, q, id);
    ScopeSnoc(log, e, cfg.baseline);
    AttemptsSnoc(Scope(log, cfg.baseline), e, e.Call());
    if q.trialId == "" || q.requestDigest == "" {
      UnreadableStays(cfg, log + [e], later);
    }
  }

  /** Such a reservation is granted: an empty trial id passes every check on a new ledger, and no
      later reservation of any kind is granted on any log that extends the one it leaves. */
  lemma EmptyIdentityIsGranted() returns (cfg: Config, q: Request)
    ensures cfg.Valid() && cfg.RatesNonNegative() && q.trialId == "" && q.requestDigest != ""
    ensures Accepts(cfg, Disk([], None)) && Grants(cfg, [], q)
    ensures !ScopeReadable(cfg, After(cfg, [], Op.Reserve(q, "r")))
    ensures forall later, q' ::
      After(cfg, [], Op.Reserve(q, "r")) <= later && WellFormed(later) ==> !Grants(cfg, later, q')
  {
    cfg := Config(100.0, 0.0, 10, 10, 10, 1.0, 1.0, 1.0, None, 0, None, 0, None, 0.0);
    q := Request("", "digest", 1, None, None, None, 1);
    assert Scope([], cfg.baseline) == [];
    var after := After(cfg, [], Op.Reserve(q, "r"));
    AfterWellFormed(cfg, [], Op.Reserve(q, "r"));
    forall later, q' | after <= later && WellFormed(later)
      ensures !Grants(cfg, later, q')
    {
      EmptyIdentityIsFinal(cfg, [], q, "r", later);
    }
    EmptyIdentityIsFinal(cfg, [], q, "r", after);
  }
}

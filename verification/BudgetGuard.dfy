/** The provider wrapper that reserves before it calls and settles after: what one call
    writes, and what any interleaving of calls keeps. */
module BudgetGuard {
  import opened Outcome
  import opened Sequences
  import opened BudgetLog
  import opened BudgetLedger
  import opened BudgetSafety

  // ---------------------------------------------------------------- one call

  /** The limits the harness sets around a trial. */
  datatype TrialScope = TrialScope(trialId: string, maxLogicalCalls: int, maxAttempts: int,
                                   maxInput: Option<int>, maxOutput: Option<int>)
  {
    function OutputCeiling(cfg: Config): int {
      if maxOutput.Some? then maxOutput.value else cfg.maxOutput
    }

    /** The reservation a call in this scope asks for. */
    function RequestFor(cfg: Config, requestDigest: string, estimatedInput: int): Request {
      Request(trialId, requestDigest, estimatedInput,
              Some(if maxInput.Some? then maxInput.value else cfg.maxInput), Some(OutputCeiling(cfg)),
              Some(maxLogicalCalls), maxAttempts)
    }
  }

  datatype DispatchError = OutsideScope | OutputAboveCeiling | NotReserved(fault: BudgetError)

  /** The reservation holds what the dispatched call may use: the trial's ceilings, which the
      estimate and the call's own token limit fit, within the trial's attempts at the call. */
  predicate HoldsFor(cfg: Config, scope: TrialScope, requestDigest: string, estimatedInput: int, maxTokens: int, e: Event)
    requires e.Reserved?
  {
    && e.trialId == scope.trialId && e.requestDigest == requestDigest
    && e.maxInput == (if scope.maxInput.Some? then scope.maxInput.value else cfg.maxInput)
    && e.maxOutput == (if scope.maxOutput.Some? then scope.maxOutput.value else cfg.maxOutput)
    && estimatedInput <= e.maxInput <= cfg.maxInput && maxTokens <= e.maxOutput <= cfg.maxOutput
    && e.reservedCny == cfg.CostCny(e.maxInput, e.maxOutput)
    && e.recordedOrdinal.Some? && 1 <= e.recordedOrdinal.value <= scope.maxAttempts
  }

  lemma GrantHolds(cfg: Config, d: Disk, scope: TrialScope, requestDigest: string, estimatedInput: int, maxTokens: int,
                   freshId: string)
    requires cfg.Valid() && freshId !in ReservedIds(d.log) && maxTokens <= scope.OutputCeiling(cfg)
    ensures var q := scope.RequestFor(cfg, requestDigest, estimatedInput);
      var later := Final(d, Writes(cfg, d, Reserve(q, freshId))).log;
      Accepts(cfg, d) && Grants(cfg, d.log, q) ==>
        freshId in ReservedIds(later) && HoldsFor(cfg, scope, requestDigest, estimatedInput, maxTokens, Reservation(later, freshId))
  {
    var q := scope.RequestFor(cfg, requestDigest, estimatedInput);
    Completed(cfg, d, Reserve(q, freshId));
    if Accepts(cfg, d) && Grants(cfg, d.log, q) {
      Snoc(d.log, ReservedEvent(cfg, d.log, q, freshId));
    }
  }

  /** Nothing is dispatched without a reservation, and outside a scope nothing is reserved. */
  method ReserveBeforeDispatch(ledger: ProviderBudgetLedger, scope: Option<TrialScope>, requestDigest: string,
                               estimatedInput: int, maxTokens: int, freshId: string)
    returns (r: Result<string, DispatchError>)
    requires ledger.Valid() && freshId !in ReservedIds(ledger.log)
    modifies ledger`log, ledger`highWater, ledger`history
    ensures scope.None? || maxTokens > scope.value.OutputCeiling(ledger.config) ==>
      r.Failure? && ledger.history == old(ledger.history) && ledger.OnDisk() == old(ledger.OnDisk())
    ensures scope.Some? && maxTokens <= scope.value.OutputCeiling(ledger.config) ==>
      var op := Reserve(scope.value.RequestFor(ledger.config, requestDigest, estimatedInput), freshId);
      && ledger.history == old(ledger.history) + Writes(ledger.config, old(ledger.OnDisk()), op)
      && (r.Success? <==> Accepts(ledger.config, old(ledger.OnDisk())) && Grants(ledger.config, old(ledger.log), op.request))
    ensures r.Success? ==> r.value == freshId && freshId in OpenIds(ledger.log)
    ensures r.Success? && freshId in ReservedIds(ledger.log) ==>
      HoldsFor(ledger.config, scope.value, requestDigest, estimatedInput, maxTokens, Reservation(ledger.log, freshId))
  {
    if scope.None? {
      return Failure(OutsideScope);
    }
    if maxTokens > scope.value.OutputCeiling(ledger.config) {
      return Failure(OutputAboveCeiling);
    }
    GrantHolds(ledger.config, ledger.OnDisk(), scope.value, requestDigest, estimatedInput, maxTokens, freshId);
    var reserved := ledger.Reserve(scope.value.RequestFor(ledger.config, requestDigest, estimatedInput), freshId);
    return if reserved.Success? then Success(reserved.value) else Failure(NotReserved(reserved.error));
  }

  /** Token counts of a reply; a count that is absent or not an integer is None. */
  datatype Usage = Usage(prompt: Option<int>, completion: Option<int>, total: Option<int>)
  {
    predicate Complete() {
      prompt.Some? && completion.Some? && total.Some?
    }

    predicate Consistent()
      requires Complete()
    {
      total.value == prompt.value + completion.value
    }
  }

  const NO_USAGE := Usage(None, None, None)

  /** What the delegate did: raised, or answered, possibly flagging a provider error. */
  datatype Reply = Raised | Answered(usage: Usage, providerError: bool)

  datatype Delta = Delta(usage: Option<Usage>, error: bool)

  /** A stream counts as its last usage report and any error flag. */
  ghost predicate StreamReports(deltas: seq<Delta>, usage: Usage, error: bool) {
    && (error <==> exists d :: d in deltas && d.error)
    && ((usage == NO_USAGE && forall d :: d in deltas ==> d.usage.None?)
        || exists k :: 0 <= k < |deltas| && deltas[k].usage == Some(usage)
                       && forall j :: k < j < |deltas| ==> deltas[j].usage.None?)
  }

  method ReadStream(deltas: seq<Delta>) returns (usage: Usage, error: bool)
    ensures StreamReports(deltas, usage, error)
  {
    usage, error := NO_USAGE, false;
    for i := 0 to |deltas|
      invariant StreamReports(deltas[..i], usage, error)
    {
      ghost var seen, report := deltas[..i], usage;
      assert deltas[..i + 1] == seen + [deltas[i]];
      if deltas[i].usage.Some? {
        usage := deltas[i].usage.value;
        assert deltas[..i + 1][i].usage == Some(usage);
      }
      error := error || deltas[i].error;
    }
    assert deltas[..|deltas|] == deltas;
  }

  /** The one ledger operation that ends a call. */
  function EndingOp(id: string, reply: Reply): Op {
    match reply
    case Raised => Fail(id, ProviderException)
    case Answered(usage, error) =>
      if !usage.Complete() then Fail(id, if error then ProviderErrorUsageMissing else RequiredUsageFieldsMissing)
      else if !usage.Consistent() then Fail(id, if error then ProviderErrorUsageTotalMismatch else UsageTotalMismatch)
      else Settle(id, usage.prompt.value, usage.completion.value)
  }

  datatype CallError = BudgetRefused(fault: BudgetError) | UsageMissing | UsageInconsistent

  /** The reservation is open, and the usage is neither negative nor over one of its ceilings. */
  predicate SettlesCleanly(log: Log, id: string, usage: Usage)
    requires usage.Complete()
  {
    && id in OpenIds(log) && 0 <= usage.prompt.value && 0 <= usage.completion.value
    && usage.prompt.value <= Reservation(log, id).maxInput && usage.completion.value <= Reservation(log, id).maxOutput
  }

  /** Ends a call by the usage its reply reported, and says when that raises which error. */
  method SettleUsage(ledger: ProviderBudgetLedger, id: string, usage: Usage, providerError: bool)
    returns (fault: Option<CallError>)
    requires ledger.Valid()
    modifies ledger`log, ledger`highWater, ledger`history
    ensures ledger.history ==
      old(ledger.history) + Writes(ledger.config, old(ledger.OnDisk()), EndingOp(id, Answered(usage, providerError)))
    ensures var accepted := Accepts(ledger.config, old(ledger.OnDisk()));
      && (fault == Some(UsageMissing) <==> accepted && !usage.Complete() && !providerError)
      && (fault == Some(UsageInconsistent) <==> accepted && usage.Complete() && !usage.Consistent() && !providerError)
      && (fault.None? <==> accepted && if usage.Complete() && usage.Consistent() then old(SettlesCleanly(ledger.log, id, usage)) else providerError)
  {
    fault := None;
    if !usage.Complete() {
      var refused;
      if providerError {
        refused := ledger.Fail(id, ProviderErrorUsageMissing);
      } else {
        refused := ledger.Fail(id, RequiredUsageFieldsMissing);
      }
      return if refused.Some? then Some(BudgetRefused(refused.value)) else if providerError then None else Some(UsageMissing);
    }
    if usage.total.value != usage.prompt.value + usage.completion.value {
      var refused;
      if providerError {
        refused := ledger.Fail(id, ProviderErrorUsageTotalMismatch);
      } else {
        refused := ledger.Fail(id, UsageTotalMismatch);
      }
      return if refused.Some? then Some(BudgetRefused(refused.value)) else if providerError then None else Some(UsageInconsistent);
    }
    var refused := ledger.Settle(id, usage.prompt.value, usage.completion.value);
    return if refused.Some? then Some(BudgetRefused(refused.value)) else None;
  }

  /** A reply whose cost the ledger cannot trust: usage it needs is missing or does not add
      up, or what is reported is negative or over a ceiling. */
  predicate Unaccountable(reservation: Event, reply: Reply)
    requires reservation.Reserved?
  {
    reply.Answered? &&
    var usage := reply.usage;
    if !usage.Complete() || !usage.Consistent() then !reply.providerError
    else
      || usage.prompt.value < 0 || usage.completion.value < 0
      || usage.prompt.value > reservation.maxInput || usage.completion.value > reservation.maxOutput
  }

  /** Ending an open call appends exactly one event, terminal for that call. It charges the
      reported usage when that is complete, consistent and not negative, and the whole
      reservation otherwise; it blocks accounting exactly for an unaccountable reply. */
  lemma EndingWritesOneTerminal(cfg: Config, log: Log, id: string, reply: Reply)
    requires WellFormed(log) && id in OpenIds(log)
    ensures Appended(cfg, log, EndingOp(id, reply)).Some?
    ensures var e := Appended(cfg, log, EndingOp(id, reply)).value;
            var reservation := Reservation(log, id);
      && e.Terminal() && e.requestId == id
      && (e.Blocking() <==> Unaccountable(reservation, reply))
      && (e.Settled? ==>
            && reply.Answered? && reply.usage.prompt == Some(e.inputTokens) && reply.usage.completion == Some(e.outputTokens)
            && (InputTokenCeilingExceeded in e.violations <==> e.inputTokens > reservation.maxInput)
            && (OutputTokenCeilingExceeded in e.violations <==> e.outputTokens > reservation.maxOutput))
      && e.chargedCny ==
           if reply.Answered? && reply.usage.Complete() && reply.usage.Consistent()
              && 0 <= reply.usage.prompt.value && 0 <= reply.usage.completion.value
           then cfg.CostCny(reply.usage.prompt.value, reply.usage.completion.value)
           else reservation.reservedCny
  {
  }

  // ---------------------------------------------------------------- concurrent calls

  /** `Lost` calls died with their process between reserving and ending. */
  datatype Phase = Refused | InFlight(id: string) | Ended(id: string) | Lost(id: string)

  datatype System = System(disk: Disk, calls: map<nat, Phase>)

  /** Steps happen at lock granularity. A step that `dies` is cut short by the death of its
      process after that many durable writes. */
  datatype Step =
    | Begin(call: nat, request: Request, freshId: string, dies: Option<nat>)
    | Finish(call: nat, reply: Reply, dies: Option<nat>)
    | Die(call: nat)

  predicate Enabled(s: System, step: Step) {
    match step
    case Begin(call, request, freshId, _) => call !in s.calls && freshId !in ReservedIds(s.disk.log)
    case Finish(call, _, _) => call in s.calls && s.calls[call].InFlight?
    case Die(call) => call in s.calls && s.calls[call].InFlight?
  }

  function StepOp(s: System, step: Step): Op
    requires Enabled(s, step)
    ensures Fresh(s.disk.log, StepOp(s, step))
  {
    match step
    case Begin(_, request, freshId, _) => Reserve(request, freshId)
    case Finish(call, reply, _) => EndingOp(s.calls[call].id, reply)
    case Die(_) => Snapshot
  }

  function DiskOf(cfg: Config, s: System, step: Step): Disk
    requires cfg.Valid() && Enabled(s, step)
  {
    var op := StepOp(s, step);
    if step.Die? then s.disk
    else if step.dies.None? then DiskAfter(cfg, s.disk, Move(op, |Writes(cfg, s.disk, op)|))
    else DiskAfter(cfg, s.disk, Move(op, step.dies.value))
  }

  /** The phase of the stepping call, given the log the step leaves: the delegate is called
      exactly when a surviving `Begin` holds its reservation. */
  function PhaseOf(s: System, step: Step, log: Log): Phase
    requires Enabled(s, step)
  {
    match step
    case Begin(_, _, id, dies) =>
      if id !in ReservedIds(log) then Refused else if dies.None? then InFlight(id) else Lost(id)
    case Finish(call, _, _) =>
      var id := s.calls[call].id;
      if id in TerminalIds(log) then Ended(id) else Lost(id)
    case Die(call) => Lost(s.calls[call].id)
  }

  function Next(cfg: Config, s: System, step: Step): System
    requires cfg.Valid() && Enabled(s, step)
  {
    var disk := DiskOf(cfg, s, step);
    System(disk, s.calls[step.call := PhaseOf(s, step, disk.log)])
  }

  predicate Possible(cfg: Config, s: System, steps: seq<Step>)
    requires cfg.Valid()
    decreases |steps|, 0
  {
    steps == [] || (Possible(cfg, s, Init(steps)) && Enabled(Run(cfg, s, Init(steps)), Last(steps)))
  }

  function Run(cfg: Config, s: System, steps: seq<Step>): System
    requires cfg.Valid() && Possible(cfg, s, steps)
    decreases |steps|, 1
  {
    if steps == [] then s else Next(cfg, Run(cfg, s, Init(steps)), Last(steps))
  }

  /** `id` is reserved for a call that has not ended. */
  ghost predicate Pending(calls: map<nat, Phase>, id: string) {
    exists call :: call in calls && (calls[call] == InFlight(id) || calls[call] == Lost(id))
  }

  predicate PhaseSound(phase: Phase, open: set<string>, ended: set<string>) {
    match phase
    case Refused => true
    case InFlight(id) => id in open
    case Lost(id) => id in open
    case Ended(id) => id in ended
  }

  /** No two calls hold the same reservation. */
  ghost predicate Disjoint(calls: map<nat, Phase>) {
    forall c, c' :: c in calls && c' in calls && c != c' && !calls[c].Refused? && !calls[c'].Refused? ==>
      calls[c].id != calls[c'].id
  }

  /** The calls account for the open and ended reservations; `before` are those that were
      open when the first call began. */
  ghost predicate Bookkeeping(calls: map<nat, Phase>, open: set<string>, ended: set<string>, before: set<string>) {
    && (forall call :: call in calls ==> PhaseSound(calls[call], open, ended))
    && (forall call :: call in calls && !calls[call].Refused? ==> calls[call].id !in before)
    && Disjoint(calls)
    && (forall id :: id in open <==> id in before || Pending(calls, id))
  }

  ghost predicate Sound(cfg: Config, s: System, before: set<string>)
    requires cfg.Valid()
  {
    && Accepts(cfg, s.disk) && before <= ReservedIds(s.disk.log)
    && Bookkeeping(s.calls, OpenIds(s.disk.log), TerminalIds(s.disk.log), before)
  }

  lemma OpenSnoc(log: Log, e: Event)
    requires WellFormed(log) && WellFormed(log + [e])
    ensures ReservedIds(log + [e]) == ReservedIds(log) + if e.Reserved? then {e.requestId} else {}
    ensures TerminalIds(log + [e]) == TerminalIds(log) + if e.Terminal() then {e.requestId} else {}
    ensures OpenIds(log + [e]) == if e.Reserved? then OpenIds(log) + {e.requestId} else OpenIds(log) - {e.requestId}
  {
    Snoc(log, e);
    TerminalsAreReserved(log);
  }

  lemma AppendedIdentity(cfg: Config, log: Log, op: Op)
    requires WellFormed(log) && Appended(cfg, log, op).Some?
    ensures var e := Appended(cfg, log, op).value;
      && !op.Snapshot? && e.Reserved? == op.Reserve? && e.Terminal() == !op.Reserve?
      && e.requestId == (if op.Reserve? then op.freshId else op.requestId)
  {
  }

  /** What a step does to the log and to the sets of open and ended reservations. */
  lemma StepOnLog(cfg: Config, s: System, step: Step)
    requires cfg.Valid() && Enabled(s, step) && Accepts(cfg, s.disk) && !step.Die?
    ensures Accepts(cfg, DiskOf(cfg, s, step))
    ensures var log, log', op := s.disk.log, DiskOf(cfg, s, step).log, StepOp(s, step);
      || log' == log
      || (&& OpenIds(log') == (if op.Reserve? then OpenIds(log) + {op.freshId} else OpenIds(log) - {op.requestId})
          && TerminalIds(log') == TerminalIds(log) + (if op.Reserve? then {} else {op.requestId})
          && ReservedIds(log') == ReservedIds(log) + (if op.Reserve? then {op.freshId} else {}))
  {
    var op := StepOp(s, step);
    var m := Move(op, if step.dies.None? then |Writes(cfg, s.disk, op)| else step.dies.value);
    MoveRecovers(cfg, s.disk, m);
    MoveOnLog(cfg, s.disk, m);
    if DiskOf(cfg, s, step).log != s.disk.log {
      AppendedIdentity(cfg, s.disk.log, op);
      OpenSnoc(s.disk.log, Appended(cfg, s.disk.log, op).value);
    }
  }

  /** A call that ends while nothing dies always writes its event. */
  lemma FinishWrites(cfg: Config, s: System, step: Step)
    requires cfg.Valid() && Enabled(s, step) && Accepts(cfg, s.disk)
    requires step.Finish? && step.dies.None? && s.calls[step.call].id in OpenIds(s.disk.log)
    ensures s.calls[step.call].id in TerminalIds(DiskOf(cfg, s, step).log)
  {
    var op := StepOp(s, step);
    EndingWritesOneTerminal(cfg, s.disk.log, s.calls[step.call].id, step.reply);
    Completed(cfg, s.disk, op);
    Snoc(s.disk.log, Appended(cfg, s.disk.log, op).value);
  }

  lemma CallBegins(calls: map<nat, Phase>, open: set<string>, ended: set<string>, before: set<string>, call: nat,
                   phase: Phase)
    requires Bookkeeping(calls, open, ended, before) && call !in calls
    requires phase.InFlight? || phase.Lost?
    requires phase.id !in open && phase.id !in ended && phase.id !in before
    ensures Bookkeeping(calls[call := phase], open + {phase.id}, ended, before)
  {
    var calls' := calls[call := phase];
    assert Disjoint(calls') by {
      assert forall c :: c in calls && !calls[c].Refused? ==> PhaseSound(calls[c], open, ended);
    }
    forall id
      ensures Pending(calls', id) <==> Pending(calls, id) || id == phase.id
    {
      if Pending(calls, id) {
        var c :| c in calls && (calls[c] == InFlight(id) || calls[c] == Lost(id));
        assert c in calls' && calls'[c] == calls[c];
      }
      assert call in calls' && calls'[call] == phase;
    }
  }

  lemma CallIsRefused(calls: map<nat, Phase>, open: set<string>, ended: set<string>, before: set<string>, call: nat)
    requires Bookkeeping(calls, open, ended, before) && call !in calls
    ensures Bookkeeping(calls[call := Refused], open, ended, before)
  {
    var calls' := calls[call := Refused];
    forall id
      ensures Pending(calls', id) <==> Pending(calls, id)
    {
      if Pending(calls, id) {
        var c :| c in calls && (calls[c] == InFlight(id) || calls[c] == Lost(id));
        assert c in calls' && calls'[c] == calls[c];
      }
    }
  }

  lemma CallIsLost(calls: map<nat, Phase>, open: set<string>, ended: set<string>, before: set<string>, call: nat)
    requires Bookkeeping(calls, open, ended, before) && call in calls && calls[call].InFlight?
    ensures Bookkeeping(calls[call := Lost(calls[call].id)], open, ended, before)
  {
    var calls' := calls[call := Lost(calls[call].id)];
    assert PhaseSound(calls[call], open, ended);
    forall id
      ensures Pending(calls', id) <==> Pending(calls, id)
    {
      if Pending(calls, id) {
        var c :| c in calls && (calls[c] == InFlight(id) || calls[c] == Lost(id));
        assert c in calls' && (calls'[c] == calls[c] || calls'[c] == Lost(id));
      }
    }
  }

  lemma CallEnds(calls: map<nat, Phase>, open: set<string>, ended: set<string>, before: set<string>, call: nat)
    requires Bookkeeping(calls, open, ended, before) && call in calls && calls[call].InFlight?
    ensures Bookkeeping(calls[call := Ended(calls[call].id)], open - {calls[call].id}, ended + {calls[call].id}, before)
  {
    var done := calls[call].id;
    var calls' := calls[call := Ended(done)];
    forall id
      ensures Pending(calls', id) <==> Pending(calls, id) && id != done
    {
      if Pending(calls, id) && id != done {
        var c :| c in calls && (calls[c] == InFlight(id) || calls[c] == Lost(id));
        assert c in calls' && calls'[c] == calls[c];
      }
      if Pending(calls', id) {
        var c :| c in calls' && (calls'[c] == InFlight(id) || calls'[c] == Lost(id));
        assert c in calls && c != call && calls[c] == calls'[c];
      }
    }
  }

  lemma RefusedIsSound(cfg: Config, s: System, step: Step, before: set<string>)
    requires cfg.Valid() && Sound(cfg, s, before) && Enabled(s, step) && step.Begin?
    requires step.freshId !in ReservedIds(DiskOf(cfg, s, step).log)
    ensures Sound(cfg, Next(cfg, s, step), before)
  {
    StepOnLog(cfg, s, step);
    CallIsRefused(s.calls, OpenIds(s.disk.log), TerminalIds(s.disk.log), before, step.call);
  }

  lemma NewIdIsUnknown(log: Log, id: string)
    requires WellFormed(log) && id !in ReservedIds(log)
    ensures id !in OpenIds(log) && id !in TerminalIds(log)
  {
    TerminalsAreReserved(log);
  }

  lemma GrantedIsSound(cfg: Config, s: System, step: Step, before: set<string>)
    requires cfg.Valid() && Sound(cfg, s, before) && Enabled(s, step) && step.Begin?
    requires step.freshId in ReservedIds(DiskOf(cfg, s, step).log)
    ensures Sound(cfg, Next(cfg, s, step), before)
  {
    NewIdIsUnknown(s.disk.log, step.freshId);
    StepOnLog(cfg, s, step);
    CallBegins(s.calls, OpenIds(s.disk.log), TerminalIds(s.disk.log), before, step.call, PhaseOf(s, step, DiskOf(cfg, s, step).log));
  }

  lemma BeginIsSound(cfg: Config, s: System, step: Step, before: set<string>)
    requires cfg.Valid() && Sound(cfg, s, before) && Enabled(s, step) && step.Begin?
    ensures Sound(cfg, Next(cfg, s, step), before)
  {
    if step.freshId !in ReservedIds(DiskOf(cfg, s, step).log) {
      RefusedIsSound(cfg, s, step, before);
    } else {
      GrantedIsSound(cfg, s, step, before);
    }
  }

  lemma FinishIsSound(cfg: Config, s: System, step: Step, before: set<string>)
    requires cfg.Valid() && Sound(cfg, s, before) && Enabled(s, step) && step.Finish?
    ensures Sound(cfg, Next(cfg, s, step), before)
  {
    var open, ended := OpenIds(s.disk.log), TerminalIds(s.disk.log);
    TerminalsAreReserved(s.disk.log);
    StepOnLog(cfg, s, step);
    assert PhaseSound(s.calls[step.call], open, ended);
    if PhaseOf(s, step, DiskOf(cfg, s, step).log).Ended? {
      CallEnds(s.calls, open, ended, before, step.call);
    } else {
      CallIsLost(s.calls, open, ended, before, step.call);
    }
  }

  lemma NextIsSound(cfg: Config, s: System, step: Step, before: set<string>)
    requires cfg.Valid() && Sound(cfg, s, before) && Enabled(s, step)
    ensures Sound(cfg, Next(cfg, s, step), before)
  {
    match step
    case Begin(_, _, _, _) => BeginIsSound(cfg, s, step, before);
    case Finish(_, _, _) => FinishIsSound(cfg, s, step, before);
    case Die(_) => CallIsLost(s.calls, OpenIds(s.disk.log), TerminalIds(s.disk.log), before, step.call);
  }

  lemma {:induction false} RunIsSound(cfg: Config, d: Disk, steps: seq<Step>)
    requires cfg.Valid() && Accepts(cfg, d) && Possible(cfg, System(d, map[]), steps)
    ensures Sound(cfg, Run(cfg, System(d, map[]), steps), OpenIds(d.log))
  {
    if steps != [] {
      RunIsSound(cfg, d, Init(steps));
      NextIsSound(cfg, Run(cfg, System(d, map[]), Init(steps)), Last(steps), OpenIds(d.log));
    }
  }

  function TerminalCount(log: Log, id: string): nat {
    if log == [] then 0
    else TerminalCount(Init(log), id) + if Last(log).Terminal() && Last(log).requestId == id then 1 else 0
  }

  lemma {:induction false} AtMostOneTerminal(log: Log, id: string)
    requires WellFormed(log)
    ensures TerminalCount(log, id) == if id in TerminalIds(log) then 1 else 0
  {
    if log != [] {
      AtMostOneTerminal(Init(log), id);
    }
  }

  /** Under every interleaving of calls: the delegate is only called while its own
      reservation is open, every call that ended wrote exactly one terminal event, and the
      open reservations are those open at the start plus those of pending calls. */
  lemma GuardedCalls(cfg: Config, d: Disk, steps: seq<Step>)
    requires cfg.Valid() && Accepts(cfg, d) && Possible(cfg, System(d, map[]), steps)
    ensures var s := Run(cfg, System(d, map[]), steps);
      && (forall call :: call in s.calls && s.calls[call].InFlight? ==>
            s.calls[call].id in OpenIds(s.disk.log) && TerminalCount(s.disk.log, s.calls[call].id) == 0)
      && (forall call :: call in s.calls && s.calls[call].Ended? ==> TerminalCount(s.disk.log, s.calls[call].id) == 1)
      && (forall id :: id in OpenIds(s.disk.log) <==> id in OpenIds(d.log) || Pending(s.calls, id))
      && Disjoint(s.calls)
  {
    RunIsSound(cfg, d, steps);
    var s := Run(cfg, System(d, map[]), steps);
    forall call | call in s.calls && !s.calls[call].Refused?
      ensures TerminalCount(s.disk.log, s.calls[call].id) == if s.calls[call].id in TerminalIds(s.disk.log) then 1 else 0
      ensures PhaseSound(s.calls[call], OpenIds(s.disk.log), TerminalIds(s.disk.log))
    {
      AtMostOneTerminal(s.disk.log, s.calls[call].id);
    }
  }

  predicate NothingDies(steps: seq<Step>) {
    forall step :: step in steps ==> !step.Die? && step.dies.None?
  }

  lemma SurvivingStep(cfg: Config, s: System, step: Step, before: set<string>)
    requires cfg.Valid() && Sound(cfg, s, before) && Enabled(s, step) && !step.Die? && step.dies.None?
    ensures !PhaseOf(s, step, DiskOf(cfg, s, step).log).Lost?
  {
    if step.Finish? {
      assert PhaseSound(s.calls[step.call], OpenIds(s.disk.log), TerminalIds(s.disk.log));
      FinishWrites(cfg, s, step);
    }
  }

  predicate NoneLost(s: System) {
    forall call :: call in s.calls ==> !s.calls[call].Lost?
  }

  /** While no process dies, pending calls are calls in flight: every exit path of a call
      ends its reservation. */
  lemma {:induction false} NothingLost(cfg: Config, d: Disk, steps: seq<Step>)
    requires cfg.Valid() && Accepts(cfg, d) && Possible(cfg, System(d, map[]), steps) && NothingDies(steps)
    ensures NoneLost(Run(cfg, System(d, map[]), steps))
  {
    if steps != [] {
      assert forall step :: step in Init(steps) ==> step in steps;
      NothingLost(cfg, d, Init(steps));
      RunIsSound(cfg, d, Init(steps));
      assert Last(steps) in steps;
      SurvivingStep(cfg, Run(cfg, System(d, map[]), Init(steps)), Last(steps), OpenIds(d.log));
    }
  }
}

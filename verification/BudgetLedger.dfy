/** The provider budget ledger: a log and a high-water record on disk, one lock around
    every operation, and the durable states an operation passes through in order. */
module BudgetLedger {
  import opened Outcome
  import opened Sequences
  import opened BudgetLog

  // ---------------------------------------------------------------- configuration

  datatype Config = Config(
    hardCapCny: real, externalReserveCny: real, maxTotalAttempts: int,
    maxInput: int, maxOutput: int,
    inputUsdPerMillion: real, outputUsdPerMillion: real, usdToCny: real,
    maxAdditional: Option<int>, baseline: int, approval: Option<string>,
    prefixCount: int, prefixDigest: Option<Log>, prefixCharged: real)
  {
    /** The constraints the configuration class checks when it is built. */
    predicate Valid() {
      && 0 <= baseline <= maxTotalAttempts
      && (maxAdditional.Some? ==> 0 <= maxAdditional.value)
      && 0 <= prefixCount && 0.0 <= prefixCharged
      && (prefixCount != 0 ==> prefixDigest.Some?)
    }

    /** The rates a campaign budget admits. */
    predicate RatesNonNegative() {
      0.0 <= inputUsdPerMillion && 0.0 <= outputUsdPerMillion && 0.0 <= usdToCny
    }

    function CostCny(input: int, output: int): real {
      (input as real / 1000000.0 * inputUsdPerMillion + output as real / 1000000.0 * outputUsdPerMillion) * usdToCny
    }

    function MaximumRequestCny(): real {
      CostCny(maxInput, maxOutput)
    }
  }

  /** More tokens never cost less. */
  lemma CostMonotone(cfg: Config, input: int, output: int, input': int, output': int)
    requires cfg.RatesNonNegative() && input <= input' && output <= output'
    ensures cfg.CostCny(input, output) <= cfg.CostCny(input', output')
  {
    ScaleMonotone(input as real / 1000000.0, input' as real / 1000000.0, cfg.inputUsdPerMillion);
    ScaleMonotone(output as real / 1000000.0, output' as real / 1000000.0, cfg.outputUsdPerMillion);
    ScaleMonotone(input as real / 1000000.0 * cfg.inputUsdPerMillion + output as real / 1000000.0 * cfg.outputUsdPerMillion,
                  input' as real / 1000000.0 * cfg.inputUsdPerMillion + output' as real / 1000000.0 * cfg.outputUsdPerMillion,
                  cfg.usdToCny);
  }

  // ---------------------------------------------------------------- disk

  /** The digest in a high-water record is its own pre-image, the event sequence. */
  datatype HighWater = Corrupt | Record(eventCount: int, digest: Log, chargedCny: real)

  datatype Disk = Disk(log: Log, highWater: Option<HighWater>)

  datatype BudgetError =
    | Malformed(cause: LogError)
    | TruncatedBelowPrefix
    | PrefixMismatch
    | HighWaterCorrupt
    | HighWaterMismatch
    | HighWaterMissing
    | InputCeilingExceedsCampaign
    | EstimateExceedsCeiling
    | OutputCeilingExceedsCampaign
    | RetryLimitsInvalid
    | AccountingIncomplete
    | AttemptCeilingReached
    | LogicalCallCeilingReached
    | RetryCeilingReached
    | AdditionalCeilingReached
    | HardCapCrossed
    | ReservationNotOpen
    | UsageNegative
    | UsageExceededCeiling

  function HighWaterOf(log: Log): HighWater
    requires WellFormed(log)
  {
    Record(|log|, log, Charged(log))
  }

  /** The disk right after a completed operation: the record matches the log. */
  predicate InSync(d: Disk) {
    WellFormed(d.log) && d.highWater == Some(HighWaterOf(d.log))
  }

  predicate Close(a: real, b: real) {
    -0.000000000001 <= a - b <= 0.000000000001
  }

  /** The approval prefix check passes. */
  predicate PrefixMatches(cfg: Config, log: Log)
    requires 0 <= cfg.prefixCount
  {
    cfg.prefixDigest.Some? ==>
      && cfg.prefixCount <= |log|
      && log[..cfg.prefixCount] == cfg.prefixDigest.value
      && WellFormed(log[..cfg.prefixCount])
      && Close(Charged(log[..cfg.prefixCount]), cfg.prefixCharged)
  }

  /** With no high-water record on disk, one may be created for `log`. */
  predicate MayBootstrap(cfg: Config, log: Log) {
    && cfg.approval.None?
    && (log == [] || cfg.prefixDigest.None? || (|log| == cfg.prefixCount && log == cfg.prefixDigest.value))
  }

  /** The record was written for an earlier part of `log`. */
  predicate Behind(highWater: HighWater, log: Log)
    requires WellFormed(log)
  {
    && highWater.Record? && 0 <= highWater.eventCount < |log|
    && (WellFormedPrefix(log, highWater.eventCount); highWater == HighWaterOf(log[..highWater.eventCount]))
  }

  /** Opening the ledger under its lock succeeds on `d`. */
  predicate Accepts(cfg: Config, d: Disk)
    requires cfg.Valid()
  {
    && PrefixMatches(cfg, d.log) && WellFormed(d.log)
    && match d.highWater
       case None => MayBootstrap(cfg, d.log)
       case Some(w) => w == HighWaterOf(d.log) || Behind(w, d.log)
  }

  // ---------------------------------------------------------------- operations

  datatype Request = Request(
    trialId: string, requestDigest: string, estimatedInput: int,
    maxInput: Option<int>, maxOutput: Option<int>, maxLogicalCalls: Option<int>, maxAttempts: int)
  {
    function InputCeiling(cfg: Config): int {
      if maxInput.Some? then maxInput.value else cfg.maxInput
    }

    function OutputCeiling(cfg: Config): int {
      if maxOutput.Some? then maxOutput.value else cfg.maxOutput
    }

    function Call(): LogicalCall {
      LogicalCall(trialId, requestDigest)
    }

    function PriceCny(cfg: Config): real {
      cfg.CostCny(InputCeiling(cfg), OutputCeiling(cfg))
    }
  }

  datatype Op =
    | Reserve(request: Request, freshId: string)
    | Settle(requestId: string, input: int, output: int)
    | Fail(requestId: string, reason: FailReason)
    | Snapshot

  /** Checks made before the lock is taken, in order. */
  function RequestRefusal(cfg: Config, q: Request): Option<BudgetError> {
    if q.InputCeiling(cfg) < 1 || q.InputCeiling(cfg) > cfg.maxInput then Some(InputCeilingExceedsCampaign)
    else if q.estimatedInput > q.InputCeiling(cfg) then Some(EstimateExceedsCeiling)
    else if q.OutputCeiling(cfg) < 1 || q.OutputCeiling(cfg) > cfg.maxOutput then Some(OutputCeilingExceedsCampaign)
    else if (q.maxLogicalCalls.Some? && q.maxLogicalCalls.value < 0) || q.maxAttempts < 1 then Some(RetryLimitsInvalid)
    else None
  }

  /** What the scoped reader answers on `log` instead of a state. */
  predicate ScopeReadable(cfg: Config, log: Log) {
    BaselineInside(log, cfg.baseline) && ScopedReadable(Scope(log, cfg.baseline))
  }

  /** The limits on repeats, checked against the reservations in scope, in order. */
  function RetryRefusal(cfg: Config, rs: ReservationSeq, q: Request): Option<BudgetError> {
    var ordinal := Attempts(rs, q.Call()) + 1;
    if ordinal == 1 && q.maxLogicalCalls.Some? && |TrialCalls(rs, q.trialId)| >= q.maxLogicalCalls.value
    then Some(LogicalCallCeilingReached)
    else if ordinal > q.maxAttempts then Some(RetryCeilingReached)
    else if ordinal > 1 && cfg.maxAdditional.Some? && Additional(rs) >= cfg.maxAdditional.value
    then Some(AdditionalCeilingReached)
    else None
  }

  predicate CrossesCap(cfg: Config, log: Log, q: Request)
    requires WellFormed(log)
  {
    Charged(log) + cfg.externalReserveCny + q.PriceCny(cfg) > cfg.hardCapCny
  }

  /** A reservation is refused for the hard cap and for nothing else. */
  predicate CapRefuses(cfg: Config, log: Log, q: Request)
    requires WellFormed(log)
  {
    && RequestRefusal(cfg, q).None?
    && !Blocked(log)
    && |ReservedIds(log)| < cfg.maxTotalAttempts
    && ScopeReadable(cfg, log)
    && RetryRefusal(cfg, Scope(log, cfg.baseline), q).None?
    && CrossesCap(cfg, log, q)
  }

  /** A reservation is granted on `log`. */
  predicate Grants(cfg: Config, log: Log, q: Request)
    requires WellFormed(log)
  {
    && RequestRefusal(cfg, q).None?
    && !Blocked(log)
    && |ReservedIds(log)| < cfg.maxTotalAttempts
    && ScopeReadable(cfg, log)
    && RetryRefusal(cfg, Scope(log, cfg.baseline), q).None?
    && !CrossesCap(cfg, log, q)
  }

  /** A reservation's event, for the `ordinal`-th attempt at its call. */
  function EventFor(cfg: Config, q: Request, id: string, ordinal: nat): Event {
    Reserved(id, q.trialId, q.requestDigest, Some(q.Call()), Some(ordinal), Some(ordinal > 1),
             q.InputCeiling(cfg), q.OutputCeiling(cfg), q.PriceCny(cfg))
  }

  function ReservedEvent(cfg: Config, log: Log, q: Request, id: string): Event
    requires BaselineInside(log, cfg.baseline)
  {
    EventFor(cfg, q, id, Attempts(Scope(log, cfg.baseline), q.Call()) + 1)
  }

  function Violations(reservation: Event, input: int, output: int): seq<Violation>
    requires reservation.Reserved?
  {
    (if input > reservation.maxInput then [InputTokenCeilingExceeded] else [])
    + (if output > reservation.maxOutput then [OutputTokenCeilingExceeded] else [])
  }

  function FailedEvent(log: Log, id: string, reason: FailReason): Event
    requires id in OpenIds(log)
  {
    Failed(id, reason, Reservation(log, id).reservedCny)
  }

  /** The event an operation appends to a well-formed log, if it appends one. Settling
      negative usage is recorded as a failure of the reservation. */
  function Appended(cfg: Config, log: Log, op: Op): Option<Event>
    requires WellFormed(log)
  {
    match op
    case Reserve(q, id) => if Grants(cfg, log, q) then Some(ReservedEvent(cfg, log, q, id)) else None
    case Settle(id, input, output) =>
      if id !in OpenIds(log) then None
      else if input < 0 || output < 0 then Some(FailedEvent(log, id, UsageTokenCountNegative))
      else Some(Settled(id, input, output, cfg.CostCny(input, output), Violations(Reservation(log, id), input, output)))
    case Fail(id, reason) => if id in OpenIds(log) then Some(FailedEvent(log, id, reason)) else None
    case Snapshot => None
  }

  /** A reservation's id comes from uuid4 and is taken to be new. */
  predicate Fresh(log: Log, op: Op) {
    op.Reserve? ==> op.freshId !in ReservedIds(log)
  }

  /** The log after the operation. */
  function After(cfg: Config, log: Log, op: Op): Log
    requires WellFormed(log)
  {
    match Appended(cfg, log, op)
    case None => log
    case Some(e) => log + [e]
  }

  /** The lock is never taken for a reservation that its own limits refuse. */
  predicate TakesLock(cfg: Config, op: Op) {
    op.Reserve? ==> RequestRefusal(cfg, op.request).None?
  }

  /** The durable states an operation passes through, in order: the record is repaired on
      opening, then the event is appended, and only then the record is advanced. */
  function Writes(cfg: Config, d: Disk, op: Op): seq<Disk>
    requires cfg.Valid() && Fresh(d.log, op)
  {
    if !TakesLock(cfg, op) || !Accepts(cfg, d) then []
    else
      AfterWellFormed(cfg, d.log, op);
      OpenWrites(d) + AppendWrites(cfg, d.log, op)
  }

  /** A completed operation leaves the log extended by its event and the record current; an
      operation that is refused before or on opening leaves the disk alone. */
  lemma Completed(cfg: Config, d: Disk, op: Op)
    requires cfg.Valid() && Fresh(d.log, op)
    ensures TakesLock(cfg, op) && Accepts(cfg, d) ==>
      && WellFormed(After(cfg, d.log, op))
      && Writes(cfg, d, op) == OpenWrites(d) + AppendWrites(cfg, d.log, op)
      && Final(d, Writes(cfg, d, op)) == Disk(After(cfg, d.log, op), Some(HighWaterOf(After(cfg, d.log, op))))
    ensures !TakesLock(cfg, op) || !Accepts(cfg, d) ==> Writes(cfg, d, op) == []
  {
    if TakesLock(cfg, op) && Accepts(cfg, d) {
      AfterWellFormed(cfg, d.log, op);
    }
  }

  lemma Regroup(a: seq<Disk>, b: seq<Disk>, c: seq<Disk>)
    ensures a + b + c == a + (b + c)
  {
  }

  /** What an operation on the accepted disk `d` amounts to once its writes are in `history`. */
  lemma OperationDone(cfg: Config, d: Disk, op: Op, before: seq<Disk>, history: seq<Disk>, now: Disk)
    requires cfg.Valid() && Fresh(d.log, op) && TakesLock(cfg, op) && Accepts(cfg, d) && WellFormed(After(cfg, d.log, op))
    requires history == before + OpenWrites(d) + AppendWrites(cfg, d.log, op)
    requires now == Disk(After(cfg, d.log, op), Some(HighWaterOf(After(cfg, d.log, op))))
    ensures history == before + Writes(cfg, d, op) && now == Final(d, Writes(cfg, d, op))
  {
    Completed(cfg, d, op);
    Regroup(before, OpenWrites(d), AppendWrites(cfg, d.log, op));
  }

  /** The disk after a sequence of durable writes. */
  function Final(d: Disk, writes: seq<Disk>): Disk {
    if writes == [] then d else Last(writes)
  }

  /** Opening an accepted disk writes the high-water record unless it is already current. */
  function OpenWrites(d: Disk): seq<Disk>
    requires WellFormed(d.log)
  {
    if InSync(d) then [] else [d.(highWater := Some(HighWaterOf(d.log)))]
  }

  function AppendWrites(cfg: Config, log: Log, op: Op): seq<Disk>
    requires WellFormed(log) && WellFormed(After(cfg, log, op))
  {
    var log' := After(cfg, log, op);
    if Appended(cfg, log, op).None? then []
    else [Disk(log', Some(HighWaterOf(log))), Disk(log', Some(HighWaterOf(log')))]
  }

  lemma AfterWellFormed(cfg: Config, log: Log, op: Op)
    requires WellFormed(log) && Fresh(log, op)
    ensures WellFormed(After(cfg, log, op))
  {
    if Appended(cfg, log, op).Some? {
      Snoc(log, Appended(cfg, log, op).value);
    }
  }

  /** The digest of a snapshot is its own pre-image. */
  datatype BudgetSnapshot = BudgetSnapshot(
    eventCount: nat, digest: Log, requestAttempts: nat, additional: nat, chargedCny: real,
    openReservations: nat, complete: bool)
  {
    function CommittedCny(cfg: Config): real {
      chargedCny + cfg.externalReserveCny
    }
  }

  function SnapshotOf(cfg: Config, log: Log): BudgetSnapshot
    requires WellFormed(log) && BaselineInside(log, cfg.baseline)
  {
    BudgetSnapshot(|log|, log, |ReservedIds(log)|, Additional(Scope(log, cfg.baseline)), Charged(log),
                   |OpenIds(log)|, |OpenIds(log)| == 0 && !Blocked(log))
  }

  /** Settling negative usage does to the disk what failing the reservation for it does. */
  lemma NegativeUsageFails(cfg: Config, d: Disk, id: string, input: int, output: int)
    requires cfg.Valid() && (input < 0 || output < 0)
    ensures Writes(cfg, d, Op.Settle(id, input, output)) == Writes(cfg, d, Op.Fail(id, UsageTokenCountNegative))
  {
    if Accepts(cfg, d) {
      assert Appended(cfg, d.log, Op.Settle(id, input, output)) == Appended(cfg, d.log, Op.Fail(id, UsageTokenCountNegative));
    }
  }

  lemma GrantAppends(cfg: Config, log: Log, q: Request, id: string)
    requires WellFormed(log) && Fresh(log, Op.Reserve(q, id))
    ensures WellFormed(After(cfg, log, Op.Reserve(q, id)))
    ensures Grants(cfg, log, q) ==>
      Appended(cfg, log, Op.Reserve(q, id)) == Some(EventFor(cfg, q, id, Attempts(Scope(log, cfg.baseline), q.Call()) + 1))
    ensures !Grants(cfg, log, q) ==>
      After(cfg, log, Op.Reserve(q, id)) == log && AppendWrites(cfg, log, Op.Reserve(q, id)) == []
  {
    AfterWellFormed(cfg, log, Op.Reserve(q, id));
  }

  // ---------------------------------------------------------------- the ledger object

  class ProviderBudgetLedger {
    const config: Config
    var log: Log
    var highWater: Option<HighWater>
    /** Every durable state since construction, in order. */
    ghost var history: seq<Disk>

    ghost predicate Valid()
      reads this
    {
      config.Valid()
    }

    ghost function OnDisk(): Disk
      reads this
    {
      Disk(log, highWater)
    }

    constructor (config: Config, disk: Disk)
      requires config.Valid()
      ensures Valid() && OnDisk() == disk && this.config == config && history == []
    {
      this.config := config;
      log, highWater, history := disk.log, disk.highWater, [];
    }

    method WriteHighWater()
      requires Valid() && WellFormed(log)
      modifies this`highWater, this`history
      ensures highWater == Some(HighWaterOf(log)) && history == old(history) + [OnDisk()]
    {
      var state := ReadLedgerState(log);
      highWater := Some(Record(|log|, log, state.value.chargedCny));
      history := history + [OnDisk()];
    }

    method AppendEvent(e: Event)
      requires Valid() && WellFormed(log + [e])
      modifies this`log, this`highWater, this`history
      ensures log == old(log) + [e] && highWater == Some(HighWaterOf(log))
      ensures history == old(history) + [Disk(log, old(highWater)), Disk(log, highWater)]
    {
      log := log + [e];
      history := history + [OnDisk()];
      WriteHighWater();
    }

    method ValidatePrefix() returns (fault: Option<BudgetError>)
      requires Valid()
      ensures fault.None? <==> PrefixMatches(config, log)
      ensures fault != Some(HardCapCrossed)
    {
      if config.prefixDigest.None? {
        return None;
      }
      if |log| < config.prefixCount {
        return Some(TruncatedBelowPrefix);
      }
      var prefix := log[..config.prefixCount];
      if prefix != config.prefixDigest.value {
        return Some(PrefixMismatch);
      }
      var state := ReadLedgerState(prefix);
      if state.Failure? {
        return Some(Malformed(state.error));
      }
      return if Close(state.value.chargedCny, config.prefixCharged) then None else Some(PrefixMismatch);
    }

    method ValidateOrBootstrapHighWater() returns (fault: Option<BudgetError>)
      requires Valid() && PrefixMatches(config, log)
      modifies this`highWater, this`history
      ensures fault.None? <==> Accepts(config, old(OnDisk()))
      ensures fault != Some(HardCapCrossed)
      ensures fault.None? ==> highWater == Some(HighWaterOf(log))
      ensures fault.Some? ==> highWater == old(highWater)
      ensures history == old(history) + if highWater == old(highWater) then [] else [OnDisk()]
    {
      var state := ReadLedgerState(log);
      if state.Failure? {
        return Some(Malformed(state.error));
      }
      var expected := Record(|log|, log, state.value.chargedCny);
      if highWater.Some? {
        var actual := highWater.value;
        if actual.Corrupt? {
          return Some(HighWaterCorrupt);
        }
        if actual != expected {
          if 0 <= actual.eventCount < |log| {
            WellFormedPrefix(log, actual.eventCount);
            var earlier := ReadLedgerState(log[..actual.eventCount]);
            if actual == Record(actual.eventCount, log[..actual.eventCount], earlier.value.chargedCny) {
              WriteHighWater();
              return None;
            }
          }
          return Some(HighWaterMismatch);
        }
        return None;
      }
      if config.approval.Some? {
        return Some(HighWaterMissing);
      }
      var canBootstrap := || log == []
                          || (config.prefixDigest.Some? && |log| == config.prefixCount && log == config.prefixDigest.value)
                          || (config.approval.None? && config.prefixDigest.None?);
      if !canBootstrap {
        return Some(HighWaterMissing);
      }
      WriteHighWater();
      return None;
    }

    /** Entering the locked section. */
    method Locked() returns (fault: Option<BudgetError>)
      requires Valid()
      modifies this`highWater, this`history
      ensures fault.None? <==> Accepts(config, old(OnDisk()))
      ensures fault != Some(HardCapCrossed)
      ensures fault.None? ==> highWater == Some(HighWaterOf(log))
      ensures fault.Some? ==> highWater == old(highWater)
      ensures fault.Some? ==> history == old(history)
      ensures fault.None? ==> InSync(OnDisk()) && history == old(history) + OpenWrites(old(OnDisk()))
    {
      fault := ValidatePrefix();
      if fault.None? {
        fault := ValidateOrBootstrapHighWater();
      }
    }

    /** The limits on repeats, in order, and the attempt ordinal. */
    method ScreenRetries(q: Request) returns (fault: Option<BudgetError>, ordinal: nat)
      requires Valid()
      ensures fault.None? <==> ScopeReadable(config, log) && RetryRefusal(config, Scope(log, config.baseline), q).None?
      ensures fault.None? ==> ordinal == Attempts(Scope(log, config.baseline), q.Call()) + 1
      ensures fault != Some(HardCapCrossed) && fault != Some(AccountingIncomplete) && fault != Some(AttemptCeilingReached)
    {
      ordinal := 0;
      var scopedRead := ReadScopedState(log, config.baseline);
      if scopedRead.Failure? {
        return Some(Malformed(scopedRead.error)), 0;
      }
      var scoped := scopedRead.value;
      var call := q.Call();
      ordinal := (if call in scoped.attempts then scoped.attempts[call] else 0) + 1;
      var made := if q.trialId in scoped.logicalCalls then scoped.logicalCalls[q.trialId] else 0;
      if call !in scoped.attempts && q.maxLogicalCalls.Some? && made >= q.maxLogicalCalls.value {
        return Some(LogicalCallCeilingReached), ordinal;
      }
      if ordinal > q.maxAttempts {
        return Some(RetryCeilingReached), ordinal;
      }
      if ordinal > 1 && config.maxAdditional.Some? && scoped.additional >= config.maxAdditional.value {
        return Some(AdditionalCeilingReached), ordinal;
      }
      fault := None;
    }

    /** The checks made under the lock, in order, and the attempt ordinal. */
    method ScreenReservation(q: Request) returns (fault: Option<BudgetError>, ordinal: nat)
      requires Valid() && WellFormed(log) && RequestRefusal(config, q).None?
      ensures fault.None? <==> Grants(config, log, q)
      ensures fault.None? ==> ordinal == Attempts(Scope(log, config.baseline), q.Call()) + 1
      ensures fault == Some(HardCapCrossed) <==> CapRefuses(config, log, q)
      ensures fault == Some(AccountingIncomplete) <==> Blocked(log)
      ensures !Blocked(log) ==> (fault == Some(AttemptCeilingReached) <==> |ReservedIds(log)| >= config.maxTotalAttempts)
    {
      ordinal := 0;
      var read := ReadLedgerState(log);
      var state := read.value;
      if state.blocked {
        return Some(AccountingIncomplete), 0;
      }
      if state.requestAttempts >= config.maxTotalAttempts {
        return Some(AttemptCeilingReached), 0;
      }
      fault, ordinal := ScreenRetries(q);
      if fault.Some? {
        return;
      }
      if state.chargedCny + config.externalReserveCny + q.PriceCny(config) > config.hardCapCny {
        return Some(HardCapCrossed), ordinal;
      }
    }

    method ScreenRequest(q: Request) returns (fault: Option<BudgetError>)
      ensures fault == RequestRefusal(config, q)
    {
      if q.InputCeiling(config) < 1 || q.InputCeiling(config) > config.maxInput {
        return Some(InputCeilingExceedsCampaign);
      }
      if q.estimatedInput > q.InputCeiling(config) {
        return Some(EstimateExceedsCeiling);
      }
      if q.OutputCeiling(config) < 1 || q.OutputCeiling(config) > config.maxOutput {
        return Some(OutputCeilingExceedsCampaign);
      }
      if (q.maxLogicalCalls.Some? && q.maxLogicalCalls.value < 0) || q.maxAttempts < 1 {
        return Some(RetryLimitsInvalid);
      }
      return None;
    }

    /** The part of an operation under the lock, once the ledger is open: append the event
        the operation calls for. */
    method Commit(ghost op: Op, e: Event)
      requires Valid() && InSync(OnDisk()) && Fresh(log, op) && Appended(config, log, op) == Some(e)
      modifies this`log, this`highWater, this`history
      ensures log == old(log) + [e] && WellFormed(log) && highWater == Some(HighWaterOf(log))
      ensures WellFormed(After(config, old(log), op))
      ensures history == old(history) + AppendWrites(config, old(log), op)
      ensures op.Reserve? ==> op.freshId in OpenIds(log)
    {
      AfterWellFormed(config, log, op);
      TerminalsAreReserved(log);
      Snoc(log, e);
      AppendEvent(e);
    }

    method ReserveUnderLock(q: Request, freshId: string) returns (fault: Option<BudgetError>)
      requires Valid() && InSync(OnDisk()) && Fresh(log, Op.Reserve(q, freshId)) && RequestRefusal(config, q).None?
      modifies this`log, this`highWater, this`history
      ensures fault.None? <==> Grants(config, old(log), q)
      ensures fault == Some(HardCapCrossed) <==> CapRefuses(config, old(log), q)
      ensures fault.None? ==> freshId in OpenIds(log)
      ensures log == After(config, old(log), Op.Reserve(q, freshId)) && WellFormed(log)
      ensures highWater == Some(HighWaterOf(log))
      ensures history == old(history) + AppendWrites(config, old(log), Op.Reserve(q, freshId))
    {
      var ordinal;
      fault, ordinal := ScreenReservation(q);
      GrantAppends(config, log, q, freshId);
      if fault.Some? {
        return;
      }
      var e := EventFor(config, q, freshId, ordinal);
      Commit(Op.Reserve(q, freshId), e);
    }

    method Reserve(q: Request, freshId: string) returns (r: Result<string, BudgetError>)
      requires Valid() && Fresh(log, Op.Reserve(q, freshId))
      modifies this`log, this`highWater, this`history
      ensures history == old(history) + Writes(config, old(OnDisk()), Op.Reserve(q, freshId))
      ensures OnDisk() == Final(old(OnDisk()), Writes(config, old(OnDisk()), Op.Reserve(q, freshId)))
      ensures r.Success? <==> Accepts(config, old(OnDisk())) && Grants(config, old(log), q)
      ensures r == Failure(HardCapCrossed) <==> Accepts(config, old(OnDisk())) && CapRefuses(config, old(log), q)
      ensures r.Success? ==> r.value == freshId && freshId in OpenIds(log)
    {
      ghost var d, h, op := OnDisk(), history, Op.Reserve(q, freshId);
      Completed(config, d, op);
      var unfit := ScreenRequest(q);
      if unfit.Some? {
        return Failure(unfit.value);
      }
      var refusal := Locked();
      if refusal.Some? {
        return Failure(refusal.value);
      }
      var fault := ReserveUnderLock(q, freshId);
      OperationDone(config, d, op, h, history, OnDisk());
      if fault.Some? {
        return Failure(fault.value);
      }
      return Success(freshId);
    }

    method SettleUnderLock(requestId: string, input: int, output: int) returns (fault: Option<BudgetError>)
      requires Valid() && InSync(OnDisk()) && 0 <= input && 0 <= output
      modifies this`log, this`highWater, this`history
      ensures fault.None? <==>
        requestId in old(OpenIds(log)) && Violations(old(Reservation(log, requestId)), input, output) == []
      ensures log == After(config, old(log), Op.Settle(requestId, input, output)) && WellFormed(log)
      ensures highWater == Some(HighWaterOf(log))
      ensures history == old(history) + AppendWrites(config, old(log), Op.Settle(requestId, input, output))
    {
      if requestId !in OpenIds(log) {
        return Some(ReservationNotOpen);
      }
      var reservation := Reservation(log, requestId);
      var violations := [];
      if input > reservation.maxInput {
        violations := violations + [InputTokenCeilingExceeded];
      }
      if output > reservation.maxOutput {
        violations := violations + [OutputTokenCeilingExceeded];
      }
      var e := Settled(requestId, input, output, config.CostCny(input, output), violations);
      assert violations == Violations(reservation, input, output);
      Commit(Op.Settle(requestId, input, output), e);
      return if violations != [] then Some(UsageExceededCeiling) else None;
    }

    method Settle(requestId: string, input: int, output: int) returns (fault: Option<BudgetError>)
      requires Valid()
      modifies this`log, this`highWater, this`history
      ensures history == old(history) + Writes(config, old(OnDisk()), Op.Settle(requestId, input, output))
      ensures OnDisk() == Final(old(OnDisk()), Writes(config, old(OnDisk()), Op.Settle(requestId, input, output)))
      ensures fault.None? <==>
        && Accepts(config, old(OnDisk())) && requestId in old(OpenIds(log)) && 0 <= input && 0 <= output
        && Violations(old(Reservation(log, requestId)), input, output) == []
    {
      ghost var d, h, op := OnDisk(), history, Op.Settle(requestId, input, output);
      if input < 0 || output < 0 {
        NegativeUsageFails(config, d, requestId, input, output);
        var refusal := Fail(requestId, UsageTokenCountNegative);
        return if refusal.Some? then refusal else Some(UsageNegative);
      }
      Completed(config, d, op);
      fault := Locked();
      if fault.None? {
        fault := SettleUnderLock(requestId, input, output);
        OperationDone(config, d, op, h, history, OnDisk());
      }
    }

    /** Failing a reservation that is not open does nothing. */
    method Fail(requestId: string, reason: FailReason) returns (fault: Option<BudgetError>)
      requires Valid()
      modifies this`log, this`highWater, this`history
      ensures history == old(history) + Writes(config, old(OnDisk()), Op.Fail(requestId, reason))
      ensures OnDisk() == Final(old(OnDisk()), Writes(config, old(OnDisk()), Op.Fail(requestId, reason)))
      ensures fault.None? <==> Accepts(config, old(OnDisk()))
    {
      Completed(config, OnDisk(), Op.Fail(requestId, reason));
      fault := Locked();
      if fault.Some? || requestId !in OpenIds(log) {
        return;
      }
      var e := Failed(requestId, reason, Reservation(log, requestId).reservedCny);
      Commit(Op.Fail(requestId, reason), e);
    }

    method ReadSnapshot() returns (r: Result<BudgetSnapshot, BudgetError>)
      requires WellFormed(log)
      ensures r.Success? <==> ScopeReadable(config, log)
      ensures r.Success? ==> r.value == SnapshotOf(config, log)
    {
      var state := ReadLedgerState(log);
      var scoped := ReadScopedState(log, config.baseline);
      if scoped.Failure? {
        return Failure(Malformed(scoped.error));
      }
      return Success(BudgetSnapshot(|log|, log, state.value.requestAttempts, scoped.value.additional, state.value.chargedCny,
                                    state.value.openReservations, state.value.openReservations == 0 && !state.value.blocked));
    }

    /** What the ledger holds, read after opening it. */
    method TakeSnapshot() returns (r: Result<BudgetSnapshot, BudgetError>)
      requires Valid()
      modifies this`highWater, this`history
      ensures history == old(history) + Writes(config, old(OnDisk()), Snapshot)
      ensures OnDisk() == Final(old(OnDisk()), Writes(config, old(OnDisk()), Snapshot))
      ensures r.Success? <==> Accepts(config, old(OnDisk())) && ScopeReadable(config, log)
      ensures r.Success? ==> r.value == SnapshotOf(config, log)
    {
      Completed(config, OnDisk(), Snapshot);
      var fault := Locked();
      if fault.Some? {
        return Failure(fault.value);
      }
      r := ReadSnapshot();
    }
  }
}

/** The append-only provider budget log: its events, what a log means, and the two
    readers that recompute that meaning from the file on every call. */
module BudgetLog {
  import opened Outcome
  import opened Sequences

  /** The pre-image of `logical_call_key`: the digest is injective by construction. */
  datatype LogicalCall = LogicalCall(trialId: string, requestDigest: string)

  datatype FailReason =
    | RequiredUsageFieldsMissing
    | UsageTotalMismatch
    | UsageTokenCountNegative
    | ProviderErrorUsageMissing
    | ProviderErrorUsageTotalMismatch
    | ProviderException

  datatype Violation = InputTokenCeilingExceeded | OutputTokenCeilingExceeded

  /** The `recorded…` fields are optional: older log lines do not carry them. */
  datatype Event =
    | Reserved(requestId: string, trialId: string, requestDigest: string,
               recordedCall: Option<LogicalCall>, recordedOrdinal: Option<int>, recordedAdditional: Option<bool>,
               maxInput: int, maxOutput: int, reservedCny: real)
    | Settled(requestId: string, inputTokens: int, outputTokens: int, chargedCny: real, violations: seq<Violation>)
    | Failed(requestId: string, reason: FailReason, chargedCny: real)
    | UnknownKind(requestId: string)
  {
    predicate Terminal() {
      Settled? || Failed?
    }

    predicate Blocking() {
      || (Failed? && (reason.RequiredUsageFieldsMissing? || reason.UsageTotalMismatch? || reason.UsageTokenCountNegative?))
      || (Settled? && violations != [])
    }

    function Call(): LogicalCall
      requires Reserved?
    {
      LogicalCall(trialId, requestDigest)
    }
  }

  datatype LogError =
    | DuplicateReservation
    | TerminalWithoutReservation
    | DuplicateTerminal
    | UnknownEvent
    | BaselineOutsideLedger
    | ReservationIdentityInvalid
    | RetryIdentityInvalid

  type Log = seq<Event>

  // ---------------------------------------------------------------- meaning of a log

  function ReservedIds(log: Log): set<string> {
    if log == [] then {}
    else ReservedIds(Init(log)) + if Last(log).Reserved? then {Last(log).requestId} else {}
  }

  function TerminalIds(log: Log): set<string> {
    if log == [] then {}
    else TerminalIds(Init(log)) + if Last(log).Terminal() then {Last(log).requestId} else {}
  }

  function OpenIds(log: Log): set<string> {
    ReservedIds(log) - TerminalIds(log)
  }

  /** The first reservation made under `id`. */
  function Reservation(log: Log, id: string): (e: Event)
    requires id in ReservedIds(log)
    ensures e.Reserved? && e.requestId == id && e in log
  {
    if id in ReservedIds(Init(log)) then Reservation(Init(log), id) else Last(log)
  }

  /** What is wrong with appending `e` to `log`, if anything. */
  function Defect(log: Log, e: Event): Option<LogError> {
    match e
    case Reserved(id, _, _, _, _, _, _, _, _) => if id in ReservedIds(log) then Some(DuplicateReservation) else None
    case UnknownKind(_) => Some(UnknownEvent)
    case _ =>
      if e.requestId !in ReservedIds(log) then Some(TerminalWithoutReservation)
      else if e.requestId in TerminalIds(log) then Some(DuplicateTerminal)
      else None
  }

  predicate WellFormed(log: Log) {
    log == [] || (WellFormed(Init(log)) && Defect(Init(log), Last(log)).None?)
  }

  /** Money committed to the provider: a reservation commits its maximum, and its
      terminal event replaces that maximum by the actual charge. */
  function Charged(log: Log): real
    requires WellFormed(log)
  {
    if log == [] then 0.0
    else
      var e := Last(log);
      var before := Charged(Init(log));
      if e.Reserved? then before + e.reservedCny
      else before - Reservation(Init(log), e.requestId).reservedCny + e.chargedCny
  }

  predicate Blocked(log: Log) {
    exists e :: e in log && e.Blocking()
  }

  function Reservations(log: Log): (rs: seq<Event>)
    ensures forall e :: e in rs ==> e.Reserved?
  {
    if log == [] then []
    else Reservations(Init(log)) + if Last(log).Reserved? then [Last(log)] else []
  }

  type ReservationSeq = rs: seq<Event> | forall e :: e in rs ==> e.Reserved?

  function Attempts(rs: ReservationSeq, call: LogicalCall): nat {
    if rs == [] then 0
    else Attempts(Init(rs), call) + if Last(rs).Call() == call then 1 else 0
  }

  /** The distinct logical calls a trial has made. */
  function TrialCalls(rs: ReservationSeq, trialId: string): set<LogicalCall> {
    set e <- rs | e.trialId == trialId :: e.Call()
  }

  /** Reservations that repeat an earlier logical call. */
  function Additional(rs: ReservationSeq): nat {
    if rs == [] then 0
    else Additional(Init(rs)) + if Attempts(Init(rs), Last(rs).Call()) > 0 then 1 else 0
  }

  /** What the scoped reader finds wrong with a reservation that follows `rs`. */
  function ScopedDefect(rs: ReservationSeq, e: Event): Option<LogError>
    requires e.Reserved?
  {
    var ordinal := Attempts(rs, e.Call()) + 1;
    if e.trialId == "" || e.requestDigest == "" then Some(ReservationIdentityInvalid)
    else if || (e.recordedCall.Some? && e.recordedCall.value != e.Call())
            || (e.recordedOrdinal.Some? && e.recordedOrdinal.value != ordinal)
            || (e.recordedAdditional.Some? && e.recordedAdditional.value != (ordinal > 1))
    then Some(RetryIdentityInvalid)
    else None
  }

  predicate ScopedReadable(rs: ReservationSeq) {
    rs == [] || (ScopedReadable(Init(rs)) && ScopedDefect(Init(rs), Last(rs)).None?)
  }

  predicate BaselineInside(log: Log, baseline: int) {
    0 <= baseline <= |Reservations(log)|
  }

  /** The reservations made after the approval baseline. */
  function Scope(log: Log, baseline: int): ReservationSeq
    requires BaselineInside(log, baseline)
  {
    Reservations(log)[baseline..]
  }

  // ---------------------------------------------------------------- appending one event

  /** A well-formed log stays well-formed when cut at any point. */
  lemma {:induction false} WellFormedPrefix(log: Log, k: nat)
    requires WellFormed(log) && k <= |log|
    ensures WellFormed(log[..k])
  {
    if k < |log| {
      WellFormedPrefix(Init(log), k);
      assert Init(log)[..k] == log[..k];
    } else {
      assert log[..k] == log;
    }
  }

  lemma {:induction false} IdsAreEvents(log: Log, id: string)
    ensures id in ReservedIds(log) <==> exists i :: 0 <= i < |log| && log[i].Reserved? && log[i].requestId == id
    ensures id in TerminalIds(log) <==> exists i :: 0 <= i < |log| && log[i].Terminal() && log[i].requestId == id
  {
    if log != [] {
      IdsAreEvents(Init(log), id);
      assert forall i :: 0 <= i < |log| - 1 ==> Init(log)[i] == log[i];
    }
  }

  ghost predicate DistinctReservations(log: Log) {
    forall i, j :: 0 <= i < j < |log| && log[i].Reserved? && log[j].Reserved? ==> log[i].requestId != log[j].requestId
  }

  ghost predicate DistinctTerminals(log: Log) {
    forall i, j :: 0 <= i < j < |log| && log[i].Terminal() && log[j].Terminal() ==> log[i].requestId != log[j].requestId
  }

  ghost predicate TerminalsFollowReservations(log: Log) {
    forall j :: 0 <= j < |log| && log[j].Terminal() ==>
      exists i :: 0 <= i < j && log[i].Reserved? && log[i].requestId == log[j].requestId
  }

  /** What the reader accepts, without reference to reading: known kinds only, no id
      reserved twice, none ended twice, and none ended before it was reserved. */
  ghost predicate Consistent(log: Log) {
    && (forall i :: 0 <= i < |log| ==> !log[i].UnknownKind?)
    && DistinctReservations(log) && DistinctTerminals(log) && TerminalsFollowReservations(log)
  }

  lemma DistinctSnoc(log: Log, e: Event)
    ensures DistinctReservations(log + [e]) <==>
      DistinctReservations(log) && (e.Reserved? ==> e.requestId !in ReservedIds(log))
    ensures DistinctTerminals(log + [e]) <==>
      DistinctTerminals(log) && (e.Terminal() ==> e.requestId !in TerminalIds(log))
  {
    DistinctReservationsSnoc(log, e);
    DistinctTerminalsSnoc(log, e);
  }

  lemma DistinctReservationsSnoc(log: Log, e: Event)
    ensures DistinctReservations(log + [e]) <==>
      DistinctReservations(log) && (e.Reserved? ==> e.requestId !in ReservedIds(log))
  {
    IdsAreEvents(log, e.requestId);
    var later := log + [e];
    assert later[|log|] == e && forall i :: 0 <= i < |log| ==> later[i] == log[i];
    if DistinctReservations(later) {
      forall i, j | 0 <= i < j < |log| && log[i].Reserved? && log[j].Reserved?
        ensures log[i].requestId != log[j].requestId
      {
        assert later[i].requestId != later[j].requestId;
      }
      forall i | 0 <= i < |log| && log[i].Reserved? && e.Reserved?
        ensures log[i].requestId != e.requestId
      {
        assert later[i].requestId != later[|log|].requestId;
      }
    }
  }

  lemma DistinctTerminalsSnoc(log: Log, e: Event)
    ensures DistinctTerminals(log + [e]) <==>
      DistinctTerminals(log) && (e.Terminal() ==> e.requestId !in TerminalIds(log))
  {
    IdsAreEvents(log, e.requestId);
    var later := log + [e];
    assert later[|log|] == e && forall i :: 0 <= i < |log| ==> later[i] == log[i];
    if DistinctTerminals(later) {
      forall i, j | 0 <= i < j < |log| && log[i].Terminal() && log[j].Terminal()
        ensures log[i].requestId != log[j].requestId
      {
        assert later[i].requestId != later[j].requestId;
      }
      forall i | 0 <= i < |log| && log[i].Terminal() && e.Terminal()
        ensures log[i].requestId != e.requestId
      {
        assert later[i].requestId != later[|log|].requestId;
      }
    }
  }

  lemma FollowSnoc(log: Log, e: Event)
    ensures TerminalsFollowReservations(log + [e]) <==>
      TerminalsFollowReservations(log) && (e.Terminal() ==> e.requestId in ReservedIds(log))
  {
    IdsAreEvents(log, e.requestId);
    var later := log + [e];
    assert forall i :: 0 <= i < |log| ==> later[i] == log[i];
    assert later[|log|] == e;
  }

  lemma {:induction false} WellFormedMeansConsistent(log: Log)
    ensures WellFormed(log) <==> Consistent(log)
  {
    if log != [] {
      WellFormedMeansConsistent(Init(log));
      assert log == Init(log) + [Last(log)];
      DistinctSnoc(Init(log), Last(log));
      FollowSnoc(Init(log), Last(log));
    }
  }

  lemma {:induction false} TerminalsAreReserved(log: Log)
    requires WellFormed(log)
    ensures TerminalIds(log) <= ReservedIds(log)
  {
    if log != [] {
      TerminalsAreReserved(Init(log));
    }
  }

  /** The reservation of an id is unaffected by later events. */
  lemma ReservationSnoc(log: Log, e: Event, id: string)
    requires id in ReservedIds(log)
    ensures id in ReservedIds(log + [e]) && Reservation(log + [e], id) == Reservation(log, id)
  {
    Snoc(log, e);
  }

  lemma BlockedSnoc(log: Log, e: Event)
    ensures Blocked(log + [e]) <==> Blocked(log) || e.Blocking()
  {
    if e.Blocking() {
      assert e in log + [e];
    }
    if Blocked(log) {
      var b :| b in log && b.Blocking();
      assert b in log + [e];
    }
  }

  lemma AttemptsSnoc(rs: ReservationSeq, e: Event, call: LogicalCall)
    requires e.Reserved?
    ensures Attempts(rs + [e], call) == Attempts(rs, call) + if e.Call() == call then 1 else 0
    ensures Additional(rs + [e]) == Additional(rs) + if Attempts(rs, e.Call()) > 0 then 1 else 0
    ensures ScopedReadable(rs + [e]) <==> ScopedReadable(rs) && ScopedDefect(rs, e).None?
  {
    Snoc(rs, e);
  }

  lemma {:induction false} AttemptsPositive(rs: ReservationSeq, call: LogicalCall)
    ensures Attempts(rs, call) > 0 <==> exists e :: e in rs && e.Call() == call
  {
    if rs != [] {
      AttemptsPositive(Init(rs), call);
      assert rs == Init(rs) + [Last(rs)];
    }
  }

  lemma TrialCallsSnoc(rs: ReservationSeq, e: Event, trialId: string)
    requires e.Reserved?
    ensures TrialCalls(rs + [e], trialId) == TrialCalls(rs, trialId) + if e.trialId == trialId then {e.Call()} else {}
    ensures e.Call() in TrialCalls(rs, e.trialId) <==> Attempts(rs, e.Call()) > 0
  {
    AttemptsPositive(rs, e.Call());
    assert forall x :: x in rs + [e] <==> x in rs || x == e;
  }

  lemma CallsGrow(rs: ReservationSeq, e: Event, t: string)
    requires e.Reserved?
    ensures |TrialCalls(rs + [e], t)| == |TrialCalls(rs, t)| + if e.trialId == t && Attempts(rs, e.Call()) == 0 then 1 else 0
  {
    TrialCallsSnoc(rs, e, t);
  }

  /** Appending a reservation extends the scope by exactly that reservation, and any
      other event leaves it alone. */
  lemma ScopeSnoc(log: Log, e: Event, baseline: int)
    requires BaselineInside(log, baseline)
    ensures BaselineInside(log + [e], baseline)
    ensures Scope(log + [e], baseline) == Scope(log, baseline) + if e.Reserved? then [e] else []
  {
    Snoc(log, e);
  }

  // ---------------------------------------------------------------- the ledger reader

  datatype LedgerState = LedgerState(requestAttempts: nat, chargedCny: real, openReservations: nat, blocked: bool)

  /** The sum the reader takes over its two dictionaries. */
  function Total(order: seq<string>, reservations: map<string, real>, terminal: map<string, real>): real
    requires forall id :: id in order ==> id in reservations
  {
    if order == [] then 0.0
    else
      var id := Last(order);
      Total(Init(order), reservations, terminal) + if id in terminal then terminal[id] else reservations[id]
  }

  lemma {:induction false} TotalFrame(order: seq<string>, reservations: map<string, real>, terminal: map<string, real>,
                   reservations': map<string, real>, terminal': map<string, real>)
    requires forall id :: id in order ==> id in reservations && id in reservations' && reservations'[id] == reservations[id]
    requires forall id :: id in order ==> (id in terminal <==> id in terminal')
    requires forall id :: id in order && id in terminal ==> terminal'[id] == terminal[id]
    ensures Total(order, reservations', terminal') == Total(order, reservations, terminal)
  {
    if order != [] {
      TotalFrame(Init(order), reservations, terminal, reservations', terminal');
    }
  }

  lemma {:induction false} TotalTerminal(order: seq<string>, reservations: map<string, real>,
                                         terminal: map<string, real>,
                      id: string, charged: real)
    requires forall x :: x in order ==> x in reservations
    requires NoDuplicates(order) && id in order && id !in terminal
    ensures Total(order, reservations, terminal[id := charged])
         == Total(order, reservations, terminal) - reservations[id] + charged
  {
    if Last(order) == id {
      TotalFrame(Init(order), reservations, terminal, reservations, terminal[id := charged]);
    } else {
      TotalTerminal(Init(order), reservations, terminal, id, charged);
    }
  }

  /** The reader's dictionaries after it has read `log`. */
  ghost predicate Tracks(log: Log, reservations: map<string, real>, terminal: map<string, real>, order: seq<string>) {
    && WellFormed(log)
    && reservations.Keys == ReservedIds(log) && terminal.Keys == TerminalIds(log)
    && NoDuplicates(order) && (forall id :: id in order <==> id in reservations)
    && (forall id :: id in reservations ==> reservations[id] == Reservation(log, id).reservedCny)
    && Total(order, reservations, terminal) == Charged(log)
  }

  lemma ReservationsSnoc(log: Log, e: Event)
    ensures forall id :: id in ReservedIds(log) ==>
      id in ReservedIds(log + [e]) && Reservation(log + [e], id) == Reservation(log, id)
  {
    forall id | id in ReservedIds(log)
      ensures id in ReservedIds(log + [e]) && Reservation(log + [e], id) == Reservation(log, id)
    {
      ReservationSnoc(log, e, id);
    }
  }

  lemma TrackReservation(log: Log, reservations: map<string, real>, terminal: map<string, real>, order: seq<string>,
                         e: Event)
    requires Tracks(log, reservations, terminal, order) && e.Reserved? && e.requestId !in reservations
    ensures Tracks(log + [e], reservations[e.requestId := e.reservedCny], terminal, order + [e.requestId])
  {
    var id := e.requestId;
    Snoc(log, e);
    TerminalsAreReserved(log);
    ReservationsSnoc(log, e);
    assert Total(order + [id], reservations[id := e.reservedCny], terminal) == Charged(log + [e]) by {
      Snoc(order, id);
      TotalFrame(order, reservations, terminal, reservations[id := e.reservedCny], terminal);
    }
  }

  lemma TrackTerminal(log: Log, reservations: map<string, real>, terminal: map<string, real>, order: seq<string>,
                      e: Event)
    requires Tracks(log, reservations, terminal, order)
    requires e.Terminal() && e.requestId in reservations && e.requestId !in terminal
    ensures Tracks(log + [e], reservations, terminal[e.requestId := e.chargedCny], order)
  {
    Snoc(log, e);
    TotalTerminal(order, reservations, terminal, e.requestId, e.chargedCny);
    ReservationsSnoc(log, e);
  }

  /** One defective event makes the whole log malformed. */
  lemma NoDefectInside(log: Log, k: nat)
    requires k < |log|
    ensures WellFormed(log) ==> Defect(log[..k], log[k]).None?
  {
    if WellFormed(log) {
      WellFormedPrefix(log, k + 1);
      assert log[..k + 1] == log[..k] + [log[k]];
    }
  }

  method ReadLedgerState(log: Log) returns (r: Result<LedgerState, LogError>)
    ensures r.Success? <==> WellFormed(log)
    ensures r.Success? ==>
      r.value == LedgerState(|ReservedIds(log)|, Charged(log), |OpenIds(log)|, Blocked(log))
    ensures r.Failure? ==>
      exists k | 0 <= k < |log| :: WellFormed(log[..k]) && Defect(log[..k], log[k]) == Some(r.error)
  {
    var reservations: map<string, real> := map[];
    var terminal: map<string, real> := map[];
    var order: seq<string> := [];
    for i := 0 to |log|
      invariant Tracks(log[..i], reservations, terminal, order)
    {
      var e := log[i];
      var fault: Option<LogError> := None;
      if e.Reserved? {
        if e.requestId in reservations {
          fault := Some(DuplicateReservation);
        }
      } else if e.Terminal() {
        if e.requestId !in reservations {
          fault := Some(TerminalWithoutReservation);
        } else if e.requestId in terminal {
          fault := Some(DuplicateTerminal);
        }
      } else {
        fault := Some(UnknownEvent);
      }
      assert fault == Defect(log[..i], e);
      if fault.Some? {
        NoDefectInside(log, i);
        return Failure(fault.value);
      }
      assert log[..i + 1] == log[..i] + [e];
      if e.Reserved? {
        TrackReservation(log[..i], reservations, terminal, order, e);
        order := order + [e.requestId];
        reservations := reservations[e.requestId := e.reservedCny];
      } else {
        TrackTerminal(log[..i], reservations, terminal, order, e);
        terminal := terminal[e.requestId := e.chargedCny];
      }
    }
    assert log[..|log|] == log;
    var charged := Total(order, reservations, terminal);
    var blocked := exists e :: e in log && e.Blocking();
    return Success(LedgerState(|reservations.Keys|, charged, |reservations.Keys - terminal.Keys|, blocked));
  }

  // ---------------------------------------------------------------- the scoped reader

  datatype ScopedState = ScopedState(attempts: map<LogicalCall, nat>, logicalCalls: map<string, nat>, additional: nat)

  /** What the scoped reader must report about the reservations `rs`. */
  ghost predicate Summarizes(s: ScopedState, rs: ReservationSeq) {
    && (forall call :: (call in s.attempts <==> Attempts(rs, call) > 0)
                    && (call in s.attempts ==> s.attempts[call] == Attempts(rs, call)))
    && (forall trialId :: (trialId in s.logicalCalls <==> TrialCalls(rs, trialId) != {})
                       && (trialId in s.logicalCalls ==> s.logicalCalls[trialId] == |TrialCalls(rs, trialId)|))
    && s.additional == Additional(rs)
  }

  ghost predicate TracksScope(rs: ReservationSeq, attempts: map<LogicalCall, nat>,
                              calls: map<string, set<LogicalCall>>) {
    && (forall call :: (call in attempts <==> Attempts(rs, call) > 0)
                    && (call in attempts ==> attempts[call] == Attempts(rs, call)))
    && (forall trialId :: (trialId in calls <==> TrialCalls(rs, trialId) != {})
                       && (trialId in calls ==> calls[trialId] == TrialCalls(rs, trialId)))
  }

  lemma TrackScoped(rs: ReservationSeq, attempts: map<LogicalCall, nat>, calls: map<string, set<LogicalCall>>, e: Event)
    requires TracksScope(rs, attempts, calls) && e.Reserved?
    ensures TracksScope(rs + [e],
                        attempts[e.Call() := (if e.Call() in attempts then attempts[e.Call()] else 0) + 1],
                        calls[e.trialId := (if e.trialId in calls then calls[e.trialId] else {}) + {e.Call()}])
  {
    forall c
      ensures Attempts(rs + [e], c) == Attempts(rs, c) + if e.Call() == c then 1 else 0
    {
      AttemptsSnoc(rs, e, c);
    }
    forall t
      ensures TrialCalls(rs + [e], t) == TrialCalls(rs, t) + if e.trialId == t then {e.Call()} else {}
    {
      TrialCallsSnoc(rs, e, t);
    }
  }

  /** The scoped reader after the reservations `rs`. */
  ghost predicate ReadScope(rs: ReservationSeq, attempts: map<LogicalCall, nat>, calls: map<string, set<LogicalCall>>,
                            additional: nat) {
    ScopedReadable(rs) && TracksScope(rs, attempts, calls) && additional == Additional(rs)
  }

  lemma ReadOneMore(rs: ReservationSeq, attempts: map<LogicalCall, nat>, calls: map<string, set<LogicalCall>>,
                    additional: nat, e: Event, ordinal: nat)
    requires ReadScope(rs, attempts, calls, additional) && e.Reserved? && ScopedDefect(rs, e).None?
    requires ordinal == (if e.Call() in attempts then attempts[e.Call()] else 0) + 1
    ensures ReadScope(rs + [e], attempts[e.Call() := ordinal],
                      calls[e.trialId := (if e.trialId in calls then calls[e.trialId] else {}) + {e.Call()}],
                      if ordinal > 1 then additional + 1 else additional)
  {
    TrackScoped(rs, attempts, calls, e);
    AttemptsSnoc(rs, e, e.Call());
  }

  lemma NoScopedDefectInside(rs: ReservationSeq, k: nat)
    requires k < |rs|
    ensures ScopedReadable(rs) ==> ScopedDefect(rs[..k], rs[k]).None?
  {
    if ScopedReadable(rs) {
      ScopedReadablePrefix(rs, k + 1);
      assert rs[..k + 1] == rs[..k] + [rs[k]];
      AttemptsSnoc(rs[..k], rs[k], rs[k].Call());
    }
  }

  /** The checks on one reservation, in order. */
  method CheckIdentity(ghost rs: ReservationSeq, e: Event, ordinal: nat) returns (fault: Option<LogError>)
    requires e.Reserved? && ordinal == Attempts(rs, e.Call()) + 1
    ensures fault == ScopedDefect(rs, e)
  {
    if e.trialId == "" || e.requestDigest == "" {
      return Some(ReservationIdentityInvalid);
    }
    if || (e.recordedCall.Some? && e.recordedCall.value != e.Call())
       || (e.recordedOrdinal.Some? && e.recordedOrdinal.value != ordinal)
       || (e.recordedAdditional.Some? && e.recordedAdditional.value != (ordinal > 1))
    {
      return Some(RetryIdentityInvalid);
    }
    return None;
  }

  method ReadReservations(rs: ReservationSeq)
    returns (fault: Option<LogError>, attempts: map<LogicalCall, nat>, calls: map<string, set<LogicalCall>>, additional: nat)
    ensures fault.None? <==> ScopedReadable(rs)
    ensures fault.Some? ==> fault.value == ReservationIdentityInvalid || fault.value == RetryIdentityInvalid
    ensures fault.None? ==> ReadScope(rs, attempts, calls, additional)
  {
    fault, attempts, calls, additional := None, map[], map[], 0;
    for i := 0 to |rs|
      invariant ReadScope(rs[..i], attempts, calls, additional)
    {
      var e := rs[i];
      var ordinal := (if e.Call() in attempts then attempts[e.Call()] else 0) + 1;
      fault := CheckIdentity(rs[..i], e, ordinal);
      if fault.Some? {
        NoScopedDefectInside(rs, i);
        return;
      }
      assert rs[..i + 1] == rs[..i] + [e];
      ReadOneMore(rs[..i], attempts, calls, additional, e, ordinal);
      attempts := attempts[e.Call() := ordinal];
      calls := calls[e.trialId := (if e.trialId in calls then calls[e.trialId] else {}) + {e.Call()}];
      if ordinal > 1 {
        additional := additional + 1;
      }
    }
    assert rs[..|rs|] == rs;
    fault := None;
  }

  method ReadScopedState(log: Log, baseline: int) returns (r: Result<ScopedState, LogError>)
    ensures !BaselineInside(log, baseline) ==> r == Failure(BaselineOutsideLedger)
    ensures BaselineInside(log, baseline) ==>
      && (r.Success? <==> ScopedReadable(Scope(log, baseline)))
      && (r.Success? ==> Summarizes(r.value, Scope(log, baseline)))
    ensures r.Failure? ==>
      r.error == BaselineOutsideLedger || r.error == ReservationIdentityInvalid || r.error == RetryIdentityInvalid
  {
    var reservations := Reservations(log);
    if baseline < 0 || baseline > |reservations| {
      return Failure(BaselineOutsideLedger);
    }
    var fault, attempts, calls, additional := ReadReservations(reservations[baseline..]);
    if fault.Some? {
      return Failure(fault.value);
    }
    return Success(ScopedState(attempts, map t <- calls :: |calls[t]|, additional));
  }

  lemma {:induction false} ScopedReadablePrefix(rs: ReservationSeq, k: nat)
    requires ScopedReadable(rs) && k <= |rs|
    ensures ScopedReadable(rs[..k])
  {
    if k < |rs| {
      ScopedReadablePrefix(Init(rs), k);
      assert Init(rs)[..k] == rs[..k];
    } else {
      assert rs[..k] == rs;
    }
  }

  // ---------------------------------------------------------------- conservation

  /** Every reservation in scope either opens a logical call of some trial or repeats one:
      adding a trial outside `trials` never hides a reservation. */
  lemma {:induction false} AttemptConservation(rs: ReservationSeq, trials: seq<string>)
    requires NoDuplicates(trials)
    requires forall e :: e in rs ==> e.trialId in trials
    ensures |rs| == DistinctCalls(rs, trials) + Additional(rs)
  {
    if rs == [] {
      NoCalls(trials);
    } else {
      var prior, e := Init(rs), Last(rs);
      assert rs == prior + [e];
      AttemptConservation(prior, trials);
      AttemptsSnoc(prior, e, e.Call());
      DistinctCallsSnoc(prior, e, trials);
    }
  }

  /** Logical calls summed over the listed trials. */
  function DistinctCalls(rs: ReservationSeq, trials: seq<string>): nat {
    if trials == [] then 0 else DistinctCalls(rs, Init(trials)) + |TrialCalls(rs, Last(trials))|
  }

  lemma {:induction false} NoCalls(trials: seq<string>)
    ensures DistinctCalls([], trials) == 0
  {
    if trials != [] {
      NoCalls(Init(trials));
    }
  }

  lemma {:induction false} DistinctCallsSnoc(rs: ReservationSeq, e: Event, trials: seq<string>)
    requires e.Reserved? && NoDuplicates(trials)
    ensures DistinctCalls(rs + [e], trials)
         == DistinctCalls(rs, trials) + if e.trialId in trials && Attempts(rs, e.Call()) == 0 then 1 else 0
  {
    if trials != [] {
      DistinctCallsSnoc(rs, e, Init(trials));
      CallsGrow(rs, e, Last(trials));
      assert e.trialId in trials <==> e.trialId in Init(trials) || e.trialId == Last(trials);
      assert Last(trials) !in Init(trials);
    }
  }
}

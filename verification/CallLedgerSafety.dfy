/** No silent loss in the call ledger, under every interleaving. */
module CallLedgerSafety {
  import opened Outcome
  import opened Sequences
  import opened CallLedger

  // ---------------------------------------------------------------- runs

  predicate Feasible(s: State, capacity: int, steps: seq<Step>)
    decreases |steps|, 0
  {
    steps == [] || (Feasible(s, capacity, Init(steps)) && Enabled(Run(s, capacity, Init(steps)), capacity, Last(steps)))
  }

  /** The state after the steps of all threads, in the order in which they took place. */
  function Run(s: State, capacity: int, steps: seq<Step>): State
    requires Feasible(s, capacity, steps)
    decreases |steps|, 1
  {
    if steps == [] then s else After(Run(s, capacity, Init(steps)), capacity, Last(steps))
  }

  // ---------------------------------------------------------------- invariant

  function Lines(queue: seq<Item>): seq<string> {
    if queue == [] then []
    else if queue[0].Line? then [queue[0].text] + Lines(queue[1..])
    else Lines(queue[1..])
  }

  lemma {:induction false} LinesSnoc(queue: seq<Item>, item: Item)
    ensures Lines(queue + [item]) == Lines(queue) + if item.Line? then [item.text] else []
    decreases |queue|
  {
    if queue == [] {
      assert queue + [item] == [item] && [item][1..] == [];
    } else {
      assert (queue + [item])[1..] == queue[1..] + [item];
      LinesSnoc(queue[1..], item);
    }
  }

  /** Lines the writer has taken and not yet written. */
  function Taken(w: Writer): seq<string> {
    match w
    case Collecting(lines) => lines
    case Writing(lines, _) => lines
    case _ => []
  }

  /** Lines on disk that are not counted yet. */
  function Uncounted(w: Writer): nat {
    if w.Counting? then |w.lines| else 0
  }

  predicate Broken(w: Writer) {
    w.Failing? || w.ReportingFailure? || w.Exited?
  }

  /** Every line that entered the queue is on disk, was dropped by a failed write, is in the
      writer's hands, or is still queued, in this order. */
  ghost predicate Accounted(s: State) {
    && s.disk + s.dropped + Taken(s.writer) + Lines(s.queue) == s.enqueued
    && (s.dropped != [] ==> Broken(s.writer))
    && (s.dropped != [] && !s.writer.Failing? ==> s.failure.Some?)
  }

  ghost predicate Counted(s: State) {
    && s.accepted == |s.acceptedLines| && s.enqueued <= s.acceptedLines
    && (s.failure.None? ==> s.enqueued == s.acceptedLines)
    && s.persisted + Uncounted(s.writer) <= |s.disk|
    && (s.failure.None? && !s.writer.Failing? ==> s.persisted + Uncounted(s.writer) == |s.disk|)
    && (s.writer.ReportingFailure? ==> s.failure.Some?)
  }

  /** Everything accepted is on disk and counted. */
  ghost predicate Complete(s: State) {
    s.closed && s.disk == s.acceptedLines && s.persisted == s.accepted
  }

  predicate JudgedHealthy(c: Closer) {
    (c.Reporting? || c.Finishing? || c.Closed?) && c.status == Healthy
  }

  ghost predicate VerdictsHold(s: State) {
    && (s.closers != map[] ==> s.closed)
    && (forall id :: id in s.closers && JudgedHealthy(s.closers[id]) ==> Complete(s))
  }

  ghost predicate GoodReport(s: State, r: Report) {
    && r.persisted <= r.accepted <= s.accepted && r.persisted <= s.persisted
    && (r.status == Healthy ==> r.persisted == r.accepted && Complete(s))
  }

  ghost predicate Inv(s: State) {
    Accounted(s) && Counted(s) && VerdictsHold(s) && forall r :: r in s.reports ==> GoodReport(s, r)
  }

  // ---------------------------------------------------------------- facts

  /** What is on disk is a prefix of what entered the queue, and never more than accepted. */
  lemma DiskIsPrefix(s: State)
    requires Accounted(s) && Counted(s)
    ensures s.disk <= s.enqueued <= s.acceptedLines && s.persisted <= |s.disk| <= s.accepted
  {
    assert s.enqueued[..|s.disk|] == s.disk;
  }

  /** A ledger that is complete stays so: nothing is left to write or to take. */
  lemma CompleteIsQuiet(s: State)
    requires Accounted(s) && Counted(s) && Complete(s)
    ensures s.enqueued == s.disk && s.dropped == [] && Taken(s.writer) == [] && Lines(s.queue) == [] && Uncounted(s.writer) == 0
  {
    DiskIsPrefix(s);
    assert |s.disk| + |s.dropped| + |Taken(s.writer)| + |Lines(s.queue)| == |s.enqueued|;
  }

  /** The verdict is healthy only if every accepted line is on disk. */
  lemma HealthyIsComplete(s: State)
    requires Accounted(s) && Counted(s) && s.Verdict() == Healthy
    ensures s.disk == s.acceptedLines && s.persisted == s.accepted
  {
    DiskIsPrefix(s);
  }

  // ---------------------------------------------------------------- every step keeps the invariant

  lemma AppendKeeps(s: State, capacity: int, line: string)
    requires Accounted(s) && Counted(s)
    ensures Accounted(AfterAppend(s, capacity, line)) && Counted(AfterAppend(s, capacity, line))
  {
    LinesSnoc(s.queue, Line(line));
    var kept := s.disk + s.dropped + Taken(s.writer);
    assert kept + (Lines(s.queue) + [line]) == kept + Lines(s.queue) + [line];
  }

  lemma GetKeeps(s: State, lines: seq<string>)
    requires Accounted(s) && Counted(s) && s.queue != [] && (s.writer == Collecting(lines) || (s.writer.Waiting? && lines == []))
    ensures Accounted(AfterGet(s, lines)) && Counted(AfterGet(s, lines))
  {
    if s.queue[0].Line? {
      var text := s.queue[0].text;
      assert s.disk + s.dropped + lines + ([text] + Lines(s.queue[1..])) == s.disk + s.dropped + (lines + [text]) + Lines(s.queue[1..]);
    }
  }

  lemma WriteKeeps(s: State, ok: bool, reached: nat)
    requires Accounted(s) && Counted(s) && s.writer.Writing? && reached <= |s.writer.lines| && (ok ==> reached == |s.writer.lines|)
    requires Enabled(s, 0, WriteBatch(ok, reached))
    ensures Accounted(After(s, 0, WriteBatch(ok, reached))) && Counted(After(s, 0, WriteBatch(ok, reached)))
  {
    var lines := s.writer.lines;
    assert lines == lines[..reached] + lines[reached..];
    assert s.dropped == [];
    assert s.disk + [] + lines + Lines(s.queue) == s.disk + lines[..reached] + lines[reached..] + [] + Lines(s.queue);
    DiskIsPrefix(s);
  }

  lemma StopKeeps(s: State, queue: seq<Item>)
    requires Accounted(s) && Counted(s)
    ensures Lines(s.queue + [Stop]) == Lines(s.queue)
  {
    LinesSnoc(s.queue, Stop);
  }

  /** The lines and the counts. */
  lemma StepKeepsAccounts(s: State, capacity: int, step: Step)
    requires Accounted(s) && Counted(s) && Enabled(s, capacity, step)
    ensures Accounted(After(s, capacity, step)) && Counted(After(s, capacity, step))
  {
    match step
    case Append(line) => AppendKeeps(s, capacity, line);
    case Get => GetKeeps(s, []);
    case GetMore =>
      if |s.writer.lines| < BATCH && s.queue != [] {
        GetKeeps(s, s.writer.lines);
      }
    case WriteBatch(ok, reached) =>
      WriteKeeps(s, ok, reached);
      assert After(s, capacity, step) == After(s, 0, step);
    case PutStop(_, _) => StopKeeps(s, s.queue);
    case _ =>
  }

  /** Once everything accepted is on disk in a closed ledger, no step changes that. */
  lemma StepKeepsComplete(s: State, capacity: int, step: Step)
    requires Accounted(s) && Counted(s) && Complete(s) && Enabled(s, capacity, step)
    ensures Complete(After(s, capacity, step))
  {
    CompleteIsQuiet(s);
  }

  lemma CountsGrow(s: State, capacity: int, step: Step)
    requires Enabled(s, capacity, step)
    ensures s.accepted <= After(s, capacity, step).accepted && s.persisted <= After(s, capacity, step).persisted
  {
  }

  lemma StepKeepsReport(s: State, capacity: int, step: Step, r: Report)
    requires Accounted(s) && Counted(s) && Enabled(s, capacity, step) && GoodReport(s, r)
    ensures GoodReport(After(s, capacity, step), r)
  {
    CountsGrow(s, capacity, step);
    if Complete(s) {
      StepKeepsComplete(s, capacity, step);
    }
  }

  lemma NewReportIsGood(s: State, status: Status)
    requires Accounted(s) && Counted(s) && (status == Healthy ==> Complete(s))
    ensures GoodReport(s, s.ReportNow(status))
  {
    DiskIsPrefix(s);
  }

  lemma StepKeepsReports(s: State, capacity: int, step: Step)
    requires Inv(s) && Enabled(s, capacity, step)
    ensures forall r :: r in After(s, capacity, step).reports ==> GoodReport(After(s, capacity, step), r)
  {
    var t := After(s, capacity, step);
    if step.WriteReport? {
      NewReportIsGood(s, s.closers[step.id].status);
    } else if step.ReportFailure? {
      NewReportIsGood(s, Degraded);
    }
    forall r | r in t.reports
      ensures GoodReport(t, r)
    {
      StepKeepsReport(s, capacity, step, r);
    }
  }

  lemma StepKeepsVerdicts(s: State, capacity: int, step: Step)
    requires Inv(s) && Enabled(s, capacity, step)
    ensures VerdictsHold(After(s, capacity, step))
  {
    var t := After(s, capacity, step);
    if step.Judge? && s.Verdict() == Healthy {
      HealthyIsComplete(s);
    }
    forall id | id in t.closers && JudgedHealthy(t.closers[id])
      ensures Complete(t)
    {
      assert Complete(s);
      StepKeepsComplete(s, capacity, step);
    }
  }

  lemma StepKeepsInv(s: State, capacity: int, step: Step)
    requires Inv(s) && Enabled(s, capacity, step)
    ensures Inv(After(s, capacity, step))
  {
    StepKeepsAccounts(s, capacity, step);
    StepKeepsVerdicts(s, capacity, step);
    StepKeepsReports(s, capacity, step);
  }

  lemma {:induction false} RunKeepsInv(s: State, capacity: int, steps: seq<Step>)
    requires Inv(s) && Feasible(s, capacity, steps)
    ensures Inv(Run(s, capacity, steps))
    decreases |steps|
  {
    if steps != [] {
      RunKeepsInv(s, capacity, Init(steps));
      StepKeepsInv(Run(s, capacity, Init(steps)), capacity, Last(steps));
    }
  }

  // ---------------------------------------------------------------- results

  /** Under every interleaving, lines on disk are a prefix of the lines that entered the queue, in
      the order of acceptance and each at most once; the loss that is reported is at least the
      actual one; and no health report claims more than is on disk. */
  lemma NoSilentLoss(capacity: int, steps: seq<Step>)
    requires Feasible(FRESH, capacity, steps)
    ensures var s := Run(FRESH, capacity, steps);
      && s.disk <= s.enqueued <= s.acceptedLines && s.accepted == |s.acceptedLines|
      && s.accepted - s.persisted >= |s.acceptedLines| - |s.disk|
      && (forall id :: id in s.closers && JudgedHealthy(s.closers[id]) ==> s.disk == s.acceptedLines && s.persisted == s.accepted)
      && (forall r :: r in s.reports ==> r.persisted <= r.accepted && (r.status == Healthy ==> r.persisted == r.accepted && s.disk == s.acceptedLines))
  {
    RunKeepsInv(FRESH, capacity, steps);
    DiskIsPrefix(Run(FRESH, capacity, steps));
  }

  ghost predicate Bounded(s: State, capacity: int) {
    && (0 < capacity ==> |s.queue| <= capacity)
    && (s.writer.Collecting? || s.writer.Writing? || s.writer.Counting? ==> |s.writer.lines| <= BATCH)
  }

  lemma StepKeepsBounded(s: State, capacity: int, step: Step)
    requires Bounded(s, capacity) && Enabled(s, capacity, step)
    ensures Bounded(After(s, capacity, step), capacity)
  {
  }

  /** The queue never exceeds its capacity, nor a batch its size. */
  lemma {:induction false} QueueIsBounded(capacity: int, steps: seq<Step>)
    requires Feasible(FRESH, capacity, steps)
    ensures Bounded(Run(FRESH, capacity, steps), capacity)
    decreases |steps|
  {
    if steps != [] {
      QueueIsBounded(capacity, Init(steps));
      StepKeepsBounded(Run(FRESH, capacity, Init(steps)), capacity, Last(steps));
    }
  }

  lemma ExitVerdict(s: State)
    requires Accounted(s) && Counted(s) && s.writer.Exited? && s.failure.None?
    ensures s.Verdict() == Healthy <==> Lines(s.queue) == []
  {
    assert s.dropped == [] && Taken(s.writer) == [];
    assert s.disk + Lines(s.queue) == s.enqueued == s.acceptedLines;
    assert |s.disk| + |Lines(s.queue)| == s.accepted && s.persisted == |s.disk|;
  }

  /** Closing is final: from then on no run accepts or enqueues another line. */
  lemma {:induction false} ClosedStaysClosed(s: State, capacity: int, steps: seq<Step>)
    requires s.closed && Feasible(s, capacity, steps)
    ensures var t := Run(s, capacity, steps);
      t.closed && t.acceptedLines == s.acceptedLines && t.accepted == s.accepted && t.enqueued == s.enqueued
    decreases |steps|
  {
    if steps != [] {
      ClosedStaysClosed(s, capacity, Init(steps));
    }
  }

  // ---------------------------------------------------------------- what the counts mean

  predicate CloseBegun(steps: seq<Step>) {
    exists x :: x in steps && x.BeginClose?
  }

  /** The lines appended before the first close, whatever became of them. */
  function AppendedLines(steps: seq<Step>): seq<string> {
    if steps == [] then []
    else if Last(steps).Append? && !CloseBegun(Init(steps)) then AppendedLines(Init(steps)) + [Last(steps).line]
    else AppendedLines(Init(steps))
  }

  /** The lines of the batches whose writing was counted. */
  ghost function CountedLines(capacity: int, steps: seq<Step>): nat
    requires Feasible(FRESH, capacity, steps)
  {
    if steps == [] then 0
    else CountedLines(capacity, Init(steps)) + if Last(steps).Count? then |Run(FRESH, capacity, Init(steps)).writer.lines| else 0
  }

  lemma CloseBegunSnoc(steps: seq<Step>)
    requires steps != []
    ensures CloseBegun(steps) <==> CloseBegun(Init(steps)) || Last(steps).BeginClose?
  {
    assert forall x :: x in steps <==> x in Init(steps) || x == Last(steps);
  }

  /** What one step does to the counts. */
  lemma StepCounts(s: State, capacity: int, step: Step)
    requires Enabled(s, capacity, step)
    ensures var t := After(s, capacity, step);
      && t.closed == (s.closed || step.BeginClose?)
      && t.acceptedLines == (if step.Append? && !s.closed then s.acceptedLines + [step.line] else s.acceptedLines)
      && t.accepted == s.accepted + (if step.Append? && !s.closed then 1 else 0)
      && t.persisted == s.persisted + (if step.Count? then |s.writer.lines| else 0)
  {
  }

  /** A failing writer reports a degraded ledger, a close what it has judged. */
  function StatusWritten(s: State, step: Step): Status {
    if step.WriteReport? && step.id in s.closers && s.closers[step.id].Reporting? then s.closers[step.id].status else Degraded
  }

  /** The report that one step adds, if it adds one. */
  lemma StepReports(s: State, capacity: int, step: Step, r: Report)
    requires Enabled(s, capacity, step) && r in After(s, capacity, step).reports && r !in s.reports
    ensures (step.WriteReport? && step.written) || (step.ReportFailure? && step.written)
    ensures r == s.ReportNow(StatusWritten(s, step))
  {
  }

  /** The ledger counts every append made before it was closed, also those that a failed writer or
      a full queue refused, and every line whose batch was counted. */
  lemma {:induction false} CountsAreAppends(capacity: int, steps: seq<Step>)
    requires Feasible(FRESH, capacity, steps)
    ensures var s := Run(FRESH, capacity, steps);
      && (s.closed <==> CloseBegun(steps))
      && s.acceptedLines == AppendedLines(steps) && s.accepted == |AppendedLines(steps)|
      && s.persisted == CountedLines(capacity, steps)
    decreases |steps|
  {
    if steps != [] {
      CountsAreAppends(capacity, Init(steps));
      CloseBegunSnoc(steps);
      StepCounts(Run(FRESH, capacity, Init(steps)), capacity, Last(steps));
    }
  }

  lemma {:induction false} FeasiblePrefix(capacity: int, steps: seq<Step>, k: nat)
    requires Feasible(FRESH, capacity, steps) && k <= |steps|
    ensures Feasible(FRESH, capacity, steps[..k])
    decreases |steps|
  {
    if k < |steps| {
      FeasiblePrefix(capacity, Init(steps), k);
      assert Init(steps)[..k] == steps[..k];
    } else {
      assert steps[..k] == steps;
    }
  }

  /** A close judges the ledger healthy exactly if no failure was noted and every line appended so
      far has been counted as persisted. */
  lemma JudgementIsExact(capacity: int, steps: seq<Step>, id: nat)
    requires Feasible(FRESH, capacity, steps) && steps != [] && Last(steps) == Judge(id)
    ensures var s := Run(FRESH, capacity, Init(steps));
      var healthy := s.failure.None? && CountedLines(capacity, Init(steps)) == |AppendedLines(Init(steps))|;
      Run(FRESH, capacity, steps).At(id, Reporting(if healthy then Healthy else Degraded))
  {
    CountsAreAppends(capacity, Init(steps));
  }

  /** The `k`-th step wrote the report, and the report counts what had been appended and counted
      by then; what it calls lost is the rest. */
  ghost predicate ReportedAt(capacity: int, steps: seq<Step>, k: nat, r: Report)
    requires Feasible(FRESH, capacity, steps) && k < |steps|
  {
    FeasiblePrefix(capacity, steps, k);
    && ((steps[k].WriteReport? && steps[k].written) || (steps[k].ReportFailure? && steps[k].written))
    && r.accepted == |AppendedLines(steps[..k])| && r.persisted == CountedLines(capacity, steps[..k])
    && r.failure == Run(FRESH, capacity, steps[..k]).failure
    && r.status == StatusWritten(Run(FRESH, capacity, steps[..k]), steps[k])
    && r.accepted - r.persisted == |AppendedLines(steps[..k])| - CountedLines(capacity, steps[..k])
  }

  lemma EarlierReport(capacity: int, steps: seq<Step>, k: nat, r: Report)
    requires Feasible(FRESH, capacity, steps) && steps != [] && k < |steps| - 1
    requires ReportedAt(capacity, Init(steps), k, r)
    ensures ReportedAt(capacity, steps, k, r)
  {
    assert Init(steps)[..k] == steps[..k] && Init(steps)[k] == steps[k];
  }

  /** Every health report of every run says how many lines had been appended and how many of them
      counted as persisted when it was written. */
  lemma {:induction false} ReportsAreExact(capacity: int, steps: seq<Step>, r: Report)
    requires Feasible(FRESH, capacity, steps) && r in Run(FRESH, capacity, steps).reports
    ensures exists k :: 0 <= k < |steps| && ReportedAt(capacity, steps, k, r)
    decreases |steps|
  {
    var s, n := Run(FRESH, capacity, Init(steps)), |steps| - 1;
    assert steps[..n] == Init(steps);
    if r in s.reports {
      ReportsAreExact(capacity, Init(steps), r);
      var k :| 0 <= k < |Init(steps)| && ReportedAt(capacity, Init(steps), k, r);
      EarlierReport(capacity, steps, k, r);
    } else {
      CountsAreAppends(capacity, Init(steps));
      StepReports(s, capacity, Last(steps), r);
      assert ReportedAt(capacity, steps, n, r);
    }
  }

  // ---------------------------------------------------------------- the stop item

  predicate NoStop(queue: seq<Item>) {
    forall i :: 0 <= i < |queue| ==> queue[i].Line?
  }

  /** The writer has taken the stop item and finishes its last batch. */
  predicate StopTaken(w: Writer) {
    (w.Writing? || w.Counting?) && w.stop
  }

  /** The stop item is put once, by the first closer and behind every line. */
  ghost predicate StopIsLast(s: State) {
    && (forall i :: 0 <= i < |s.queue| - 1 ==> s.queue[i].Line?)
    && (!s.closed ==> s.closers == map[] && NoStop(s.queue) && !StopTaken(s.writer))
    && (!s.LockFree() ==> NoStop(s.queue) && !StopTaken(s.writer))
    && (forall id, id' :: id in s.closers && id' in s.closers && s.closers[id].Stopping? && s.closers[id'].Stopping? ==> id == id')
    && (StopTaken(s.writer) ==> s.queue == [])
  }

  lemma StepKeepsStop(s: State, capacity: int, step: Step)
    requires StopIsLast(s) && Enabled(s, capacity, step)
    ensures StopIsLast(After(s, capacity, step))
  {
    var t := After(s, capacity, step);
    match step
    case PutStop(id, inTime) =>
      assert s.closers[id].Stopping?;
      assert t.LockFree();
    case BeginClose(id) =>
      assert !s.closed ==> t.closers == map[id := Stopping];
    case _ =>
  }

  // ---------------------------------------------------------------- leaving early

  /** Some look at the close request found the ledger closed while a line was queued. */
  ghost predicate LeftEarly(capacity: int, steps: seq<Step>)
    requires Feasible(FRESH, capacity, steps)
  {
    steps != []
    && (LeftEarly(capacity, Init(steps))
        || (Last(steps).CheckRequest? && LeavesLines(Run(FRESH, capacity, Init(steps)))))
  }

  predicate LeavesLines(s: State) {
    s.closed && Lines(s.queue) != []
  }

  /** A closer that is past waiting for the writer. */
  predicate Joined(c: Closer) {
    !c.Stopping? && !c.Joining?
  }

  predicate Decided(c: Closer) {
    c.Reporting? || c.Finishing? || c.Closed?
  }

  /** Without a failure, lines stay queued behind an exited writer exactly if it left early. */
  ghost predicate ExitLeaves(s: State, early: bool) {
    && (early ==> s.writer.Exited?)
    && (s.failure.None? && s.writer.Exited? ==> s.closed && (Lines(s.queue) != [] <==> early))
  }

  /** A closer decides by whether the writer left early, and raises nothing. */
  ghost predicate Decides(c: Closer, exited: bool, early: bool) {
    && (Joined(c) ==> exited)
    && (Decided(c) ==> (c.status == Degraded <==> early))
    && (c.Closed? ==> !c.raised)
  }

  ghost predicate CloserDecides(s: State, early: bool) {
    s.failure.None? ==> forall id :: id in s.closers ==> Decides(s.closers[id], s.writer.Exited?, early)
  }

  ghost predicate ExitDecides(s: State, early: bool) {
    ExitLeaves(s, early) && CloserDecides(s, early)
  }

  predicate LeavesNow(s: State, step: Step) {
    step.CheckRequest? && LeavesLines(s)
  }

  lemma StepKeepsLeaves(s: State, capacity: int, step: Step, early: bool)
    requires Counted(s) && StopIsLast(s) && ExitLeaves(s, early) && Enabled(s, capacity, step)
    ensures ExitLeaves(After(s, capacity, step), early || LeavesNow(s, step))
  {
    match step
    case PutStop(_, _) => LinesSnoc(s.queue, Stop);
    case Get => TakingStopEmpties(s);
    case GetMore =>
      if s.queue != [] {
        TakingStopEmpties(s);
      }
    case _ =>
  }

  lemma FailureStays(s: State, capacity: int, step: Step)
    requires Enabled(s, capacity, step)
    ensures s.failure.Some? ==> After(s, capacity, step).failure.Some?
    ensures s.writer.Exited? ==> After(s, capacity, step).writer.Exited?
  {
  }

  lemma StepKeepsDecisions(s: State, capacity: int, step: Step, early: bool)
    requires Accounted(s) && Counted(s) && ExitDecides(s, early) && Enabled(s, capacity, step)
    ensures CloserDecides(After(s, capacity, step), early || LeavesNow(s, step))
  {
    var t, later := After(s, capacity, step), early || LeavesNow(s, step);
    FailureStays(s, capacity, step);
    if t.failure.None? {
      forall id | id in t.closers
        ensures Decides(t.closers[id], t.writer.Exited?, later)
      {
        if id in s.closers {
          DecisionStep(s, capacity, step, early, id);
        }
      }
    }
  }

  lemma DecisionStep(s: State, capacity: int, step: Step, early: bool, id: nat)
    requires Accounted(s) && Counted(s) && ExitLeaves(s, early) && Enabled(s, capacity, step) && id in s.closers
    requires s.failure.None? && Decides(s.closers[id], s.writer.Exited?, early) && After(s, capacity, step).failure.None?
    ensures Decides(After(s, capacity, step).closers[id], After(s, capacity, step).writer.Exited?, early || LeavesNow(s, step))
  {
    if step.Judge? && step.id == id {
      ExitVerdict(s);
    }
  }

  lemma ExitStep(s: State, capacity: int, step: Step, early: bool)
    requires Inv(s) && StopIsLast(s) && ExitDecides(s, early) && Enabled(s, capacity, step)
    ensures ExitDecides(After(s, capacity, step), early || LeavesNow(s, step))
  {
    StepKeepsLeaves(s, capacity, step, early);
    StepKeepsDecisions(s, capacity, step, early);
  }

  lemma TakingStopEmpties(s: State)
    requires StopIsLast(s) && s.queue != []
    ensures s.queue[0].Stop? ==> s.queue[1..] == [] && s.closed
  {
  }

  lemma {:induction false} RunKeepsExit(capacity: int, steps: seq<Step>)
    requires Feasible(FRESH, capacity, steps)
    ensures StopIsLast(Run(FRESH, capacity, steps))
    ensures ExitDecides(Run(FRESH, capacity, steps), LeftEarly(capacity, steps))
    decreases |steps|
  {
    if steps != [] {
      var s := Run(FRESH, capacity, Init(steps));
      RunKeepsExit(capacity, Init(steps));
      RunKeepsInv(FRESH, capacity, Init(steps));
      StepKeepsStop(s, capacity, Last(steps));
      ExitStep(s, capacity, Last(steps), LeftEarly(capacity, Init(steps)));
    }
  }

  /** In a run without a failure whose writer has exited, the verdict is degraded if and only if
      the writer left early: one of its looks at the close request found the ledger closed while a
      line was queued. Every close that has finished says the same, and none of them raised. */
  lemma DegradedIffLeftEarly(capacity: int, steps: seq<Step>)
    requires Feasible(FRESH, capacity, steps)
    requires Run(FRESH, capacity, steps).writer.Exited? && Run(FRESH, capacity, steps).failure.None?
    ensures var s := Run(FRESH, capacity, steps);
      && (s.Verdict() == Degraded <==> LeftEarly(capacity, steps))
      && (s.disk != s.acceptedLines <==> LeftEarly(capacity, steps))
      && forall id :: id in s.closers && s.closers[id].Closed? ==>
           s.closers[id] == Closed(if LeftEarly(capacity, steps) then Degraded else Healthy, false)
  {
    RunKeepsInv(FRESH, capacity, steps);
    RunKeepsExit(capacity, steps);
    ExitOutcome(Run(FRESH, capacity, steps), LeftEarly(capacity, steps));
  }

  lemma ExitOutcome(s: State, early: bool)
    requires Accounted(s) && Counted(s) && ExitDecides(s, early) && s.writer.Exited? && s.failure.None?
    ensures (s.Verdict() == Degraded <==> early) && (s.disk != s.acceptedLines <==> early)
    ensures forall id :: id in s.closers && s.closers[id].Closed? ==> s.closers[id] == Closed(if early then Degraded else Healthy, false)
  {
    ExitVerdict(s);
    DiskIsPrefix(s);
    if s.Verdict() == Healthy {
      HealthyIsComplete(s);
    }
    forall id | id in s.closers && s.closers[id].Closed?
      ensures s.closers[id] == Closed(if early then Degraded else Healthy, false)
    {
      assert Decides(s.closers[id], true, early);
    }
  }

  lemma OneMore(s: State, capacity: int, steps: seq<Step>, step: Step, t: State)
    requires Feasible(s, capacity, steps) && Enabled(Run(s, capacity, steps), capacity, step)
    requires t == After(Run(s, capacity, steps), capacity, step)
    ensures Feasible(s, capacity, steps + [step]) && Run(s, capacity, steps + [step]) == t
  {
    Snoc(steps, step);
  }

  /** A line was appended between the writer's two looks, and the ledger closed. */
  const APPENDED := State(false, None, 1, 0, [Line("x")], SawEmpty, [], map[], ["x"], ["x"], [], [])

  const LEFT_BEHIND := State(true, None, 1, 0, [Line("x")], Exited, [], map[0 := Joining], ["x"], ["x"], [], [])

  lemma AppendAfterLook() returns (steps: seq<Step>)
    ensures Feasible(FRESH, 1, steps) && Run(FRESH, 1, steps) == APPENDED
  {
    OneMore(FRESH, 1, [], TimeOut, FRESH.(writer := SawEmpty));
    OneMore(FRESH, 1, [] + [TimeOut], Append("x"), APPENDED);
    steps := [] + [TimeOut] + [Append("x")];
  }

  lemma WriterLeaves(before: seq<Step>) returns (steps: seq<Step>)
    requires Feasible(FRESH, 1, before) && Run(FRESH, 1, before) == APPENDED
    ensures Feasible(FRESH, 1, steps) && Run(FRESH, 1, steps) == LEFT_BEHIND
  {
    var closing := APPENDED.(closed := true, closers := map[0 := Stopping]);
    var joining := closing.(closers := map[0 := Joining]);
    OneMore(FRESH, 1, before, BeginClose(0), closing);
    OneMore(FRESH, 1, before + [BeginClose(0)], PutStop(0, false), joining);
    OneMore(FRESH, 1, before + [BeginClose(0)] + [PutStop(0, false)], CheckRequest, LEFT_BEHIND);
    steps := before + [BeginClose(0)] + [PutStop(0, false)] + [CheckRequest];
  }

  lemma CloseReports(before: seq<Step>) returns (steps: seq<Step>)
    requires Feasible(FRESH, 1, before) && Run(FRESH, 1, before) == LEFT_BEHIND
    ensures Feasible(FRESH, 1, steps)
    ensures Run(FRESH, 1, steps) == LEFT_BEHIND.(closers := map[0 := Closed(Degraded, false)], reports := [Report(Degraded, 1, 0, None)])
  {
    var judging := LEFT_BEHIND.(closers := map[0 := Judging]);
    var reporting := LEFT_BEHIND.(closers := map[0 := Reporting(Degraded)]);
    var finishing := LEFT_BEHIND.(closers := map[0 := Finishing(Degraded)], reports := [Report(Degraded, 1, 0, None)]);
    OneMore(FRESH, 1, before, Join(0, false), judging);
    var a := before + [Join(0, false)];
    OneMore(FRESH, 1, a, Judge(0), reporting);
    OneMore(FRESH, 1, a + [Judge(0)], WriteReport(0, true), finishing);
    OneMore(FRESH, 1, a + [Judge(0)] + [WriteReport(0, true)], FinishClose(0), finishing.(closers := map[0 := Closed(Degraded, false)]));
    steps := a + [Judge(0)] + [WriteReport(0, true)] + [FinishClose(0)];
  }

  /** A clean close does not always drain the queue: the writer sees it empty, then a line is
      appended and the ledger closed, and the writer exits on the close request. The line is lost;
      the close reports a degraded ledger, although it raises nothing. */
  lemma ExitRacesWithAppend() returns (steps: seq<Step>)
    ensures Feasible(FRESH, 1, steps)
    ensures var s := Run(FRESH, 1, steps);
      && s.closers == map[0 := Closed(Degraded, false)] && s.acceptedLines == ["x"] && s.disk == []
      && s.reports == [Report(Degraded, 1, 0, None)]
  {
    steps := AppendAfterLook();
    steps := WriterLeaves(steps);
    steps := CloseReports(steps);
  }
}

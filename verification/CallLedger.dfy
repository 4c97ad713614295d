/** The runtime call ledger: producers append to a bounded queue, one writer thread batches lines
    to disk, and close stops the writer and reports what was lost. Every step below is atomic in
    the program: a section under the state lock, or one operation on the queue or the file. */
module CallLedger {
  import opened Outcome

  datatype Item = Line(text: string) | Stop

  datatype Failure = QueueFull | WriteFailed | WriterDidNotStop | HealthWriteFailed

  const BATCH := 64

  /** Where the writer thread is. Between seeing an empty queue and looking at the close request
      other threads may run. */
  datatype Writer =
    | Waiting
    | SawEmpty
    | Collecting(lines: seq<string>)
    | Writing(lines: seq<string>, stop: bool)
    | Counting(lines: seq<string>, stop: bool)
    | Failing
    | ReportingFailure
    | Exited

  datatype Status = Healthy | Degraded

  /** Where a thread in `close` is. `Stopping` holds the state lock while it waits for room. */
  datatype Closer = Stopping | Joining | Judging | Reporting(status: Status) | Finishing(status: Status) | Closed(status: Status, raised: bool)

  /** What a health write says about this ledger. */
  datatype Report = Report(status: Status, accepted: nat, persisted: nat, failure: Option<Failure>)

  /** The last four fields are history: what was accepted, what entered the queue, what a failed
      write left out, and which health reports were written. */
  datatype State = State(
    closed: bool, failure: Option<Failure>, accepted: nat, persisted: nat,
    queue: seq<Item>, writer: Writer, disk: seq<string>, closers: map<nat, Closer>,
    acceptedLines: seq<string>, enqueued: seq<string>, dropped: seq<string>, reports: seq<Report>)
  {
    /** A closer holds the lock while it waits to put the stop item. */
    predicate LockFree() {
      forall id :: id in closers ==> !closers[id].Stopping?
    }

    predicate At(id: nat, c: Closer) {
      id in closers && closers[id] == c
    }

    function Verdict(): Status {
      if failure.Some? || persisted != accepted then Degraded else Healthy
    }

    function ReportNow(status: Status): Report {
      Report(status, accepted, persisted, failure)
    }
  }

  const FRESH := State(false, None, 0, 0, [], Waiting, [], map[], [], [], [], [])

  /** A non-positive capacity is no bound. */
  predicate Full(queue: seq<Item>, capacity: int) {
    0 < capacity <= |queue|
  }

  datatype Step =
    | Append(line: string)
    | BeginClose(id: nat)
    | PutStop(id: nat, inTime: bool)
    | Join(id: nat, timedOut: bool)
    | Judge(id: nat)
    | WriteReport(id: nat, written: bool)
    | FinishClose(id: nat)
    | Get
    | TimeOut
    | CheckRequest
    | GetMore
    | WriteBatch(ok: bool, reached: nat)
    | Count
    | NoteFailure
    | ReportFailure(written: bool)

  predicate Enabled(s: State, capacity: int, step: Step) {
    match step
    case Append(_) => s.LockFree()
    case BeginClose(id) => s.LockFree() && id !in s.closers
    case PutStop(id, inTime) => s.At(id, Stopping) && inTime == !Full(s.queue, capacity)
    case Join(id, timedOut) => s.LockFree() && s.At(id, Joining) && (timedOut || s.writer.Exited?)
    case Judge(id) => s.LockFree() && s.At(id, Judging)
    case WriteReport(id, _) => s.LockFree() && id in s.closers && s.closers[id].Reporting?
    case FinishClose(id) => s.LockFree() && id in s.closers && s.closers[id].Finishing?
    case Get => s.writer.Waiting? && s.queue != []
    case TimeOut => s.writer.Waiting? && s.queue == []
    case CheckRequest => s.writer.SawEmpty?
    case GetMore => s.writer.Collecting?
    case WriteBatch(ok, reached) => s.writer.Writing? && reached <= |s.writer.lines| && (ok ==> reached == |s.writer.lines|)
    case Count => s.LockFree() && s.writer.Counting?
    case NoteFailure => s.LockFree() && s.writer.Failing?
    case ReportFailure(_) => s.LockFree() && s.writer.ReportingFailure?
  }

  function AfterAppend(s: State, capacity: int, line: string): State {
    if s.closed then s
    else
      var t := s.(accepted := s.accepted + 1, acceptedLines := s.acceptedLines + [line]);
      if s.failure.Some? then t
      else if Full(s.queue, capacity) then t.(failure := Some(QueueFull))
      else t.(queue := s.queue + [Line(line)], enqueued := s.enqueued + [line])
  }

  function FirstFailure(s: State, f: Failure): Option<Failure> {
    if s.failure.Some? then s.failure else Some(f)
  }

  function AfterReport(s: State, id: nat, status: Status, written: bool): State {
    var t := s.(closers := s.closers[id := Finishing(status)]);
    if written then t.(reports := s.reports + [s.ReportNow(status)]) else t.(failure := FirstFailure(s, HealthWriteFailed))
  }

  /** Taking the first item: a line goes to the batch, the stop item ends it. */
  function AfterGet(s: State, lines: seq<string>): State
    requires s.queue != []
  {
    var t := s.(queue := s.queue[1..]);
    match s.queue[0]
    case Line(text) => t.(writer := Collecting(lines + [text]))
    case Stop => t.(writer := if lines == [] then Exited else Writing(lines, true))
  }

  function After(s: State, capacity: int, step: Step): State
    requires Enabled(s, capacity, step)
  {
    match step
    case Append(line) => AfterAppend(s, capacity, line)
    case BeginClose(id) => s.(closed := true, closers := s.closers[id := if s.closed then Joining else Stopping])
    case PutStop(id, inTime) =>
      s.(queue := if inTime then s.queue + [Stop] else s.queue, closers := s.closers[id := Joining])
    case Join(id, timedOut) =>
      s.(failure := if timedOut then FirstFailure(s, WriterDidNotStop) else s.failure, closers := s.closers[id := Judging])
    case Judge(id) => s.(closers := s.closers[id := Reporting(s.Verdict())])
    case WriteReport(id, written) => AfterReport(s, id, s.closers[id].status, written)
    case FinishClose(id) => s.(closers := s.closers[id := Closed(s.closers[id].status, s.failure.Some?)])
    case Get => AfterGet(s, [])
    case TimeOut => s.(writer := SawEmpty)
    case CheckRequest => s.(writer := if s.closed then Exited else Waiting)
    case GetMore =>
      if |s.writer.lines| >= BATCH || s.queue == [] then s.(writer := Writing(s.writer.lines, false))
      else AfterGet(s, s.writer.lines)
    case WriteBatch(ok, reached) =>
      var lines := s.writer.lines;
      s.(disk := s.disk + lines[..reached], dropped := if ok then s.dropped else lines[reached..],
         writer := if ok then Counting(lines, s.writer.stop) else Failing)
    case Count =>
      s.(persisted := s.persisted + |s.writer.lines|, writer := if s.writer.stop then Exited else Waiting)
    case NoteFailure => s.(failure := Some(WriteFailed), writer := ReportingFailure)
    case ReportFailure(written) =>
      s.(writer := Exited, reports := if written then s.reports + [s.ReportNow(Degraded)] else s.reports)
  }

  // ---------------------------------------------------------------- the ledger object

  datatype LedgerError = LedgerClosed | WriterFailed(cause: Failure)

  class CallLedger {
    const capacity: int
    var closed: bool
    var failure: Option<Failure>
    var accepted: nat
    var persisted: nat
    var queue: seq<Item>
    /** The writer thread's and the closing threads' positions, and the ledger's lines on disk. */
    var writer: Writer
    var closers: map<nat, Closer>
    var disk: seq<string>
    ghost var acceptedLines: seq<string>
    ghost var enqueued: seq<string>
    ghost var dropped: seq<string>
    ghost var reports: seq<Report>

    ghost function Now(): State
      reads this
    {
      State(closed, failure, accepted, persisted, queue, writer, disk, closers, acceptedLines, enqueued, dropped, reports)
    }

    constructor (capacity: int)
      ensures Now() == FRESH && this.capacity == capacity
    {
      this.capacity := capacity;
      closed, failure, accepted, persisted, queue, writer, disk, closers := false, None, 0, 0, [], Waiting, [], map[];
      acceptedLines, enqueued, dropped, reports := [], [], [], [];
    }

    method Append(line: string) returns (r: Option<LedgerError>)
      requires Enabled(Now(), capacity, Step.Append(line))
      modifies this
      ensures Now() == After(old(Now()), capacity, Step.Append(line))
      ensures r.None? <==> enqueued == old(enqueued) + [line]
    {
      if closed {
        return Some(LedgerClosed);
      }
      accepted := accepted + 1;
      acceptedLines := acceptedLines + [line];
      if failure.Some? {
        return Some(WriterFailed(failure.value));
      }
      if 0 < capacity <= |queue| {
        failure := Some(QueueFull);
        return Some(WriterFailed(QueueFull));
      }
      queue := queue + [Line(line)];
      enqueued := enqueued + [line];
      return None;
    }

    method BeginClose(id: nat)
      requires Enabled(Now(), capacity, Step.BeginClose(id))
      modifies this
      ensures Now() == After(old(Now()), capacity, Step.BeginClose(id))
    {
      if !closed {
        closed := true;
        closers := closers[id := Stopping];
      } else {
        closers := closers[id := Joining];
      }
    }

    method PutStop(id: nat, inTime: bool)
      requires Enabled(Now(), capacity, Step.PutStop(id, inTime))
      modifies this
      ensures Now() == After(old(Now()), capacity, Step.PutStop(id, inTime))
    {
      if inTime {
        queue := queue + [Stop];
      }
      closers := closers[id := Joining];
    }

    method Join(id: nat, timedOut: bool)
      requires Enabled(Now(), capacity, Step.Join(id, timedOut))
      modifies this
      ensures Now() == After(old(Now()), capacity, Step.Join(id, timedOut))
    {
      if timedOut && failure.None? {
        failure := Some(WriterDidNotStop);
      }
      closers := closers[id := Judging];
    }

    method Judge(id: nat)
      requires Enabled(Now(), capacity, Step.Judge(id))
      modifies this
      ensures Now() == After(old(Now()), capacity, Step.Judge(id))
    {
      closers := closers[id := Reporting(if failure.Some? || persisted != accepted then Degraded else Healthy)];
    }

    method WriteReport(id: nat, written: bool)
      requires Enabled(Now(), capacity, Step.WriteReport(id, written))
      modifies this
      ensures Now() == After(old(Now()), capacity, Step.WriteReport(id, written))
    {
      var status := closers[id].status;
      if written {
        reports := reports + [Report(status, accepted, persisted, failure)];
      } else if failure.None? {
        failure := Some(HealthWriteFailed);
      }
      closers := closers[id := Finishing(status)];
    }

    method FinishClose(id: nat) returns (raised: bool)
      requires Enabled(Now(), capacity, Step.FinishClose(id))
      modifies this
      ensures Now() == After(old(Now()), capacity, Step.FinishClose(id)) && raised == failure.Some?
    {
      raised := failure.Some?;
      closers := closers[id := Closed(closers[id].status, raised)];
    }

    /** The writer takes the first line of a batch, or stops. */
    method TakeFirst()
      requires Enabled(Now(), capacity, Get)
      modifies this
      ensures Now() == After(old(Now()), capacity, Get)
    {
      var first := queue[0];
      queue := queue[1..];
      if first.Stop? {
        writer := Exited;
      } else {
        assert [] + [first.text] == [first.text];
        writer := Collecting([first.text]);
      }
    }

    /** The writer finds the queue empty, and later looks at the close request. */
    method FindEmpty()
      requires Enabled(Now(), capacity, TimeOut)
      modifies this
      ensures Now() == After(old(Now()), capacity, TimeOut)
    {
      writer := SawEmpty;
    }

    method CheckRequest()
      requires Enabled(Now(), capacity, Step.CheckRequest)
      modifies this
      ensures Now() == After(old(Now()), capacity, Step.CheckRequest)
    {
      writer := if closed then Exited else Waiting;
    }

    method TakeMore()
      requires Enabled(Now(), capacity, GetMore)
      modifies this
      ensures Now() == After(old(Now()), capacity, GetMore)
    {
      var lines := writer.lines;
      if |lines| >= BATCH || queue == [] {
        writer := Writing(lines, false);
        return;
      }
      var item := queue[0];
      queue := queue[1..];
      if item.Stop? {
        writer := if lines == [] then Exited else Writing(lines, true);
      } else {
        writer := Collecting(lines + [item.text]);
      }
    }

    method WriteBatch(ok: bool, reached: nat)
      requires Enabled(Now(), capacity, Step.WriteBatch(ok, reached))
      modifies this
      ensures Now() == After(old(Now()), capacity, Step.WriteBatch(ok, reached))
    {
      var lines, stop := writer.lines, writer.stop;
      disk := disk + lines[..reached];
      if ok {
        writer := Counting(lines, stop);
      } else {
        dropped := lines[reached..];
        writer := Failing;
      }
    }

    method CountBatch()
      requires Enabled(Now(), capacity, Count)
      modifies this
      ensures Now() == After(old(Now()), capacity, Count)
    {
      persisted := persisted + |writer.lines|;
      writer := if writer.stop then Exited else Waiting;
    }

    method NoteFailure()
      requires Enabled(Now(), capacity, Step.NoteFailure)
      modifies this
      ensures Now() == After(old(Now()), capacity, Step.NoteFailure)
    {
      failure := Some(WriteFailed);
      writer := ReportingFailure;
    }

    method ReportFailure(written: bool)
      requires Enabled(Now(), capacity, Step.ReportFailure(written))
      modifies this
      ensures Now() == After(old(Now()), capacity, Step.ReportFailure(written))
    {
      if written {
        reports := reports + [Report(Degraded, accepted, persisted, failure)];
      }
      writer := Exited;
    }
  }
}

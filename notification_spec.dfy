/**
 * The worker-to-orchestrator notification manager as a state machine over values.
 *
 * A `Manager` value is the whole state of the manager: the two queues it drains, the
 * execution-log buffer, its counters and lifecycle flags, and a record (`Observed`) of every call
 * it made into its collaborators: the orchestrator client and the worker service's
 * acknowledgement and fatal-exit entry points. `Pass` is one pass of the send loop; the other
 * functions are the manager's public operations. The imperative model in module
 * WorkerNotification is proved to follow these functions step by step, and the lemmas below
 * state what the loop guarantees.
 */
module NotificationSpec {
  import opened BoundedInts

  /** A completed pip: the payload the orchestrator consumes and the hash that acknowledges it. */
  datatype PipCompletion = PipCompletion(serializedData: seq<uint8>, semiStableHash: int64)

  /** A forwarded error or warning event. */
  datatype EventMessage = EventMessage(id: int32, level: int32, text: string)

  /** The arguments of one notification sent to the orchestrator. */
  datatype Notification = Notification(
    workerId: nat,
    completedPips: seq<seq<uint8>>,
    forwardedEvents: seq<EventMessage>,
    executionLogBlobSequenceNumber: nat,
    executionLogData: seq<uint8>)

  /** A batch sent by the loop (with the client's outcome) or a log-only send made after it. */
  datatype SendKind = ResultBatch(succeeded: bool) | StandaloneLog

  /** One call of the orchestrator client: the notification, the hashes passed beside it and the
      completion records the batch was built from. */
  datatype NotifyCall = NotifyCall(
    args: Notification,
    acknowledgedHashes: seq<int64>,
    results: seq<PipCompletion>,
    kind: SendKind)

  /** A blocking collection: its items in arrival order, and whether adding has been completed. */
  datatype Queue<T> = Queue(items: seq<T>, addingCompleted: bool) {
    /** Completed for adding and empty: a take can never return an item again. */
    predicate IsCompleted() { addingCompleted && |items| == 0 }

    /** Adding to a completed collection fails; every caller in the manager swallows the failure. */
    function Add(x: T): Queue<T> {
      if addingCompleted then this else this.(items := items + [x])
    }

    function CompleteAdding(): Queue<T> { this.(addingCompleted := true) }
  }

  /** The execution-log target the manager registers with the scheduler at Start. */
  datatype LogTarget = Unattached | Active | Deactivated | Removed

  function Deactivate(t: LogTarget): LogTarget {
    if t == Active then Deactivated else t
  }

  /** What the collaborators have observed so far. */
  datatype Observed = Observed(
    calls: seq<NotifyCall>,            // orchestrator client, in call order
    acknowledged: seq<PipCompletion>,  // PipReportedToOrchestrator, in call order
    exitCalls: nat,                    // ExitAsync(isUnexpected: true)
    reported: seq<PipCompletion>,      // every result that entered the result queue
    reportedEvents: seq<EventMessage>) // every event that entered the event queue

  /** The state of the manager. */
  datatype Manager = Manager(
    workerId: nat,
    maxMessagesPerBatch: int,
    started: bool,
    cancelRequested: bool,
    readyResults: Queue<PipCompletion>,
    outgoingEvents: Queue<EventMessage>,
    flushedExecutionLog: seq<uint8>,
    xlgBlobSequenceNumber: nat,
    numBatchesSent: nat,
    finishedSendingPipResults: bool,
    logTarget: LogTarget,
    observed: Observed)

  /** What a loop pass cannot see in the manager's own state: the bytes the log target hands over
      when it is flushed, the client's answer, and whether Cancel() lands while the send is in flight. */
  datatype PassEnv = PassEnv(flushedBytes: seq<uint8>, sendSucceeded: bool, cancelledDuringSend: bool)

  function Initial(workerId: nat, maxMessagesPerBatch: int): Manager {
    Manager(workerId, maxMessagesPerBatch, false, false, Queue([], false), Queue([], false), [],
            0, 0, false, Unattached, Observed([], [], 0, [], []))
  }

  // ---------------------------------------------------------------- batch contents

  /** The cap on completion records per batch: the blocking take always adds one record, so a
      configured maximum below one behaves as one. */
  function BatchCap(maxMessagesPerBatch: int): nat {
    if maxMessagesPerBatch < 1 then 1 else maxMessagesPerBatch
  }

  /** How many results a pass takes: the blocking take, then the top-up while under the cap. */
  function TakenCount(m: Manager): nat {
    var n, cap := |m.readyResults.items|, BatchCap(m.maxMessagesPerBatch);
    if n < cap then n else cap
  }

  function Payloads(results: seq<PipCompletion>): seq<seq<uint8>> {
    if |results| == 0 then [] else [results[0].serializedData] + Payloads(results[1..])
  }

  function Hashes(results: seq<PipCompletion>): seq<int64> {
    if |results| == 0 then [] else [results[0].semiStableHash] + Hashes(results[1..])
  }

  // ---------------------------------------------------------------- operations

  function Start(m: Manager): Manager
    requires !m.started
  {
    m.(started := true, logTarget := Active)
  }

  /** The result listener enqueues a completion record; once its queue is completed it takes no more. */
  function ReportResult(m: Manager, p: PipCompletion): Manager
    requires m.started
  {
    if m.readyResults.addingCompleted then m
    else m.(readyResults := m.readyResults.Add(p),
            observed := m.observed.(reported := m.observed.reported + [p]))
  }

  /** Events are dropped silently once cancellation is requested or the event queue is completed. */
  function ReportEventMessage(m: Manager, e: EventMessage): Manager
    requires m.started
  {
    if m.cancelRequested || m.outgoingEvents.addingCompleted then m
    else m.(outgoingEvents := m.outgoingEvents.Add(e),
            observed := m.observed.(reportedEvents := m.observed.reportedEvents + [e]))
  }

  /** The log target hands over its bytes. Once the loop has finished (and nothing was cancelled),
      whatever is buffered goes out at once as a log-only notification with the next sequence number. */
  function FlushExecutionLog(m: Manager, listenerBytes: seq<uint8>): Manager
    requires m.started
  {
    var log := m.flushedExecutionLog + listenerBytes;
    if m.finishedSendingPipResults && !m.cancelRequested && |log| > 0 then
      var call := NotifyCall(Notification(0, [], [], m.xlgBlobSequenceNumber, log), [], [], StandaloneLog);
      m.(flushedExecutionLog := [],
         xlgBlobSequenceNumber := m.xlgBlobSequenceNumber + 1,
         observed := m.observed.(calls := m.observed.calls + [call]))
    else
      m.(flushedExecutionLog := log)
  }

  /** The effect of Cancel() on a started manager: the log target is deactivated, the result
      listener stops (its queue is completed) and cancellation is requested. */
  function CancelEffects(m: Manager): Manager {
    m.(logTarget := Deactivate(m.logTarget),
       readyResults := m.readyResults.CompleteAdding(),
       cancelRequested := true)
  }

  function Cancel(m: Manager): Manager {
    if m.started then CancelEffects(m) else m
  }

  /** Leaving the loop: pip results are finished and the event queue is completed. */
  function LoopExit(m: Manager): Manager {
    m.(finishedSendingPipResults := true, outgoingEvents := m.outgoingEvents.CompleteAdding())
  }

  /** The loop condition: go on while the result queue is not completed and nothing was cancelled. */
  function LoopHead(m: Manager): Manager {
    if m.readyResults.IsCompleted() || m.cancelRequested then LoopExit(m) else m
  }

  /** One pass of the send loop, from the blocking take to the loop condition that follows it. */
  function Pass(m: Manager, env: PassEnv): Manager
    requires m.started && !m.finishedSendingPipResults
  {
    if m.cancelRequested then
      // the take observes cancellation and the loop breaks without sending
      LoopExit(m)
    else if |m.readyResults.items| == 0 && !m.readyResults.addingCompleted then
      // the take blocks until a result, completion or cancellation arrives
      m
    else
      var results := m.readyResults.items[..TakenCount(m)];
      var assembled := Assembled(m, env);
      if |results| == 0 && |m.outgoingEvents.items| == 0 && |assembled.flushedExecutionLog| == 0 then
        // nothing to send
        LoopHead(assembled)
      else
        AfterSend(Sent(assembled, results, m.outgoingEvents.items, env), results, env.sendSucceeded)
  }

  /** The state once a pass has taken its results, drained every pending event and flushed the
      log target, which (the loop not having finished) only appends to the buffer. */
  function Assembled(m: Manager, env: PassEnv): Manager {
    m.(readyResults := m.readyResults.(items := m.readyResults.items[TakenCount(m)..]),
       outgoingEvents := m.outgoingEvents.(items := []),
       flushedExecutionLog := m.flushedExecutionLog + env.flushedBytes)
  }

  /** The notification a pass sends: the log blob is numbered only when there are log bytes. */
  function BatchNotification(m: Manager, results: seq<PipCompletion>, events: seq<EventMessage>): Notification {
    var log := m.flushedExecutionLog;
    Notification(m.workerId, Payloads(results), events, if |log| > 0 then m.xlgBlobSequenceNumber else 0, log)
  }

  function BatchCall(m: Manager, results: seq<PipCompletion>, events: seq<EventMessage>, succeeded: bool): NotifyCall {
    NotifyCall(BatchNotification(m, results, events), Hashes(results), results, ResultBatch(succeeded))
  }

  /** The state once the client has been called: the call is recorded and a log sequence number
      is consumed exactly when there are log bytes. */
  function Called(m: Manager, results: seq<PipCompletion>, events: seq<EventMessage>, succeeded: bool): Manager {
    m.(xlgBlobSequenceNumber := if |m.flushedExecutionLog| > 0 then m.xlgBlobSequenceNumber + 1
                                else m.xlgBlobSequenceNumber,
       observed := m.observed.(calls := m.observed.calls + [BatchCall(m, results, events, succeeded)]))
  }

  /** The state after the send, where a Cancel() that landed while it was in flight has taken effect. */
  function Sent(m: Manager, results: seq<PipCompletion>, events: seq<EventMessage>, env: PassEnv): Manager {
    var called := Called(m, results, events, env.sendSucceeded);
    if env.cancelledDuringSend then CancelEffects(called) else called
  }

  /** The reaction to the client's outcome: acknowledge on success; on a failure that was not
      cancelled, deactivate the log target, request the fatal exit and leave the loop with the
      log buffer as it was; otherwise drop the log bytes and go on to the loop condition. */
  function AfterSend(m: Manager, results: seq<PipCompletion>, succeeded: bool): Manager {
    if succeeded then
      LoopHead(m.(numBatchesSent := m.numBatchesSent + 1,
                  flushedExecutionLog := [],
                  observed := m.observed.(acknowledged := m.observed.acknowledged + results)))
    else if !m.cancelRequested then
      LoopExit(m.(logTarget := Deactivate(m.logTarget),
                  observed := m.observed.(exitCalls := m.observed.exitCalls + 1)))
    else
      LoopHead(m.(flushedExecutionLog := []))
  }

  /** The passes the loop still makes once the result queue is completed, until it finishes;
      `envs(i)` is the environment of the i-th of them. */
  function Drain(m: Manager, envs: nat -> PassEnv, i: nat): (r: Manager)
    requires m.started && m.readyResults.addingCompleted
    // the join returns: once the result queue is completed, the loop finishes
    ensures r.started && r.readyResults.addingCompleted && r.finishedSendingPipResults
    decreases |m.readyResults.items| + (if m.finishedSendingPipResults then 0 else 1)
  {
    if m.finishedSendingPipResults then m
    else
      PassProgress(m, envs(i));
      Drain(Pass(m, envs(i)), envs, i + 1)
  }

  /** The part of Exit before the join: the listeners stop (the result queue is completed) and the
      log target is deactivated and removed. */
  function StopListening(m: Manager): Manager {
    m.(readyResults := m.readyResults.CompleteAdding(),
       logTarget := if m.logTarget == Unattached then Unattached else Removed)
  }

  /** Orderly shutdown: stop listening, join the loop (which drains what is queued), dispose of
      the log target, whose last flush hands over `disposeBytes` and, the loop having finished,
      goes out on its own, and finally request cancellation. Before Start it does nothing. */
  function Exit(m: Manager, envs: nat -> PassEnv, disposeBytes: seq<uint8>): Manager {
    if !m.started then m
    else FlushExecutionLog(Drain(StopListening(m), envs, 0), disposeBytes).(cancelRequested := true)
  }

  // ---------------------------------------------------------------- views of the call record

  function Last<T>(s: seq<T>): T
    requires |s| > 0
  {
    s[|s| - 1]
  }

  function DropLast<T>(s: seq<T>): seq<T>
    requires |s| > 0
  {
    s[..|s| - 1]
  }

  /** The sequence numbers of the notifications that carried execution-log bytes, in call order. */
  function LogBlobSequenceNumbers(calls: seq<NotifyCall>): seq<nat> {
    if |calls| == 0 then []
    else
      var c := Last(calls);
      LogBlobSequenceNumbers(DropLast(calls))
        + (if |c.args.executionLogData| > 0 then [c.args.executionLogBlobSequenceNumber] else [])
  }

  /** Every completion record the loop took from the queue and sent, in order. */
  function TakenResults(calls: seq<NotifyCall>): seq<PipCompletion> {
    if |calls| == 0 then [] else TakenResults(DropLast(calls)) + Last(calls).results
  }

  /** The completion records of the batches the client accepted, in order. */
  function AcceptedResults(calls: seq<NotifyCall>): seq<PipCompletion> {
    if |calls| == 0 then []
    else AcceptedResults(DropLast(calls)) + (if Last(calls).kind == ResultBatch(true) then Last(calls).results else [])
  }

  function AcceptedBatches(calls: seq<NotifyCall>): nat {
    if |calls| == 0 then 0
    else AcceptedBatches(DropLast(calls)) + (if Last(calls).kind == ResultBatch(true) then 1 else 0)
  }

  function ForwardedEvents(calls: seq<NotifyCall>): seq<EventMessage> {
    if |calls| == 0 then [] else ForwardedEvents(DropLast(calls)) + Last(calls).args.forwardedEvents
  }

  /** 0, 1, ..., n - 1 */
  function Naturals(n: nat): seq<nat> {
    if n == 0 then [] else Naturals(n - 1) + [n - 1]
  }

  // ---------------------------------------------------------------- invariant

  /** What every notification the manager sends looks like. */
  ghost predicate CallWellFormed(c: NotifyCall, workerId: nat, maxMessagesPerBatch: int) {
    match c.kind
    case ResultBatch(_) =>
      && |c.results| <= BatchCap(maxMessagesPerBatch)
      && c.args.workerId == workerId
      && c.args.completedPips == Payloads(c.results)
      && c.acknowledgedHashes == Hashes(c.results)
      && (|c.results| > 0 || |c.args.forwardedEvents| > 0 || |c.args.executionLogData| > 0)
      && (|c.args.executionLogData| == 0 ==> c.args.executionLogBlobSequenceNumber == 0)
    case StandaloneLog =>
      && |c.results| == 0 && |c.acknowledgedHashes| == 0
      && c.args == Notification(0, [], [], c.args.executionLogBlobSequenceNumber, c.args.executionLogData)
      && |c.args.executionLogData| > 0
  }

  ghost predicate CallsWellFormed(calls: seq<NotifyCall>, workerId: nat, maxMessagesPerBatch: int) {
    forall i | 0 <= i < |calls| :: CallWellFormed(calls[i], workerId, maxMessagesPerBatch)
  }

  ghost predicate OnlyResultBatches(calls: seq<NotifyCall>) {
    forall i | 0 <= i < |calls| :: calls[i].kind.ResultBatch?
  }

  /** Log-only sends come after every result batch. */
  ghost predicate StandaloneSendsLast(calls: seq<NotifyCall>) {
    forall i, j | 0 <= i < j < |calls| :: calls[i].kind == StandaloneLog ==> calls[j].kind == StandaloneLog
  }

  /** What the call record says about the manager's counters and queues. */
  ghost predicate RecordInv(m: Manager) {
    var o := m.observed;
    // log blobs are numbered 0, 1, 2, ... in the order they are sent, with no gap or repeat
    && LogBlobSequenceNumbers(o.calls) == Naturals(m.xlgBlobSequenceNumber)
    && CallsWellFormed(o.calls, m.workerId, m.maxMessagesPerBatch)
    // log-only sends follow the result batches and happen only once the loop has finished
    && StandaloneSendsLast(o.calls)
    && (!m.finishedSendingPipResults ==> OnlyResultBatches(o.calls))
    // every queued result is taken once, in queue order; only accepted batches are acknowledged
    && o.reported == TakenResults(o.calls) + m.readyResults.items
    && o.acknowledged == AcceptedResults(o.calls)
    && m.numBatchesSent == AcceptedBatches(o.calls)
    && o.reportedEvents == ForwardedEvents(o.calls) + m.outgoingEvents.items
  }

  ghost predicate Inv(m: Manager) {
    && RecordInv(m)
    // the fatal exit is requested at most once, and only on the way out of the loop
    && m.observed.exitCalls <= 1
    && (m.observed.exitCalls == 1 ==> m.finishedSendingPipResults && m.logTarget != Active)
    && (m.finishedSendingPipResults ==> m.outgoingEvents.addingCompleted && m.started)
    && (!m.started ==> m == Initial(m.workerId, m.maxMessagesPerBatch))
  }

  // ---------------------------------------------------------------- lemmas about the call record

  /** The views of the call record grow by the contribution of the appended call. */
  lemma {:induction false} AppendCall(calls: seq<NotifyCall>, c: NotifyCall)
    ensures LogBlobSequenceNumbers(calls + [c]) == LogBlobSequenceNumbers(calls)
              + (if |c.args.executionLogData| > 0 then [c.args.executionLogBlobSequenceNumber] else [])
    ensures TakenResults(calls + [c]) == TakenResults(calls) + c.results
    ensures AcceptedResults(calls + [c]) == AcceptedResults(calls) + (if c.kind == ResultBatch(true) then c.results else [])
    ensures AcceptedBatches(calls + [c]) == AcceptedBatches(calls) + (if c.kind == ResultBatch(true) then 1 else 0)
    ensures ForwardedEvents(calls + [c]) == ForwardedEvents(calls) + c.args.forwardedEvents
  {
    assert DropLast(calls + [c]) == calls;
  }

  lemma AppendCallShape(calls: seq<NotifyCall>, c: NotifyCall, workerId: nat, maxMessagesPerBatch: int)
    requires CallsWellFormed(calls, workerId, maxMessagesPerBatch) && CallWellFormed(c, workerId, maxMessagesPerBatch)
    requires StandaloneSendsLast(calls) && (c.kind.ResultBatch? ==> OnlyResultBatches(calls))
    ensures CallsWellFormed(calls + [c], workerId, maxMessagesPerBatch)
    ensures StandaloneSendsLast(calls + [c])
    ensures OnlyResultBatches(calls) && c.kind.ResultBatch? ==> OnlyResultBatches(calls + [c])
  {
    var calls' := calls + [c];
    forall i, j | 0 <= i < j < |calls'| && calls'[i].kind == StandaloneLog
      ensures calls'[j].kind == StandaloneLog
    {
      if j == |calls| {
        assert calls'[i] == calls[i];
      }
    }
  }

  /** No completion record is acknowledged more often than it was taken, and when no batch was
      refused, the acknowledged records are exactly the taken ones. */
  lemma {:induction false} AcceptedWithinTaken(calls: seq<NotifyCall>)
    requires forall i | 0 <= i < |calls| :: calls[i].kind == StandaloneLog ==> |calls[i].results| == 0
    ensures multiset(AcceptedResults(calls)) <= multiset(TakenResults(calls))
    ensures (forall i | 0 <= i < |calls| :: calls[i].kind != ResultBatch(false)) ==>
              AcceptedResults(calls) == TakenResults(calls)
  {
    if |calls| > 0 {
      var front, c := DropLast(calls), Last(calls);
      assert calls == front + [c];
      assert forall i | 0 <= i < |front| :: front[i] == calls[i];
      AcceptedWithinTaken(front);
      AppendCall(front, c);
      if forall i | 0 <= i < |calls| :: calls[i].kind != ResultBatch(false) {
        assert c.kind != ResultBatch(false) by {
          assert c == calls[|calls| - 1];
        }
      }
    }
  }

  // ---------------------------------------------------------------- lemmas about one pass

  /** A pass on a manager whose result queue is completed either finishes the loop or takes at
      least one result: the loop cannot spin once no more results can arrive. */
  lemma PassProgress(m: Manager, env: PassEnv)
    requires m.started && !m.finishedSendingPipResults && m.readyResults.addingCompleted
    ensures Pass(m, env).started && Pass(m, env).readyResults.addingCompleted
    ensures Pass(m, env).finishedSendingPipResults || |Pass(m, env).readyResults.items| < |m.readyResults.items|
  {
    if !m.cancelRequested {
      var results := m.readyResults.items[..TakenCount(m)];
      var a := Assembled(m, env);
      if !(|results| == 0 && |m.outgoingEvents.items| == 0 && |a.flushedExecutionLog| == 0) {
        var s := Sent(a, results, m.outgoingEvents.items, env);
        assert Pass(m, env) == AfterSend(s, results, env.sendSucceeded);
        assert s.readyResults.items == a.readyResults.items && s.readyResults.addingCompleted;
      }
    }
  }

  /** The result records of a pass: at least one and at most the cap when the queue holds any,
      taken from the front of the queue in order, with nothing else removed. Every pending event
      goes into the same notification, in order and without a cap. */
  lemma PassTakesBatchInOrder(m: Manager, env: PassEnv)
    requires m.started && !m.finishedSendingPipResults && !m.cancelRequested
    requires |m.readyResults.items| > 0 || m.readyResults.addingCompleted
    ensures var r := Pass(m, env); var k := TakenCount(m); var calls := m.observed.calls;
      && (|m.readyResults.items| > 0 ==> 1 <= k <= BatchCap(m.maxMessagesPerBatch))
      && (k < BatchCap(m.maxMessagesPerBatch) ==> k == |m.readyResults.items|)
      && r.readyResults.items == m.readyResults.items[k..]
      && |r.outgoingEvents.items| == 0
      && ((k > 0 || |m.outgoingEvents.items| > 0) ==>
            && |r.observed.calls| == |calls| + 1
            && r.observed.calls[|calls|].results == m.readyResults.items[..k]
            && r.observed.calls[|calls|].args.completedPips == Payloads(m.readyResults.items[..k])
            && r.observed.calls[|calls|].args.forwardedEvents == m.outgoingEvents.items)
  {
    var results := m.readyResults.items[..TakenCount(m)];
    var a := Assembled(m, env);
    if !(|results| == 0 && |m.outgoingEvents.items| == 0 && |a.flushedExecutionLog| == 0) {
      var s := Sent(a, results, m.outgoingEvents.items, env);
      assert Pass(m, env) == AfterSend(s, results, env.sendSucceeded);
      assert s.observed.calls == m.observed.calls + [BatchCall(a, results, m.outgoingEvents.items, env.sendSucceeded)];
    }
  }

  /** A pass with no result, no event and no log byte sends nothing and changes no counter. */
  lemma PassSkipsEmptyBatch(m: Manager, env: PassEnv)
    requires m.started && !m.finishedSendingPipResults && !m.cancelRequested
    requires m.readyResults.IsCompleted()
    requires |m.outgoingEvents.items| == 0 && |m.flushedExecutionLog| == 0 && |env.flushedBytes| == 0
    ensures var r := Pass(m, env);
      && r.observed == m.observed
      && r.xlgBlobSequenceNumber == m.xlgBlobSequenceNumber && r.numBatchesSent == m.numBatchesSent
      && r.finishedSendingPipResults
  {
  }

  /** The log blob of a batch is everything flushed since the last send. A sequence number is
      consumed exactly when there are log bytes; without them the batch carries number 0 and no data. */
  lemma PassNumbersLogBlob(m: Manager, env: PassEnv)
    requires m.started && !m.finishedSendingPipResults
    requires |Pass(m, env).observed.calls| > |m.observed.calls|
    ensures var r := Pass(m, env); var log := m.flushedExecutionLog + env.flushedBytes;
      var c := r.observed.calls[|m.observed.calls|];
      && c.args.executionLogData == log
      && (|log| > 0 ==> c.args.executionLogBlobSequenceNumber == m.xlgBlobSequenceNumber
                        && r.xlgBlobSequenceNumber == m.xlgBlobSequenceNumber + 1)
      && (|log| == 0 ==> c.args.executionLogBlobSequenceNumber == 0
                         && r.xlgBlobSequenceNumber == m.xlgBlobSequenceNumber)
  {
    var results := m.readyResults.items[..TakenCount(m)];
    var a := Assembled(m, env);
    var s := Sent(a, results, m.outgoingEvents.items, env);
    SentShape(a, results, m.outgoingEvents.items, env);
    AfterSendShape(s, results, env.sendSucceeded);
    assert Pass(m, env) == AfterSend(s, results, env.sendSucceeded);
  }

  /** Records are acknowledged after, and only after, the client accepted their batch; a failed
      send acknowledges nothing. It is fatal exactly when cancellation was not requested: the log
      target is deactivated, ExitAsync is called once and the loop stops with the unsent log kept.
      A failure under cancellation drops the log bytes and ends the loop without the fatal exit. */
  lemma PassAcknowledgesOnlyAcceptedBatches(m: Manager, env: PassEnv)
    requires m.started && !m.finishedSendingPipResults
    requires |Pass(m, env).observed.calls| > |m.observed.calls|
    ensures var r := Pass(m, env); var o := m.observed; var c := r.observed.calls[|o.calls|];
      && c.kind == ResultBatch(env.sendSucceeded)
      && (env.sendSucceeded ==>
            r.observed.acknowledged == o.acknowledged + c.results && r.numBatchesSent == m.numBatchesSent + 1
            && |r.flushedExecutionLog| == 0 && r.observed.exitCalls == o.exitCalls)
      && (!env.sendSucceeded ==>
            r.observed.acknowledged == o.acknowledged && r.numBatchesSent == m.numBatchesSent
            && r.finishedSendingPipResults && r.outgoingEvents.addingCompleted)
      && (!env.sendSucceeded && !env.cancelledDuringSend ==>
            r.observed.exitCalls == o.exitCalls + 1 && r.logTarget != Active
            && r.flushedExecutionLog == c.args.executionLogData)
      && (!env.sendSucceeded && env.cancelledDuringSend ==>
            r.observed.exitCalls == o.exitCalls && |r.flushedExecutionLog| == 0)
  {
    var results := m.readyResults.items[..TakenCount(m)];
    var a := Assembled(m, env);
    var c := BatchCall(a, results, m.outgoingEvents.items, env.sendSucceeded);
    var s := Sent(a, results, m.outgoingEvents.items, env);
    SentShape(a, results, m.outgoingEvents.items, env);
    assert Pass(m, env) == AfterSend(s, results, env.sendSucceeded);
    assert s.cancelRequested == env.cancelledDuringSend;
  }

  /** A pass that sees cancellation at the take, or that blocks on an empty open queue, sends nothing. */
  lemma PassWithoutSend(m: Manager, env: PassEnv)
    requires m.started && !m.finishedSendingPipResults
    requires m.cancelRequested || (|m.readyResults.items| == 0 && !m.readyResults.addingCompleted)
    ensures var r := Pass(m, env);
      && r.observed == m.observed && r.readyResults == m.readyResults
      && (m.cancelRequested ==> r.finishedSendingPipResults && r.outgoingEvents.addingCompleted)
      && (!m.cancelRequested ==> r == m)
  {
  }

  /** After every pass that does not end in the fatal exit, the log buffer is empty again. */
  lemma PassResetsLog(m: Manager, env: PassEnv)
    requires m.started && !m.finishedSendingPipResults && !m.cancelRequested
    requires |m.readyResults.items| > 0 || m.readyResults.addingCompleted
    requires Pass(m, env).observed.exitCalls == m.observed.exitCalls
    ensures |Pass(m, env).flushedExecutionLog| == 0
  {
    var results := m.readyResults.items[..TakenCount(m)];
    var a := Assembled(m, env);
    if !(|results| == 0 && |m.outgoingEvents.items| == 0 && |a.flushedExecutionLog| == 0) {
      var s := Sent(a, results, m.outgoingEvents.items, env);
      assert Pass(m, env) == AfterSend(s, results, env.sendSucceeded);
      assert s.observed.exitCalls == m.observed.exitCalls;
    }
  }

  // ---------------------------------------------------------------- the invariant is preserved

  /** What the stages of a sending pass change, each stated on its own. */
  lemma AfterSendShape(s: Manager, results: seq<PipCompletion>, succeeded: bool)
    requires !s.finishedSendingPipResults
    ensures var r := AfterSend(s, results, succeeded);
      && r.workerId == s.workerId && r.maxMessagesPerBatch == s.maxMessagesPerBatch && r.started == s.started
      && r.observed.calls == s.observed.calls && r.xlgBlobSequenceNumber == s.xlgBlobSequenceNumber
      && r.readyResults.items == s.readyResults.items && r.outgoingEvents.items == s.outgoingEvents.items
      && r.observed.reported == s.observed.reported && r.observed.reportedEvents == s.observed.reportedEvents
      && r.observed.acknowledged == s.observed.acknowledged + (if succeeded then results else [])
      && r.numBatchesSent == s.numBatchesSent + (if succeeded then 1 else 0)
      && r.observed.exitCalls == s.observed.exitCalls + (if !succeeded && !s.cancelRequested then 1 else 0)
      && (r.observed.exitCalls != s.observed.exitCalls ==> r.logTarget != Active)
      && (r.finishedSendingPipResults ==> r.outgoingEvents.addingCompleted)
      && (!succeeded ==> r.finishedSendingPipResults)
  {
  }

  lemma SentShape(a: Manager, results: seq<PipCompletion>, events: seq<EventMessage>, env: PassEnv)
    ensures var s := Sent(a, results, events, env);
      && s.workerId == a.workerId && s.maxMessagesPerBatch == a.maxMessagesPerBatch && s.started == a.started
      && s.observed.calls == a.observed.calls + [BatchCall(a, results, events, env.sendSucceeded)]
      && s.xlgBlobSequenceNumber == a.xlgBlobSequenceNumber + (if |a.flushedExecutionLog| > 0 then 1 else 0)
      && s.readyResults.items == a.readyResults.items && s.outgoingEvents == a.outgoingEvents
      && s.observed.reported == a.observed.reported && s.observed.reportedEvents == a.observed.reportedEvents
      && s.observed.acknowledged == a.observed.acknowledged && s.numBatchesSent == a.numBatchesSent
      && s.observed.exitCalls == a.observed.exitCalls
  {
  }

  /** Numbering a log blob with the next sequence number keeps the numbers gap-free. */
  lemma {:induction false} AppendNumbered(calls: seq<NotifyCall>, c: NotifyCall, n: nat)
    requires LogBlobSequenceNumbers(calls) == Naturals(n)
    requires |c.args.executionLogData| > 0 ==> c.args.executionLogBlobSequenceNumber == n
    ensures LogBlobSequenceNumbers(calls + [c]) == Naturals(if |c.args.executionLogData| > 0 then n + 1 else n)
  {
    AppendCall(calls, c);
  }

  lemma BatchCallWellFormed(m: Manager, env: PassEnv)
    requires !(TakenCount(m) == 0 && |m.outgoingEvents.items| == 0 && |m.flushedExecutionLog + env.flushedBytes| == 0)
    ensures var a := Assembled(m, env);
      CallWellFormed(BatchCall(a, m.readyResults.items[..TakenCount(m)], m.outgoingEvents.items, env.sendSucceeded),
                     m.workerId, m.maxMessagesPerBatch)
  {
  }

  /** The invariant survives a result batch, stated over what the batch changes. */
  lemma {:induction false} BatchPreservesInv(m: Manager, r: Manager, c: NotifyCall)
    requires Inv(m) && m.started && !m.finishedSendingPipResults
    requires r.workerId == m.workerId && r.maxMessagesPerBatch == m.maxMessagesPerBatch && r.started
    requires c.kind.ResultBatch? && CallWellFormed(c, m.workerId, m.maxMessagesPerBatch)
    requires r.observed.calls == m.observed.calls + [c]
    requires |c.args.executionLogData| > 0 ==> c.args.executionLogBlobSequenceNumber == m.xlgBlobSequenceNumber
    requires r.xlgBlobSequenceNumber == m.xlgBlobSequenceNumber + (if |c.args.executionLogData| > 0 then 1 else 0)
    requires m.readyResults.items == c.results + r.readyResults.items && r.observed.reported == m.observed.reported
    requires m.outgoingEvents.items == c.args.forwardedEvents && |r.outgoingEvents.items| == 0
    requires r.observed.reportedEvents == m.observed.reportedEvents
    requires r.observed.acknowledged == m.observed.acknowledged + (if c.kind == ResultBatch(true) then c.results else [])
    requires r.numBatchesSent == m.numBatchesSent + (if c.kind == ResultBatch(true) then 1 else 0)
    requires r.observed.exitCalls <= 1
    requires r.observed.exitCalls == 1 ==> r.finishedSendingPipResults && r.logTarget != Active
    requires r.finishedSendingPipResults ==> r.outgoingEvents.addingCompleted
    ensures Inv(r)
  {
    var calls := m.observed.calls;
    AppendCall(calls, c);
    AppendNumbered(calls, c, m.xlgBlobSequenceNumber);
    AppendCallShape(calls, c, m.workerId, m.maxMessagesPerBatch);
  }

  lemma {:induction false} SendPreservesInv(m: Manager, env: PassEnv)
    requires Inv(m) && m.started && !m.finishedSendingPipResults && !m.cancelRequested
    requires !(TakenCount(m) == 0 && |m.outgoingEvents.items| == 0 && |m.flushedExecutionLog + env.flushedBytes| == 0)
    ensures var results := m.readyResults.items[..TakenCount(m)];
      Inv(AfterSend(Sent(Assembled(m, env), results, m.outgoingEvents.items, env), results, env.sendSucceeded))
  {
    var n := TakenCount(m);
    var results := m.readyResults.items[..n];
    var events := m.outgoingEvents.items;
    var a := Assembled(m, env);
    var c := BatchCall(a, results, events, env.sendSucceeded);
    var s := Sent(a, results, events, env);
    assert m.readyResults.items == results + m.readyResults.items[n..];
    SentShape(a, results, events, env);
    AfterSendShape(s, results, env.sendSucceeded);
    BatchCallWellFormed(m, env);
    BatchPreservesInv(m, AfterSend(s, results, env.sendSucceeded), c);
  }

  lemma {:induction false} PassPreservesInv(m: Manager, env: PassEnv)
    requires Inv(m) && m.started && !m.finishedSendingPipResults
    ensures Inv(Pass(m, env))
  {
    if !m.cancelRequested && (|m.readyResults.items| > 0 || m.readyResults.addingCompleted) {
      var results := m.readyResults.items[..TakenCount(m)];
      var a := Assembled(m, env);
      if |results| == 0 && |m.outgoingEvents.items| == 0 && |a.flushedExecutionLog| == 0 {
        assert m.readyResults.items[TakenCount(m)..] == m.readyResults.items;
        assert RecordInv(a);
      } else {
        assert TakenCount(m) == |results|;
        SendPreservesInv(m, env);
      }
    }
  }

  lemma {:induction false} FlushPreservesInv(m: Manager, bytes: seq<uint8>)
    requires Inv(m) && m.started
    ensures Inv(FlushExecutionLog(m, bytes))
  {
    var log := m.flushedExecutionLog + bytes;
    if m.finishedSendingPipResults && !m.cancelRequested && |log| > 0 {
      var c := NotifyCall(Notification(0, [], [], m.xlgBlobSequenceNumber, log), [], [], StandaloneLog);
      AppendCall(m.observed.calls, c);
      AppendCallShape(m.observed.calls, c, m.workerId, m.maxMessagesPerBatch);
    }
  }

  lemma ReportPreservesInv(m: Manager, p: PipCompletion, e: EventMessage)
    requires Inv(m) && m.started
    ensures Inv(ReportResult(m, p)) && Inv(ReportEventMessage(m, e))
  {
  }

  lemma LifecyclePreservesInv(m: Manager)
    requires Inv(m)
    ensures !m.started ==> Inv(Start(m))
    ensures Inv(Cancel(m))
  {
  }

  lemma {:induction false} DrainPreservesInv(m: Manager, envs: nat -> PassEnv, i: nat)
    requires Inv(m) && m.started && m.readyResults.addingCompleted
    ensures Inv(Drain(m, envs, i))
    decreases |m.readyResults.items| + (if m.finishedSendingPipResults then 0 else 1)
  {
    if m.finishedSendingPipResults {
      assert Drain(m, envs, i) == m;
    } else {
      var next := Pass(m, envs(i));
      PassProgress(m, envs(i));
      PassPreservesInv(m, envs(i));
      assert Inv(next) && next.started && next.readyResults.addingCompleted;
      DrainPreservesInv(next, envs, i + 1);
      assert Drain(m, envs, i) == Drain(next, envs, i + 1);
    }
  }

  lemma StopListeningPreservesInv(m: Manager)
    requires Inv(m) && m.started
    ensures Inv(StopListening(m))
  {
    assert RecordInv(StopListening(m));
  }

  lemma ExitPreservesInv(m: Manager, envs: nat -> PassEnv, disposeBytes: seq<uint8>)
    requires Inv(m)
    ensures Inv(Exit(m, envs, disposeBytes))
    ensures m.started ==> Exit(m, envs, disposeBytes).finishedSendingPipResults && Exit(m, envs, disposeBytes).cancelRequested
  {
    if m.started {
      var stopped := StopListening(m);
      StopListeningPreservesInv(m);
      DrainPreservesInv(stopped, envs, 0);
      FlushPreservesInv(Drain(stopped, envs, 0), disposeBytes);
    }
  }

  // ---------------------------------------------------------------- what the loop guarantees

  /** No completion record is acknowledged more often than it was reported. When no batch was
      refused, the acknowledged records followed by the queue are exactly the reported ones. */
  lemma AcknowledgedAtMostOnce(m: Manager)
    requires Inv(m)
    ensures multiset(m.observed.acknowledged) <= multiset(m.observed.reported)
    ensures (forall i | 0 <= i < |m.observed.calls| :: m.observed.calls[i].kind != ResultBatch(false)) ==>
              m.observed.acknowledged + m.readyResults.items == m.observed.reported
  {
    var calls := m.observed.calls;
    forall i | 0 <= i < |calls| && calls[i].kind == StandaloneLog ensures |calls[i].results| == 0 {
      assert CallWellFormed(calls[i], m.workerId, m.maxMessagesPerBatch);
    }
    AcceptedWithinTaken(calls);
  }

  /** The guarantee of an orderly shutdown: if no send fails and nothing is cancelled, Exit returns
      only after every queued completion record has been acknowledged, in order and exactly once,
      and every queued event has been forwarded. */
  lemma ExitAcknowledgesEverything(m: Manager, envs: nat -> PassEnv, disposeBytes: seq<uint8>)
    requires Inv(m) && m.started && !m.finishedSendingPipResults && !m.cancelRequested
    requires forall i :: envs(i).sendSucceeded && !envs(i).cancelledDuringSend
    ensures var r := Exit(m, envs, disposeBytes);
      && r.finishedSendingPipResults && |r.readyResults.items| == 0 && |r.outgoingEvents.items| == 0
      && r.observed.acknowledged == m.observed.acknowledged + m.readyResults.items
      && r.observed.exitCalls == m.observed.exitCalls
      && ForwardedEvents(r.observed.calls) == m.observed.reportedEvents
  {
    var stopped := StopListening(m);
    StopListeningPreservesInv(m);
    DrainAllAccepted(stopped, envs, 0);
    DrainPreservesInv(stopped, envs, 0);
    var d := Drain(stopped, envs, 0);
    var f := FlushExecutionLog(d, disposeBytes);
    if |f.observed.calls| > |d.observed.calls| {
      AppendCall(d.observed.calls, Last(f.observed.calls));
      assert f.observed.calls == d.observed.calls + [Last(f.observed.calls)];
    }
  }

  /** The last flush of an orderly shutdown is not lost: the bytes the log target hands over when
      it is disposed go out on their own, after every batch, numbered with the last sequence
      number, and the log buffer is left empty. */
  lemma ExitSendsFinalLog(m: Manager, envs: nat -> PassEnv, disposeBytes: seq<uint8>)
    requires Inv(m) && m.started && !m.finishedSendingPipResults && !m.cancelRequested
    requires forall i :: envs(i).sendSucceeded && !envs(i).cancelledDuringSend
    ensures var r := Exit(m, envs, disposeBytes); var d := Drain(StopListening(m), envs, 0);
      && |r.flushedExecutionLog| == 0
      && LogBlobSequenceNumbers(r.observed.calls) == Naturals(r.xlgBlobSequenceNumber)
      && (|disposeBytes| == 0 ==> r.observed.calls == d.observed.calls)
      && (|disposeBytes| > 0 ==>
            && r.observed.calls == d.observed.calls + [
                 NotifyCall(Notification(0, [], [], r.xlgBlobSequenceNumber - 1, disposeBytes), [], [], StandaloneLog)]
            && r.xlgBlobSequenceNumber == d.xlgBlobSequenceNumber + 1)
  {
    var stopped := StopListening(m);
    StopListeningPreservesInv(m);
    DrainAllAccepted(stopped, envs, 0);
    ExitPreservesInv(m, envs, disposeBytes);
    assert Drain(stopped, envs, 0).flushedExecutionLog + disposeBytes == disposeBytes;
  }

  /** One pass of the drain under success and without cancellation, as DrainAllAccepted uses it. */
  lemma PassAllAccepted(m: Manager, env: PassEnv)
    requires m.started && m.readyResults.addingCompleted && !m.cancelRequested && !m.finishedSendingPipResults
    requires env.sendSucceeded && !env.cancelledDuringSend
    ensures var next := Pass(m, env);
      && next.started && next.readyResults.addingCompleted && !next.cancelRequested
      && (next.finishedSendingPipResults ==> |next.readyResults.items| == 0 && |next.outgoingEvents.items| == 0)
      && next.observed.acknowledged + next.readyResults.items == m.observed.acknowledged + m.readyResults.items
      && next.observed.exitCalls == m.observed.exitCalls
      && next.observed.reportedEvents == m.observed.reportedEvents
      && |next.flushedExecutionLog| == 0
  {
    var n := TakenCount(m);
    var results := m.readyResults.items[..n];
    var a := Assembled(m, env);
    if !(|results| == 0 && |m.outgoingEvents.items| == 0 && |a.flushedExecutionLog| == 0) {
      var s := Sent(a, results, m.outgoingEvents.items, env);
      SentShape(a, results, m.outgoingEvents.items, env);
      AfterSendShape(s, results, true);
      assert Pass(m, env) == AfterSend(s, results, true);
      assert m.readyResults.items == results + m.readyResults.items[n..];
    }
  }

  lemma {:induction false} DrainAllAccepted(m: Manager, envs: nat -> PassEnv, i: nat)
    requires m.started && m.readyResults.addingCompleted && !m.cancelRequested
    requires m.finishedSendingPipResults ==>
      |m.readyResults.items| == 0 && |m.outgoingEvents.items| == 0 && |m.flushedExecutionLog| == 0
    requires forall j :: envs(j).sendSucceeded && !envs(j).cancelledDuringSend
    ensures var r := Drain(m, envs, i);
      && |r.readyResults.items| == 0 && |r.outgoingEvents.items| == 0 && !r.cancelRequested
      && |r.flushedExecutionLog| == 0
      && r.observed.acknowledged == m.observed.acknowledged + m.readyResults.items
      && r.observed.exitCalls == m.observed.exitCalls
      && r.observed.reportedEvents == m.observed.reportedEvents
    decreases |m.readyResults.items| + (if m.finishedSendingPipResults then 0 else 1)
  {
    if !m.finishedSendingPipResults {
      PassProgress(m, envs(i));
      PassAllAccepted(m, envs(i));
      DrainAllAccepted(Pass(m, envs(i)), envs, i + 1);
    }
  }
}

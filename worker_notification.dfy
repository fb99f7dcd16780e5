/**
 * The notification manager as an object whose methods update its fields in place, proved to
 * follow the state machine of module NotificationSpec operation by operation.
 *
 * The result queue belongs to the pip-result listener and the call record to the orchestrator
 * client and the worker service; they are fields here so that the effects of the manager on
 * them can be stated. The send thread is not a thread: each call of `SendPass` is one pass of
 * its loop, interleaved by the caller with the other operations, and `Exit` runs the passes that
 * remain until the loop finishes, which is what joining the thread waits for.
 */
module WorkerNotification {
  import opened BoundedInts
  import opened NotificationSpec

  class WorkerNotificationManager {
    const workerId: nat
    const maxMessagesPerBatch: int
    var started: bool
    var cancelRequested: bool

    // the pip-result listener's queue of results ready to send
    var readyResults: seq<PipCompletion>
    var resultsAddingCompleted: bool

    var outgoingEvents: seq<EventMessage>
    var eventsAddingCompleted: bool
    var flushedExecutionLog: seq<uint8>

    var xlgBlobSequenceNumber: nat
    var numBatchesSent: nat
    var finishedSendingPipResults: bool
    var logTarget: LogTarget

    // what the collaborators see: the client's calls, the worker service's acknowledgements and
    // fatal-exit requests, and (as history) every result and event that entered a queue
    var calls: seq<NotifyCall>
    var acknowledged: seq<PipCompletion>
    var exitCalls: nat
    ghost var reported: seq<PipCompletion>
    ghost var reportedEvents: seq<EventMessage>

    ghost function State(): Manager
      reads this
    {
      Manager(workerId, maxMessagesPerBatch, started, cancelRequested,
              Queue(readyResults, resultsAddingCompleted), Queue(outgoingEvents, eventsAddingCompleted),
              flushedExecutionLog, xlgBlobSequenceNumber, numBatchesSent, finishedSendingPipResults,
              logTarget, Observed(calls, acknowledged, exitCalls, reported, reportedEvents))
    }

    ghost predicate Valid()
      reads this
    {
      Inv(State())
    }

    constructor (workerId: nat, maxMessagesPerBatch: int)
      ensures State() == Initial(workerId, maxMessagesPerBatch) && Valid()
    {
      this.workerId := workerId;
      this.maxMessagesPerBatch := maxMessagesPerBatch;
      started, cancelRequested := false, false;
      readyResults, resultsAddingCompleted := [], false;
      outgoingEvents, eventsAddingCompleted := [], false;
      flushedExecutionLog := [];
      xlgBlobSequenceNumber, numBatchesSent := 0, 0;
      finishedSendingPipResults := false;
      logTarget := Unattached;
      calls, acknowledged, exitCalls := [], [], 0;
      reported, reportedEvents := [], [];
    }

    /** Registers the execution-log target and starts the send loop. */
    method Start()
      requires Valid()
      requires !started
      modifies this
      ensures State() == NotificationSpec.Start(old(State()))
      ensures Valid()
    {
      LifecyclePreservesInv(State());
      logTarget := Active;
      started := true;
    }

    method ReportResult(p: PipCompletion)
      requires Valid()
      requires started
      modifies this
      ensures State() == NotificationSpec.ReportResult(old(State()), p)
      ensures Valid()
    {
      ReportPreservesInv(State(), p, EventMessage(0, 0, []));
      if !resultsAddingCompleted {
        readyResults := readyResults + [p];
        reported := reported + [p];
      }
    }

    method ReportEventMessage(e: EventMessage)
      requires Valid()
      requires started
      modifies this
      ensures State() == NotificationSpec.ReportEventMessage(old(State()), e)
      ensures Valid()
    {
      ReportPreservesInv(State(), PipCompletion([], 0), e);
      if cancelRequested {
        return;
      }
      if !eventsAddingCompleted {
        outgoingEvents := outgoingEvents + [e];
        reportedEvents := reportedEvents + [e];
      }
    }

    /** Called back by the log target with the bytes it buffered. */
    method FlushExecutionLog(listenerBytes: seq<uint8>)
      requires Valid()
      requires started
      modifies this
      ensures State() == NotificationSpec.FlushExecutionLog(old(State()), listenerBytes)
      ensures Valid()
    {
      FlushPreservesInv(State(), listenerBytes);
      flushedExecutionLog := flushedExecutionLog + listenerBytes;
      if finishedSendingPipResults && !cancelRequested && |flushedExecutionLog| > 0 {
        // a flush after the loop has finished: the blob goes out on its own
        SendStandaloneLog();
      }
    }

    method SendStandaloneLog()
      modifies this
      ensures var m := old(State());
        State() == m.(flushedExecutionLog := [],
                      xlgBlobSequenceNumber := m.xlgBlobSequenceNumber + 1,
                      observed := m.observed.(calls := m.observed.calls + [
                        NotifyCall(Notification(0, [], [], m.xlgBlobSequenceNumber, m.flushedExecutionLog), [], [], StandaloneLog)]))
    {
      var args := Notification(0, [], [], xlgBlobSequenceNumber, flushedExecutionLog);
      xlgBlobSequenceNumber := xlgBlobSequenceNumber + 1;
      calls := calls + [NotifyCall(args, [], [], StandaloneLog)];
      flushedExecutionLog := [];
    }

    method Cancel()
      requires Valid()
      modifies this
      ensures State() == NotificationSpec.Cancel(old(State()))
      ensures Valid()
    {
      LifecyclePreservesInv(State());
      if started {
        RequestCancellation();
      }
    }

    /** Takes the batch's results: the first one, then more while the batch is under the cap. */
    method TakeResults() returns (executionResults: seq<PipCompletion>)
      modifies this
      ensures executionResults == old(readyResults)[..TakenCount(old(State()))]
      ensures State() == old(State()).(readyResults := Queue(old(readyResults)[TakenCount(old(State()))..], old(resultsAddingCompleted)))
    {
      executionResults := [];
      if |readyResults| > 0 {
        executionResults := [readyResults[0]];
        readyResults := readyResults[1..];
        while |executionResults| < maxMessagesPerBatch && |readyResults| > 0
          invariant old(readyResults) == executionResults + readyResults
          invariant 1 <= |executionResults| <= BatchCap(maxMessagesPerBatch)
          invariant State() == old(State()).(readyResults := Queue(readyResults, old(resultsAddingCompleted)))
          decreases |readyResults|
        {
          executionResults := executionResults + [readyResults[0]];
          readyResults := readyResults[1..];
        }
      }
      assert old(readyResults) == executionResults + readyResults;
      assert |executionResults| == TakenCount(old(State()));
    }

    /** Takes every pending event, in order. */
    method TakeEvents() returns (eventList: seq<EventMessage>)
      modifies this
      ensures eventList == old(outgoingEvents)
      ensures State() == old(State()).(outgoingEvents := Queue([], old(eventsAddingCompleted)))
    {
      eventList := [];
      while |outgoingEvents| > 0
        invariant old(outgoingEvents) == eventList + outgoingEvents
        invariant State() == old(State()).(outgoingEvents := Queue(outgoingEvents, old(eventsAddingCompleted)))
        decreases |outgoingEvents|
      {
        eventList := eventList + [outgoingEvents[0]];
        outgoingEvents := outgoingEvents[1..];
      }
    }

    /** Tells the worker service about every result of an accepted batch, in order. */
    method Acknowledge(executionResults: seq<PipCompletion>)
      modifies this
      ensures State() == old(State()).(observed := old(State()).observed.(acknowledged := old(acknowledged) + executionResults))
    {
      for k := 0 to |executionResults|
        invariant acknowledged == old(acknowledged) + executionResults[..k]
        invariant State() == old(State()).(observed := old(State()).observed.(acknowledged := acknowledged))
      {
        acknowledged := acknowledged + [executionResults[k]];
      }
      assert executionResults[..|executionResults|] == executionResults;
    }

    method LeaveLoop()
      modifies this
      ensures State() == LoopExit(old(State()))
    {
      finishedSendingPipResults := true;
      eventsAddingCompleted := true;
    }

    method CheckLoopCondition()
      modifies this
      ensures State() == LoopHead(old(State()))
    {
      if (resultsAddingCompleted && |readyResults| == 0) || cancelRequested {
        LeaveLoop();
      }
    }

    /** Steps 1 to 3 of a pass: the batch's results, every pending event, the log target's bytes. */
    method AssembleBatch(env: PassEnv) returns (executionResults: seq<PipCompletion>, eventList: seq<EventMessage>)
      requires started && !finishedSendingPipResults
      modifies this
      ensures executionResults == old(readyResults)[..TakenCount(old(State()))]
      ensures eventList == old(outgoingEvents)
      ensures State() == Assembled(old(State()), env)
    {
      ghost var m := State();
      executionResults := TakeResults();
      ghost var taken := State();
      assert taken == m.(readyResults := m.readyResults.(items := m.readyResults.items[TakenCount(m)..]));
      eventList := TakeEvents();
      assert State() == taken.(outgoingEvents := taken.outgoingEvents.(items := []));
      // the flush calls back FlushExecutionLog, which only appends while the loop is running
      flushedExecutionLog := flushedExecutionLog + env.flushedBytes;
    }

    /** Calls the orchestrator client with the batch; the log blob is numbered only when there
        are log bytes. */
    method NotifyOrchestrator(executionResults: seq<PipCompletion>, eventList: seq<EventMessage>, succeeded: bool)
      modifies this
      ensures State() == Called(old(State()), executionResults, eventList, succeeded)
    {
      var sequenceNumber := 0;
      if |flushedExecutionLog| > 0 {
        sequenceNumber := xlgBlobSequenceNumber;
        xlgBlobSequenceNumber := xlgBlobSequenceNumber + 1;
      }
      var notification := Notification(workerId, Payloads(executionResults), eventList, sequenceNumber, flushedExecutionLog);
      calls := calls + [NotifyCall(notification, Hashes(executionResults), executionResults, ResultBatch(succeeded))];
    }

    /** What Cancel() does to a started manager. */
    method RequestCancellation()
      modifies this
      ensures State() == CancelEffects(old(State()))
    {
      logTarget := Deactivate(logTarget);
      resultsAddingCompleted := true;
      cancelRequested := true;
    }

    /** Reacts to the client's outcome. */
    method HandleOutcome(executionResults: seq<PipCompletion>, succeeded: bool)
      modifies this
      ensures State() == AfterSend(old(State()), executionResults, succeeded)
    {
      if succeeded {
        Acknowledge(executionResults);
        numBatchesSent := numBatchesSent + 1;
      } else if !cancelRequested {
        // the worker fails: no more notifications, and the unsent log stays buffered
        logTarget := Deactivate(logTarget);
        exitCalls := exitCalls + 1;
        LeaveLoop();
        return;
      }
      flushedExecutionLog := [];
      CheckLoopCondition();
    }

    /** One pass of the send loop; `env` supplies what the pass observes from other threads. */
    method SendPass(env: PassEnv)
      requires Valid()
      requires started && !finishedSendingPipResults
      modifies this
      ensures State() == Pass(old(State()), env)
      ensures Valid()
    {
      PassPreservesInv(State(), env);
      if cancelRequested {
        // the take observes the cancellation
        LeaveLoop();
        return;
      }
      if |readyResults| == 0 && !resultsAddingCompleted {
        // the take blocks
        return;
      }
      var executionResults, eventList := AssembleBatch(env);
      if |executionResults| == 0 && |eventList| == 0 && |flushedExecutionLog| == 0 {
        // nothing to send
        CheckLoopCondition();
        return;
      }
      NotifyOrchestrator(executionResults, eventList, env.sendSucceeded);
      if env.cancelledDuringSend {
        // Cancel() lands while the call is in flight
        RequestCancellation();
      }
      HandleOutcome(executionResults, env.sendSucceeded);
    }

    /** One pass of the loop while Exit waits for it. */
    method JoinStep(envs: nat -> PassEnv, i: nat)
      requires Valid() && started && resultsAddingCompleted && !finishedSendingPipResults
      modifies this
      ensures Valid() && started && resultsAddingCompleted
      ensures Drain(State(), envs, i + 1) == Drain(old(State()), envs, i)
      ensures |readyResults| <= old(|readyResults|)
      ensures finishedSendingPipResults || |readyResults| < old(|readyResults|)
    {
      PassProgress(State(), envs(i));
      SendPass(envs(i));
    }

    /** Waits for the send loop to finish: it makes its remaining passes, `envs(i)` being what
        the i-th of them observes. */
    method Join(envs: nat -> PassEnv)
      requires Valid() && started && resultsAddingCompleted
      modifies this
      ensures State() == Drain(old(State()), envs, 0)
      ensures Valid()
    {
      var i := 0;
      while !finishedSendingPipResults
        invariant Valid() && started && resultsAddingCompleted
        invariant Drain(State(), envs, i) == Drain(old(State()), envs, 0)
        decreases |readyResults| + (if finishedSendingPipResults then 0 else 1)
      {
        JoinStep(envs, i);
        i := i + 1;
      }
    }

    /** Stops listening, waits for the send loop to drain what is queued, disposes of the log
        target and cancels; `envs(i)` is what the i-th remaining pass observes and `disposeBytes`
        what the log target's last flush hands over. */
    method Exit(envs: nat -> PassEnv, disposeBytes: seq<uint8>)
      requires Valid()
      modifies this
      ensures State() == NotificationSpec.Exit(old(State()), envs, disposeBytes)
      ensures Valid()
    {
      ExitPreservesInv(State(), envs, disposeBytes);
      if !started {
        return;
      }
      StopListeners();
      ghost var stopped := State();
      Join(envs);
      assert State() == Drain(stopped, envs, 0);
      // disposing of the log target flushes it one last time
      FlushExecutionLog(disposeBytes);
      cancelRequested := true;
    }

    /** The listeners stop, and the log target is deactivated and removed. */
    method StopListeners()
      requires Valid() && started
      modifies this
      ensures State() == StopListening(old(State()))
      ensures Valid() && started && resultsAddingCompleted
    {
      StopListeningPreservesInv(State());
      resultsAddingCompleted := true;
      if logTarget != Unattached {
        logTarget := Removed;
      }
    }
  }
}

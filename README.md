# Worker notifications and sandboxed process descriptions

This project models two parts of the BuildXL engine in Dafny.

**The worker notification manager.** A distributed worker uses it to report pip results, forwarded
events and execution-log bytes to its orchestrator:

- Completed pips go into the pip-result listener's queue.
- Forwarded events go into an outgoing-event queue.
- The execution-log target appends bytes to a flushed-log buffer.

A dedicated send thread repeats one pass until the result queue is completed and empty, or until
cancellation is requested. Each pass:

1. takes one result and tops the batch up to `maxMessagesPerBatch`;
2. drains every pending event;
3. flushes the log;
4. skips the pass if all three are empty;
5. otherwise numbers the log blob with the next sequence number (only if there are log bytes) and
   calls the orchestrator;
6. on success, acknowledges each result to the worker service and counts the batch;
7. on failure without cancellation, deactivates the log target, asks the worker service to exit
   and leaves the loop;
8. resets the log buffer.

On leaving, the loop marks itself finished and completes the event queue. After that, unless
cancellation was requested, a flush sends its log blob on its own. `Exit` does the following in
order:

1. stops the listeners;
2. deactivates and removes the log target;
3. joins the send thread;
4. disposes of the log target. Its last flush then goes out on its own;
5. cancels.

`Cancel` deactivates and cancels at once.

The behaviour is defined as a pure state machine (`NotificationSpec`). The class
`WorkerNotification.WorkerNotificationManager` is proved, method by method, to follow it. The
properties are proved about the state machine:

- an invariant ties the counters and queues to the record of orchestrator calls;
- log blob sequence numbers are gap-free;
- a result is acknowledged only when its batch was accepted, and never more often than it was
  reported;
- batches are taken in FIFO order and capped;
- the send loop terminates once the result queue is completed;
- if no send fails, an orderly `Exit` acknowledges every queued result and forwards every event;
- an orderly `Exit` sends the log target's final flush on its own, with the next sequence number.

**The sandboxed process description** (`Processes.SandboxedProcessInfo`). It holds the executable,
arguments, limits, diagnostics settings and root mappings of a process to launch. The model covers:

- the two constructors and their defaults (a 30-second nested-process termination timeout; a
  16384-character output buffer);
- the arguments setter, which forgets the cached command line;
- the lazily cached command line;
- the non-negative guard on the output-buffer limit;
- the lazily cached root-mapping block. The block is each mapping's drive letter, then its target
  path, then a NUL, with one more NUL at the end. It is proved to read back as the drive letters
  and paths, and proved to fail exactly when a key is empty;
- the provenance string. It is proved to read back as the pip's hash and description;
- serialization and deserialization through a stream. These are proved to round-trip every
  description the constructor and setters accept. A stream whose file name is missing, or whose
  buffer limit is negative, is refused in that order.

The stream is modelled as a sequence of typed tokens (`ProcessInfoCodec.Token`). The writer and
reader are the classes `Processes.TokenWriter` and `Processes.TokenReader`.

The root-mapping cache is modelled as the source has it: assigning new root mappings does not
clear a block that was already built, so later calls return the old block.
`GetUnicodeRootMappingBlock` states this case explicitly.

## Model

| member | source | states |
|---|---|---|
| NotificationSpec.AppendCall | Public/Src/Engine/Dll/Distribution/WorkerNotificationManager.cs:271-300 | Appending one orchestrator call adds exactly its results to the taken results. It adds its results to the acknowledged ones, and one to the batch count, only when the call is an accepted batch. It adds its forwarded events, and its blob number when it carries log bytes. |
| NotificationSpec.AppendCallShape | Public/Src/Engine/Dll/Distribution/WorkerNotificationManager.cs:171-183 | Appending a well-formed call keeps the record well formed. Standalone log sends still come only after every result batch. |
| NotificationSpec.AcceptedWithinTaken | Public/Src/Engine/Dll/Distribution/WorkerNotificationManager.cs:292-308 | The multiset of acknowledged results is contained in the multiset of results taken into batches. The two are equal when no batch was refused. |
| NotificationSpec.PassProgress | Public/Src/Engine/Dll/Distribution/WorkerNotificationManager.cs:219-248 | Once the result queue is completed, every pass either finishes the loop or strictly shrinks the queue. |
| NotificationSpec.PassTakesBatchInOrder | Public/Src/Engine/Dll/Distribution/WorkerNotificationManager.cs:221-255 | A pass takes between one result and the batch cap, from the front of the queue in FIFO order. It drains every pending event with no cap. A call it makes carries exactly those results and events. |
| NotificationSpec.PassSkipsEmptyBatch | Public/Src/Engine/Dll/Distribution/WorkerNotificationManager.cs:264-268 | With no result, no event and no log byte, a pass makes no call and acknowledges nothing. It leaves the counters unchanged and ends the loop, since the queue is completed. |
| NotificationSpec.PassNumbersLogBlob | Public/Src/Engine/Dll/Distribution/WorkerNotificationManager.cs:271-284 | The blob a pass sends is everything flushed since the last send. It gets the current sequence number, which is then incremented, only when it has bytes. Otherwise it is empty with number 0. |
| NotificationSpec.PassAcknowledgesOnlyAcceptedBatches | Public/Src/Engine/Dll/Distribution/WorkerNotificationManager.cs:288-311 | An accepted batch acknowledges its results in order, counts one batch, resets the log and requests no exit. A refused batch acknowledges nothing and finishes the loop. If cancellation was not requested, it also keeps the log, deactivates the log target and requests the fatal exit exactly once. |
| NotificationSpec.PassWithoutSend | Public/Src/Engine/Dll/Distribution/WorkerNotificationManager.cs:221-236 | A pass that sees cancellation at the take leaves the loop without a call. A pass that blocks on an empty, open queue changes nothing. |
| NotificationSpec.PassResetsLog | Public/Src/Engine/Dll/Distribution/WorkerNotificationManager.cs:261-311 | After every pass that does not end in the fatal exit, the log buffer is empty. |
| NotificationSpec.AfterSendShape | Public/Src/Engine/Dll/Distribution/WorkerNotificationManager.cs:292-311 | States what the post-send stage changes for success and for failure, each counter and flag separately. |
| NotificationSpec.SentShape | Public/Src/Engine/Dll/Distribution/WorkerNotificationManager.cs:271-290 | States what the send stage changes: one call appended, and the sequence number advanced only for a non-empty blob. |
| NotificationSpec.AppendNumbered | Public/Src/Engine/Dll/Distribution/WorkerNotificationManager.cs:271-284 | Numbering a non-empty blob with the next sequence number keeps the blob numbers the gap-free sequence 0, 1, 2, … |
| NotificationSpec.BatchCallWellFormed | Public/Src/Engine/Dll/Distribution/WorkerNotificationManager.cs:239-284 | The call a non-empty pass makes carries the worker id and at most the batch cap of results. |
| NotificationSpec.BatchPreservesInv | Public/Src/Engine/Dll/Distribution/WorkerNotificationManager.cs:271-311 | A result batch that changes the state as the loop does preserves the manager invariant. |
| NotificationSpec.SendPreservesInv | Public/Src/Engine/Dll/Distribution/WorkerNotificationManager.cs:271-311 | A sending pass preserves the manager invariant. |
| NotificationSpec.PassPreservesInv | Public/Src/Engine/Dll/Distribution/WorkerNotificationManager.cs:216-317 | Every pass of the send loop preserves the manager invariant: gap-free blob numbers, acknowledgements equal to accepted results, batch count equal to accepted batches, every reported result and event either queued or sent, at most one exit request. |
| NotificationSpec.FlushPreservesInv | Public/Src/Engine/Dll/Distribution/WorkerNotificationManager.cs:162-185 | A flush preserves the invariant, including the standalone send after the loop has finished. |
| NotificationSpec.ReportPreservesInv | Public/Src/Engine/Dll/Distribution/WorkerNotificationManager.cs:156-214 | Reporting a result or an event preserves the invariant. |
| NotificationSpec.LifecyclePreservesInv | Public/Src/Engine/Dll/Distribution/WorkerNotificationManager.cs:90-154 | Start on a manager that has not started, and Cancel at any time, preserve the invariant. |
| NotificationSpec.DrainPreservesInv | Public/Src/Engine/Dll/Distribution/WorkerNotificationManager.cs:133-137 | Running the send loop to its end preserves the invariant. |
| NotificationSpec.Drain | Public/Src/Engine/Dll/Distribution/WorkerNotificationManager.cs:133-137 | Once the result queue is completed, running the send loop's remaining passes always ends with the loop finished, so the join in Exit returns. |
| NotificationSpec.StopListeningPreservesInv | Public/Src/Engine/Dll/Distribution/WorkerNotificationManager.cs:119-131 | Stopping the listeners and deactivating the log target preserves the invariant. |
| NotificationSpec.ExitPreservesInv | Public/Src/Engine/Dll/Distribution/WorkerNotificationManager.cs:112-142 | Exit, including the flush made when the log target is disposed, preserves the invariant. On a started manager it leaves the loop finished and cancellation requested. |
| NotificationSpec.AcknowledgedAtMostOnce | Public/Src/Engine/Dll/Distribution/WorkerNotificationManager.cs:292-308 | In every reachable state, the multiset of acknowledged results is contained in the multiset of reported ones. With no refused batch, acknowledged plus still-queued results are exactly the reported ones. |
| NotificationSpec.ExitAcknowledgesEverything | Public/Src/Engine/Dll/Distribution/WorkerNotificationManager.cs:112-142 | If every send succeeds and nothing is cancelled, Exit empties both queues. Every queued result is acknowledged in order, no exit is requested, and the forwarded events are exactly the reported ones. |
| NotificationSpec.ExitSendsFinalLog | Public/Src/Engine/Dll/Distribution/WorkerNotificationManager.cs:133-141 | Assume every send succeeds and nothing was cancelled. Then the bytes the log target hands over when it is disposed after the join are not lost. If there are any, they go out as one standalone call after every batch, numbered with the next sequence number. Otherwise no call is made. Either way the log buffer is left empty and the blob numbers stay gap-free. |
| NotificationSpec.PassAllAccepted | Public/Src/Engine/Dll/Distribution/WorkerNotificationManager.cs:216-317 | Under success and without cancellation, a pass acknowledges exactly the results it takes and forwards every queued event. |
| NotificationSpec.DrainAllAccepted | Public/Src/Engine/Dll/Distribution/WorkerNotificationManager.cs:216-317 | Under success and without cancellation, running the loop to its end acknowledges the whole result queue in order and forwards every event. |
| WorkerNotification.WorkerNotificationManager.constructor | Public/Src/Engine/Dll/Distribution/WorkerNotificationManager.cs:84-88 | A new manager is not started, has empty queues, a zero sequence number and batch count, and satisfies the invariant. |
| WorkerNotification.WorkerNotificationManager.Start | Public/Src/Engine/Dll/Distribution/WorkerNotificationManager.cs:90-110 | Start activates the log target and marks the manager started, as the state machine's Start does. It keeps the invariant. |
| WorkerNotification.WorkerNotificationManager.ReportResult | Public/Src/Engine/Dll/Distribution/WorkerNotificationManager.cs:156-160 | A result joins the listener's queue unless the queue is completed. The invariant is kept. |
| WorkerNotification.WorkerNotificationManager.ReportEventMessage | Public/Src/Engine/Dll/Distribution/WorkerNotificationManager.cs:188-214 | An event is dropped after cancellation or once the queue is completed. Otherwise it is queued. The invariant is kept. |
| WorkerNotification.WorkerNotificationManager.FlushExecutionLog | Public/Src/Engine/Dll/Distribution/WorkerNotificationManager.cs:162-185 | Bytes are appended to the log buffer. After the loop has finished and without cancellation, a non-empty buffer is sent on its own with the next sequence number and then cleared. The invariant is kept. |
| WorkerNotification.WorkerNotificationManager.SendStandaloneLog | Public/Src/Engine/Dll/Distribution/WorkerNotificationManager.cs:171-183 | One standalone call carries the buffer and the current sequence number. The number is incremented and the buffer cleared. |
| WorkerNotification.WorkerNotificationManager.Cancel | Public/Src/Engine/Dll/Distribution/WorkerNotificationManager.cs:145-154 | On a started manager, Cancel deactivates the log target, completes the listener's queue and requests cancellation. Otherwise it does nothing. The invariant is kept. |
| WorkerNotification.WorkerNotificationManager.TakeResults | Public/Src/Engine/Dll/Distribution/WorkerNotificationManager.cs:224-248 | The loop returns the front of the result queue, as many results as the cap allows, and removes exactly those. |
| WorkerNotification.WorkerNotificationManager.TakeEvents | Public/Src/Engine/Dll/Distribution/WorkerNotificationManager.cs:251-255 | The loop returns every pending event in order and empties the queue. Nothing else changes. |
| WorkerNotification.WorkerNotificationManager.Acknowledge | Public/Src/Engine/Dll/Distribution/WorkerNotificationManager.cs:294-297 | The loop acknowledges each result of the batch, in order. Nothing else changes. |
| WorkerNotification.WorkerNotificationManager.AssembleBatch | Public/Src/Engine/Dll/Distribution/WorkerNotificationManager.cs:239-261 | The batch holds the capped front of the result queue, every pending event and the flushed log, as the state machine's assembly stage has them. |
| WorkerNotification.WorkerNotificationManager.SendPass | Public/Src/Engine/Dll/Distribution/WorkerNotificationManager.cs:216-317 | One pass of the send loop changes the state exactly as the state machine's Pass does, and keeps the invariant. |
| WorkerNotification.WorkerNotificationManager.JoinStep | Public/Src/Engine/Dll/Distribution/WorkerNotificationManager.cs:133-137 | Each pass while joining leaves the rest of the drain unchanged and never grows the result queue. It either finishes or shrinks the queue. |
| WorkerNotification.WorkerNotificationManager.Join | Public/Src/Engine/Dll/Distribution/WorkerNotificationManager.cs:133-137 | Joining runs passes until the loop finishes, reaching the state machine's drained state. The invariant is kept. |
| WorkerNotification.WorkerNotificationManager.Exit | Public/Src/Engine/Dll/Distribution/WorkerNotificationManager.cs:112-142 | Exit on an unstarted manager does nothing. Otherwise it stops listening, deactivates the log target and drains the loop. It then flushes the log target one last time as it is disposed, and cancels, as the state machine's Exit does. The invariant is kept. |
| WorkerNotification.WorkerNotificationManager.StopListeners | Public/Src/Engine/Dll/Distribution/WorkerNotificationManager.cs:119-131 | The result queue is completed, and an attached log target ends up removed. The state machine's StopListening step has the same effect, and the invariant is kept. |
| RootMappingBlock.FindNul | Public/Src/Engine/Processes/SandboxedProcessInfo.cs:373-375 | A found index lies in the searched range and holds a NUL. |
| RootMappingBlock.MappingsTextSucceeds | Public/Src/Engine/Processes/SandboxedProcessInfo.cs:370-377 | Appending the mappings' pieces succeeds if and only if every key is non-empty. |
| RootMappingBlock.BlockSucceeds | Public/Src/Engine/Processes/SandboxedProcessInfo.cs:357-385 | The block is built exactly when there are no mappings or every key is non-empty. It otherwise fails with the index-out-of-range error of `Key[0]`. |
| RootMappingBlock.MappingsTextLength | Public/Src/Engine/Processes/SandboxedProcessInfo.cs:370-377 | The pieces are Σ (\|value\| + 2) characters long. |
| RootMappingBlock.BlockShape | Public/Src/Engine/Processes/SandboxedProcessInfo.cs:359-380 | Without mappings the block is empty. With mappings it is 1 + Σ (\|value\| + 2) characters long and ends with a NUL. |
| RootMappingBlock.ParsePiece | Public/Src/Engine/Processes/SandboxedProcessInfo.cs:373-375 | One mapping's piece in front of a readable block reads back as that drive and path, followed by what the block held. |
| RootMappingBlock.ParseMappings | Public/Src/Engine/Processes/SandboxedProcessInfo.cs:370-377 | The pieces of NUL-free mappings read back as their drive letters and paths, in order. |
| RootMappingBlock.ParseBlock | Public/Src/Engine/Processes/SandboxedProcessInfo.cs:352-385 | The block of NUL-free mappings reads back exactly as the mappings' drive letters and target paths. The final NUL ends the list. |
| Provenance.Unsigned | Public/Src/Engine/Processes/SandboxedProcessInfo.cs:462 | The bit pattern of a signed 64-bit hash, as `X16` prints it, is below 2^64. |
| Provenance.HexDigitsLength | Public/Src/Engine/Processes/SandboxedProcessInfo.cs:462 | Formatting n digits gives exactly n characters. |
| Provenance.HexDigitsAreDigits | Public/Src/Engine/Processes/SandboxedProcessInfo.cs:462 | Every formatted character is an upper-case hexadecimal digit. |
| Provenance.HexValueOfDigits | Public/Src/Engine/Processes/SandboxedProcessInfo.cs:462 | A value below 16^n reads back from its n formatted digits. |
| Provenance.Hex16RoundTrip | Public/Src/Engine/Processes/SandboxedProcessInfo.cs:462 | `X16` of any 64-bit hash is 16 upper-case hexadecimal digits. They read back, as a two's-complement pattern, to the hash. |
| Provenance.ProvenanceRoundTrip | Public/Src/Engine/Processes/SandboxedProcessInfo.cs:462 | The provenance string parses back to the hash and the description. A missing description reads back as the empty one. |
| ProcessInfoCodec.EncodeStringsAppend | Public/Src/Engine/Processes/SandboxedProcessInfo.cs:494-496 | Writing one more list element appends its token. |
| ProcessInfoCodec.StringsRoundTrip | Public/Src/Engine/Processes/SandboxedProcessInfo.cs:494-496 | n written strings read back as the same strings, and the stream is left after them. |
| ProcessInfoCodec.PairsRoundTrip | Public/Src/Engine/Processes/SandboxedProcessInfo.cs:524-526 | n written pairs read back as the same pairs, in order. |
| ProcessInfoCodec.StringListRoundTrip | Public/Src/Engine/Processes/SandboxedProcessInfo.cs:494-496 | A nullable string list reads back as written, null included. |
| ProcessInfoCodec.PairListRoundTrip | Public/Src/Engine/Processes/SandboxedProcessInfo.cs:524-526 | A nullable list of pairs reads back as written, null included. |
| ProcessInfoCodec.TimeoutRoundTrip | Public/Src/Engine/Processes/SandboxedProcessInfo.cs:498 | A nullable timeout reads back as written. |
| ProcessInfoCodec.CommandRoundTrip | Public/Src/Engine/Processes/SandboxedProcessInfo.cs:476-483 | The command fields read back as written. |
| ProcessInfoCodec.LimitsRoundTrip | Public/Src/Engine/Processes/SandboxedProcessInfo.cs:494-499 | The limit fields read back as written. |
| ProcessInfoCodec.DiagnosticsRoundTrip | Public/Src/Engine/Processes/SandboxedProcessInfo.cs:500-504 | The diagnostics fields read back as written. |
| ProcessInfoCodec.TailRoundTrip | Public/Src/Engine/Processes/SandboxedProcessInfo.cs:524-530 | The redirected temp folders, the job-object flag and the failure file read back as written. |
| ProcessInfoCodec.FieldsRoundTrip | Public/Src/Engine/Processes/SandboxedProcessInfo.cs:472-577 | Every serialized field reads back as written, in the serializer's order, and the stream is left just after them. |
| ProcessInfoCodec.Decode | Public/Src/Engine/Processes/SandboxedProcessInfo.cs:539-618 | A successfully read description has a file name and a non-negative buffer limit. |
| ProcessInfoCodec.RoundTrip | Public/Src/Engine/Processes/SandboxedProcessInfo.cs:472-618 | Deserializing a serialized description the constructor and setters accept gives it back, and leaves the stream just after it. |
| ProcessInfoCodec.RoundTripRefused | Public/Src/Engine/Processes/SandboxedProcessInfo.cs:579-606 | A serialized description without a file name is refused for the file name. One with a file name but a negative buffer limit is refused by the setter. |
| Processes.TokenWriter.Write | Public/Src/Engine/Processes/SandboxedProcessInfo.cs:474-533 | One written token is appended to the stream. |
| Processes.TokenWriter.WriteStrings | Public/Src/Engine/Processes/SandboxedProcessInfo.cs:494-496 | The loop writes each string of the list, in order. |
| Processes.TokenWriter.WritePairs | Public/Src/Engine/Processes/SandboxedProcessInfo.cs:524-526 | The loop writes each pair as its two strings, in order. |
| Processes.TokenReader.ReadBoolean | Public/Src/Engine/Processes/SandboxedProcessInfo.cs:545 | Reads a boolean token, consuming it on success. |
| Processes.TokenReader.ReadOneByte | Public/Src/Engine/Processes/SandboxedProcessInfo.cs:566 | Reads a byte token, consuming it on success. |
| Processes.TokenReader.ReadInt | Public/Src/Engine/Processes/SandboxedProcessInfo.cs:560 | Reads a 32-bit token, consuming it on success. |
| Processes.TokenReader.ReadLong | Public/Src/Engine/Processes/SandboxedProcessInfo.cs:563 | Reads a 64-bit token, consuming it on success. |
| Processes.TokenReader.ReadTicks | Public/Src/Engine/Processes/SandboxedProcessInfo.cs:561-562 | Reads a time-span token, consuming it on success. |
| Processes.TokenReader.ReadListCount | Public/Src/Engine/Processes/SandboxedProcessInfo.cs:559 | Reads a list count, consuming it on success. |
| Processes.TokenReader.ReadOneString | Public/Src/Engine/Processes/SandboxedProcessInfo.cs:559 | Reads a non-null string, consuming it on success. |
| Processes.TokenReader.ReadOptionalString | Public/Src/Engine/Processes/SandboxedProcessInfo.cs:543-546 | Reads a nullable string, consuming it on success. |
| Processes.TokenReader.ReadStringSeq | Public/Src/Engine/Processes/SandboxedProcessInfo.cs:559 | The loop reads n strings, with the same result as the list reader. |
| Processes.TokenReader.ReadPairSeq | Public/Src/Engine/Processes/SandboxedProcessInfo.cs:571 | The loop reads n pairs, with the same result as the pair-list reader. |
| Processes.SandboxedProcessInfo.constructor | Public/Src/Engine/Processes/SandboxedProcessInfo.cs:129-164 | The given file name, console sharing, container and job-object flags are kept. Every other field holds its default: a 30-second nested-process timeout, a 16384-character buffer limit, no caches. |
| Processes.SandboxedProcessInfo.ForTest | Public/Src/Engine/Processes/SandboxedProcessInfo.cs:169-196 | Like the main constructor, except that a missing container configuration means disabled isolation. |
| Processes.SandboxedProcessInfo.Restored | Public/Src/Engine/Processes/SandboxedProcessInfo.cs:579-616 | The object the deserializer builds holds exactly the fields that were read, with disabled isolation and no root mappings. |
| Processes.SandboxedProcessInfo.SetArguments | Public/Src/Engine/Processes/SandboxedProcessInfo.cs:247-259 | Setting the arguments clears the cached command line and changes nothing else. |
| Processes.SandboxedProcessInfo.GetCommandLine | Public/Src/Engine/Processes/SandboxedProcessInfo.cs:346-350 | Returns the cached command line if there is one. Otherwise it builds the escaped file name, a space and the arguments, and caches them. |
| Processes.SandboxedProcessInfo.MaxLengthInMemory | Public/Src/Engine/Processes/SandboxedProcessInfo.cs:317-324 | The buffer limit read is never negative. |
| Processes.SandboxedProcessInfo.SetMaxLengthInMemory | Public/Src/Engine/Processes/SandboxedProcessInfo.cs:326-330 | Accepts only non-negative values and changes only the limit. |
| Processes.SandboxedProcessInfo.GetUnicodeRootMappingBlock | Public/Src/Engine/Processes/SandboxedProcessInfo.cs:357-385 | Without mappings the result is empty. A cached block is returned as cached. Otherwise the loop builds the block, caches it on success, and leaves the cache empty on an empty key. |
| Processes.SandboxedProcessInfo.Provenance | Public/Src/Engine/Processes/SandboxedProcessInfo.cs:462 | The provenance string is 26 characters plus the description, and reads back as the hash and the description. |
| Processes.SandboxedProcessInfo.SerializeCommand | Public/Src/Engine/Processes/SandboxedProcessInfo.cs:476-483 | Writes the command fields' tokens. |
| Processes.SandboxedProcessInfo.SerializeLimits | Public/Src/Engine/Processes/SandboxedProcessInfo.cs:494-499 | Writes the limit fields' tokens. |
| Processes.SandboxedProcessInfo.SerializeDiagnostics | Public/Src/Engine/Processes/SandboxedProcessInfo.cs:500-504 | Writes the diagnostics fields' tokens. |
| Processes.SandboxedProcessInfo.SerializeTail | Public/Src/Engine/Processes/SandboxedProcessInfo.cs:524-530 | Writes the temp-folder, job-object and failure-file tokens. |
| Processes.SandboxedProcessInfo.Serialize | Public/Src/Engine/Processes/SandboxedProcessInfo.cs:472-535 | Appends exactly the encoding of the object's serialized fields. By the codec round trip, they read back to the same fields. |
| Processes.SandboxedProcessInfo.Deserialize | Public/Src/Engine/Processes/SandboxedProcessInfo.cs:539-618 | Fails exactly as the reference decoder does. On success it returns a new valid object whose fields are the decoded ones, with disabled isolation and no root mappings, and the stream advanced past it. |
| Processes.SandboxedProcessInfo.ReadFields | Public/Src/Engine/Processes/SandboxedProcessInfo.cs:543-577 | Reads every serialized field in order, as the reference decoder does. |
| Processes.SandboxedProcessInfo.ReadCommand | Public/Src/Engine/Processes/SandboxedProcessInfo.cs:543-550 | Reads the command fields as the reference decoder does. |
| Processes.SandboxedProcessInfo.ReadLimits | Public/Src/Engine/Processes/SandboxedProcessInfo.cs:559-562 | Reads the limit fields as the reference decoder does. |
| Processes.SandboxedProcessInfo.ReadDiagnostics | Public/Src/Engine/Processes/SandboxedProcessInfo.cs:563-567 | Reads the diagnostics fields as the reference decoder does. |
| Processes.SandboxedProcessInfo.ReadTail | Public/Src/Engine/Processes/SandboxedProcessInfo.cs:571-575 | Reads the tail fields as the reference decoder does. |

## Left out

- Threads are not modelled. The send thread's passes are interleaved explicitly by the caller (`SendPass`). The blocking of `BlockingCollection.Take` and cancellation arriving during a send are inputs of a pass (`PassEnv`).
- The orchestrator client's RPC call is an input. Its success and whether cancellation was observed are given per pass. Retries and timeouts inside the client are not part of this model.
- The execution-log target's `FlushAsync` and serialization are left out. The bytes it flushes are an input to each pass and to `FlushExecutionLog`.
- WorkerNotification.WorkerNotificationManager.Exit: disposing of the log target is modelled as one last flush whose bytes are an input (`disposeBytes`, possibly empty). `NotifyOrchestratorExecutionLogTarget` is not part of this model. The forwarding listener's disposal is left out.
- `AddExecutionLogTarget` / `RemoveExecutionLogTarget` on the scheduler are left out. So are the forwarding event listener's internals and disposal. The log target is reduced to its activity state.
- The pip-result listener is reduced to its queue. Its `Cancel` is modelled as completing that queue.
- Telemetry counters and the logging calls of the send loop are left out, because they do not affect behaviour.
- WorkerNotification.WorkerNotificationManager.Start: requires that the manager has not started. A second start would create a second send thread, which the source does not guard against.
- The 32-bit counters `m_xlgBlobSequenceNumber` and `m_numBatchesSent` are unbounded naturals; their wrap-around is not modelled.
- The byte-level encoding of `BuildXLWriter` / `BuildXLReader` is not modelled. The stream is a sequence of typed tokens.
- These members are serialized by their own serializers and are left out of the description: the standard-stream encodings, `RootJailInfo`, the environment variables, the standard files, the standard-input info, the observer descriptor, the sideband writer, the remote process data and the file access manifest. `PathTable`, `FileStorage`, `LoggingContext`, the Detours event listener, the sandbox connection and the file-system view are object references the model does not need. The constructor's test-only `testRetries` flag is also left out. None of them takes part in the modelled operations.
- Strings are Dafny strings, which are sequences of Unicode scalar values. C# strings are sequences of UTF-16 code units. The two agree on text made only of Basic Multilingual Plane characters. Otherwise they differ as the next two lines say.
- RootMappingBlock.BlockShape: the proved length 1 + Σ (|value| + 2) counts characters, whereas C# counts UTF-16 code units. The drive letter is the key's first character, whereas `Key[0]` is its first code unit, so for a key that starts outside the Basic Multilingual Plane the source writes a lone high surrogate. The same holds for `RootMappingBlock.MappingsTextLength`, `RootMappingBlock.ParseBlock` and `Processes.SandboxedProcessInfo.GetUnicodeRootMappingBlock`.
- Processes.SandboxedProcessInfo.Provenance: "26 characters plus the description" counts Unicode scalar values. The C# `Length` of the same string counts UTF-16 code units, and the two differ when the description contains characters outside the Basic Multilingual Plane.
- `GetUnicodeEnvironmentBlock` is left out, because it delegates to the build-parameters object, which is not part of this model.
- `CommandLineEscaping.EscapeAsCreateProcessApplicationName` is a parameter of `GetCommandLine`, not modelled.
- List elements are non-null strings, because the writer throws on a null element.
- Time spans are their 64-bit tick counts.
- Root mappings are a sequence in the dictionary's enumeration order.
- Processes.TokenReader.ReadBoolean: a failed read leaves the stream unconsumed, whereas the real reader may have consumed bytes before throwing. The same holds for the other single-token reads.
- The other settable properties of `SandboxedProcessInfo` are plain fields of the class.

# pyNetFT in Dafny

pyNetFT streams records of a force/torque sensor through three layers: a C++
worker (`Client::Impl`), a bounded hand-off queue with its readers (`NativeClient`,
`SampleQueue`), and a Python `Client` with run tokens and a callback dispatcher.
This project models those layers, the 32-bit sequence trackers and the XML field
scanner, and proves what they keep in every run.

`dafny verify dfyconfig.toml` checks the whole project.

## How it is built

Concurrent code is a machine: a state, the steps any thread may take in it, and an
invariant kept by every step. One step is one critical section, one read of an
atomic, one join or one call into the layer below; the environment (records,
malformed datagrams, discovery results, clock readings, send failures, throwing
callbacks, failing thread creation) is chosen freely at each step. Theorems about
runs quantify over all finite sequences of steps by any number of threads.
Sequential code that works in place (trackers, queue, scanner, critical sections of
the client) is a class or a method with loops, proved against a function on values.

| layer | files |
|---|---|
| sequence trackers | `Sequence.dfy` |
| XML scanner, document trees and their printer, its meaning by name and on every text | `XmlScanner.dfy`, `XmlDocument.dfy`, `XmlMeaning.dfy`, `XmlPieces.dfy` |
| data of `Client::Impl`, and its history over the client's life | `ClientData.dfy`, `StreamHistory.dfy` |
| threads of `Client::Impl`: machine, control, runs, numbering, wire | `ClientLifecycle.dfy`, `ClientControl.dfy`, `ClientRuns.dfy`, `ClientAttempts.dfy`, `ClientFlags.dfy`, `ClientWire.dfy` |
| threads and data together, rollback, all reachable states | `ClientWorld.dfy`, `ClientHands.dfy`, `ClientRollback.dfy`, `ClientSystem.dfy`, `ClientTheorems.dfy`, `ClientDuties.dfy`, `ClientShows.dfy`, `Scenarios.dfy`, `StaleAnswer.dfy`, `LostWakeup.dfy` |
| nested mutexes | `LockOrder.dfy` |
| the client as its owner sees it | `ClientMoves.dfy`, `ClientFacade.dfy` |
| queue, native client, native client over the core | `SampleQueue.dfy`, `NativeClient.dfy`, `NativeStack.dfy` |
| the native client as Python sees it, Python client | `NativeView.dfy`, `PythonClient.dfy`, `PythonRuns.dfy` |
| what becomes of every sample Python reads, and why its readers end | `PythonDelivery.dfy`, `PythonReaders.dfy`, `PythonEnds.dfy` |
| Python over the native client, and all three layers | `PythonNative.dfy`, `PythonStack.dfy` |

The layers are joined by simulation. Every step of the full core client is one of
the visible moves of `ClientMoves` (`ClientFacade.EveryStepIsAMove`), and
`NativeStack` runs core and native client together. `PythonNative` runs Python and
the native client together, each native call of a Python thread step by step, and
proves what `PythonClient` assumes of the native client
(`PythonNative.PromisesKept`); `PythonStack` adds the core below, and shows that
every run of the three layers is a run of the Python machine
(`PythonStack.EveryFullState`), so that the theorems of `PythonRuns` hold of it.

## Findings

- `start` can sleep for ever. Restarting a faulted client, it waits on
  `lifecycle_cv_`, with no time-out, for the worker to exit
  (`core/src/detail/client_impl.cpp:126-128`); the worker stores `worker_exited_` and
  notifies without `lifecycle_mutex_` (`core/src/detail/client_impl.cpp:725-735`), so
  that both can happen between the test and the falling asleep, and nothing
  notifies again until some thread calls `stop` or `start`.
  `LostWakeup.StartMaySleepForever` exhibits such a run of every client;
  `ClientTheorems.ProgressExactlyWhen` shows that this is the only way in which calls
  can get stuck. Whoever calls `stop` before restarting never enters that wait
  (`ClientTheorems.StopFirstAndNeverSleep`), and the Python client always does
  (`PythonStack.PythonStartsMeetNoWorker`); `NativeClient::start` on a client that has
  faulted while running does enter it, and sleeps there holding its own mutex.
- `wait_for_first_sample` of the core can answer true for a later run than the one
  it was asked in. A `start` whose thread cannot be created gives its generation
  number back (`core/src/detail/client_impl.cpp:196`), and the next `start` takes the
  same number; a waiter that captured it in between, and is not scheduled until the
  second run has delivered, sees both generations match.
  `StaleAnswer.AnswerMayBeStale` exhibits such a run, and
  `ClientTheorems.AnswerIsRightExactlyWhen` shows that a true answer is right if and
  only if the `start` it was asked in was not undone, and that this cannot happen to
  a caller who asks while no `start` is halfway. The native layer is immune, because
  every start attempt moves the queue generation (`NativeClient.TrueAnswerIsCurrent`).
- After `stop()`'s command section nothing at all is sent until a later `start` has
  created its worker, not even StopStreaming (`ClientTheorems.SilentAfterStop`).
- Two iterators over one run may yield samples in another order than the reads
  returned them, because each tests the token again between its read and its yield
  (`src/pynetft/client.py:209-221`); `PythonReaders.IteratorsMayCross` exhibits it for any
  two samples. One reader keeps the order, a callback run always has only one, and
  across readers a sample yielded before another was received comes first
  (`PythonReaders.ReadersKeepOrder`, `PythonReaders.TokenInOrder`).
- The dispatcher's test for a cleared callback (`src/pynetft/client.py:405-407`) never
  succeeds (`PythonReaders.DeliveryInEveryRun`).
- The core's `start` never finds a running client when it is called through
  `NativeClient` (`NativeClient.StartIsNeverRefused`).

## Model

| member | source | states |
|---|---|---|
| `Sequence.RdtSequenceTracker.Observe` | core/src/detail/sequence.cpp:11-28 | the in-place tracker classifies and moves as the 32-bit specification says |
| `Sequence.RdtSequenceTracker.Reset` | core/src/detail/sequence.cpp:30 | only the memory of a last number is dropped |
| `Sequence.FtSequenceTracker.Observe` | core/src/detail/sequence.cpp:34-65 | the in-place tracker classifies and moves as the 32-bit specification says |
| `Sequence.FtSequenceTracker.BeginSession` | core/src/detail/sequence.cpp:32 | only the restart candidate is dropped; the baseline stays |
| `Sequence.RdtStepAgrees` | core/src/detail/sequence.cpp:11-28 | one 32-bit classification equals that of the unbounded tracker if and only if the distance to the maximum can be read off 32 bits, as every distance in [-2^31, 2^31) can |
| `Sequence.RdtRefinesUnbounded` | core/src/detail/sequence.cpp:11-30 | over every trace, the 32-bit tracker gives the unbounded tracker's answers if and only if every true number is readable |
| `Sequence.EpochLoss` | core/src/detail/client_impl.cpp:555-558 | the gaps of one epoch add up to the integers between first and maximum never accepted as a new maximum |
| `Sequence.LostCountIsExact` | core/src/detail/client_impl.cpp:555-570 | across resets and wrap-arounds the summed gaps equal the number of packets never seen |
| `Sequence.FtMemory` | core/src/detail/sequence.cpp:34-65 | after any trace the restart candidate is the last observation if and only if that was the last event and was classified backward |
| `Sequence.RestartExactly` | core/src/detail/sequence.cpp:52-60 | Restart is reported if and only if the previous event was a backward observation c, the baseline is at least 65536 and c < current <= 65535 |
| `Sequence.RestartCost` | core/src/detail/sequence.cpp:45-65 | after any trace whose baseline is at least 65536, a sensor counting up from the low range costs at most its first record: backward, then Restart, then only Forward; a drop of more than 2^31 reads as Forward at once |
| `Sequence.LowBaselineNeverRestarts` | core/src/detail/sequence.cpp:52-64 | from a baseline below 65536 lower values stay backward, never a restart |
| `Sequence.AdvanceMoves` | core/src/detail/sequence.cpp:34-65 | accepted observations, and only they, move to a strictly later (epoch, unwrapped number) |
| `XmlScanner.TrimAsciiWhitespace` | core/src/detail/xml_config.cpp:26-34 | both loops yield the trimmed text |
| `XmlScanner.FindTagEnd` | core/src/detail/xml_config.cpp:45-60 | the first `>` outside quotes, or the error for unterminated markup |
| `XmlScanner.ReadTag` | core/src/detail/xml_config.cpp:161-203 | what a tag does to the element stack and the seen set, with each error case |
| `XmlScanner.ReadMarkup` | core/src/detail/xml_config.cpp:131-203 | comment, CDATA, instruction and tag at a position, each with its error; the position moves forward |
| `XmlScanner.ScanDocument` | core/src/detail/xml_config.cpp:122-208 | the position loop terminates and equals the scan of the unread text |
| `XmlScanner.FinishFields` | core/src/detail/xml_config.cpp:209-229 | missing, empty and overlong fields are refused, a missing name gets the default |
| `XmlScanner.ExtractRequiredFields` | core/src/detail/xml_config.cpp:116-231 | the whole extraction equals its specification |
| `XmlScanner.AcceptedFieldsAreClean` | core/src/detail/xml_config.cpp:209-230 | whatever the text, accepted fields are five trimmed strings of 1 to 128 characters |
| `XmlMeaning.TrimExactly` | core/src/detail/xml_config.cpp:21-34 | the trimmed text is the one slice without the longest run of the six named characters at each end |
| `XmlDocument.ScanNodes` | core/src/detail/xml_config.cpp:122-204 | scanning printed nodes, in any context and before any rest, is evaluating the tree |
| `XmlDocument.EvalOutside` | core/src/detail/xml_config.cpp:188-199 | evaluation fails exactly on repeated fields or fields with child elements, else collects each field's text |
| `XmlDocument.RoundTrip` | core/src/detail/xml_config.cpp:116-231 | for every printable tree: accepted if and only if acceptable, and then each field is the trimmed text and CDATA of its element, or the default name |
| `XmlMeaning.RoundTripByName` | core/src/detail/xml_config.cpp:18-19 | for every printable tree, by literal names: accepted if and only if exactly one usable element is named cfgcpf, cfgcpt, scfgfu and scfgtu and at most one prodname, and fields 0 to 4 are the trimmed own text of those named prodname, cfgcpf, cfgcpt, scfgfu and scfgtu |
| `XmlPieces.ScanAgrees` | core/src/detail/xml_config.cpp:122-208 | on every text the scan succeeds exactly when the text can be cut into pieces and each piece can be taken in turn |
| `XmlPieces.AcceptedExactlyWhen` | core/src/detail/xml_config.cpp:116-231 | for every text, well formed or not: accepted if and only if every end tag names the innermost open element and none is left open, no element begins inside a field, and the names stand the right number of times with usable values, which are the fields |
| `ClientData.PruneRateWindow` | core/src/detail/client_impl.cpp:78-83 | the loop drops exactly the expired prefix |
| `ClientData.CountInPlace` | core/src/detail/client_impl.cpp:546-595 | the counters a record moves |
| `ClientData.DecideInPlace` | core/src/detail/client_impl.cpp:555-618 | the flag-flipping branches deliver exactly what is neither suppressed nor too soon, and end the session exactly as the outcome table says; `ClientDuties.RecordsInEveryRun` says which records those are |
| `ClientData.ClientImpl.ApplySensorConfiguration` | core/src/detail/client_impl.cpp:366-380 | the revision moves with the calibration |
| `ClientData.ClientImpl.PublishFault` | core/src/detail/fault_latch.cpp:7-23 | the first fault wins and is shown in the health snapshot |
| `ClientData.ClientImpl.HandleRecord` | core/src/detail/client_impl.cpp:534-621 | the record section in place equals its specification, the missing configuration included |
| `ClientData.ClientImpl.CompleteDelivery` | core/src/detail/client_impl.cpp:669-679 | what a completed delivery records |
| `ClientData.ClientImpl.CountMalformedDatagram` | core/src/detail/client_impl.cpp:504-511 | counting a malformed datagram, and when it makes a storm |
| `ClientData.ClientImpl.ReadHealth` | core/src/detail/client_impl.cpp:331-342 | health prunes both windows and lets a latched fault override the state |
| `StreamHistory.StreamKept` | core/src/detail/client_impl.cpp:430-708 | windows, pace, counters, order, scaling and loss stay sound under every critical section |
| `StreamHistory.TallyKept` | core/src/detail/client_impl.cpp:555-595 | each counter equals the number of records over the client's life that have its property |
| `StreamHistory.HealthRates` | core/src/detail/client_impl.cpp:331-342 | each reported rate counts all events of the run at most one second old, whatever was pruned before |
| `StreamHistory.RateBound` | core/src/detail/client_impl.cpp:612-618 | n+1 deliveries of a run span at least n divided by the limit |
| `StreamHistory.OrderKept` | core/src/detail/client_impl.cpp:534-682 | samples are handed out at strictly increasing (restart epoch, unwrapped number) |
| `StreamHistory.RevisionIsFaithful` | core/src/detail/client_impl.cpp:627-647 | two samples of one revision were scaled with one calibration: each of the six components times its counts per unit is the raw count, and the units are the calibration's |
| `StreamHistory.LostIsExact` | core/src/detail/client_impl.cpp:555-558 | over the client's life the lost count is the number of packets never taken, whenever the true numbers are readable |
| `ClientControl.ControlKept` | core/src/detail/client_impl.cpp:111-289 | who owns the worker handle, the join and the mutex is consistent after every step |
| `ClientControl.GenerationMovesAlone` | core/src/detail/client_impl.cpp:164-201 | the generation moves only while no worker is alive |
| `ClientControl.StopLeavesNoWorker` | core/src/detail/client_impl.cpp:260-287 | both normal ends of stop leave no worker alive |
| `ClientControl.EarlyReturnIsTheWorker` | core/src/detail/client_impl.cpp:256-259 | stop returns early exactly to the living worker in its callback |
| `ClientControl.StartRefusesOnlyRunning` | core/src/detail/client_impl.cpp:116-125 | start refuses only a caller that is the worker, or a client that runs without a fault |
| `ClientControl.WaitingDescends` | core/src/detail/client_impl.cpp:111-289 | every edge of the wait-for graph (mutex, joining flag, join, sleep until a living worker or a joiner notifies) descends in rank |
| `ClientControl.SomebodySteps` | core/src/detail/client_impl.cpp:111-289 | while a thread that is not a sleeper left without notification is in the middle of a call, some thread can go on |
| `ClientControl.UnnotifiedIsStuck` | core/src/detail/client_impl.cpp:126-128 | a start asleep and not notified since has no step of its own |
| `ClientRuns.RunKept` | core/src/detail/client_impl.cpp:382-525 | which shared fields go with which point of the worker, kept by every step |
| `ClientRuns.Doubling` | core/src/detail/client_impl.cpp:401-416 | one more fruitless session doubles the wait up to the maximum, a fruitful one restores the initial delay |
| `ClientRuns.EndedForAReason` | core/src/detail/client_impl.cpp:385-427 | a worker that ended left a latched fault or was asked to stop |
| `ClientDuties.StoppingExactlyWhen` | core/src/detail/client_impl.cpp:178-240 | in every run `stopping_` is set if and only if a stop was called after the last start that was not undone |
| `ClientDuties.EndedForItsOwnReason` | core/src/detail/client_impl.cpp:385-427 | in every run a worker that ended without a fault was asked to stop after its own creation |
| `ClientDuties.WorkerBeginsASession` | core/src/detail/client_impl.cpp:385-400 | in every run a worker past its first test, with no stop since its creation and no fault, has begun a session |
| `ClientDuties.RecordsInEveryRun` | core/src/detail/client_impl.cpp:534-621 | in every run a record is handed out if and only if its RDT number is first, contiguous or after a gap, its F/T counter first, forward or restarted, it is not serious unless errors are delivered, and the last delivery is at least 1/limit earlier; and it ends the session as its status and the F/T counter call for |
| `ClientDuties.SessionsEndInEveryRun` | core/src/detail/client_impl.cpp:430-525 | in every run without a stop a session ends exactly at the steps that call for a fault (lost connection, timeout, storm, stalled or backward counter, serious status, failing callback), with the result that stands for it |
| `ClientDuties.ResultTravels` | core/src/detail/client_impl.cpp:22-44 | the result of a session stays the same to its end and, under FailStop, latches the fault that stands for it |
| `ClientShows.NextRecordIsFirst` | core/src/detail/client_impl.cpp:291-303 | after a successful bias, or the start of a session, the next record is classified First, whatever happens in between |
| `ClientShows.StormAtTen` | core/src/detail/client_impl.cpp:504-517 | in every run a malformed datagram ends the session in a storm exactly when it is at least the tenth in a row |
| `ClientShows.LatestInEveryRun` | core/src/detail/client_impl.cpp:669-679 | in every run `latest` is the last sample delivered in the run, or none |
| `ClientShows.SnapshotsInEveryRun` | core/src/detail/client_impl.cpp:331-347 | in every run health shows a latched fault, with its code, as Faulted, and the numbers and status of the record last counted |
| `ClientAttempts.AttemptKept` | core/src/detail/client_impl.cpp:145-210 | generations number the attempts that stand, whatever is undone; an undone attempt delivered nothing, and a capture made while no start was halfway is of an attempt that stands |
| `ClientAttempts.TrueAnswerWithoutFailures` | core/src/detail/client_impl.cpp:305-325 | while no start fails, a true answer is about the newest run, which has delivered |
| `ClientWire.WireKept` | core/src/detail/client_impl.cpp:235-303 | every step keeps the wire explained by a well-formed sequence of sessions |
| `ClientWire.PrintIsSilent` | core/src/detail/client_impl.cpp:243-254 | a wire of well-formed sessions holds no command sent while stop() stands |
| `ClientWire.SessionsAreClosed` | core/src/detail/client_impl.cpp:710-721 | without a worker every session has had its one StopStreaming |
| `ClientHands.WorkAgrees` | core/src/detail/client_impl.cpp:430-736 | the worker's control fields and the full data move alike |
| `ClientHands.WorkGuarded` | core/src/detail/client_impl.cpp:430-736 | every critical section of the worker runs where its assumptions hold |
| `ClientHands.WorkKeepsPoint` | core/src/detail/client_impl.cpp:513-647 | the sample in the callback is the one handed out last, and record times follow those before |
| `ClientRollback.UndoingData` | core/src/detail/client_impl.cpp:191-201 | the data section of the rollback restores what the data section of start cleared |
| `ClientRollback.UndoingPublish` | core/src/detail/client_impl.cpp:202-206 | the previous fault is published again as it was |
| `ClientRollback.HealthKeeps` | core/src/detail/client_impl.cpp:331-347 | a health call in the middle of a rollback disturbs nothing |
| `ClientSystem.SystemKept` | core/src/detail/client_impl.cpp:111-736 | threads and data together: the whole invariant is kept by every step |
| `ClientSystem.EveryReachableState` | core/src/detail/client_impl.cpp:111-736 | it holds in every reachable state |
| `ClientSystem.EveryStateBalances` | core/src/detail/client_impl.cpp:527-708 | in every reachable state the counters balance up to the one sample in its callback, with the withheld records counted by what they are (duplicate, out of order, stalled, backward, serious), each counter counts the records it is named for, delivery is in order, revision = 1 + changes, and deliveries keep the limiter's distance |
| `ClientSystem.SnapshotStands` | core/src/detail/client_impl.cpp:134-162 | no step of any thread touches the snapshot of a start under way |
| `ClientSystem.FailedStartLeavesNoTrace` | core/src/detail/client_impl.cpp:183-210 | the last step of a rollback leaves flags, callback, latch, health, counters, generations, trackers and pace as in the snapshot |
| `ClientTheorems.AtMostOneWorker` | core/src/detail/client_impl.cpp:111-289 | in every run at most one worker is alive, and no step then moves the generation |
| `ClientTheorems.StopWaitsForTheWorker` | core/src/detail/client_impl.cpp:235-289 | stop returns to any other thread only when no worker is alive |
| `ClientTheorems.ProgressExactlyWhen` | core/src/detail/client_impl.cpp:111-289 | in every reachable state some thread in the middle of something has a step that fits the data if and only if one of them is not a start asleep and not notified since |
| `ClientTheorems.StuckMeans` | core/src/detail/client_impl.cpp:126-128 | in a stuck state every call is such a sleeper, no mutex is held, nobody joins and the worker is gone; any stop would notify them |
| `ClientTheorems.StopFirstAndNeverSleep` | core/src/detail/client_impl.cpp:121-130 | once no worker is alive, no start goes to sleep before another has created a worker |
| `LostWakeup.StartMaySleepForever` | core/src/detail/client_impl.cpp:723-736 | a run of every client that ends with a start asleep and nobody left to notify it |
| `ClientTheorems.AnswerIsRightExactlyWhen` | core/src/detail/client_impl.cpp:305-325 | a true answer is about the run it was asked in, delivered and newest, if and only if that start was not undone; always if no start was halfway when it was asked |
| `ClientTheorems.RightAnswerIsGiven` | core/src/detail/client_impl.cpp:312-324 | in every run the answer is true if the run it was asked in has delivered and is the newest that stands; and only then, undone starts apart |
| `ClientTheorems.WireIsSessions` | core/src/detail/client_impl.cpp:450-466 | in every run the wire is a sequence of non-overlapping sessions, open exactly while one is started |
| `ClientTheorems.SilentAfterStop` | core/src/detail/client_impl.cpp:243-254 | on the wire of every reachable state nothing is sent between a stop and the creation of the next worker |
| `ClientTheorems.RecoveryInEveryRun` | core/src/detail/client_impl.cpp:382-428 | the n-th wait under Reconnect, one session under FailStop, and every latched fault is that of its outcome under FailStop or the socket fault of an exception |
| `ClientTheorems.FaultsSurvive` | core/src/detail/fault_latch.cpp:7-31 | a fault outlives every step of every thread but the opening of a run |
| `ClientTheorems.ConfigurationIsThere` | core/src/detail/client_impl.cpp:539-544 | the missing-configuration error is unreachable |
| `ClientTheorems.RatesInEveryRun` | core/src/detail/client_impl.cpp:331-347 | in every reachable state and at every later clock reading the snapshot of health reports the true one-second rates |
| `ClientTheorems.PaceInEveryRun` | core/src/detail/client_impl.cpp:612-618 | in every reachable state n+1 deliveries of the run span at least n divided by the limit |
| `ClientTheorems.RevisionInEveryRun` | core/src/detail/client_impl.cpp:366-380 | in every reachable state samples of one revision were scaled with one calibration, component by component |
| `ClientTheorems.LostInEveryRun` | core/src/detail/client_impl.cpp:555-558 | in every reachable state the lost count is the number of packets never taken, for readable true numbers |
| `ClientTheorems.FailedStartIsANoOp` | core/src/detail/client_impl.cpp:134-210 | in every run, from the admission of a start through any moves of any threads to the end of its rollback, the client ends as it was |
| `StaleAnswer.AnswerMayBeStale` | core/src/detail/client_impl.cpp:191-201 | a run in which a true answer belongs to a later run |
| `LockOrder.CallsAreOrdered` | core/src/detail/client_impl.cpp:111-352 | every sequence of calls, on every path, takes lifecycle, command, record, data in that order and holds none across a join |
| `LockOrder.WorksAreOrdered` | core/src/detail/client_impl.cpp:382-736 | so does the worker, whatever its callback calls; it holds none across a callback and joins nobody |
| `LockOrder.StepKeepsSound` | core/src/detail/client_impl.cpp:111-736 | order and mutual exclusion survive every acquisition and release |
| `LockOrder.NobodyLocksUp` | core/src/detail/client_impl.cpp:111-736 | for any number of threads running these methods, in every reachable state, some thread can go on while any has work left |
| `ClientFacade.EveryStepIsAMove` | core/src/detail/client_impl.cpp:111-736 | whatever any thread does is one of the visible moves |
| `ClientFacade.TakenIsHanded` | core/src/detail/client_impl.cpp:656-660 | the callback takes the sample handed out at its place |
| `SampleQueues.SampleQueue.Create` | bindings/python/sample_queue.cpp:7-12 | a capacity of zero is refused |
| `SampleQueues.SampleQueue.PushBack` | bindings/python/sample_queue.cpp:14-24 | pushes, dropping and counting the oldest when full |
| `SampleQueues.SampleQueue.ReadFor` | bindings/python/sample_queue.cpp:37-65 | what a read finds when its wait ends |
| `SampleQueues.SampleQueue.CloseAll` | bindings/python/sample_queue.cpp:72-79 | closes and moves the generation |
| `SampleQueues.SampleQueue.ResetAll` | bindings/python/sample_queue.cpp:81-86 | empties and reopens under the same generation |
| `SampleQueues.QueueContent` | bindings/python/sample_queue.cpp:14-65 | after any operations the queue is pushed[taken + dropped..], within capacity, and pushed = taken + dropped + queued |
| `SampleQueues.ReadObtains` | bindings/python/sample_queue.cpp:45-64 | a read of an open queue under its own generation obtains the oldest sample neither taken nor dropped if there is one, else times out; any other read finds the queue closed |
| `SampleQueues.PushDrops` | bindings/python/sample_queue.cpp:14-24 | a push drops a sample exactly when the queue is full |
| `SampleQueues.NextReadObtains` | bindings/python/sample_queue.cpp:37-65 | after any operations, which pushed sample the next read obtains |
| `SampleQueues.ReadsInOrder` | bindings/python/sample_queue.cpp:37-65 | readers obtain an in-order selection of what was pushed, none twice |
| `SampleQueues.StaleReadsFindNothing` | bindings/python/sample_queue.cpp:58-60 | a read of an earlier generation obtains nothing, ever |
| `NativeClient.NativeKept` | bindings/python/native_client.cpp:36-192 | the native invariant is kept by every step of every thread and of the core |
| `NativeClient.PopObtains` | bindings/python/native_client.cpp:161-176 | one slice of a read obtains the oldest queued sample whenever its generation's queue is open and not empty |
| `NativeClient.TakesAreQueued` | bindings/python/native_client.cpp:42-47 | a sample the callback takes is queued last, and only a full queue loses one |
| `NativeClient.WaitAnswers` | bindings/python/native_client.cpp:126-135 | a wait answers true if and only if the core reports a first sample and the generation is still the one captured |
| `NativeClient.ReadsInEveryRun` | bindings/python/native_client.cpp:143-192 | in every run a read that captured g obtains only samples of the worker started under g, while g is open |
| `NativeClient.OldWorkerCannotPush` | bindings/python/native_client.cpp:42-47 | between the reset and the new worker no old worker can push |
| `NativeClient.StartIsNeverRefused` | bindings/python/native_client.cpp:36-53 | the core's start never answers that the client is running |
| `NativeClient.TrueAnswerIsCurrent` | bindings/python/native_client.cpp:109-141 | at a true answer the run it was asked in is current and has delivered |
| `NativeClient.FinishedCalls` | bindings/python/native_client.cpp:109-192 | what finished reads and waits may be relied on to mean |
| `NativeClient.GenerationsAreDistinct` | bindings/python/native_client.cpp:42-44 | no two runs share a queue generation |
| `NativeStack.StackKept` | bindings/python/native_client.cpp:36-63 | core and native client move together and every queued sample is one handed out |
| `NativeStack.ReadersSeeOrder` | bindings/python/native_client.cpp:143-192 | readers, however many and over however many runs, obtain samples at strictly increasing positions of the sensor's life |
| `NativePromises.EveryNativeStepEvolves` | bindings/python/native_client.cpp:36-63 | generation and runs only grow, and only inside start and stop |
| `NativePromises.StartEnds` | bindings/python/native_client.cpp:36-53 | start ends with one new run that is current, at once when running, or not running with no new run |
| `NativePromises.StopEnds` | bindings/python/native_client.cpp:55-63 | stop ends with the client not running |
| `NativePromises.ReadKeepsPromise` | bindings/python/native_client.cpp:143-192 | a read captures the generation it finds and its sample is of that generation's run |
| `PythonRuns.PythonKept` | src/pynetft/client.py:98-507 | the Python invariant is kept by every step of every thread |
| `PythonRuns.EveryPythonState` | src/pynetft/client.py:98-507 | it holds in every reachable state |
| `PythonRuns.RunIsolation` | src/pynetft/client.py:209-236 | everything yielded under a token or passed to its callback was pushed by the native run that the token's start opened; tokens share no native run |
| `PythonRuns.OneDispatcher` | src/pynetft/client.py:366-457 | at most one activated dispatcher is alive, the one `_callback_run` holds, its thread still recorded there |
| `PythonRuns.CallbacksNeverOverlap` | src/pynetft/client.py:399-416 | no two dispatchers are inside a callback, and one that is serves the current run |
| `PythonRuns.StopSilences` | src/pynetft/client.py:137-157 | after stop has returned to another thread no dispatcher activated before is alive, then or later |
| `PythonRuns.OneReport` | src/pynetft/client.py:459-484 | no run has both a callback error and a failure |
| `PythonRuns.FailedStartKeepsRun` | src/pynetft/client.py:264-358 | a failed start, before or after the native start returned, keeps the token and everything the previous run recorded |
| `PythonReaders.DeliveryInEveryRun` | src/pynetft/client.py:209-236 | in every run each sample a native read returned to an iterator or dispatcher is exactly one of: in that reader's hand, at its own place of the output under its token, dropped because its token is not current, or taken by an exception; every output is one received sample, no two the same |
| `PythonReaders.EveryRunHasBooks` | src/pynetft/client.py:209-416 | the observer that keeps those books exists beside every run |
| `PythonReaders.ReadersKeepOrder` | src/pynetft/client.py:209-221 | a reader yields in the order it received, and across readers what was yielded before another sample was received comes before it |
| `PythonReaders.CallbackTokensHaveOneReader` | src/pynetft/client.py:366-416 | everything received under the token of a callback run was received by its one dispatcher |
| `PythonReaders.TokenInOrder` | src/pynetft/client.py:209-221 | the output under a token with one reader, and so of every callback run, is in order what was received under it and yielded |
| `PythonReaders.IteratorsMayCross` | src/pynetft/client.py:209-221 | for any two samples of a run, two iterators may yield them in the other order |
| `PythonEnds.ReportsInEveryRun` | src/pynetft/client.py:459-484 | in every run a callback run reports an error if and only if a read, a conversion or the callback raised, a failure if and only if the queue was found closed and faulted; and while it is current its dispatcher has not ended |
| `PythonEnds.IterationsEndInEveryRun` | src/pynetft/client.py:209-253 | in every run an iterator whose token is current ends only because it raised, timed out or found the queue closed without a fault |
| `PythonNative.PromisesKept` | src/pynetft/client.py:209-236 | joined with the native client step by step, every Python step finds what it relies on: starts, stops and reads keep their promises |
| `PythonNative.BelowProjects` | bindings/python/native_client.cpp:36-63 | to Python a native step is nothing, or the native client evolving inside a call made under `_lock` |
| `PythonStack.EveryFullState` | src/pynetft/client.py:98-507 | every run of Python, native client and core together keeps all three invariants and is a run of the Python machine |
| `PythonStack.IsolationAcrossLayers` | src/pynetft/client.py:209-236 | in every such run each sample yielded or passed to a callback was handed out by the core and pushed by the native run its token's start opened; tokens share no native run |
| `PythonStack.PythonStartsMeetNoWorker` | src/pynetft/client.py:502-507 | a start made by Python meets no worker in the core and so never waits for one to exit |

## Left out

- UDP transports: a send succeeds or throws and a receive yields a record, a malformed datagram, nothing or an exception, as the environment chooses.
- Discovery over HTTP: yields a configuration with a valid calibration, a discovery failure or another exception.
- Floating point: counts per unit, clock readings and samples are reals, so the check that scaled values are finite (`core/src/detail/client_impl.cpp:639-643`) has no counterpart.
- Number and unit parsing of the XML fields (`core/src/detail/xml_config.cpp:233-296`): the scanner ends with five clean strings.
- Record decoding, request encoding, status texts and configuration checks: small and finite; a status is taken as healthy, warning or serious.
- Deadlines: a timeout may happen at any receive, as a receive of size zero makes it in the source; a wait with a time-out may end at any moment.
- Condition variables: notifications of `lifecycle_cv_` and the sleep that can miss them are modelled; spurious wake-ups, which would only help, are not, nor is fairness or latency. The waits for `joining_` are guards, which loses nothing, since that flag changes only under the mutex; waits with a time-out may end at any moment.
- Concurrent code in place: `start`, `stop`, `run`, the native client and the Python client are machines over values, since their point is interleaving; the sections they are made of are also given in place in `ClientData.dfy` and `SampleQueue.dfy`.
- Inner mutexes in the lifecycle machine: a section under the command, record or data mutex is one step there; `LockOrder.dfy` treats their nesting.
- ClientSystem.FailedStartLeavesNoTrace: the two rate windows may have lost expired entries to a concurrent health call, as in the source; their reported counts are unaffected.
- Memory exhaustion inside a push, a callback that throws after pushing, and the deferred destroyer of `core/src/client.cpp`.
- Steps of the Python `start` between the return of the native start and the release of `_lock` are one step; no other thread can tell, but for a dispatcher that passes its gate before a late failure cancels it, which is modelled.
- PythonReaders.DeliveryInEveryRun: begins where a native read has returned to Python; a read that raises after it took a sample is left to the native side.
- Python `wait`, `raise_if_failed`, `latest_sample` and `health`: they only read; whether a refused `start` raises or returns is not distinguished.
- Python weak references, garbage collection and interpreter shutdown; the bindings, conversions, legacy layer and tools.
- 64-bit counters and generations: unbounded here.

# Prism ROS adapter: a model of the driver core

A Dafny model of the shared driver of the Prism ROS adapter, with proofs about its five stateful
parts.

**LiDAR frames.** A transport batch is sorted stably by absolute point time and rebased
(`LidarConversion`), cut into 100 ms frames on a grid anchored at the first point
(`FrameAccumulator`, `PointOffset`) and written as 28-byte point records (`PointCloudLayout`).
`LidarDispatch` is the call that ties one batch to health, clock selection and publish queue.
`FrameLedger` proves what the accumulator keeps over every stream: every point exactly once and in
order, times, offsets, frame shape, independence of batch boundaries. `FrameWindows` proves that a
forward-running clock gives exactly the groups by window index, and epoch by epoch across true
resets of the clock. `FrameSessions` adds the resets that come with stream starts and stops, and
`LidarPipeline` composes the parts end to end. `FrameHeaders` says whose header a frame carries and
when a point throws, `LidarGate` which batches pass at what time, and `LidarMessage` what a subscriber
reads.

**Threads.** `DispatchQueues` (bounded drop-oldest queue with a worker) and `ControlMailbox` (ROS
threads hand commands to the receive thread) model each lock region as a method, and every
interleaving of regions, atomic accesses, notifications, spurious wakeups and exceptions as a
transition system over schedules. The results hold after every schedule.

**Stream control.** `StreamControl` models starting, stopping, idle operations, session reopening,
time synchronization and stream commands. An environment function decides the outcome of every SDK
call and status callback: any of them may throw, with or without having done its work first. A ghost
device records what really streams, including that either capture stop ends both camera and board
IMU. `StreamSafety` proves what the flags keep over every run of commands (a stream is active when its
flag says so), `StreamDevice` how the device follows them, and `StreamWatch` which streams stay under the silence check. `StreamOutcomes` proves from the calls
alone when an operation succeeds, when it is fatal, and which calls it makes in which order. `StreamPhases` says what
each single call does; `CaptureHealth` has the health checks that starting and stopping arm and
disarm.

**Health accounting.** `SensorHealth` is the per-stream evidence of lost and late data.
`LossAccounting` and `SequenceHistories` prove its counts over whole histories, `HealthReports` when
warnings are printed and what they say, and `QueueHealth`
composes it with the dispatch queue.

**Clocks and small protocols.** `DeviceTime` picks the LiDAR clock of the sensor board,
`NavigationFix` rebuilds a GNSS epoch from a time of day, `PublicationAck` bounds unconfirmed
publications.

Each imperative operation is a method whose `ensures` equates the new fields with a function of the
old ones; the lemmas of the table are about those functions, over all runs.

## Where the code does less than one would expect

Each of these is modelled as it is, with a concrete input that fails and the exact condition under
which the property holds.

* A frame is stamped with its first point, which can lie after the start of its window. A later point
  between the two is not taken for a reset, and its 32-bit offset wraps: it reads 2^32 ns late
  (`EarlyPointCounterexample`). Times and offset bounds are kept if and only if no such point occurs
  (`TimesPreserved`, `OffsetsBelowPeriod`, `SessionTimes`).
* `applyStreamCommand` does not guard its first stop and swallows a throw of its second. Either can
  leave streams that differ from the configuration without a fatal error (`HalfStoppedExample`,
  `StrandedExample`). No environment can do so if and only if LiDAR and a capture stream are not both
  active before the command, and it enables nothing new (`SafeWhateverThrows`).
* Stopping disarms the silence check of all capture streams before it stops anything. When a stop
  throws and the streams are recovered, those still active are not armed again (`UnwatchedExample`,
  `StaysDisarmed`): a pause is free of this in every environment if and only if nothing is streaming
  (`PauseKeepsWatchExactly`, `SyncKeepsWatchExactly`, `CommandKeepsWatchExactly`).
* A start that takes effect and throws leaves a stream on the device that no flag knows of. A rollback
  to a configuration without it succeeds, and a later idle operation runs beside it (`AdriftExample`).
  A command cannot do so in any environment if and only if it brings in no capture or LiDAR session
  that was not configured (`NeverAdriftExactly`, `SilentPauseExactly`).
* `run` closes the control mailbox for a `std::exception` only. Anything else a callback throws leaves
  the mailbox open, and clients wait for nobody (`EscapeExample`, `StuckExactly`).
* The rounded interpolation and the GNSS epoch are computed in 64 bits (`WrapExample`,
  `LastDayExample`); they are right exactly when their sums fit (`RoundedExactly`, `NearestExactly`).
* On the first day after the Unix epoch the previous day cannot be chosen, so the GNSS epoch can be
  almost a day off (`FirstDayExample`, `NearestExactly`).
* The loss estimate from timestamps is capped at 1e9 per gap, so it agrees with the sequence count
  exactly up to that cap (`CapExample`, `EstimatesAgree`).
* Queue counters outlive a run while the health state does not, so the drops printed in one run are
  those of the run exactly when the counter started at zero (`CarriedDropsExample`,
  `PrintedDropsOfThisRun`).

## Model

| member | source | states |
|---|---|---|
| PointOffset.RoundedExactly | common/src/lidar_frame_accumulator.cpp:11-19 | the offset is the rounded quotient if and only if the exact numerator index * span + (count - 1) / 2 fits 64 bits |
| PointOffset.Endpoints | common/src/lidar_frame_accumulator.cpp:11-19 | in a batch of at least two points the first is at offset 0; the last is exactly at the end of the span if and only if its numerator fits 64 bits |
| PointOffset.WithinHalf | common/src/lidar_frame_accumulator.cpp:17-18 | an offset is within half a nanosecond of the ideal index * span / (count - 1) if and only if its numerator fits 64 bits |
| PointOffset.EvenSteps | common/src/lidar_frame_accumulator.cpp:17-18 | neighbouring offsets differ by the floor or the ceiling of span / (count - 1), and so never decrease, if and only if the numerator passes no multiple of 2^64 between them |
| PointOffset.WrapExample | common/src/lidar_frame_accumulator.cpp:15-18 | a concrete count and interval whose last point misses the end of the span |
| FrameAccumulator.LidarFrameAccumulator.Append | common/src/lidar_frame_accumulator.cpp:23-62 | the loop over a batch equals running its points one by one from the old fields; a throw loses the frames completed in that call |
| FrameAccumulator.LidarFrameAccumulator.Ingest | common/src/lidar_frame_accumulator.cpp:30-58 | one round of the loop: overflow check, reset below the window, first frame, window change, placing the point |
| FrameAccumulator.LidarFrameAccumulator.AdvanceWindow | common/src/lidar_frame_accumulator.cpp:45-53 | closes the pending frame and opens the grid window that holds the point, skipping empty windows |
| FrameAccumulator.LidarFrameAccumulator.BeginFrame | common/src/lidar_frame_accumulator.cpp:75-90 | opens an empty frame with the batch's header, or throws at the end of the 64-bit clock with the window already moved |
| FrameAccumulator.LidarFrameAccumulator.FinishFrame | common/src/lidar_frame_accumulator.cpp:92-99 | returns the pending frame with its interval set and leaves no points behind |
| FrameAccumulator.LidarFrameAccumulator.Reset | common/src/lidar_frame_accumulator.cpp:64-69 | back to the initial fields |
| FrameAccumulator.LidarFrameAccumulator.PendingPointCount | common/src/lidar_frame_accumulator.cpp:71-73 | the number of points of the open frame |
| FrameLedger.Conservation | common/src/lidar_frame_accumulator.cpp:28-61 | over any stream, closed frames in closing order and then the pending frame hold every point exactly once, in order; a point before its frame's timestamp comes out 2^32 ns late, every other at its own time |
| FrameLedger.TimesPreserved | common/src/lidar_frame_accumulator.cpp:39-58 | every point keeps its absolute time if and only if no point lay in the open window but before the frame's first point |
| FrameLedger.OffsetsBelowPeriod | common/src/lidar_frame_accumulator.cpp:45-57 | over a run all offsets of all frames stay below 100 ms if and only if they did at its start and no point of it was early |
| FrameLedger.EarlyPointCounterexample | common/src/lidar_frame_accumulator.cpp:39-57 | three concrete points, the third behind the second in one window: its recovered time is off by 2^32 ns |
| FrameLedger.FramesWellFormed | common/src/lidar_frame_accumulator.cpp:46-98 | over any stream no frame is empty, each starts at offset 0, and a published interval is the ceiling of its span in 100 ns units |
| FrameLedger.RunCompletes | common/src/lidar_frame_accumulator.cpp:33-83 | a stream that stays one frame below the end of the 64-bit clock never throws |
| FrameLedger.RestartsAfterBackwardClock | common/src/lidar_frame_accumulator.cpp:39-43 | a point below the window discards exactly the pending frame; from there on the accumulator behaves as new |
| FrameLedger.CallsRunTheFlattenedStream | common/src/lidar_frame_accumulator.cpp:23-62 | any sequence of append calls equals one run over the concatenated points |
| FrameLedger.ChunkingIndependence | common/src/lidar_frame_accumulator.cpp:23-62 | two ways of cutting one point stream into batches give the same frames and the same pending frame, batch id and raw timestamp aside |
| FrameHeaders.HeadersOfOpeners | common/src/lidar_frame_accumulator.cpp:75-98 | over every stream from a reset each frame, published, discarded or pending, carries the batch id, the raw timestamp and the time of the very point at which its points begin |
| FrameHeaders.JoiningKeepsTheHeader | common/src/lidar_frame_accumulator.cpp:55-58 | a point that joins the pending frame changes nothing but its points |
| FrameHeaders.ThrowsExactly | common/src/lidar_frame_accumulator.cpp:33-83 | a point throws if and only if its time does not fit 64 bits or a window it has to open does not end within them; what is left then |
| FrameHeaders.ExplicitArrivals | common/src/lidar_frame_accumulator.cpp:30-37 | a point with an explicit time is taken at its word, with its measurement and its batch's header |
| FrameHeaders.ImplicitArrivals | common/src/lidar_frame_accumulator.cpp:11-37 | other points are spread evenly from the batch's timestamp to the end of its interval, both exactly, while the sums fit 64 bits |
| FrameHeaders.InstantArrivals | common/src/lidar_frame_accumulator.cpp:11-37 | a single point, or a batch without an interval, happened at the batch's timestamp |
| FrameWindows.FramesAreGroups | common/src/lidar_frame_accumulator.cpp:28-61 | for a clock that never runs back, published frames are exactly the nonempty groups by floor((t - t0) / 100 ms) before the last point's window, in order, and that window's group is pending |
| FrameWindows.ForwardIsOrderly | common/src/lidar_frame_accumulator.cpp:39-57 | such a stream has no early point, so times and offsets are kept |
| FrameWindows.EpochsAreOrderly | common/src/lidar_frame_accumulator.cpp:39-43 | the same for streams that run forward except for true resets: to a time below the 100 ms window of the previous epoch's last point |
| FrameWindows.FramesAreEpochGroups | common/src/lidar_frame_accumulator.cpp:28-61 | over several such epochs the published frames are every full group of every epoch in order, the discarded ones and then the pending one are each epoch's last group, and nothing else is cut |
| LidarConversion.ConvertLidarBatch | common/include/prism_ros_adapter/lidar_conversion.hpp:9-46 | rejects exactly the batches whose times span more than 2^32 - 1 ns; otherwise the output is the stable time order, each point with its own measurement and timestamp + offset equal to its source time |
| LidarConversion.Rebase | common/include/prism_ros_adapter/lidar_conversion.hpp:25-45 | the rebasing loop: timestamp of the first entry, exact offsets, throws iff some entry is too late |
| LidarConversion.SortIsStable | common/include/prism_ros_adapter/lidar_conversion.hpp:20-24 | the sorted order is a permutation, by time, equal times in their original order |
| LidarConversion.StableOrderUnique | common/include/prism_ros_adapter/lidar_conversion.hpp:20-24 | there is only one such order, so any stable sort gives it |
| LidarConversion.WideSpan | common/include/prism_ros_adapter/lidar_conversion.hpp:29-30 | checking each entry against the first is the same as bounding the difference of every two times |
| LidarConversion.OffsetsAscend | common/include/prism_ros_adapter/lidar_conversion.hpp:25-37 | offsets start at 0 and never decrease |
| FrameSessions.SessionConservation | common/src/lidar_frame_accumulator.cpp:23-69 | over any session of append calls and external resets, published, discarded and pending frames hold every point exactly once, in order, at the time recorded for it |
| FrameSessions.SessionTimes | common/src/lidar_frame_accumulator.cpp:23-69 | every point of a session keeps its absolute time if and only if no point was early |
| FrameSessions.SessionOffsets | common/src/lidar_frame_accumulator.cpp:23-69 | over any session all offsets of all frames stay below 100 ms under exactly the same condition |
| FrameSessions.SessionKeepsPayloads | common/src/lidar_frame_accumulator.cpp:23-69 | early or not, every measurement of a session comes out exactly once, in order |
| FrameSessions.ReturnedIsPublished | common/src/lidar_frame_accumulator.cpp:23-69 | the frames that the append calls of a session return are the published ones; a reset returns nothing |
| FrameSessions.SessionFramesWellFormed | common/src/lidar_frame_accumulator.cpp:46-98 | over any session no frame is empty, each starts at offset 0, and published intervals are the ceiling of their span |
| LidarDispatch.LidarDispatcher.DispatchLidarPoints | common/src/driver.cpp:1061-1098 | health, traffic counters, accumulator and publish queue after one batch: dropped, too wide, thrown by the accumulator, or run through it with its frames pushed |
| LidarDispatch.LidarDispatcher.ConvertAndPush | common/src/driver.cpp:1084-1097 | a batch too wide to convert changes nothing; any other is appended as converted, counted, and its frames pushed unless the accumulator throws |
| LidarDispatch.LidarDispatcher.NoteArrival | common/src/driver.cpp:1064-1067 | one health observation, and one incomplete issue for an empty batch |
| LidarDispatch.LidarDispatcher.PushFrames | common/src/driver.cpp:1094-1097 | the completed frames in order, nothing while the queue is stopped |
| LidarDispatch.RequiredSyncGate | common/src/driver.cpp:1068-1085 | with required synchronization and a reference fresh at the first reading of the clock, a batch passes iff it is synchronized and either one of its clocks is within 2 s of the reference or the reference has aged out by the second reading; a near clock gives the base time |
| LidarGate.GateExactly | common/src/driver.cpp:1068-1085 | for every reference, batch and setting: which batches pass, and at what base time - the nearer clock on the device's, the SDK time on a tie or without such a clock |
| LidarGate.LidarAloneExample | common/src/driver.cpp:1068-1085 | concrete: with required synchronization and never a reference, a synchronized batch passes at its SDK time |
| LidarGate.SdkTimeExactly | common/src/driver.cpp:1073-1073 | the SDK time is the batch's microseconds in nanoseconds if and only if they fit 64 bits |
| LidarGate.RawSelectedExactly | common/src/driver.cpp:1074-1091 | the raw clock is counted as selected if and only if it is the nearer one on the device's clock |
| LidarGate.HealthOfBatch | common/src/driver.cpp:1064-1082 | what a batch adds to the stream's health: one arrival, its id and time as baselines, incomplete iff empty, unsynchronized iff dropped, missing ids modulo 2^32 |
| LidarGate.TrafficAddsUp | common/src/driver.cpp:1068-1093 | over any run every batch is counted once, dropped, too wide, or through with one of the two clocks, and its points with it |
| LidarPipeline.EndToEnd | common/src/driver.cpp:1084-1097 | over any run of batches and stream restarts, published, discarded and pending frames hold every source measurement exactly once in per-batch stable time order, at their absolute times and with offsets below 100 ms iff no point was early; the published ones are what append returns |
| LidarPipeline.ConversionSightings | common/include/prism_ros_adapter/lidar_conversion.hpp:25-45 | a converted batch fed to the accumulator shows it exactly the sorted source points |
| LidarPipeline.SortKeepsAll | common/include/prism_ros_adapter/lidar_conversion.hpp:20-24 | sorting keeps the multiset of points with their times |
| LidarMessage.MessageShowsReturns | ros2_ws/src/prism_ros_driver/src/prism_ros2_node.cpp:1030-1068 | a subscriber reads, name by literal name, every measurement of the return that is k-th in stable time order, and its time |
| LidarMessage.TableAsPublished | ros2_ws/src/prism_ros_driver/src/prism_ros2_node.cpp:1030-1052 | the eleven fields with their literal names, offsets and types |
| LidarMessage.ConversionHeader | common/include/prism_ros_adapter/lidar_conversion.hpp:11-25 | a converted batch keeps its header; its timestamp is its earliest point, or the base time without any |
| PointCloudLayout.PackPoints | ros2_ws/src/prism_ros_driver/src/prism_ros2_node.cpp:1025-1068 | the in-place writer stays inside its buffer if and only if 28 bytes per point fit the 32-bit row step, and then leaves exactly the records of the points and the published descriptor table |
| PointCloudLayout.WritePoint | ros2_ws/src/prism_ros_driver/src/prism_ros2_node.cpp:1056-1067 | writes one record and no byte outside it |
| PointCloudLayout.DescribeFields | ros2_ws/src/prism_ros_driver/src/prism_ros2_node.cpp:1030-1052 | the eleven descriptors |
| PointCloudLayout.RoundTrip | ros2_ws/src/prism_ros_driver/src/prism_ros2_node.cpp:1031-1068 | every field of every point is read back by name through the published descriptors |
| PointCloudLayout.RecordsInjective | ros2_ws/src/prism_ros_driver/src/prism_ros2_node.cpp:1053-1068 | equal bytes mean equal points |
| PointCloudLayout.NoOverlap | ros2_ws/src/prism_ros_driver/src/prism_ros2_node.cpp:1034-1046 | a byte belongs to at most one field of one point |
| PointCloudLayout.PaddingIsZero | ros2_ws/src/prism_ros_driver/src/prism_ros2_node.cpp:1053-1068 | the bytes of no field are exactly the last four of each record, and are zero |
| DispatchQueues.DispatchQueue.Push | common/src/driver.cpp:333-346 | the locked part of push: the oldest value makes room when full, the new one goes last, depth and peak follow; undefined exactly for an empty queue of capacity 0 |
| DispatchQueues.DispatchQueue.Clear | common/src/driver.cpp:322-331 | the locked part of stop |
| DispatchQueues.DispatchQueue.Pop | common/src/driver.cpp:358-366 | the end of the worker's locked part: oldest value first |
| DispatchQueues.ConservationAndOrder | common/src/driver.cpp:322-374 | after every schedule pushed = delivered + in flight + dropped + cleared + queued, the queue is the newest part of what was pushed, the handler saw the taken values in order, depth <= peak <= capacity |
| DispatchQueues.OverflowKeepsTheNewest | common/src/driver.cpp:337-343 | a drop happens iff the queue is full, drops the oldest value only, and the pushed one is last |
| DispatchQueues.PushAllKeepsTheNewest | common/src/driver.cpp:333-346 | any run of pushes drops exactly the oldest part of what was queued and pushed, and only if the queue ends full |
| DispatchQueues.NoLostWakeup | common/src/driver.cpp:322-366 | after every schedule a blocked worker with no notification to come has an empty queue and a running flag; it is never blocked while stop joins |
| DispatchQueues.JoinTerminates | common/src/driver.cpp:329-374 | while stop joins, the worker can always move and is gone after at most three moves, and no other thread moves it or ends the wait |
| DispatchQueues.StopTakesItsSteps | common/src/driver.cpp:322-331 | stop clears the flag, the queue and notifies once each, in this order, and then joins |
| DispatchQueues.LockIsFreeOutside | common/src/driver.cpp:335-366 | the lock is free exactly while the worker is outside its locked part; then an admitted value can enter |
| DispatchQueues.OldestIsTaken | common/src/driver.cpp:354-366 | while the queue runs and is not empty, its worker takes the oldest value after at most seven moves of its own, or the push that will wake it is still to notify |
| DispatchQueues.NotifyWakes | common/src/driver.cpp:345-361 | that notification wakes the worker, and the push is over; so does a spurious wakeup |
| DispatchQueues.PushNeedsARunningQueue | common/src/driver.cpp:333-336 | a push on a stopped queue changes nothing, on a running one its value is admitted |
| DispatchQueues.ErrorsExactly | common/src/driver.cpp:367-372 | after every schedule exactly the handler calls that threw are counted |
| DispatchQueues.PeakExactly | common/src/driver.cpp:341-343 | after every schedule the peak is the longest that the queue has ever been |
| DispatchQueues.AlwaysInv | common/src/driver.cpp:317-374 | the invariant behind these results holds after every interleaving |
| ControlMailbox.Mailbox.Submit | common/src/driver.cpp:455-467 | refuses when closed, refuses at 64, otherwise appends |
| ControlMailbox.Mailbox.EnableControls | common/src/driver.cpp:471-474 | opens the box and keeps its contents |
| ControlMailbox.Mailbox.TakeAll | common/src/driver.cpp:488-493 | takes the whole queue, leaves it empty and as open as it was |
| ControlMailbox.Mailbox.CloseAndTakeAll | common/src/driver.cpp:476-482 | takes the whole queue and closes the box in one region |
| ControlMailbox.ExactlyOnceInOrder | common/src/driver.cpp:438-495 | after every schedule each accepted command is resolved, being worked on or queued - once, in acceptance order; at most 64 are queued |
| ControlMailbox.NobodyLeftWaiting | common/src/driver.cpp:1485-1503 | once run is left by either of its own paths every accepted command is resolved and every blocked client can return; left by an escaping exception, exactly the clients of the queued commands cannot |
| ControlMailbox.StuckExactly | common/src/driver.cpp:1485-1503 | outside run somebody is stuck, or gets stuck by calling, if and only if run was left by an exception escaping after enableControls |
| ControlMailbox.EscapeExample | common/src/driver.cpp:1485-1487 | a concrete schedule: an exception that is not a std::exception escapes, and the next client is accepted and waits for nobody |
| ControlMailbox.NothingAcceptedWhileClosed | common/src/driver.cpp:455-482 | from cancellation to the next enableControls nothing is accepted |
| ControlMailbox.ClientsWaitForTheirOwn | common/src/driver.cpp:439-469 | two clients never wait for one command |
| ControlMailbox.CancellationDrains | common/src/driver.cpp:476-486 | the receive thread alone, once the box is closed, cancels exactly the open commands in order, keeps earlier results, and leaves run |
| ControlMailbox.ExecutedUnlessClosedOver | common/src/driver.cpp:476-494 | after every schedule a resolved command was cancelled if and only if it was in the box when that was closed, and executed otherwise |
| ControlMailbox.ExecutionDrains | common/src/driver.cpp:488-494 | a batch taken for execution is executed to its end, in order, and run goes on unless a command was fatal |
| ControlMailbox.ExecutionExample | common/src/driver.cpp:438-495 | one schedule to the letter: the command is executed and its client returns |
| ControlMailbox.FatalExactly | common/src/driver.cpp:1369-1372 | the driver is unable to go on if and only if a command executed since run was entered left it so |
| ControlMailbox.FatalEndsTheRun | common/src/driver.cpp:1369-1372 | then the loop is not entered again |
| ControlMailbox.LeavesInOrder | common/src/driver.cpp:1485-1503 | after a throw or a stop the receive thread alone closes the box, cancels what is in it, and leaves run |
| ControlMailbox.WaysOut | common/src/driver.cpp:1362-1503 | where a throw, a stop, an escaping exception and a returning client lead |
| ControlMailbox.ReplyExactly | common/src/driver.cpp:457-467 | not accepting if and only if closed, full if and only if 64 are waiting, else the command goes last |
| ControlMailbox.AlwaysInv | common/src/driver.cpp:438-495 | the invariant behind these results holds after every interleaving |
| StreamControl.StreamController.EnsureStreamObjects | common/src/driver.cpp:497-514 | creates the missing stream objects of enabled streams |
| StreamControl.StreamController.StartCaptureStreams | common/src/driver.cpp:537-563 | camera then board IMU, stopping at the first throw or rejection |
| StreamControl.StreamController.StartOtherStreams | common/src/driver.cpp:565-586 | time reference, rover, LiDAR, stopping at the first throw or rejection |
| StreamControl.StreamController.StartConfiguredStreams | common/src/driver.cpp:535-587 | the whole start for every environment: flags, device, armed checks and accumulator resets |
| StreamControl.StreamController.StopConfiguredStreams | common/src/driver.cpp:686-708 | the whole stop for every environment; one capture call clears both capture flags |
| StreamControl.StreamController.RunIdleOperation | common/src/driver.cpp:633-684 | pause, operate, restart, with both recovery paths |
| StreamControl.StreamController.ReopenControlClient | common/src/driver.cpp:710-741 | drops the stream objects, reopens the session, rebuilds them |
| StreamControl.StreamController.SynchronizeSystemTime | common/src/driver.cpp:743-805 | the guarded time synchronization with its three recovery paths and the unguarded last status; on the RK itself a throw and nothing else |
| StreamControl.StreamController.ApplyStreamCommand | common/src/driver.cpp:807-865 | validation, the unguarded stop, the new configuration, and the rollback whose stop is swallowed |
| StreamControl.StreamController.SetRoverRtcm | common/src/driver.cpp:1808-1818 | flag and configuration follow what the device reports |
| StreamSafety.StartFacts | common/src/driver.cpp:535-587 | starting only adds enabled streams, whatever throws, and on success makes all of them active |
| StreamSafety.StopFacts | common/src/driver.cpp:686-708 | exactly what is left active for each place where stopping can throw |
| StreamSafety.RunIdleFacts | common/src/driver.cpp:633-684 | configuration untouched, a safe state stays safe, success restores the configured streams |
| StreamSafety.SyncTimeFacts | common/src/driver.cpp:743-805 | the same for system time synchronization |
| StreamSafety.ApplyOutcome | common/src/driver.cpp:807-865 | success: enabled = active = old plus, minus or equal to selected; failure: the configuration is restored; whatever throws |
| StreamSafety.SafeWhateverThrows | common/src/driver.cpp:807-865 | a command ends fatal or with exactly the configured streams active in every environment if and only if LiDAR and a capture stream are not both active before it and it enables no new stream |
| StreamSafety.ApplySafe | common/src/driver.cpp:807-865 | and in a given environment whenever that holds, or the stop calls that the command makes do not throw |
| StreamSafety.HalfStoppedExample | common/src/driver.cpp:824-824 | concrete: the first stop throws after LiDAR was stopped; LiDAR stays enabled, off, and nothing is fatal |
| StreamSafety.StrandedExample | common/src/driver.cpp:839-864 | concrete: the swallowed stop leaves the camera streaming although it is disabled again |
| StreamDevice.AlwaysTruthful | common/src/driver.cpp:535-865 | over every run in which a call that throws has changed nothing, the flags equal what the device streams, every idle operation ran on a silent device, and pending LiDAR points were only discarded while LiDAR was not streaming |
| StreamDevice.NeverAdriftExactly | common/src/driver.cpp:807-865 | where calls may also take effect and throw, a stream command keeps everything on the device within reach of a later stop, or is fatal, in every environment if and only if it brings in no capture or LiDAR session that was not configured |
| StreamDevice.SilentPauseExactly | common/src/driver.cpp:633-708 | an idle operation finds a silent device in every environment if and only if every stream on the device is within reach of a stop |
| StreamDevice.RunIdleHeld | common/src/driver.cpp:633-684 | an idle operation that finds the device within reach of a stop leaves it so, or is fatal, whatever the calls do |
| StreamDevice.SyncTimeHeld | common/src/driver.cpp:743-805 | the same for system time synchronization |
| StreamDevice.AlwaysHeld | common/src/driver.cpp:535-865 | over every run of commands that bring in no new session, whatever the calls do: until a fatal error a stop would silence the device, and no idle operation met a streaming one |
| StreamDevice.AdriftExample | common/src/driver.cpp:535-865 | concrete: the start of an added camera takes effect and throws, the rollback succeeds, and the next idle operation runs while the camera streams |
| StreamSafety.AlwaysSafe | common/src/driver.cpp:535-865 | over every run of commands each of which is safe whatever throws, or whose stops do not throw: fatal, or exactly the configured streams are active |
| StreamSafety.FirstStart | common/src/driver.cpp:535-587 | the first start from nothing is not fatal, and makes exactly the configured streams active if it does not throw |
| StreamOutcomes.StartMakesItsCalls | common/src/driver.cpp:535-587 | a start makes exactly the calls camera, board IMU, time reference, rover, LiDAR that the configuration asks for, up to the first that goes wrong, and succeeds iff none does |
| StreamOutcomes.StopMakesItsCalls | common/src/driver.cpp:686-708 | a stop likewise: rover, LiDAR, and one call for the capture session |
| StreamOutcomes.RunIdleSucceedsExactly | common/src/driver.cpp:633-684 | an idle operation succeeds if and only if no call of it goes wrong, and then it has announced, stopped, operated, started and reported, in this order |
| StreamOutcomes.RunIdleOutcome | common/src/driver.cpp:633-684 | when it turns fatal, when the operation is called, and that a failure that is not fatal ends with a recovery that went well |
| StreamOutcomes.SyncSucceedsExactly | common/src/driver.cpp:743-805 | the same for time synchronization, which also asks for the lock and reopens the session |
| StreamOutcomes.SyncOutcome | common/src/driver.cpp:743-805 | when it turns fatal, and that the session is reopened once, exactly if a synchronization was tried |
| StreamOutcomes.ApplySucceedsExactly | common/src/driver.cpp:807-865 | a stream command is refused at once or succeeds if and only if no call of it goes wrong, with exactly the calls of the new configuration |
| StreamOutcomes.ApplyFatalExactly | common/src/driver.cpp:807-865 | it turns fatal if and only if it ends with a call of the rollback that goes wrong |
| StreamOutcomes.RejectsExactly | common/src/driver.cpp:810-818 | it makes no call if and only if nothing is selected or a stream to restart is not configured |
| StreamOutcomes.Configures | common/src/driver.cpp:826-835 | what it configures, stream by stream |
| StreamOutcomes.ReopenedObjects | common/src/driver.cpp:710-741 | a reopened session has stream objects for exactly the configured streams |
| StreamOutcomes.RoverOutcome | common/src/driver.cpp:1808-1818 | one call; flag and configuration say what the device reported, and a call that raises changes neither |
| StreamWatch.RestartWatch | common/src/driver.cpp:535-587 | after a start, whatever throws, exactly those streams are active and unwatched for silence that were so before it |
| StreamWatch.PauseKeepsWatchExactly | common/src/driver.cpp:633-708 | an idle operation keeps every active stream under the silence check, or is fatal, in every environment if and only if nothing is streaming |
| StreamWatch.SyncKeepsWatchExactly | common/src/driver.cpp:743-805 | the same for system time synchronization |
| StreamWatch.CommandKeepsWatchExactly | common/src/driver.cpp:807-865 | a stream command does so if and only if nothing streams before it and nothing is to stream after it |
| StreamWatch.UnwatchedExample | common/src/driver.cpp:638-653 | concrete: a pause throws at its first stop and is recovered; everything streams and nothing is watched |
| StreamWatch.AlwaysWatched | common/src/driver.cpp:535-865 | over every run in which the stops that are made do not throw every active stream stays under the silence check |
| CaptureHealth.ArmCamera | common/src/driver.cpp:543-550 | the camera slots and the metadata stream restart with the acknowledged rate; absent slots get no silence limit |
| CaptureHealth.ArmBoardImu | common/src/driver.cpp:558-562 | the IMU slots restart with the configured rate, or the detected one for 0; absent slots get no silence limit |
| CaptureHealth.ArmRover | common/src/driver.cpp:567-568 | the rover stream restarts without limits and forgets its lost-byte baseline |
| CaptureHealth.ArmLidar | common/src/driver.cpp:580-583 | points and IMU restart, the IMU without a silence limit on an XT32 |
| CaptureHealth.DisarmCapture | common/src/driver.cpp:871-874 | the silence check of exactly the nine capture streams goes off |
| CaptureHealth.SlotWatchedExactly | common/src/driver.cpp:545-548 | a slot can be reported silent after its start if and only if its sensor is present (and the clock leaves room for the limit) |
| CaptureHealth.MaskIsItsSlots | common/src/driver.cpp:546-547 | a mask is the sum of the bits of its present slots |
| CaptureHealth.StaysDisarmed | common/include/prism_ros_adapter/sensor_data_health.hpp:34-53 | over every history without a restart a disarmed stream is never found silent |
| SensorHealth.SensorDataHealth.ResetStream | common/include/prism_ros_adapter/sensor_data_health.hpp:34-46 | clears baselines and conditions, keeps counters and counts, sets period and silence limit; other streams untouched |
| SensorHealth.SensorDataHealth.Disable | common/include/prism_ros_adapter/sensor_data_health.hpp:48-48 | switches the silence check off |
| SensorHealth.SensorDataHealth.TouchStream | common/include/prism_ros_adapter/sensor_data_health.hpp:49-53 | data arrived |
| SensorHealth.SensorDataHealth.BeginSession | common/include/prism_ros_adapter/sensor_data_health.hpp:54-62 | a different id counts once and forgets the baselines |
| SensorHealth.SensorDataHealth.AddIssue | common/include/prism_ros_adapter/sensor_data_health.hpp:63-67 | pending and total move together |
| SensorHealth.SensorDataHealth.SetCondition | common/include/prism_ros_adapter/sensor_data_health.hpp:68-72 | counts the rising edge |
| SensorHealth.SensorDataHealth.ResetCounter | common/include/prism_ros_adapter/sensor_data_health.hpp:73-75 | forgets one counter baseline |
| SensorHealth.SensorDataHealth.QueryError | common/include/prism_ros_adapter/sensor_data_health.hpp:76-81 | counts one query error and keeps the first 256 bytes of its text, control characters blanked |
| SensorHealth.SensorDataHealth.CountTo | common/include/prism_ros_adapter/sensor_data_health.hpp:83-88 | counts the increase, or a first value if told so |
| SensorHealth.SensorDataHealth.ObserveSequence | common/include/prism_ros_adapter/sensor_data_health.hpp:96-110 | modular classification of an id as duplicate, reset, missing or next |
| SensorHealth.SensorDataHealth.ObserveStamp | common/include/prism_ros_adapter/sensor_data_health.hpp:113-124 | classification of a stamp and the capped estimate |
| SensorHealth.SensorDataHealth.ObserveSample | common/include/prism_ros_adapter/sensor_data_health.hpp:90-125 | both checks on one sample, on this stream only |
| SensorHealth.SensorDataHealth.ReportStream | common/include/prism_ros_adapter/sensor_data_health.hpp:129-151 | the due test, the values on the line, and what is cleared |
| SensorHealth.SensorDataHealth.Reports | common/include/prism_ros_adapter/sensor_data_health.hpp:127-153 | all due streams in order, each exactly once |
| LossAccounting.NothingLost | common/include/prism_ros_adapter/sensor_data_health.hpp:63-153 | over every history, for every issue: total = printed in warnings + pending |
| LossAccounting.FlushPrintsEverything | common/include/prism_ros_adapter/sensor_data_health.hpp:127-153 | a forced report leaves nothing pending; from a fresh stream printed = total |
| HealthReports.PrintsExactly | common/include/prism_ros_adapter/sensor_data_health.hpp:127-151 | over every history a report prints one line if and only if a count is unsaid or a silence untold, and it is forced, the first, or five seconds after the last; then nothing is left unsaid |
| HealthReports.WarningTells | common/include/prism_ros_adapter/sensor_data_health.hpp:137-150 | over every history what each line says: its time, totals equal to all printed so far, milliseconds without data iff silent, last id of the session |
| HealthReports.LinesExactly | common/include/prism_ros_adapter/sensor_data_health.hpp:127-153 | the lines of a report are those of the streams that are due, one each, in order |
| HealthReports.StampsCounted | common/include/prism_ros_adapter/sensor_data_health.hpp:113-124 | over every history of samples backward, repeated and gapped stamps are counted one by one; an unknown stamp is a new baseline |
| HealthReports.ResetSkipsStamp | common/include/prism_ros_adapter/sensor_data_health.hpp:104-124 | a sample whose id was reset is not held against its stamp |
| HealthReports.SessionChangesCounted | common/include/prism_ros_adapter/sensor_data_health.hpp:54-62 | over every history exactly the changes of the session id are counted |
| HealthReports.PeriodExactly | common/include/prism_ros_adapter/sensor_data_health.hpp:41-42 | period times rate is a second, for rates from a thousandth to a million; others have no period |
| LossAccounting.WarningsSpaced | common/include/prism_ros_adapter/sensor_data_health.hpp:136-148 | every unforced warning is at least 5 s after every earlier warning |
| LossAccounting.ThrottledRate | common/include/prism_ros_adapter/sensor_data_health.hpp:136-148 | any window of length T holds at most T / 5 s + 1 unforced warnings |
| LossAccounting.SilenceReportedOnce | common/include/prism_ros_adapter/sensor_data_health.hpp:131-150 | without data or restart at most one warning is due to silence alone |
| LossAccounting.SilentExactly | common/include/prism_ros_adapter/sensor_data_health.hpp:34-132 | silence after a restart means the limit and three periods have both passed; limit 0 means never |
| LossAccounting.ErrorsReportedOnce | common/include/prism_ros_adapter/sensor_data_health.hpp:76-149 | over every history each warning was printed by some report and carries exactly the latest query error since the warning before it, cut to 256 bytes without control characters |
| SequenceHistories.DeltaOfSent | common/include/prism_ros_adapter/sensor_data_health.hpp:98-100 | the computed delta of two truncated ids is the true difference modulo 2^bits |
| SequenceHistories.CountsFollowTrueIds | common/include/prism_ros_adapter/sensor_data_health.hpp:96-110 | for every history of true ids moving by less than half the range, wrap-around included: missing, duplicate and reset counts are exactly the forward gaps, repetitions and steps back |
| SequenceHistories.MissingIsExact | common/include/prism_ros_adapter/sensor_data_health.hpp:96-110 | increasing ids: missing is exactly (last - first) - (samples - 1), no duplicates, no resets |
| SequenceHistories.EstimateFollowsIds | common/include/prism_ros_adapter/sensor_data_health.hpp:113-123 | with stamps within a quarter period of a grid, estimated missing is the capped id gap and a timestamp gap is seen exactly at missing samples |
| SequenceHistories.EstimatesAgree | common/include/prism_ros_adapter/sensor_data_health.hpp:96-123 | the two loss estimates agree if and only if no single gap exceeds 1e9 samples |
| SequenceHistories.CapExample | common/include/prism_ros_adapter/sensor_data_health.hpp:119-121 | two concrete samples 1e9 + 2 ids apart: one missing sample fewer is estimated than counted |
| SequenceHistories.NewBaselineForgets | common/include/prism_ros_adapter/sensor_data_health.hpp:34-62 | after a restart or a new session the next sample counts nothing |
| SequenceHistories.CounterCountsIncreases | common/include/prism_ros_adapter/sensor_data_health.hpp:83-88 | over any readings of a device counter exactly the increases are counted; the first reading and a drop are baselines |
| SequenceHistories.IncreasesTelescope | common/include/prism_ros_adapter/sensor_data_health.hpp:83-88 | for a counter that never drops that is last minus first |
| SequenceHistories.ConditionCountsOnsets | common/include/prism_ros_adapter/sensor_data_health.hpp:68-72 | over any readings a condition is counted once per onset, and no other issue moves |
| QueueHealth.CheckDispatchCounters | common/src/driver.cpp:876-880 | two counters of a queue into its stream |
| QueueHealth.ReportHealth | common/src/driver.cpp:882-900 | checks every queue, on the final call disables every stream, then reports: new state of all streams and all lines |
| QueueHealth.ReportIsOps | common/src/driver.cpp:882-900 | with a stream of its own, what a queue's stream goes through is check, disable if final, report |
| QueueHealth.FinalReportTellsNoSilence | common/src/driver.cpp:895-900 | the final report calls no stream silent |
| QueueHealth.AlwaysInStep | common/src/driver.cpp:876-880 | over every interleaving of queue threads and health calls the counted drops and callback errors equal the last value read, never more than the queue's counter |
| QueueHealth.PrintedDropsAreAllDrops | common/src/driver.cpp:882-900 | the drops (and callback errors) printed over one run with fresh health add up to the queue's counter at the final flush, across stream restarts |
| QueueHealth.PrintedDropsOfThisRun | common/src/driver.cpp:1502-1503 | so they are the drops of this run if and only if the queue's counter was zero at its start |
| QueueHealth.CarriedDropsExample | common/src/driver.cpp:1502-1503 | concrete: a queue that dropped one value makes the next, empty run print one drop |
| DeviceTime.DeviceTimeResolver.ObserveBoard | common/include/prism_ros_adapter/device_time_resolver.hpp:25-27 | a valid board observation replaces the reference |
| DeviceTime.DeviceTimeResolver.ObserveCamera | common/include/prism_ros_adapter/device_time_resolver.hpp:29-38 | a camera observation is ignored while the board holds the reference |
| DeviceTime.BoardHolds | common/include/prism_ros_adapter/device_time_resolver.hpp:25-38 | over every run of ordered arrivals the reference stays board-sourced for 2 s after a valid board observation |
| DeviceTime.CameraTakesOverExactly | common/include/prism_ros_adapter/device_time_resolver.hpp:29-38 | and a valid camera observation takes over exactly outside that hold |
| DeviceTime.ReferenceIsLatest | common/include/prism_ros_adapter/device_time_resolver.hpp:25-110 | over every run the reference is the last valid observation, camera ones within two seconds after the board observation that it is aside |
| DeviceTime.FreshExactly | common/include/prism_ros_adapter/device_time_resolver.hpp:44-47 | a reference is fresh for exactly five seconds |
| DeviceTime.NearExactly | common/include/prism_ros_adapter/device_time_resolver.hpp:72-104 | a known clock is near up to and including two seconds |
| DeviceTime.ResolvesExactly | common/include/prism_ros_adapter/device_time_resolver.hpp:53-77 | resolution succeeds iff the reference is fresh and a nonzero candidate is within 2 s; it is the nearer one, ties to the SDK clock |
| DeviceTime.ClockSelected | common/include/prism_ros_adapter/device_time_resolver.hpp:53-77 | a clock within 2 s of the reference, the other being absent or more than 4 s from it, is the one selected |
| DeviceTime.ReferenceFollowsClock | common/include/prism_ros_adapter/device_time_resolver.hpp:25-38 | over every run in which reference observations show one device clock to within a second, the extrapolated reference does too |
| DeviceTime.NeverSwitches | common/include/prism_ros_adapter/device_time_resolver.hpp:53-77 | over every such run from a reset in which one LiDAR clock shows that device clock and the other does not, every resolution picks that one, whenever the reference is fresh |
| NavigationFix.SameTimeOfDay | common/include/prism_ros_adapter/navigation_fix.hpp:14-23 | the result has the receiver's time of day if and only if the sums that make its date fit 64 bits |
| NavigationFix.NearestExactly | common/include/prism_ros_adapter/navigation_fix.hpp:18-22 | it is within half a day of the PPS epoch if and only if every sum fits 64 bits and PPS is past the first day or the time of day is at most half a day ahead |
| NavigationFix.FirstDayExample | common/include/prism_ros_adapter/navigation_fix.hpp:20-21 | a concrete status on the first day whose result is almost a day off |
| NavigationFix.LastDayExample | common/include/prism_ros_adapter/navigation_fix.hpp:18-20 | a concrete status at the end of 64 bits whose result wraps around |
| NavigationFix.RecoversTrueEpoch | common/include/prism_ros_adapter/navigation_fix.hpp:14-23 | a true epoch less than half a day from PPS is recovered from its time of day if and only if the sums fit 64 bits |
| NavigationFix.UniqueExceptTies | common/include/prism_ros_adapter/navigation_fix.hpp:18-22 | two candidates within half a day with one time of day differ only at the exact tie |
| NavigationFix.PpsDateKept | common/include/prism_ros_adapter/navigation_fix.hpp:18-22 | the date of the PPS epoch is kept wherever that is within half a day, so at both ties |
| NavigationFix.UnusableExactly | common/include/prism_ros_adapter/navigation_fix.hpp:16-17 | no epoch without synchronization, PPS or a time within the day; with all of them, after the first day, there is one |
| NavigationFix.ZeroExactly | common/include/prism_ros_adapter/navigation_fix.hpp:16-17 | after the first day, 0 means exactly an unusable status |
| PublicationAck.PublicationAckWindow.OnPublished | common/include/prism_ros_adapter/publication_ack.hpp:31-43 | the new pending count, the result and whether it waited, for every outcome of the wait |
| PublicationAck.PublicationAckWindow.Create | common/include/prism_ros_adapter/publication_ack.hpp:26-28 | throws exactly for an empty window |
| PublicationAck.PendingRefinesCount | common/include/prism_ros_adapter/publication_ack.hpp:31-42 | throughout any run pending is min(unconfirmed publications, limit) |
| PublicationAck.TrueMeansBounded | common/include/prism_ros_adapter/publication_ack.hpp:31-42 | true is returned exactly when fewer than limit publications are unconfirmed afterwards |
| PublicationAck.WaitDecides | common/include/prism_ros_adapter/publication_ack.hpp:31-43 | exactly when a publication waits, and that the wait then decides: success, failure or exception |
| PublicationAck.WaitsOncePerWindow | common/include/prism_ros_adapter/publication_ack.hpp:36-41 | n confirmed publications wait exactly floor(n / limit) times |
| PublicationAck.FenceStays | common/include/prism_ros_adapter/publication_ack.hpp:38-40 | after a timeout or a throw every further reliable publication waits until one is confirmed |

## Left out

- LidarDispatch.LidarDispatcher.DispatchLidarPoints: the absolute point times are a parameter (lidarPointTimestampNs is an SDK function and may throw there); whether the publish queue runs is a parameter, constant during the call.
- LidarConversion.ConvertLidarBatch: unit scaling of coordinates is not modelled; coordinates are opaque 4-byte words.
- LidarConversion.SortIsStable: std::stable_sort is an insertion sort here; StableOrderUnique shows that every stable sort gives the same order.
- FrameLedger.ChunkingIndependence: compares the frames returned by calls that do not throw; a throwing append loses the frames it had completed, so after a throw only the accumulator is compared.
- FrameSessions.SessionConservation: sessions end with the first append that throws.
- PointOffset.RoundedExactly: a batch has at most 2^64 / 24 points, as many as fit in memory.
- PointCloudLayout.PackPoints: assumes the little-endian host that is_bigendian = false announces; a buffer that is too small is reported instead of written past.
- DispatchQueues.DispatchQueue.Push: pop_front of an empty deque (capacity 0, which no queue of the driver has) is reported instead of performed.
- DispatchQueues.ConservationAndOrder: one thread starts and stops the queue; counters are unbounded instead of 64-bit.
- DispatchQueues.DispatchQueue.Pop: the handler, and queues without a handler (on which start and push do nothing), are not modelled.
- ControlMailbox.ExactlyOnceInOrder: the internals of promises and futures are not modelled.
- StreamControl.StreamController.StartConfiguredStreams: keeps one armed silence check per camera, IMU and LiDAR; the streams, slots, rates and limits behind each are in CaptureHealth. The rover stream has no device state.
- StreamControl.StreamController.ReopenControlClient: device details read back are not modelled, except that the sensor board may be offline.
- SensorHealth.SensorDataHealth.ObserveStamp: the period is a real and not a long double, and counts are unbounded instead of 64-bit.
- SensorHealth.SensorDataHealth.Reports: a warning is its values; the wording around them is dropped.
- QueueHealth.ReportHealth: the queues are a list of readings; reading an atomic counter while the queue moves is covered by AlwaysInStep.
- DeviceTime.NeverSwitches: extrapolations of the reference beyond 64 bits resolve to nothing, as the code has it.
- The Prism SDK: transport, camera frame assembly and device behaviour, beyond the outcomes of calls.
- Receiver matching of GGA and GST sentences, video acknowledgement, and covariance arithmetic.
- ROS publishers, services, parameters, message field copies and diagnostics.
- Sleeps, timeouts and the bounds of the receive loop.
- Connection options, passwords, address checks, LiDAR speed and power guards: checks of configuration values, one at a time.

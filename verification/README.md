# OpenBench verification

OpenBench controls laboratory instruments from one Python process. This project models the
parts of it that must stay safe when requests interleave, fail half way or are cancelled, and
proves what they keep. Each file holds one part:

| file | what it models |
|---|---|
| `Dps150Framing.dfy` | the serial framing of the FNIRSI DPS-150 supply, with resynchronisation |
| `Dps150Output.dfy` | one output update of that supply: validation, order of writes, read-back |
| `EmergencyStop.dfy` | every interleaving of updates, program steps, presets and emergency stops on that supply |
| `PowerSweep.dfy` | the values of a sweep, and the check of a program's steps |
| `PowerProgram.dfy` | running a program: its writes, its final OFF and the progress it shows |
| `PollingSuspension.dfy` | suspending a device's polling, with a second check under the lock |
| `ScopeSuspension.dfy` | suspending a scope's polling, with no check under the lock |
| `ScopeOwnership.dfy` | who may use a scope: a recording or a MAXIMUM capture |
| `MatrixValidation.dfy`, `MatrixService.dfy` | the relay matrix, its database, its rollback and its safety latch |
| `AsciiBlock.dfy` | the MHO1 point-count waveform reader |
| `GeneratorUpdate.dfy` | changing a live FeelTech generator channel |
| `GeneratorMixtures.dfy` | when such a change can show a half-applied signal |
| `Decimals.dfy`, `GeneratorCommands.dfy` | the generator's printed commands and the allowlist they meet |
| `GeneratorInstructions.dfy` | what those commands mean, read back from their letters and digits |
| `SinkExperiment.dfy` | the ITECH sink-step experiment and its shutdown |
| `EventBus.dfy` | the measurement event bus |
| `Common.dfy` | shared value types and rounding |

Code that changes state step by step is a class or a method with loops, proved against a
function that says what it computes. Code whose point is interleaving is a state machine: a
`Move` is what one coroutine does between two awaits, an asyncio lock is a FIFO queue whose
head is the holder, and a statement about every list of enabled moves is a statement about
every run. What a request, a write or a wait does when it fails is chosen freely in the bodies,
or given as an argument that scripts it, so the contracts hold for every pattern of failures.

## What does not hold, exactly

Some properties one would expect are false of the code. Each is proved with the condition
under which it does hold, and with a concrete case.

- A completed emergency stop is final unless an `apply_preset(enabled=True)` that looked at the
  latch earlier still waits with acceptable setpoints: it takes the lock twice after one look
  (`StopIsFinalIff`, `PresetOvertakesStop`).
- Under the latch an update of a live output is stopped, but a preset that does not mention the
  output still changes its setpoints (`RequestIsCarriedOut`, whose `StoppedByLatch` says what the
  latch stops).
- A request to switch the DPS-150 off is refused when the setpoints it already holds no longer
  pass validation, as when its input has sagged (`OffIsSentIffSetpointsValid`,
  `SaggedSupplyRefusesOff`).
- A `suspend_device` that is cancelled while it waits leaves its count raised, and polling of
  that device can never resume (`PollingCanResumeIff`, `CancelledWaitStopsPolling`). The same is
  true of `suspend_live_polling` of a scope, whose callers do not give a cancelled one back either
  (the two lemmas of the same names in `ScopeSuspension`).
- A recording and a MAXIMUM job can use the same scope when an earlier recording still has
  something under way on it, or when a stop is in flight as the recording starts
  (`ExclusionIffNothingUnderWay`). The first is so for the scope loops of a recorder that died,
  even after the next recording has overwritten them and been stopped, and for what a stop missed
  by overtaking a start (`DeadRecorderLeavesLoops`, `OverwrittenLoopOutlivesStop`,
  `StopDuringStartLeavesScopes`). In the second the last piece of the stop forgets whatever
  recorder the service refers to by then: the next recording's, after two overlapping stops or
  after one that a start slips into (`OverlappingStopForgetsNext`,
  `StopForgetsRecordingThatSlipsIn`).
- A MAXIMUM start cancelled while it suspends polling stays the owner of its scope and keeps
  its suspension; a job whose stream close raises never gives its suspension back; a job that
  meets an exception outside the four it catches stays the owner
  (`MaximumCapture.Attempt`).
- The generator can show a half-applied live signal in exactly two cases (`MixtureIff`): its
  cache, within its lifetime of 0.2 s, wrongly says OFF, or a pulse width is set and the output
  is to end ON. A pulse width that the device ignores is taken as done when its read-back times
  out or is not asked for, and the output is switched on with it (`PulseWidthLeftBehind`). After
  one timeout it is never asked for again, so no later pulse width is verified
  (`GeneratorUpdate.LostForGood`). An ON whose read-back
  breaks leaves such a cache (`BrokenReadBackLeavesCacheOff`, `StaleCacheShowsMixture`), and on a
  device that stores exactly what it is sent the first case then needs two changed settings
  (`HalfAppliedIff`).
- The sink-step script learns that it has the reservation or the recording from the answer
  alone. One that was granted and whose answer was lost stays held, also when the clean-up reports
  no error; nothing else does (`SinkExperiment.Bench.Cleanup`).
- Two offsets that round to zero from its two sides print as `0.000` and `-0.000`
  (`SameCommandIff`, `ZeroOffsetHasTwoCommands`).
- A program's progress shows a whole loop too many from the moment a later loop begins until
  its first write, which a paused program shows live and a blocked one keeps
  (`ExactBeforeWriteIff`, `KeptProgressIff`, `HalfDoneShowsAll`). A program cancelled during
  its final OFF stays listed as active (`Program.Run`).
- A sweep whose two ends are in range is refused when its grid passes the end by less than
  epsilon and the end is the limit (`StartSweep`, `OvershootIsRefused`).
- The built-in matrix profile is inserted without validation, so a start keeps every stored
  profile valid only when the ports fit it (`StartKeepsProfilesIff`, `StartWithOtherPorts`). The
  simulated matrix's do.

## Model

| member | source | states |
|---|---|---|
| `Dps150Framing.BuildPacket` | src/openbench/drivers/fnirsi_dps150/protocol.py:183-200 | a packet is built exactly when command, type and payload length each fit a byte, and its bytes are one frame |
| `Dps150Framing.EmptyPacket` | src/openbench/drivers/fnirsi_dps150/protocol.py:179-200 | the bytes of a packet without payload: its last byte is its type |
| `Dps150Framing.LongerPacket` | src/openbench/drivers/fnirsi_dps150/protocol.py:179-200 | one more payload byte raises the length by one and the last byte by that byte plus one, modulo 256 |
| `Dps150Framing.TakenIffBuilt` | src/openbench/drivers/fnirsi_dps150/protocol.py:219-250 | bytes of the shape of one frame are taken as a packet exactly when they are what would be built from its fields, and otherwise lose their first byte |
| `Dps150Framing.FiveVolts` | src/openbench/drivers/fnirsi_dps150/protocol.py:179-250 | the write of 5 V and the reply that reports it, byte by byte |
| `Dps150Framing.FrameBuffer.ExtractPackets` | src/openbench/drivers/fnirsi_dps150/protocol.py:219-250 | the receive loop, which puts bytes back after a bad checksum, ends and computes `Extract` of the buffer it found |
| `Dps150Framing.ExtractAgreesWithScan` | src/openbench/drivers/fnirsi_dps150/protocol.py:219-250 | the loop gives the packets of a parser that reads one byte at a time, and leftovers equal up to bytes before a header |
| `Dps150Framing.ScanInTwo` | src/openbench/drivers/fnirsi_dps150/protocol.py:219-250 | parsing a prefix and then its leftover with the rest gives what parsing everything gives |
| `Dps150Framing.FeedFromEmpty` | src/openbench/drivers/fnirsi_dps150/protocol.py:219-250 | feeding a stream in chunks gives what feeding it at once gives |
| `Dps150Framing.ChunkingDoesNotMatter` | src/openbench/drivers/fnirsi_dps150/protocol.py:219-250 | any two ways of cutting a stream give the same packets and, after stripping, the same leftover |
| `Dps150Framing.FrameBuffer.Receive` | src/openbench/drivers/fnirsi_dps150/protocol.py:219-250 | extending the buffer chunk by chunk and extracting after each gives, from an empty buffer, what one extraction of the whole stream gives |
| `Dps150Framing.RoundTrip` | src/openbench/drivers/fnirsi_dps150/protocol.py:179-250 | junk without a header followed by whole frames extracts to exactly those packets with nothing left |
| `Dps150Framing.ExtractSound` | src/openbench/drivers/fnirsi_dps150/protocol.py:219-250 | for any bytes, the packets are valid frames found in the stream, in order and not overlapping |
| `Dps150Output.Supply.UpdateOutput` | src/openbench/drivers/fnirsi_dps150/supply.py:201-247 | the writes sent are a prefix of the plan; on success the supply holds what was asked for, field by field, and it was read back; an error is a failed read or write, a refusal by validation or an empty update; however it ends, a supply inside 150 W stays inside |
| `Dps150Output.Supply.OrderedWrites` | src/openbench/drivers/fnirsi_dps150/supply.py:209-239 | the order built by the code is the plan: OFF first when it removes power, setpoints, then the output |
| `Dps150Output.Supply.OrderedSetpoints` | src/openbench/drivers/fnirsi_dps150/supply.py:218-228 | a falling current goes before the voltage and is not repeated |
| `Dps150Output.Supply.SendAll` | src/openbench/drivers/fnirsi_dps150/supply.py:230-239 | writes stop at the first failure, whose own effect may or may not have arrived |
| `Dps150Output.Supply.ReadState` | src/openbench/drivers/fnirsi_dps150/supply.py:118-126 | a forced read caches what the supply holds, and a failed one leaves the cache |
| `Dps150Output.ValidationIs` | src/openbench/drivers/fnirsi_dps150/supply.py:173-199 | every answer of the validation, with the numbers of the ranges, steps and power |
| `Dps150Output.VerifiedIff` | src/openbench/drivers/fnirsi_dps150/supply.py:240-254 | a read-back is accepted exactly within half a step of each setpoint and with the output as asked |
| `Dps150Output.PlanCarriesOut` | src/openbench/drivers/fnirsi_dps150/supply.py:209-239 | all writes of an update leave what was asked for, and the rest as it was |
| `Dps150Output.EveryInstantBounded` | src/openbench/drivers/fnirsi_dps150/supply.py:216-239 | cut anywhere, the product of the setpoints is at most the larger of the old and the new product |
| `Dps150Output.UpdateStaysInEnvelope` | src/openbench/drivers/fnirsi_dps150/supply.py:183-239 | from inside 150 W, no instant of an accepted update leaves it |
| `Dps150Output.OutputOrder` | src/openbench/drivers/fnirsi_dps150/supply.py:209-239 | with OFF requested no setpoint is written live, and an output that was off comes on with the last write only |
| `Dps150Output.OffIsSentIffSetpointsValid` | src/openbench/drivers/fnirsi_dps150/supply.py:183-216 | an OFF-only update is sent exactly when the setpoints already held pass validation |
| `Dps150Output.SaggedSupplyRefusesOff` | src/openbench/drivers/fnirsi_dps150/supply.py:183-199 | a live 12 V output with a 9 V limit refuses OFF |
| `EmergencyStop.StepKeepsInv` | src/openbench/services/dc_power_supply_service.py:78-93 | every piece of every coroutine keeps the envelope and the order of OFFs and ONs in the lock |
| `EmergencyStop.GoesToDriverIff` | src/openbench/services/dc_power_supply_service.py:83-93 | an update whose state was read goes on to the driver if and only if the latch is clear or the output is to be off |
| `EmergencyStop.RequestIsCarriedOut` | src/openbench/services/dc_power_supply_service.py:83-136 | every request that finds the lock free and meets no failure is stopped by the latch, refused by validation, or carried out to the value of each field; which of the three is said exactly |
| `EmergencyStop.PendingIsCarriedOut` | src/openbench/drivers/fnirsi_dps150/supply.py:201-247 | so is an update at the head of any queue, which it leaves as it was |
| `EmergencyStop.CutAnywhere` | src/openbench/drivers/fnirsi_dps150/supply.py:216-239 | an update can be cut off after any number of its writes |
| `EmergencyStop.OnlyTheHolderActs` | src/openbench/services/dc_power_supply_service.py:268-284 | latch, reset and requests leave the supply and the waiting jobs as they are, and only a preset joins as one |
| `EmergencyStop.OriginStays` | src/openbench/drivers/fnirsi_dps150/supply.py:437-453 | a job that stays in the lock or joins it again comes from a preset exactly if it did |
| `EmergencyStop.EnvelopeInEveryRun` | src/openbench/drivers/fnirsi_dps150/supply.py:201-247 | over all runs, with failures and cut-off updates, the setpoints stay inside 150 W |
| `EmergencyStop.OffIsBehindEveryOn` | src/openbench/services/dc_power_supply_service.py:83-93 | when an OFF that joined under the latch completes, the output is off and whatever can still turn it on is a preset |
| `EmergencyStop.StoppedForGood` | src/openbench/services/dc_power_supply_service.py:268-284 | off, latched, and with nothing queued that could turn it on, the output stays off until the reset |
| `EmergencyStop.StopIsFinalIff` | src/openbench/services/dc_power_supply_service.py:414-428 | after that OFF the output can come on before a reset if and only if an acceptable preset still waits |
| `EmergencyStop.TurnOnRun` | src/openbench/drivers/fnirsi_dps150/supply.py:437-453 | from any state with such a preset there is a run that turns the output on without a reset |
| `EmergencyStop.PresetOvertakesStop` | src/openbench/services/dc_power_supply_service.py:127-136 | a run: preset, stop, completed OFF, and the output on again under the latch |
| `PowerSweep.SweepValues` | src/openbench/services/dc_power_supply_service.py:183-204 | the loop ends, computes the closed form, and reports each error exactly when it applies |
| `PowerSweep.OnGridIff` | src/openbench/services/dc_power_supply_service.py:194-201 | a multiple of the step is kept exactly when it passes the end by at most epsilon |
| `PowerSweep.SweepShape` | src/openbench/services/dc_power_supply_service.py:183-204 | start, grid, overshoot within epsilon, end within epsilon, and the gap of an appended end |
| `PowerSweep.GapBounds` | src/openbench/services/dc_power_supply_service.py:195-203 | the grid stops between epsilon past the end and a step less epsilon before it |
| `PowerSweep.StrictlyTowardsTheEnd` | src/openbench/services/dc_power_supply_service.py:191-203 | any later value is strictly nearer the end in the direction of the sweep |
| `PowerSweep.NoValueOutside` | src/openbench/services/dc_power_supply_service.py:183-204 | every value lies between start and end, give or take epsilon at the end |
| `PowerSweep.ValidateSteps` | src/openbench/services/dc_power_supply_service.py:137-162 | nothing is reported exactly for 1 to 10000 steps in range, and otherwise the first fault is |
| `PowerSweep.StartSweep` | src/openbench/services/dc_power_supply_service.py:206-231 | accepted exactly when safe, both ends of the sweep, the fixed value, dwell and loops are in range and there are at most 10000 values; the steps carry the sweep in one parameter and the fixed value in the other, and a refusal says why |
| `PowerSweep.OvershootIsRefused` | src/openbench/services/dc_power_supply_service.py:137-204 | a sweep from 0 V to 30 V whose last value is 30.006 V is refused |
| `PowerProgram.Program.RunStep` | src/openbench/services/dc_power_supply_service.py:273-284 | one step writes once, after its pause gate and the latch, and ends as the environment has it |
| `PowerProgram.Program.RunSteps` | src/openbench/services/dc_power_supply_service.py:270-284 | the nested loops issue exactly the writes up to the first step that goes wrong |
| `PowerProgram.Program.Run` | src/openbench/services/dc_power_supply_service.py:268-308 | the whole trace, the one OFF attempt after every end but a cancellation, what a status query shows at each wait, the status kept, and when the program stays listed |
| `PowerProgram.RepeatedIsCopies` | src/openbench/services/dc_power_supply_service.py:271-273 | the writes of a smooth run are the step list written out `loops` times |
| `PowerProgram.WritesArePrefix` | src/openbench/services/dc_power_supply_service.py:270-284 | in any run they are a prefix of that, the whole of it exactly when every write was issued |
| `PowerProgram.ProgressInRange` | src/openbench/services/dc_power_supply_service.py:329-331 | the percentage is between 0 and 100 |
| `PowerProgram.ExactAtWrite` | src/openbench/services/dc_power_supply_service.py:276-331 | from the k-th write on it is 100 k / (steps x loops) |
| `PowerProgram.ExactBeforeWriteIff` | src/openbench/services/dc_power_supply_service.py:271-331 | between two writes it is right if and only if no later loop has just begun |
| `PowerProgram.KeptProgressIff` | src/openbench/services/dc_power_supply_service.py:304-331 | the kept percentage is right if and only if the run did not stop before the first write of a later loop |
| `PowerProgram.CompletedShowsAll` | src/openbench/services/dc_power_supply_service.py:285-331 | a program that completed shows 100 |
| `PowerProgram.HalfDoneShowsAll` | src/openbench/services/dc_power_supply_service.py:271-331 | two loops stopped by the latch between them: half the writes, 100 percent |
| `PollingSuspension.PollingScheduler.MarkSuspended` | src/openbench/core/scheduler.py:179-186 | the first piece of a suspension raises the count of every target of the device, and of no other |
| `PollingSuspension.PollingScheduler.ResumeDevice` | src/openbench/core/scheduler.py:192-208 | every raised count of the device goes down by one; the ones that reach zero restart and are counted |
| `PollingSuspension.SuspendThenResume` | src/openbench/core/scheduler.py:177-208 | marking and resuming give the count and the event back; at zero the next poll is one interval away and staleness is that of the connection, and before that nothing else changes |
| `PollingSuspension.StepKeepsInv` | src/openbench/core/scheduler.py:177-284 | every piece keeps counts, events and the place of each suspension in the locks |
| `PollingSuspension.NoReadWhileSuspended` | src/openbench/core/scheduler.py:177-284 | counts are the outstanding suspensions, the event is set exactly at zero, and between return and resume no ordinary read is in flight |
| `PollingSuspension.ReservedReadsOnly` | src/openbench/services/bidirectional_power_supply_service.py:64-97 | a reserved device sees reserved reads only, and its release gives the earlier count back |
| `PollingSuspension.ReadTakesPlaceIff` | src/openbench/core/scheduler.py:245-284 | after any run, a reserved read asked for takes place whatever is suspended or waits, and an ordinary one exactly when nothing suspends the device |
| `PollingSuspension.HolderReads` | src/openbench/core/scheduler.py:252-284 | the lock holder of a target: a reserved read starts whatever the count, an ordinary one exactly at zero |
| `PollingSuspension.AbandonedForever` | src/openbench/core/scheduler.py:177-190 | a suspension cancelled while waiting is never taken back |
| `PollingSuspension.PollingCanResumeIff` | src/openbench/core/scheduler.py:177-208 | polling can be resumed if and only if no suspension was cancelled while waiting |
| `PollingSuspension.CancelledWaitStopsPolling` | src/openbench/core/scheduler.py:177-190 | a suspension cancelled behind a read that holds the lock: no later run resumes the polling |
| `PollingSuspension.Quiesce` | src/openbench/core/scheduler.py:177-208 | with nothing abandoned a run exists that resumes every target |
| `ScopeSuspension.StepKeepsInv` | src/openbench/services/scope_measurement_service.py:657-671 | with the test and the join in one piece, FIFO order keeps every display read ahead of a suspension |
| `ScopeSuspension.NoDisplayReadWhileSuspended` | src/openbench/services/scope_measurement_service.py:657-770 | after a suspension returns and until its resume no display read runs or waits |
| `ScopeSuspension.ReadTakesPlaceIff` | src/openbench/services/scope_measurement_service.py:657-770 | after any run, a capture asked for takes place whatever suspends the polling, and a display read is asked for, and takes place, exactly when nothing does |
| `ScopeSuspension.PollingCanResumeIff` | src/openbench/services/scope_measurement_service.py:657-671 | display polling can be resumed if and only if no suspension was cancelled while waiting |
| `ScopeSuspension.CancelledWaitStopsPolling` | src/openbench/services/capture_service.py:394-410 | a suspension cancelled behind a capture that holds the lock, as a cancelled start leaves it: no later run resumes the polling |
| `ScopeSuspension.AwaitBetweenTestAndJoinBreaksIt` | src/openbench/services/scope_measurement_service.py:905-912 | with a yield between the test and the join, one does |
| `ScopeOwnership.ExclusiveWhileAlive` | src/openbench/services/capture_service.py:345-478 | exclusion is kept for as long as the recorder lives, if it is the one referred to and every stop in flight is its own |
| `ScopeOwnership.ExclusionIffNothingUnderWay` | src/openbench/services/capture_service.py:345-478 | it holds for a recorder's whole life if and only if, at its start, no job owns a scope on which an earlier recording has anything under way, and no stop is in flight |
| `ScopeOwnership.EarlierStopLosesExclusion` | src/openbench/services/capture_service.py:446-476 | from any state in which a recording has started with an earlier stop in flight, a run loses exclusion while its recorder lives |
| `ScopeOwnership.OrderlyRunsAreExclusive` | src/openbench/services/capture_service.py:345-478 | it holds in every run whose recorders end by their own stop, which goes through, overtakes no start and, while in flight, is alone with no recording starting |
| `ScopeOwnership.OrdinaryRunIsOrderly` | src/openbench/services/capture_service.py:345-478 | a recording of one scope, its stop and a MAXIMUM start after it are such a run |
| `ScopeOwnership.StopDuringStartLeavesScopes` | src/openbench/services/capture_service.py:384-446 | a run in which a stop overtakes a start and exclusion is lost |
| `ScopeOwnership.DeadRecorderLeavesLoops` | src/openbench/services/capture_service.py:1121-1207 | a run in which the loops of a dead recorder go on under the next |
| `ScopeOwnership.OverwrittenLoopOutlivesStop` | src/openbench/services/capture_service.py:397-446 | a run in which the next recording overwrites them and its finished stop does not end them |
| `ScopeOwnership.OverlappingStopForgetsNext` | src/openbench/services/capture_service.py:423-476 | a run in which the first of two overlapping stops forgets the next recording, and a job takes the scope it captures |
| `ScopeOwnership.StopForgetsRecordingThatSlipsIn` | src/openbench/services/capture_service.py:452-476 | the same with one stop, when a recording starts between the end of its recorder and its last piece |
| `ScopeOwnership.PublishOffers` | src/openbench/services/capture_service.py:397-406 | a start offers its scopes for frames or captures them, and in the second case lets go of the loops before |
| `ScopeOwnership.FailedStartTakesBack` | src/openbench/services/capture_service.py:407-411 | a start that fails takes back what is offered only once it has picked its scopes |
| `ScopeOwnership.LastPieceForgets` | src/openbench/services/capture_service.py:463-476 | the last piece of a stop forgets recorder and file, and changes nothing without a file |
| `ScopeOwnership.FailedStopLeavesLoops` | src/openbench/services/capture_service.py:436-445 | what a stop that fails was waiting for goes on without it |
| `ScopeOwnership.FrameIsUnderWay` | src/openbench/services/capture_service.py:478-535 | a frame is under way on its scope from its start to its end |
| `ScopeOwnership.SettlesDown` | src/openbench/services/capture_service.py:345-478 | from any world everything recordings have under way can come to an end |
| `ScopeOwnership.MaximumCapture.StartCapture` | src/openbench/services/scope_maximum_capture_service.py:119-198 | a start owns and suspends once, gives both back when preparation fails, and keeps both when cancelled while suspending |
| `ScopeOwnership.MaximumCapture.RunCapture` | src/openbench/services/scope_maximum_capture_service.py:200-321 | the state a job ends in for each outcome; it gives its suspension back once, exactly when every stream closes, and gives up ownership unless the exception is unforeseen |
| `ScopeOwnership.MaximumCapture.Attempt` | src/openbench/services/scope_maximum_capture_service.py:119-321 | over a start and its job, the suspension returns and ownership ends exactly then |
| `MatrixValidation.ValidateConnections` | src/openbench/services/matrix_service.py:217-244 | the loop reports the problems of each connection in order |
| `MatrixValidation.CheckConnection` | src/openbench/services/matrix_service.py:392-410 | its body reports self loop, unknown ports, duplicate and source pair of one connection |
| `MatrixValidation.NormalizedIsRoute` | src/openbench/domain/matrix.py:18-23 | two connections normalise alike exactly when they join the same two ports |
| `MatrixValidation.NoProblemsIffValid` | src/openbench/services/matrix_service.py:217-244 | nothing is reported exactly for lists with no self loop, unknown port, double route or source pair |
| `MatrixValidation.ReportedIff` | src/openbench/services/matrix_service.py:217-244 | a problem is reported exactly when it is there, with its number and ports, and in the order of the connections |
| `MatrixService.Driver.Apply` | src/openbench/services/matrix_service.py:277-279 | a failed apply leaves any part of the routes closed; every request is logged with its outcome |
| `MatrixService.Service.Initialize` | src/openbench/services/matrix_service.py:81-129 | a start re-makes the relays from what is stored and changes neither the stored routes nor the latch |
| `MatrixService.StartIs` | src/openbench/services/matrix_service.py:81-118 | the rows after a start: what was stored is kept, and what was missing is an empty state, a clear latch, the built-in profile and new ports |
| `MatrixService.StartKeepsProfilesIff` | src/openbench/services/matrix_service.py:100-118 | it keeps every stored profile valid exactly when the built-in profile is present or fits the ports |
| `MatrixService.StartWithOtherPorts` | src/openbench/services/matrix_service.py:83-118 | a first start whose ports do not fit stores a profile that is not valid |
| `MatrixService.SimulatedPortsFit` | src/openbench/drivers/simulated/matrix.py:7-17 | the simulated matrix's ports fit it |
| `MatrixService.Service.CreateProfile` | src/openbench/services/matrix_service.py:148-176 | a new valid profile or no change; invalid lists are refused with all their problems |
| `MatrixService.Service.UpdateProfile` | src/openbench/services/matrix_service.py:178-205 | replaced under the next version or no change |
| `MatrixService.Service.DeleteProfile` | src/openbench/services/matrix_service.py:207-215 | the active profile is never deleted |
| `MatrixService.Service.ApplyProfile` | src/openbench/services/matrix_service.py:250-302 | success stores exactly the closed routes; each refusal says why and touches nothing; after a failure the database is kept, and the routes stored in it were asked for again from an open driver |
| `MatrixService.Service.SwitchTo` | src/openbench/services/matrix_service.py:274-295 | the part after the checks: what was asked of the driver, in order, and what is closed in the end |
| `MatrixService.Service.OpenAll` | src/openbench/services/matrix_service.py:304-320 | every route is open, stored as such or the database unchanged |
| `MatrixService.Service.EmergencyStop` | src/openbench/services/matrix_service.py:337-357 | every route is open and, unless the commit fails, the latch is set with nothing stored |
| `MatrixService.Service.ResetSafety` | src/openbench/services/matrix_service.py:368-379 | only the latch changes |
| `MatrixService.Service.Serve` | src/openbench/services/matrix_service.py:81-410 | over any run with failures, and restarts with any drivers whose ports leave the built-in profile valid: profiles valid, closed routes among the stored ones, every make after a break, and nothing closed from a stop to a reset |
| `AsciiBlock.Connection.RecvExact` | scripts/mho1_ascii_minimal_probe.py:104-115 | the next bytes exactly, or the error of how the stream ended |
| `AsciiBlock.ReadPointCountBlock` | scripts/mho1_ascii_minimal_probe.py:118-202 | however the stream is cut, the read gives what a byte-at-a-time reader gives |
| `AsciiBlock.ReadPayload` | scripts/mho1_ascii_minimal_probe.py:152-197 | the same for the loop over the numeric tokens |
| `AsciiBlock.ReadExactly` | scripts/mho1_ascii_minimal_probe.py:152-197 | success exactly on the shortest prefix with N closed tokens, or on an end with N - 1 closed and one open |
| `AsciiBlock.Letters` | scripts/mho1_ascii_minimal_probe.py:152-197 | the digits, number bytes and delimiters, as characters |
| `AsciiBlock.NumberReadsPrinted` | scripts/mho1_ascii_minimal_probe.py:118-150 | the count of a header reads back from its printed digits |
| `AsciiBlock.HeaderIs` | scripts/mho1_ascii_minimal_probe.py:118-150 | the header of a block that was read, its count, and its limit of a million points |
| `AsciiBlock.FieldsOfToken` | scripts/mho1_ascii_minimal_probe.py:225-234 | bytes without a delimiter are one field, and no bytes are none |
| `AsciiBlock.FieldsOfParts` | scripts/mho1_ascii_minimal_probe.py:225-234 | two texts with a delimiter between them split into what each splits into |
| `AsciiBlock.FieldCount` | scripts/mho1_ascii_minimal_probe.py:225-234 | splitting a clean text gives one field for each closed token and one for an open one |
| `AsciiBlock.CountCheckNeverFails` | scripts/mho1_ascii_minimal_probe.py:118-234 | a block that was read has exactly its declared number of fields |
| `GeneratorUpdate.Generator.WriteParameter` | src/openbench/drivers/feeltech_fy/generator.py:397-412 | one write, its read-back and its comparison; it is cached only when it matches |
| `GeneratorUpdate.Generator.ReadPulseWidth` | src/openbench/drivers/feeltech_fy/generator.py:577-584 | the optional read-back is asked for until it times out, and never after |
| `GeneratorUpdate.Generator.WritePulseWidth` | src/openbench/drivers/feeltech_fy/generator.py:490-508 | the pulse width is compared only when its read-back is asked for and answered, and never cached |
| `GeneratorUpdate.Generator.WriteSettings` | src/openbench/drivers/feeltech_fy/generator.py:484-508 | the settings go out in order, up to the first that fails |
| `GeneratorUpdate.Generator.ChangeSettings` | src/openbench/drivers/feeltech_fy/generator.py:484-513 | the settings, and then the wanted output unless the output has it |
| `GeneratorUpdate.Generator.UpdateChannel` | src/openbench/drivers/feeltech_fy/generator.py:414-515 | channel, cache and transport follow the course of the update; with a cache that knows when the output is on, every instant is off, all old or all new within the tolerances, a pulse width counting unless nothing reads it back; success means within tolerance, cached and the wanted output, and it fails exactly when the last write was refused or lost |
| `GeneratorUpdate.UpdateFacts` | src/openbench/drivers/feeltech_fy/generator.py:479-515 | the same of the course of any update, whatever becomes of its writes |
| `GeneratorUpdate.UpdateInNumbers` | src/openbench/drivers/feeltech_fy/generator.py:479-515 | an accepted update in numbers: how far each stored setting may be off, and when it is rejected or fails |
| `GeneratorUpdate.MatchesIff` | src/openbench/drivers/feeltech_fy/generator.py:377-395 | the read-back of an accepted setting is taken if and only if it is within its tolerance |
| `GeneratorUpdate.RoundedWidthIs` | src/openbench/drivers/feeltech_fy/generator.py:455-461 | a pulse width is sent as the nearest multiple of 10 ns |
| `GeneratorUpdate.ErrorIff` | src/openbench/drivers/feeltech_fy/generator.py:397-412 | writes go out until one is refused or lost, and the error says which |
| `GeneratorUpdate.SignalAllowedIs` | src/openbench/drivers/feeltech_fy/generator.py:316-375 | the limits of each waveform and frequency, row by row |
| `GeneratorUpdate.PulseAllowedIs` | src/openbench/drivers/feeltech_fy/generator.py:455-466 | a pulse width is accepted on channel 1 only, in range and shorter than a period |
| `GeneratorUpdate.PlanIs` | src/openbench/drivers/feeltech_fy/generator.py:479-513 | the writes of a full update of a live channel, in order |
| `GeneratorUpdate.PlanLeavesOut` | src/openbench/drivers/feeltech_fy/generator.py:484-508 | the settings written are the ones asked for |
| `GeneratorUpdate.SettingsCourse` | src/openbench/drivers/feeltech_fy/generator.py:484-508 | while the settings go out the output stays as it is, and at the end each reads back and the others are untouched |
| `GeneratorUpdate.VerifiedIff` | src/openbench/drivers/feeltech_fy/generator.py:490-508 | a pulse width goes unverified exactly when it was sent and its read-back timed out or is not asked for any more, and then no later one is asked for |
| `GeneratorUpdate.LostForGood` | src/openbench/drivers/feeltech_fy/generator.py:577-584 | once the read-back is lost, after any further updates an update that sets a pulse width succeeds unverified or fails |
| `GeneratorMixtures.MixtureIff` | src/openbench/drivers/feeltech_fy/generator.py:479-515 | a live output neither all old nor all new can show if and only if the signal changes and the cache wrongly says OFF, or a pulse width is set and the output ends ON |
| `GeneratorMixtures.PulseWidthLeftBehind` | src/openbench/drivers/feeltech_fy/generator.py:490-515 | a live update of frequency and pulse width succeeds with the old pulse width live, its read-back timed out or never asked for |
| `GeneratorMixtures.BrokenReadBackLeavesCacheOff` | src/openbench/drivers/feeltech_fy/generator.py:397-412 | an ON that takes and whose read-back breaks leaves a cache that says OFF |
| `GeneratorMixtures.StaleCacheShowsMixture` | src/openbench/drivers/feeltech_fy/generator.py:479-508 | from there an update of two settings shows one new and one old, live |
| `GeneratorMixtures.BothAccepted` | src/openbench/drivers/feeltech_fy/generator.py:349-376 | both of these updates pass validation |
| `GeneratorMixtures.HalfAppliedIff` | src/openbench/drivers/feeltech_fy/generator.py:479-513 | on a device that stores exactly what it is sent, a live mixture shows if and only if the cache wrongly says OFF and two settings change |
| `GeneratorMixtures.PlanPrefix` | src/openbench/drivers/feeltech_fy/generator.py:479-513 | what each prefix of the writes has changed on such a device |
| `Decimals.ReadPrinted` | src/openbench/drivers/feeltech_fy/protocol.py:162-165 | a printed number reads back as its units, and its sign is that of the value |
| `Decimals.ReadShortened` | src/openbench/drivers/feeltech_fy/generator.py:166-167 | dropping trailing zeros and a bare point keeps sign and value |
| `Decimals.ShortenedIsShort` | src/openbench/drivers/feeltech_fy/generator.py:166-167 | a shortened number with a point does not end in a zero |
| `Common.RoundHalfEvenIs` | src/openbench/drivers/feeltech_fy/generator.py:166-167 | rounding is to the nearest integer, the even one of two |
| `Common.RoundHalfAwayIs` | src/openbench/drivers/feeltech_fy/protocol.py:162-165 | rounding is to the nearest integer, away from zero for a tie |
| `GeneratorCommands.FixedReadsBack` | src/openbench/drivers/feeltech_fy/protocol.py:162-165 | the digits are the value rounded half away from zero |
| `GeneratorCommands.CommandNumberReadsBack` | src/openbench/drivers/feeltech_fy/generator.py:166-167 | the digits are the value rounded half to even |
| `GeneratorCommands.FrequencyShape` | src/openbench/drivers/feeltech_fy/protocol.py:178-182 | a frequency in range prints in eight digits, a point and six, which read back as its rounding |
| `GeneratorCommands.SettingReadsBack` | src/openbench/drivers/feeltech_fy/protocol.py:168-193 | reading any numeric setting's digits gives the rounded value |
| `GeneratorCommands.WaveformReadsBack` | src/openbench/drivers/feeltech_fy/protocol.py:173-177 | a waveform is accepted exactly for codes 0 to 94 and sent in two digits |
| `GeneratorCommands.SameCommandIff` | src/openbench/drivers/feeltech_fy/protocol.py:162-193 | two values share a command if and only if they round alike and, at zero, have the same sign |
| `GeneratorCommands.ZeroOffsetHasTwoCommands` | src/openbench/drivers/feeltech_fy/protocol.py:162-187 | -0.0001 and 0.0001 round alike and print differently |
| `GeneratorCommands.WrittenWhereRead` | src/openbench/drivers/feeltech_fy/protocol.py:77-92 | a setting is written to the channel and register its query reads |
| `GeneratorCommands.CommandsDoNotCollide` | src/openbench/drivers/feeltech_fy/protocol.py:168-193 | equal commands come from the same channel and setting |
| `GeneratorCommands.SettingAllowed` | src/openbench/drivers/feeltech_fy/protocol.py:126-193 | every encoded setting is in the allowlist |
| `GeneratorCommands.EveryWriteAllowed` | src/openbench/drivers/feeltech_fy/generator.py:557-905 | so is every write of every accepted operation |
| `GeneratorCommands.SecondaryReadsBack` | src/openbench/drivers/feeltech_fy/generator.py:763-768 | the second FSK frequency is 14 digits counting microhertz |
| `GeneratorInstructions.OperationReadsBack` | src/openbench/drivers/feeltech_fy/generator.py:557-905 | every operation is accepted exactly within its limits, and the commands it sends mean, in order, what was asked for, each number rounded to its places |
| `GeneratorInstructions.AllowedIsPossible` | src/openbench/drivers/feeltech_fy/protocol.py:126-160 | the allowlist lets through only commands that mean something, with a value their register can hold |
| `Decimals.UnsignedIff` | src/openbench/drivers/feeltech_fy/protocol.py:126-139 | what counts as an unsigned decimal: digits, with at most one point strictly inside |
| `GeneratorInstructions.NearestUnits` | src/openbench/drivers/feeltech_fy/protocol.py:162-165 | a printed number is the nearest of its places, with a tie away from zero or to even |
| `SinkExperiment.EveryPointAllowed` | scripts/run_itech_scope_sink_steps.py:434-462 | limits that pass the check cover every commanded point and the voltage of the source |
| `SinkExperiment.LimitsIff` | scripts/run_itech_scope_sink_steps.py:434-462 | what the check reports is exceeded by some point or limit, and it reports nothing only if nothing is |
| `SinkExperiment.Bench.Send` | scripts/run_itech_scope_sink_steps.py:620-632 | an unanswered request may have taken effect, may do so later or never; ON is sent only under the flag and restores only without it, and the reservation and the recording match what the script knows of them |
| `SinkExperiment.ReservationBooksKept` | scripts/run_itech_scope_sink_steps.py:568-575 | whatever a request and those under way do: an answered reservation is held no longer than its flag is up, and an unanswered one is held once granted |
| `SinkExperiment.RecordingBooksKept` | scripts/run_itech_scope_sink_steps.py:635-645 | the same for the recording |
| `SinkExperiment.Bench.ForceOutputOff` | scripts/run_itech_scope_sink_steps.py:262-331 | returns normally only after a fresh OFF read-back following its last OFF, within four attempts; an attempt that was not answered is followed by a discovery |
| `SinkExperiment.Bench.RunPoint` | scripts/run_itech_scope_sink_steps.py:657-757 | one point is commanded once; the flag drops only after a verified OFF |
| `SinkExperiment.Bench.Body` | scripts/run_itech_scope_sink_steps.py:568-811 | the points commanded are a prefix of the list, all of it on success, with the output verified OFF; without mishap the requests are exactly the listed ones |
| `SinkExperiment.Bench.Cleanup` | scripts/run_itech_scope_sink_steps.py:814-876 | asks for every part of the clean-up whatever fails of it, and restores only with the output off; when it reports no error every flag is down, and the reservation or the recording is held exactly if it was granted and never answered |
| `SinkExperiment.Bench.RunExperiment` | scripts/run_itech_scope_sink_steps.py:486-885 | output ON implies the flag at every request; exit code 0 means OFF, all points commanded, and reservation and recording given back with nothing under way to take them again; a run without mishap makes exactly the listed requests and ends so |
| `EventBus.Queue.Offer` | src/openbench/core/events.py:33-42 | a publication into a full queue drops the oldest entry and adds the new one |
| `EventBus.Queue.Get` | src/openbench/core/events.py:18-27 | a subscriber takes the oldest entry |
| `EventBus.MeasurementEventBus.Publish` | src/openbench/core/events.py:30-42 | every subscriber's queue gets the measurement, in whatever order they are visited |
| `EventBus.MeasurementEventBus.Subscribe` | src/openbench/core/events.py:18-23 | a new subscriber starts with an empty queue |
| `EventBus.MeasurementEventBus.Unsubscribe` | src/openbench/core/events.py:24-28 | a subscriber that leaves is the only one to |
| `EventBus.EveryRunIsGood` | src/openbench/core/events.py:18-42 | over all runs a queue is a bounded suffix of what was published, what was received is an in-order part, and a lost entry has a whole queue of newer ones after it |
| `EventBus.RunPublishes` | src/openbench/core/events.py:30-42 | the history of a run is that of its publications, and the newest is always queued |
| `EventBus.GetReceives` | src/openbench/core/events.py:18-27 | a get receives the oldest entry queued |
| `EventBus.NothingElseIsLost` | src/openbench/core/events.py:30-42 | everything published is received, queued or one of the overflows |
| `EventBus.PromptSubscriberLosesNothing` | src/openbench/core/events.py:30-42 | a subscriber gets everything, in order, if and only if no publication met a full queue |

## Left out

- Arithmetic: volts, amperes, hertz and seconds are exact reals, so rounding of IEEE floats,
  non-finite values, negative zero and the 32-bit floats of the DPS-150 are not captured.
- Threads: a write already handed to `asyncio.to_thread` is taken as one atomic step, and a task
  is taken to have reached its first step before it is cancelled.
- Supplies and generators hold exactly the setpoints written to them; only a generator setting
  may be stored differently or not at all.
- Time: no deadline, dwell, freshness limit or retry delay is measured; the MHO1 deadline is one
  of the ways a stream can end.
- `parse_all_state`, presets' contents, protections, display and metering of the DPS-150.
- EmergencyStop.StopIsFinalIff: a preset in waiting carries the setpoints its slot will hold when
  it is read; a save ahead of it in the lock may set them, so before the read the condition speaks
  of a value no caller knows yet.
- EmergencyStop.TurnOnRun: the witness runs use the move `Drift` for limits that widen, and fail
  the jobs ahead in the lock; they show that the output can come on, not that it must.
- PollingSuspension.NoReadWhileSuspended: the set of targets is fixed while a device is
  suspended, and a resume is matched by a suspension that returned; adding and removing targets
  and unmatched resumes are not modelled.
- PollingSuspension.PollingCanResumeIff: every wait for a lock may be cancelled, also one asyncio
  would grant without a wait.
- ScopeSuspension.AwaitBetweenTestAndJoinBreaksIt: the moves it uses are a variant of the loop
  that the repository does not have.
- ScopeOwnership.ExclusionIffNothingUnderWay: the set of scopes is fixed; what a loop, a frame or
  a stop does with its scope is not modelled, only on which scope it is under way; a snapshot
  outside any recording is not.
- ScopeOwnership.MaximumCapture.RunCapture: chunks, files and metadata are one outcome.
- MatrixValidation.ValidateConnections: the repository has this check twice, in
  `validate_connections` and `_validate_connections_in_session`, with the same statements; it is
  modelled once.
- MatrixService.Service.CreateProfile: white space around names is taken as stripped, the new
  identifier is an argument, and an integrity error of the database other than a taken name is
  a failed commit.
- MatrixService.Service.Serve: `open_all` of the driver succeeds.
- AsciiBlock.CountCheckNeverFails: turning a field into a number is not modelled.
- GeneratorUpdate.Generator.UpdateChannel: refreshing an old cache before the update, and the
  names of waveforms, are not modelled.
- `set_outputs` and the one retry of `set_channel_output`, which add no state to what
  `WriteParameter` keeps.
- GeneratorCommands.EveryWriteAllowed: kinds, targets, modes and couplings are enumerations, so
  folding the case of their names is not modelled, and `\d` is an ASCII digit.
- SinkExperiment.Bench.Send: requests take effect in the order they are made, as in a lock that
  is a queue.
- SinkExperiment.Bench.Cleanup: a recording also ends at its own maximum duration; here it counts
  as running until a request stops it.
- SinkExperiment.Bench.RunPoint: the script reads the measurements and takes the frame at the same
  time; here one follows the other.
- SinkExperiment.Bench.RunExperiment: finding the bench, the operator's confirmations, the scope
  frames' contents and the timing report are not modelled.
- EventBus.MeasurementEventBus.Publish: the lock around the subscriber set is never held across a
  wait, so a publication is one step.
- The capture service's CSV writing, the logic analyzer, HTTP routes, discovery, the command line
  and the web pages.

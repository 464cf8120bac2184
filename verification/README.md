# Proofs about an Android device tree

This project models five parts of the repository in Dafny and proves what they are meant to guarantee, for all inputs, all runs and all interleavings. Where the code falls short of its intention, a lemma gives a concrete case and another says exactly when the code does meet it.

`dafny verify dfyconfig.toml` checks everything.

**Audio** (`libaudio/AudioHardware.cpp`). The HAL's mutexes, retry loops, standby flags, counted driver handles and wake lock are one step system. `AudioProtocol` has any number of threads, each with a program counter that fixes which locks it holds; a step takes one lock, or runs to the next lock operation. `AudioResources` has the `_l` bodies as functions, and `AudioObjects` the same code as classes that update fields in place, proved equal to those functions. `AudioLocks`, `AudioStandby`, `AudioHandles` and `AudioWakeLock` each prove one inductive invariant; `AudioTheorems` states what follows for every state of every run, `AudioRuns` what happens between two points of a call while other threads run, `AudioModes` what a call of setMode amounts to, `AudioCalls` what the other calls have done when they return, `AudioPaths` which way a call goes until then, `AudioCycles` what write() and read() do to the stream of the other direction, and `AudioScenarios` constructs reachable states that show what does not hold. `AudioCapture` is the capture pipeline and `AudioRates` the nearest-rate search.

| step function | lines of `libaudio/AudioHardware.cpp` |
|---|---|
| `RunSetMode`, `RunApply` | 438-480, 484-540 |
| `RunWrite` | 1435-1524 |
| `RunOutControl` | 1526-1540, 1646-1684 |
| `RunRead` | 2096-2186 |
| `RunInControl` | 2188-2203, 2357-2404 |
| `RunHw`, `RunDrop` (open and close streams, and calls that only need the hardware lock) | 311-436, 566-591 |
| `ActiveInput` | 1254-1268 |

A handle is the serial number of the open that produced it, so a handle kept over a close and a re-open differs from the new one. `wakes` counts a stream's own wake-lock acquisitions minus releases.

**Sensors** (`libsensors`). `SensorRing` is the double-length ring buffer over an array, `SensorDriver` the decoder of all five drivers on top of it, `SensorPollSpec` and `SensorPoll` the multiplexer over them as a function and as a class proved equal to it, `SensorTurns` when a call of it ends, `SensorPending` what becomes of samples pending from enable(), and `SensorActivation` the sharing of two sensors with a third. What read(2), poll(2) and sysfs do is a parameter. Each has a pure reference (`FifoRun`, `ReadRun`, `PollSpec`, `ActivateRun`) that the imperative code is proved to compute, and the properties are lemmas about the reference.

**RIL client** (`ril/libsecril-client/secril-client.cpp`). `RilTokens` proves facts of 32-bit words and `RilWords` restates them for tokens; `RilSlots` is what request history and handler tables have in common; `RilHandlers` and `RilClient` are the classes; `RilTrace` says what a caller may rely on over whole runs; `RilClient.RunClient` proves that whatever a client is asked to do is such a run.

**EGL** (`pvr/libEGL_POWERVR/egl.c`). `EglConfig` is the attribute-list rewriting and what it means for the query by section 3.4.1 of the EGL 1.4 specification.

**Camera** (`libcamera`). `CameraPixels` has the two pixel loops and `CameraArea` the focus area's parser, printer and coordinate mapping.

## What does not hold

- The wake lock does not mirror the standby flag: write() acquires it at line 1458 and may then give up the hardware lock while still in standby (`AudioScenarios.WakeLockHeldInStandby`). `AudioTheorems.WakeLockExact` has the exact relation.
- Entering a call can leave an output active: setMode finds the output in standby, then waits for an input, and write() wakes the output meanwhile (`AudioScenarios.CallEnteredWithActiveOutput`). `AudioRuns.CallForcesStandby` has the exact condition.
- The output that setMode re-validated can be unregistered when it is used (`AudioScenarios.UsedOutputUnregistered`): closing it takes the hardware lock alone, which the loop over the inputs drops again. It is still registered exactly if nobody closed it since (`AudioRuns.UsedOutputRegistered`).
- setMode ignores the results of its own opens (lines 507-508). If one fails, the counts are wrong afterwards (`AudioScenarios.CallEnteredWithoutPcm`); they are right exactly if both drivers can be opened or are still held by a stream that setMode did not put into standby (`AudioTheorems.EnterCallConserves`). Leaving the call then takes a reference from another stream: the counts are right again exactly if the opens had succeeded or no other stream holds the driver (`AudioModes.CallLeft`).
- setMode, write() and read() can drop the last reference to a stream under the hardware lock (`AudioScenarios.LastReferenceUnderHardwareLock`, `LastInputUnderHardwareLock`, `LastOutputInRead`), and the stream's destructor takes that lock (lines 1399-1402, 1526-1534, 1843-1845, 2188-2203). It happens exactly if the stream was closed while the thread waited for its lock and no other thread has a reference to it (`AudioRuns.DestroysIfClosedInWait`, `DestroysInputIfClosedInWait`).
- The nearest-rate search is wrong for rates above 2^31 + 9512, where the unsigned difference wraps (`AudioRates.NearestExactly`).
- A sensor sample pending from enable() can make pollEvents forget events in that driver's ring (`SensorPending.SampleForgotten`). `SensorPending.PendingKeptIff` says exactly when a call does not.
- activate() records a request before it knows whether the driver can be switched (`SensorActivation.SharingBroken`). The sharing rule is kept exactly if every driver that must be switched can be (`SharingKeptIff`, `Succeeds`).
- The magnetometer's enable flag is never initialised (`libsensors/CompassSensor.cpp` line 33). The sensors follow what was asked for, over all sequences of requests, exactly if the flag does not happen to be 1 (`SensorActivation.SharedIffFlagNotOne`).
- `IsValidToken` accepts unions of outstanding tokens; such a response breaks the token pool (`RilClient.UnionBreaks`, and the equivalence in `RilClient.RilClient.ProcessSolicited`).
- eglChooseConfig edits only the last pair of a kind, so rewriting settles exactly if that pair is not repeated (`EglConfig.SettlesIffOnce`).
- scaleDownYuv422 exchanges the chroma of odd rows for sources with odd width and odd row step (`CameraPixels.PairsKept`).

## Model

| member | source | states |
|---|---|---|
| AudioTheorems.RunInv | libaudio/AudioHardware.cpp:438-540 | all four invariants (locks, standby, resources, wake lock) hold in every state of every run, for any number of threads and streams |
| AudioTheorems.NoDeadlock | libaudio/AudioHardware.cpp:444-480 | no reachable state has a cycle of threads waiting for one another's locks; a chain of waiting threads has at most four members |
| AudioTheorems.Progress | libaudio/AudioHardware.cpp:1450-1489 | in every reachable state with some call in progress, some thread inside a call can take a step |
| AudioTheorems.ReferencesConserved | libaudio/AudioHardware.cpp:1059-1147 | whenever the hardware lock is free, each open count is the number of streams holding the driver plus one in call mode, and the handle is non-null exactly while the count is positive |
| AudioTheorems.NoStaleHandle | libaudio/AudioHardware.cpp:1562-1600 | in every reachable state, every handle a stream holds on a shared driver is the one now open |
| AudioTheorems.StandbyIsClosed | libaudio/AudioHardware.cpp:1545-1573 | whenever the hardware lock is free, a stream is in standby exactly when its PCM is null, and then its mixer is null too |
| AudioTheorems.WriteUsesOpenPcm | libaudio/AudioHardware.cpp:1490-1513 | pcm_write is only called on the PCM that is open, although the hardware lock is not held |
| AudioTheorems.WakeLockExact | libaudio/AudioHardware.cpp:1454-1495 | in every run with one output awake at a time, however many were opened and closed, the wake lock is held exactly while an output is active or a write() is waking one; it mirrors the standby flags exactly when no write() is |
| AudioTheorems.SetModeOutputRevalidated | libaudio/AudioHardware.cpp:447-465 | leaving its first loop with an output, setMode holds that stream's lock and the hardware lock, and the stream is registered and active |
| AudioTheorems.InputRevalidated | libaudio/AudioHardware.cpp:467-481 | setMode and write() use an input only with both locks held and only if it is the registered active one; if they found none, every registered input is in standby |
| AudioTheorems.EnterCallConserves | libaudio/AudioHardware.cpp:506-511 | after entering a call the counts are right if and only if each driver could be opened or is still held by a stream that setMode did not put into standby |
| AudioTheorems.EnterCallForcesStandby | libaudio/AudioHardware.cpp:496-504 | entering a call leaves the registered output in standby if and only if setMode locked that output or it was in standby already |
| AudioRuns.CallEntered | libaudio/AudioHardware.cpp:496-512 | from the decision to enter a call on, whatever other threads do in between, the shared state is what setMode found, changed by its own steps alone |
| AudioRuns.CallForcesStandby | libaudio/AudioHardware.cpp:496-512 | in every run, the registered output is in standby when setMode has entered the call if and only if setMode had locked it or it was in standby when setMode decided |
| AudioRuns.CallConserves | libaudio/AudioHardware.cpp:506-511 | in every run, the counts are right when setMode has entered the call if and only if both drivers could be opened or were held by other streams |
| AudioRuns.OutputStays | libaudio/AudioHardware.cpp:356-378 | along every run, a registered output stays registered if and only if nobody closes it |
| AudioRuns.InputStays | libaudio/AudioHardware.cpp:419-435 | likewise an input |
| AudioRuns.UsedOutputRegistered | libaudio/AudioHardware.cpp:456-504 | the output that setMode validated is still registered when setMode uses it if and only if nobody closed it in between |
| AudioRuns.DestroysOutIff | libaudio/AudioHardware.cpp:456-460 | in every reachable state, a step drops the last reference to an output under the hardware lock if and only if its thread is at the check of setMode's or read()'s loop, the output is unregistered and no other thread has a reference |
| AudioRuns.DestroysInIff | libaudio/AudioHardware.cpp:1460-1477 | likewise an input, at the check of setMode's or write()'s loop |
| AudioRuns.DestroysIfClosedInWait | libaudio/AudioHardware.cpp:2116-2132 | a thread that waits for an output destroys it at its check if and only if somebody closed it during the wait and no other thread has a reference |
| AudioRuns.DestroysInputIfClosedInWait | libaudio/AudioHardware.cpp:467-480 | likewise an input |
| AudioModes.BodyApplied | libaudio/AudioHardware.cpp:482-540 | in every run, from setMode's decision to its end, the shared state is what it found, changed by its own steps alone |
| AudioModes.ModeApplied | libaudio/AudioHardware.cpp:482-540 | in every run, when setMode is done: nothing has changed if the base class refused the mode; otherwise the mode is set, call mode is on if and only if a call was asked for or it was on and the mode is not the normal one, the streams setMode had locked are in standby and closed where that switched call mode and no other stream has changed, and leaving a call gave back both references |
| AudioModes.LeaveCallConserves | libaudio/AudioHardware.cpp:527-537 | after leaving a call each count is the number of streams that hold the driver if and only if setMode had a reference to give back or no other stream holds it |
| AudioModes.CallLeft | libaudio/AudioHardware.cpp:513-540 | the same in every run |
| AudioModes.CallOpens | libaudio/AudioHardware.cpp:507-508 | each of setMode's own opens holds a reference afterwards exactly if the driver can be opened or is open already |
| AudioModes.CallModeFollows | libaudio/AudioHardware.cpp:486-540 | in every reachable state with the hardware lock free, call mode is on if the mode is a call and off if it is the normal one |
| AudioPaths.SetModeReturns | libaudio/AudioHardware.cpp:438-560 | when setMode returns, in every run and from its start, it has taken its decision for the mode asked for, and what it leaves is what that decision asks for, or nothing if the base class refused |
| AudioPaths.SourceSelected | libaudio/AudioHardware.cpp:2370-2378 | setParameters with an input source goes on only after it selected it under the hardware lock |
| AudioPaths.SelectingKeeps | libaudio/AudioHardware.cpp:2370-2378 | and that leaves the mode, all streams, counts and handles as they were |
| AudioPaths.LoopsLeave | libaudio/AudioHardware.cpp:447-480 | in every run, each retry loop is left exactly at the right moment: without a stream if there is none to wait for, with one if it is still the one and its counter unchanged |
| AudioPaths.LegEnds | libaudio/AudioHardware.cpp:1646-1660 | a call of setMode, setParameters, or one that only needs the hardware lock returns only after its decision, its tests or its body |
| AudioCalls.OutCallReturns | libaudio/AudioHardware.cpp:1435-1540 | when write() or standby() of an output returns, in every run, either pcm_write was just called and the stream is active, or the stream was put into standby during the call and has closed everything |
| AudioCalls.InCallReturns | libaudio/AudioHardware.cpp:2096-2203 | likewise read() and standby() of an input |
| AudioCalls.PcmWriteDecides | libaudio/AudioHardware.cpp:1505-1524 | write() returns at once with the stream active if pcm_write succeeds, and only after a standby if it fails |
| AudioCalls.PcmReadDecides | libaudio/AudioHardware.cpp:2163-2185 | likewise read() and the capture |
| AudioCalls.StandbyReturns | libaudio/AudioHardware.cpp:1526-1540 | when standby() returns, in every run, the stream has been put into standby and has closed everything |
| AudioCalls.InStandbyReturns | libaudio/AudioHardware.cpp:2188-2203 | likewise of an input |
| AudioCalls.LastReferenceQuiets | libaudio/AudioHardware.cpp:356-436 | closing a stream returns only after its standby if the reference was the last, and changes nothing more otherwise |
| AudioCalls.MicMuteReturns | libaudio/AudioHardware.cpp:566-591 | a change of the mute state outside a call puts the active input into standby; otherwise no stream changes |
| AudioCalls.FirstIsFirst | libaudio/AudioHardware.cpp:1254-1268 | the active input is the first of the registered ones that is not in standby |
| AudioCalls.RouteChanged | libaudio/AudioHardware.cpp:1659-1668 | a change of the route puts that output, and no other stream, into standby, but nothing in a call |
| AudioCalls.InRouteChanged | libaudio/AudioHardware.cpp:2379-2392 | likewise an input |
| AudioCalls.RouteLookedAt | libaudio/AudioHardware.cpp:1655-1671 | setParameters with a route returns only after it looked at it under the hardware lock; without one it changes nothing |
| AudioCycles.InputUninterrupted | libaudio/AudioHardware.cpp:1460-1477 | setMode and write() use an input that they waited for only if it was never in standby during the wait, in every run |
| AudioCycles.OutputCycled | libaudio/AudioHardware.cpp:2133-2158 | read() that wakes an input closes and opens again an active registered output before it opens the input, with a new PCM if nobody else holds it, or puts it into standby if that fails; an output in standby is left alone |
| AudioCycles.InputCycled | libaudio/AudioHardware.cpp:1469-1488 | write() that wakes an output closes the active input, and when the output has been opened, opens it again with a new PCM or puts it into standby; no other stream changes |
| AudioCycles.StreamsOpen | libaudio/AudioHardware.cpp:1575-1600 | wherever write() and read() open a stream, PCM and mixer are open afterwards exactly if they can be opened or, where shared, are open already |
| AudioLocks.StepKeepsLocks | libaudio/AudioHardware.cpp:438-480 | every step keeps the lock table and the threads' program counters in agreement |
| AudioLocks.MutualExclusion | libaudio/AudioHardware.cpp:1747-1755 | no two threads run code under the same lock |
| AudioLocks.OrderRespected | libaudio/AudioHardware.cpp:444-445 | a thread asks only for a lock later in the order out, in, hw than every lock it holds |
| AudioLocks.NoWaitCycle | libaudio/AudioHardware.cpp:444-480 | threads along a waiting chain wait for ever later locks, so the chain is no cycle |
| AudioLocks.SomeoneCanStep | libaudio/AudioHardware.cpp:2109-2158 | following the waiting chain from any thread inside a call finds one that can step |
| AudioStandby.StepKeepsStandby | libaudio/AudioHardware.cpp:448-480 | every step keeps what each program counter claims about its streams: registered, active since the counter was read, locked |
| AudioStandby.OthersOk | libaudio/AudioHardware.cpp:1739-1745 | a step of one thread preserves what another has established, because each change from active to standby increments the standby counter |
| AudioHandles.StepKeepsResources | libaudio/AudioHardware.cpp:1562-1600 | every step keeps counts, handles, standby flags and call mode in order, with exceptions only for the thread under the hardware lock |
| AudioWakeLock.StepKeepsWake | libaudio/AudioHardware.cpp:1454-1495 | every step keeps each stream's acquisitions of the wake lock balanced with its standby flag, for any number of streams |
| AudioWakeLock.StepFollows | libaudio/AudioHardware.cpp:1545-1557 | a step keeps the kernel's lock held exactly while some stream's acquisition stands, if at most one does |
| AudioScenarios.WakeLockHeldInStandby | libaudio/AudioHardware.cpp:1454-1476 | a reachable state: hardware lock free, only output in standby, wake lock held |
| AudioScenarios.CallEnteredWithActiveOutput | libaudio/AudioHardware.cpp:461-512 | a reachable state: setMode has entered call mode, and the registered output is active |
| AudioScenarios.UsedOutputUnregistered | libaudio/AudioHardware.cpp:356-378 | a reachable state: setMode is about to use an output that is no longer registered |
| AudioScenarios.LastReferenceUnderHardwareLock | libaudio/AudioHardware.cpp:456-460 | a reachable state: setMode holds the hardware lock and the only reference to an output that it is about to drop |
| AudioScenarios.LastInputUnderHardwareLock | libaudio/AudioHardware.cpp:1461-1477 | a reachable state: write() holds the hardware lock and the only reference to an input that it is about to drop |
| AudioScenarios.LastOutputInRead | libaudio/AudioHardware.cpp:2117-2132 | a reachable state: read() holds the hardware lock and the only reference to an output that it is about to drop |
| AudioScenarios.CallEnteredWithoutPcm | libaudio/AudioHardware.cpp:506-511 | a reachable state: in call mode, with the PCM neither open nor counted |
| RefCounts.GrabKeeps | libaudio/AudioHardware.cpp:1059-1094 | an open by a stream keeps the count, the handle and all holders in order, and succeeds exactly if the driver is open or can be opened |
| RefCounts.DropKeeps | libaudio/AudioHardware.cpp:1096-1110 | a close by a holder keeps them in order |
| RefCounts.GrabElsewhere | libaudio/AudioHardware.cpp:507-508 | the same for an open whose reference no stream holds |
| RefCounts.DropElsewhere | libaudio/AudioHardware.cpp:527-528 | a close by someone without a reference keeps them in order if and only if nothing was open |
| AudioResources.OpenOutKeepsRefs | libaudio/AudioHardware.cpp:1575-1600 | opening an output stream keeps both shared drivers' counts and handles in order, whichever opens fail; PCM and mixer are open exactly if they can be opened or were open already |
| AudioResources.StandbyOutKeepsRefs | libaudio/AudioHardware.cpp:1545-1573 | so does forcing it into standby |
| AudioResources.OpenInKeepsRefs | libaudio/AudioHardware.cpp:2258-2314 | so does opening an input stream, whose own PCM and the shared mixer are open exactly if they can be opened or, the mixer, was open already |
| AudioResources.CloseInKeepsRefs | libaudio/AudioHardware.cpp:2235-2256 | so does closing it |
| AudioObjects.AudioHardware.OpenPcmOut | libaudio/AudioHardware.cpp:1059-1094 | in-place form; the whole new state is that of the counted open |
| AudioObjects.AudioHardware.ClosePcmOut | libaudio/AudioHardware.cpp:1096-1110 | in-place form of the counted close |
| AudioObjects.AudioHardware.OpenMixer | libaudio/AudioHardware.cpp:1112-1131 | in-place form for the mixer |
| AudioObjects.AudioHardware.CloseMixer | libaudio/AudioHardware.cpp:1133-1147 | in-place form for the mixer |
| AudioObjects.AudioStreamOut.Open | libaudio/AudioHardware.cpp:1575-1600 | stream and hardware end in the states the step system uses; success exactly if the PCM is open |
| AudioObjects.AudioStreamOut.Close | libaudio/AudioHardware.cpp:1562-1573 | stream and hardware end in the states the step system uses |
| AudioObjects.AudioStreamOut.DoStandby | libaudio/AudioHardware.cpp:1545-1560 | likewise; the stream is in standby, closed, with its standby counter incremented |
| AudioObjects.AudioStreamIn.Open | libaudio/AudioHardware.cpp:2258-2314 | likewise for input streams, whose PCM is not shared |
| AudioObjects.AudioStreamIn.Close | libaudio/AudioHardware.cpp:2235-2256 | likewise |
| AudioObjects.AudioStreamIn.DoStandby | libaudio/AudioHardware.cpp:2206-2233 | likewise |
| AudioCapture.CaptureStream.GetNextBuffer | libaudio/AudioHardware.cpp:2491-2516 | offers the next frames of the driver's stream, as many as asked for and present, reading one period only if none is left; none on a driver error or a closed PCM, with that error |
| AudioCapture.CaptureStream.ReleaseBuffer | libaudio/AudioHardware.cpp:2518-2521 | releasing advances the position in the driver's stream by exactly that many frames |
| AudioCapture.CaptureStream.ReadFrames | libaudio/AudioHardware.cpp:1856-1887 | copies exactly the next requested frames of the driver's stream, changes nothing else in the destination, terminates, and fails only with the error of the driver's last read, or for a closed PCM |
| AudioCapture.ReadAll | libaudio/AudioHardware.cpp:1856-1887 | any sequence of requests in one session yields consecutive slices of the driver's stream without gap or overlap |
| AudioCapture.ProcessedStream.Reload | libaudio/AudioHardware.cpp:1895-1912 | tops the process buffer up with the next frames, keeping what was left in front, also across a reallocation |
| AudioCapture.ProcessedStream.Shift | libaudio/AudioHardware.cpp:1935-1943 | drops exactly what was consumed, keeping the rest in order |
| AudioCapture.ProcessedStream.ProcessFrames | libaudio/AudioHardware.cpp:1891-1952 | frames left over and read are the frames consumed followed by those left now; the destination receives the preprocessor's output in order; a normal return delivers the whole request; the fill count never exceeds the buffer |
| AudioRates.GetInputSampleRate | libaudio/AudioHardware.cpp:1238-1251 | for any ascending table and any rate below 2^31 the early-exit loop returns the nearest entry (ties to the larger); it fixes exactly the table's own rates |
| AudioRates.NearestExactly | libaudio/AudioHardware.cpp:1238-1251 | for the actual table the result is the nearest rate if and only if the rate is at most 2^31 + 9512 |
| AudioRates.GetInputBufferSize | libaudio/AudioHardware.cpp:684-701 | the size is positive exactly for supported formats, channel counts and rates, and then is the period of 1024 frames in bytes over the largest power of two that keeps the multiplied rate at or below 44100; the unknown-rate branch of getBufferSize is not reached |
| AudioRates.GetBufferSize | libaudio/AudioHardware.cpp:2523-2538 | finds exactly the table's rates |
| SensorRing.InputEventCircularReader.Fill | libsensors/InputEventReader.cpp:49-72 | appends exactly the events read to the queue; a failed or torn read, or a full ring, changes nothing; result codes |
| SensorRing.InputEventCircularReader.Advance | libsensors/InputEventReader.cpp:60-68 | moving the head and copying the wrapped events back keeps the unread ones and appends the new ones |
| SensorRing.InputEventCircularReader.ReadAtHead | libsensors/InputEventReader.cpp:53 | a read of at most the free space stays inside the double buffer and overwrites no unread event |
| SensorRing.InputEventCircularReader.ReadEvent | libsensors/InputEventReader.cpp:74-79 | gives the oldest event exactly if there is one |
| SensorRing.InputEventCircularReader.Next | libsensors/InputEventReader.cpp:81-88 | drops exactly the oldest event |
| SensorRing.RunRing | libsensors/InputEventReader.cpp:35-88 | over any run of whole, torn and failed reads and removals, for every capacity, the ring delivers and keeps exactly what a bounded FIFO queue does |
| SensorRing.FifoConserves | libsensors/InputEventReader.cpp:35-88 | what comes out of the queue followed by what is left is what was there followed by what was read while there was room, in order |
| SensorDriver.DecodeJoins | libsensors/CompassSensor.cpp:156-182 | decoding in two parts is decoding in one |
| SensorDriver.DecodeMeans | libsensors/CompassSensor.cpp:156-182 | after decoding, each field of the pending sample is the value last reported for its type and code, or the old one; an enabled driver hands out, for each EV_SYN, the fields last reported before it |
| SensorDriver.SamplesMean | libsensors/CompassSensor.cpp:140-188 | over any sequence of calls, each sample handed out holds for every axis what the device last reported before its EV_SYN, however the events were chunked |
| SensorDriver.InitialStateFirst | libsensors/ProximitySensor.cpp:57-105 | switching proximity makes the initial state, if it could be read, the next sample, handed out if the sensor is on, with the ring untouched |
| SensorDriver.TakesWhatFits | libsensors/InputEventReader.cpp:49-58 | a call takes from the device what fits into a ring of four events, and nothing while a sample is pending |
| SensorDriver.Driver.ReadEvents | libsensors/CompassSensor.cpp:140-188 | hands out and leaves behind exactly what the reference loop does with the ring's contents and what the read delivers; error and pending-sample cases; bytes outside the request untouched |
| SensorDriver.Driver.Enable | libsensors/ProximitySensor.cpp:57-94 | the driver ends in the state, and with the result, that the function Enabled gives for its flag, the file and the initial-state ioctl |
| SensorDriver.ReadMany | libsensors/CompassSensor.cpp:140-188 | any sequence of calls hands out, call by call, what the reference does with what the device has at each call |
| SensorDriver.DrainDecodes | libsensors/CompassSensor.cpp:156-182 | the loop gives what a one-pass decoder gives for the events used up, never more than asked for, and leaves events only if it gave as many as asked for |
| SensorDriver.OnePass | libsensors/CompassSensor.cpp:140-188 | for any chunking by the kernel and any request sizes, the joined output is that of one pass over the events used up, and every event taken from the device is used up or still in the ring |
| SensorDriver.EachCall | libsensors/CompassSensor.cpp:140-188 | each call hands out at most what it was asked for, and less only if the ring is empty afterwards |
| SensorPoll.SensorsPollContext.VisitAll | libsensors/sensors.cpp:294-307 | the inner loop hands out and leaves behind exactly what VisitFrom says, keeping what is in the destination before |
| SensorPoll.SensorsPollContext.PollEvents | libsensors/sensors.cpp:288-333 | result, samples, rings, pending samples and recorded flags after a call are exactly what PollSpec gives for the drivers and what devices and poll(2) do in each turn; it still waits only if the turns are used up with room left |
| SensorPollSpec.Counts | libsensors/sensors.cpp:288-333 | never more than asked for, and exactly that many if and only if the call does not end by an error, for want of events, or waiting |
| SensorPollSpec.NothingStranded | libsensors/sensors.cpp:288-333 | a driver without a pending sample whose ring is empty or whose flag is recorded is so again after every call; if the call ends for want of events, its ring is empty |
| SensorPollSpec.VisitsRemember | libsensors/sensors.cpp:294-307 | with room left after the inner loop the rings of all such drivers are empty, so that poll(2) may overwrite the flags |
| SensorPollSpec.VisitsInOrder | libsensors/sensors.cpp:138-146 | the inner loop hands out light first, then proximity, accelerometer, magnetometer and orientation |
| SensorTurns.CallEnds | libsensors/sensors.cpp:288-333 | a call goes on to the next turn if and only if there is room left and poll(2) reports a device, the wake pipe or an error condition; it ends for want of events only if the last poll(2) reported nothing at all; its result is that of the last turn |
| SensorPollSpec.Faithful | libsensors/sensors.cpp:288-333 | each driver's samples among those handed out are what one pass over the events it used up gives, and no event it took from its device is lost |
| SensorPollSpec.NeverStranded | libsensors/sensors.cpp:288-333 | a driver other than proximity is never stranded, over any sequence of calls with sensors enabled and disabled in between |
| SensorPending.VisitsPending | libsensors/sensors.cpp:295-307 | after the inner loop a driver with a pending sample is as before if there was no room for it; otherwise its events are as before, with the flag recorded only if it was and the sample took the last room |
| SensorPending.LostIff | libsensors/sensors.cpp:288-333 | events without a recorded flag are recorded again after a call if and only if a poll(2) of that call reports them |
| SensorPending.PendingKeptIff | libsensors/sensors.cpp:288-333 | for a whole call, any number of turns, any room and any driver with a sample pending from enable(): the driver is still to be read, or has nothing left, if and only if its ring was empty, or there was no room when the loop reached it, or its sample took the last room with the flag recorded, or a poll(2) of the call reported it |
| SensorPending.SampleForgotten | libsensors/ProximitySensor.cpp:57-105 | the multiplexer as constructed, one call for one of two samples, and disabling and enabling proximity lead to a context of which the next call forgets the sample in the ring |
| SensorActivation.SensorSharing.Activate | libsensors/sensors.cpp:239-267 | flags, drivers, wake messages and result are those of the function ActivateSpec |
| SensorActivation.SensorSharing.RealActivate | libsensors/sensors.cpp:269-279 | likewise for one driver, with the wake message written when it is switched on |
| SensorActivation.ReportsSuccess | libsensors/sensors.cpp:239-279 | a call reports success if and only if, before it, every driver that it must switch can be switched |
| SensorActivation.ErrorCodes | libsensors/sensors.cpp:239-279 | an unknown handle is refused and changes nothing; otherwise a call fails exactly if a driver cannot be switched |
| SensorActivation.StopsAtFirst | libsensors/sensors.cpp:243-253 | orientation switches accelerometer, magnetometer and itself in that order and stops at the first that cannot be switched; shared sensors that the system uses are left alone |
| SensorActivation.WakesWhenOn | libsensors/sensors.cpp:269-279 | a wake message is written for each driver that the call switches on, and none when it switches off |
| SensorActivation.RecordsRequest | libsensors/sensors.cpp:239-267 | what was asked for is recorded in any case, and the other sensors are left alone |
| SensorActivation.SharingKept | libsensors/sensors.cpp:239-279 | if they can be switched, the sharing rule is kept, even with an uninitialised flag other than 1 |
| SensorActivation.SharingKeptIff | libsensors/sensors.cpp:239-279 | with all flags set, the rule is kept if and only if they can be switched |
| SensorActivation.SharingBroken | libsensors/sensors.cpp:243-248 | the rule is broken by a request for orientation during which the accelerometer cannot be opened |
| SensorActivation.SharedIffFlagNotOne | libsensors/CompassSensor.cpp:31-36 | over all sequences of requests with working drivers the sensors are on as last asked for, shared ones for either use, if and only if the magnetometer's flag does not start as 1 |
| SensorActivation.SameEnable | libsensors/CompassSensor.cpp:68-96 | the enable() of the sharing model and that of the decoders agree on flag and result |
| SensorActivation.ActivateAll | libsensors/sensors.cpp:239-267 | a sequence of calls leaves the state that ActivateRun gives |
| RilTokens.AllocateToken | ril/libsecril-client/secril-client.cpp:1153-1170 | takes the lowest free bit, all bits below it being taken, and fails exactly if all 32 are taken |
| RilTokens.OnlyThatMarked | ril/libsecril-client/secril-client.cpp:1160-1166 | taking a token affects no other |
| RilTokens.OnlyThatFreed | ril/libsecril-client/secril-client.cpp:1173-1175 | freeing a token affects no other |
| RilTokens.AllTokensInUse | ril/libsecril-client/secril-client.cpp:1153-1170 | 32 different tokens in use leave none free |
| RilTokens.AcceptedMeans | ril/libsecril-client/secril-client.cpp:1178-1186 | a word is accepted if and only if it is not 0 and each token that it contains is in use |
| RilTokens.FreedMeans | ril/libsecril-client/secril-client.cpp:1173-1175 | freeing a word frees exactly the tokens that it contains |
| RilWords.FullIff32 | ril/libsecril-client/secril-client.cpp:1153-1186 | the pool is full if and only if exactly 32 tokens are in use, and never more are |
| RilWords.PartOf | ril/libsecril-client/secril-client.cpp:1178-1186 | an accepted word that is no token contains a smaller one that is freed with it |
| RilSlots.Stored | ril/libsecril-client/secril-client.cpp:185-207 | overwriting a slot replaces exactly its entry in the map that the table stands for |
| RilSlots.Occupancy | ril/libsecril-client/secril-client.cpp:179-182 | a table has as many entries as slots if and only if no slot is free |
| RilHandlers.HandlerTable.Register | ril/libsecril-client/secril-client.cpp:163-266 | the table is a map of at most 32 entries from non-zero id to handler; registering a new id fails if and only if the map is full, NULL unregisters, id 0 changes nothing |
| RilHandlers.HandlerTable.Find | ril/libsecril-client/secril-client.cpp:1222-1232 | what the first slot with the id holds; for an id other than 0 the registered handler, NULL if there is none |
| RilClient.RoomForToken | ril/libsecril-client/secril-client.cpp:1189-1207 | while pool and history agree, a token is free if and only if a history slot is |
| RilClient.AgreeAfter | ril/libsecril-client/secril-client.cpp:799-852 | recording a fresh token, or clearing one, keeps pool and history in agreement |
| RilClient.RilClient.RecordReqHistory | ril/libsecril-client/secril-client.cpp:1189-1207 | adds exactly that request, or fails because all slots are taken |
| RilClient.RilClient.ClearReqHistory | ril/libsecril-client/secril-client.cpp:1209-1219 | removes exactly that token's request |
| RilClient.RilClient.FindReqHandler | ril/libsecril-client/secril-client.cpp:1235-1257 | the handler now registered for the request id recorded under the token |
| RilClient.RilClient.Send | ril/libsecril-client/secril-client.cpp:799-852 | fails for want of a token exactly if 32 requests are outstanding, never for want of a history slot; a failed send changes neither pool nor outstanding requests; a successful one adds one request under a fresh token |
| RilClient.RilClient.ProcessSolicited | ril/libsecril-client/secril-client.cpp:1043-1111 | an accepted response with a single-bit token ends that request, frees its token and invokes the right handler, only if it is a success; pool and history agree afterwards if and only if the token has a single bit; other responses change nothing |
| RilClient.UnionBreaks | ril/libsecril-client/secril-client.cpp:1178-1186 | with any two requests outstanding, the union of their tokens is accepted and breaks the agreement |
| RilClient.RilClient.RegisterRequestCompleteHandler | ril/libsecril-client/secril-client.cpp:222-266 | leaves requests alone and updates the handler map, or reports that it is full |
| RilClient.RilClient.ProcessUnsolicited | ril/libsecril-client/secril-client.cpp:1010-1040 | the handler found for the response's id, none and an error if it cannot be read |
| RilClient.RunClient | ril/libsecril-client/secril-client.cpp:799-1111 | any sequence of registrations, sends and responses, in any order, produces a legal trace with one matching event for each, and the client ends in the state the trace leads to |
| RilClient.AnswerOutOfOrder | ril/libsecril-client/secril-client.cpp:1043-1111 | a client that sends two requests and gets the second one's response first invokes each request's own handler |
| RilTrace.Routing | ril/libsecril-client/secril-client.cpp:1090-1106 | in every legal trace, hence in every run of a client, a response that is accepted answers a request still open, and if a success invokes exactly the handler last registered for that request's id |
| RilTrace.AnsweredOnce | ril/libsecril-client/secril-client.cpp:1107-1110 | between two accepted responses with one token lies a new allocation of it |
| RilTrace.RequestsConserved | ril/libsecril-client/secril-client.cpp:799-852 | in every run, requests sent are requests answered plus requests outstanding |
| EglConfig.Scan | pvr/libEGL_POWERVR/egl.c:61-94 | never reads past the terminator, which it finds; the flags say whether such pairs exist, the positions are those of the last ones |
| EglConfig.ChooseConfig | pvr/libEGL_POWERVR/egl.c:61-124 | the list passed on is well formed and stands for the rewritten pairs; it is the caller's own exactly if nothing is rewritten, and the caller's is never written |
| EglConfig.OnlyWeakens | pvr/libEGL_POWERVR/egl.c:41-56 | whatever the original list accepts, the rewritten one accepts, for every way of comparing attributes and with "do not care" met by all keys but level and native pixmap; repeated keys allowed |
| EglConfig.SameAsLeftOut | pvr/libEGL_POWERVR/egl.c:111-112 | "do not care" in the refused pair accepts exactly what the list without it accepts |
| EglConfig.OthersKept | pvr/libEGL_POWERVR/egl.c:106-121 | every pair with another key is passed on, in order |
| EglConfig.ChangesOnlyRefused | pvr/libEGL_POWERVR/egl.c:95-106 | a list is changed if and only if it asks for recordable pbuffer configurations for OpenGL ES 2, or names a framebuffer target without OpenGL ES 2, in terms of keys and bits |
| EglConfig.ChangesOnePair | pvr/libEGL_POWERVR/egl.c:98-121 | and then changes the value of the last recordable pair to "do not care", or drops the last framebuffer-target pair, and nothing else |
| EglConfig.SettlesIffOnce | pvr/libEGL_POWERVR/egl.c:61-124 | rewriting again changes nothing if and only if the pair at fault is not repeated |
| CameraPixels.ScaleDownYuv422 | libcamera/SecCameraHWInterface.cpp:983-1013 | every byte of the result is written from its closed-form source position, inside the source; bytes beyond are untouched; odd sizes are refused without writing |
| CameraPixels.ScaledPicture | libcamera/SecCameraHWInterface.cpp:993-1010 | every pixel of the result, luma and chroma, is the source pixel at its scaled position |
| CameraPixels.PairsKept | libcamera/SecCameraHWInterface.cpp:998-1002 | groups are copied from pixel-pair boundaries if and only if the source width or the row step is even |
| CameraPixels.YUY2toNV21 | libcamera/SecCameraHWInterface.cpp:1015-1044 | for all sizes, every byte of the NV21 picture is written from its closed-form source position; bytes beyond are untouched; two bytes past the picture are read if both sizes are odd |
| CameraPixels.ConvertedPicture | libcamera/SecCameraHWInterface.cpp:1015-1044 | every pixel keeps its luma and takes the chroma of its pair in the even row of its block |
| CameraArea.SecCameraArea.FromString | libcamera/SecCameraUtils.cpp:33-53 | the fields are those parsed, or all 0 if a number is not followed by the right character |
| CameraArea.SecCameraArea.ToString8 | libcamera/SecCameraUtils.cpp:67-70 | the five fields in order, in parentheses, separated by commas |
| CameraArea.StrtolReads | libcamera/SecCameraUtils.cpp:37 | white space, a sign if any and digits are read as the number they stand for, saturated, up to the first other character |
| CameraArea.StrtolFails | libcamera/SecCameraUtils.cpp:37 | without a digit nothing is read |
| CameraArea.ParsedIff | libcamera/SecCameraUtils.cpp:36-47 | fields are parsed if and only if every number but the last is followed by a comma and the last by a parenthesis, and then they are the numbers in order |
| CameraArea.FieldsParsed | libcamera/SecCameraUtils.cpp:36-47 | parsing what was printed gives back the numbers, for all 32-bit values and any count |
| CameraArea.RoundTrip | libcamera/SecCameraUtils.cpp:67-70 | the constructor from a string inverts toString8 |
| CameraArea.PositionMonotone | libcamera/SecCameraUtils.cpp:55-61 | positions are monotone in the sum of the coordinates, under truncating division, for all integers |
| CameraArea.PositionExact | libcamera/SecCameraUtils.cpp:55-61 | a position is that of the middle, rounded towards the centre and then down |
| CameraArea.SecCameraArea.GetX | libcamera/SecCameraUtils.cpp:55-57 | for coordinates in range, the column of the middle between left and right, rounded twice; half the width for the whole picture |
| CameraArea.SecCameraArea.GetY | libcamera/SecCameraUtils.cpp:59-61 | likewise, the row between top and bottom |
| CameraArea.PositionInside | libcamera/SecCameraUtils.cpp:55-61 | coordinates in range map into [0, size], the extremes to the edges, without overflow for sizes up to 1073741 |
| CameraArea.PositionAccurate | libcamera/SecCameraUtils.cpp:55-61 | the position is exact up to the two truncations |

## Left out

Of the contracts above:

- AudioTheorems.ReferencesConserved: assumes that no open made by setMode itself has ever failed, because the code ignores their results; `AudioTheorems.EnterCallConserves` says what happens otherwise.
- AudioTheorems.NoStaleHandle: the same assumption.
- AudioTheorems.StandbyIsClosed: the same assumption.
- AudioTheorems.WakeLockExact: one output awake at a time, as the wake lock's name is shared by all.
- AudioRuns.CallConserves: the same assumption about setMode's earlier opens as for the counts.
- AudioHandles.StepKeepsResources: the same assumption as for the counts; it is written into the invariant.
- AudioCapture.ProcessedStream.ProcessFrames: one preprocessor, which takes no more than it is offered; no echo reference; overlapping copies behave as memmove.
- AudioCapture.CaptureStream.ReadFrames: without a resampler; a frame is one value, not mChannelCount samples.
- AudioRates.GetInputSampleRate: at a difference of exactly 2^31, where C leaves abs() undefined, the usual result is taken.
- SensorDriver.Driver.ReadEvents: samples keep raw values; conversions to float and timestamps are not modelled.
- SensorPoll.SensorsPollContext.PollEvents: devices deliver whole events without read errors, because the loop adds a negative result to its counters.
- SensorPollSpec.NothingStranded: for drivers without a sample pending from enable(); `SensorPending.PendingKeptIff` has the others.
- AudioRuns.DestroysInIff: a thread in an input's standby() counts as having a reference, as setMicMute has; a caller through a pointer and setMicMute are one there.
- SensorActivation.ActivateAll: every driver's file can be opened.
- RilTokens.AllocateToken: takes `1 << i` from a table.
- RilClient.RunClient: responses carry single-bit tokens, known or not; `RilClient.RilClient.ProcessSolicited` says what others do.
- RilClient.RilClient.Send: request ids are not 0, as all the ids in the file.
- RilTrace.Routing: each send, response and registration is one atomic step; the code takes no lock, and a response between freeing and clearing is not covered.
- EglConfig.ChooseConfig: the list is not NULL, which section 3.4.1 of the EGL 1.4 specification allows but the code does not test for, and is terminated, as the specification asks.
- EglConfig.OnlyWeakens: the dropped attribute's default is "do not care", as its extension defines.
- CameraPixels.ScaleDownYuv422: positions are unbounded integers, but proved to lie inside the buffers, so that buffers below 2^31 bytes cannot overflow them; sizes of 0, for which the code divides by 0, and a source row shorter than a pixel pair are excluded.
- CameraPixels.ConvertedPicture: even widths, as both formats need.
- CameraArea.SecCameraArea.FromString: strtol is modelled for base 10 and a 32-bit long; a string that does not start with a parenthesis leaves the fields undefined, and nothing is promised of it.

Of the repository:

- Audio streams stay alive while in use: `sp<>` lifetimes are not modelled, apart from who drops the last reference under the hardware lock and the reference that closing a stream holds until after it.
- An input stream has one reader thread; FM radio is off; no echo reference is attached (with one, standby of an input takes the output's lock out of order).
- `AudioHardwareBase::setMode` is one step that sets the mode or fails; the standby counters do not wrap; `mSleepReq`, dump(), voice volume, routes and the RIL calls of the audio HAL do not touch the modelled state.
- `AudioHardware::setParameters` beyond its hardware-lock section, preprocessor parameters, the resampler and render positions: no bearing on the invariants.
- The four RIL calls that build requests, the callback's one-shot deregistration (`b_del_handler`), connect, disconnect, the reader thread and `DeallocateToken`, which nothing calls: plumbing.
- `pollEvents`' retry on EINTR, the timeout it gives to poll(2) and the wake pipe's content: no effect on what is handed out.
- Gyroscope and combined accelerometer drivers: not built.
- Camera threads, V4L2 settings, `ril/libsecril-shim`, `liblight`, device settings, boot image tools and scripts: input and output, or members that would only be easy.

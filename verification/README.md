# CommandStation-EX: a verified model of its state machines

CommandStation-EX drives a digital model railway. This project models the parts of it that are hard
to get right by reading: the transmitter that turns packets into track signal, the packet scheduler
and the emergency stop lock, the programming-track virtual machine, the EXRAIL bytecode machine, the
non-blocking I2C manager, and the sniffer that inverts the packet encoders. Each is written down once
as functions on values (a step function and runs of it), with lemmas about every run; the objects the
program updates in place are classes whose methods are proved to do what those functions say.

* **Transmitter** (`DccFraming`, `DccTransmitter`, `DccTimeline`, `DccTicks`, `DccWaveform`, `DccRmt`). The main
  thread and the timer interrupt are interleaved store by store. A receiver that knows nothing of the
  transmitter (section A of NMRA S-9.2) hears exactly the packets promoted, wherever it joins; ticks
  (section A of NMRA S-9.1) carry exactly the chosen bits; the ESP32 channel sends the same signal.
* **Scheduler and lock** (`PacketEncoders`, `PacketQueue`, `PacketDrain`, `PacketOrder`, `PacketLedger`,
  `PacketLists`, `ThrottleRuns`, `DccStation`). The loco id, delay and start time of a slot share one 32-bit word, as
  they share storage in the program, so aliasing is part of the model: results that need it to be
  absent say so, and two lemmas show that the condition is exact.
* **Programming track** (`AckPrograms`, `AckMachine`, `AckLibrary`, `AckIdeal`, `AckIdentities`,
  `AckCvs`, `AckWindDown`, `AckOrder`, `AckProgress`, `AckManager`, `AckPulse`). The decoder is an arbitrary oracle for
  soundness and termination, and a memory of CVs for the identity round trips.
* **EXRAIL** (`ExrailCode`, `ExrailTask`, `ExrailRoutes`, `ExrailInterpreter`, `ExrailFlags`, `ExrailRing`,
  `ExrailCrowd`).
* **I2C** (`I2cRequests`, `I2cOutcomes`, `I2cLimits`, `I2cRepeats`, `I2cManager`). The build with multiplexer addressing.
* **Sniffer** (`DccSniffer`), the inverse of the encoders in `PacketEncoders`.
* **End to end** (`EndToEnd`): scheduler, transmitter, receiver and sniffer put together.

`dafny verify dfyconfig.toml` checks everything.

## Where the code differs from its documentation

The model follows the code. Each point below is a lemma or is visible in one.

* A pending coil-off whose start time has a loco's address as its low 16 bits is overwritten by that
  loco's speed packet, survives the emergency stop lock and is sent (`AliasingDefeatsTheLock`).
* `scheduleEstopPacket` says it also removes earlier emergency stops for the loco; they carry tag 0
  and stay unless the stop is a broadcast (`EstopFlushes`).
* A coil-on with a non-zero delay is spaced and repeated as if it were for a loco with that number.
* In a retried programming pass the 100 ms after a write are forgotten if the new pass calls back
  before it writes; no program of the repository does (`WriteForgottenByRetry`, `RequestsAreOrderly`).
* `setConsistId` fails with -4 on a decoder that does not acknowledge writes whenever CV 20 is needed,
  although the write took place (`ConsistIdRoundTrip`).
* The repeat count of the ESP32 channel is kept plus one in a byte: a packet to be repeated 255 times is
  looped once (`RepeatCountWraps`). No caller in the repository asks for that.
* Lost arbitration restarts the indices of an I2C transfer but not its remaining counts: a write is
  short if and only if arbitration was lost after a byte of it went out (`ShortExactlyWhen`), and it is
  reported as a success (`ShortWriteSucceeds`).
* The status of deselecting a multiplexer is meant to be ignored, but the retry test comes first: the
  payload can be sent again after it has succeeded if and only if the request goes through a
  multiplexer to a device, there is not just one multiplexer and retries are allowed
  (`RepeatsIfAndOnlyIf`).
* A timeout does not reset the I2C retry counter, a byte that wraps: a request can be started once more
  than MAX_I2C_RETRIES allows if and only if it finds the counter at 254 or 255 (`RetryCounterWraps`).
* The sniffer reads one byte behind a packet if and only if it is a sound three-byte packet with a long
  address and a two-byte instruction (`StaysInside`), and loco addresses from 0x3F00 up do not survive
  encoding (`HeaderInvertsAddress`).
* The sniffer remembers 28-step speed bits and 128-step speed codes in one place, so a change of speed
  is not passed on when they happen to be equal (`SpeedReportLost`); and for F13 to F28 it says that
  something changed only if the second half of the packet did (`GroupReported`).
* `getLocoId` reads seven bits of CV 1, so it fails on a decoder with 128 or more there; and or-ing the
  marker makes a CV 17 below 64 read like one from 192 up, and other values below 192 negative
  (`LocoIdIsRead`, `LongIdIs`).
* With more than 256 EXRAIL tasks two share id 255, and when one of them ends the other lives on with
  its id given away (`CrowdLosesAnId`).

## Model

| member | source | states |
|---|---|---|
| `DccFraming.ByteRoundTrip` | DCCWaveform.cpp:190-193 | the nine bits of a byte are a zero start bit and bits that rebuild the byte |
| `DccFraming.HearFrames` | DCCWaveform.cpp:152-209 | an independent receiver hears exactly the packets of any sequence of frames, in order |
| `DccFraming.JoinInFrame` | DCCWaveform.cpp:114-125 | a receiver that starts anywhere inside a frame is not fooled by it: no run of ten ones ends in a zero before the next preamble |
| `DccFraming.Resynchronises` | DCCWaveform.cpp:152-209 | from any bit of any stream of frames a receiver delivers a suffix of the true packets, starting at a true frame boundary |
| `DccTransmitter.RunInv` | DCCWaveform.cpp:152-262 | all interleavings of requests, main-thread stores, interrupts and cleared repeats keep the invariant that the results below read off |
| `DccTransmitter.HandOver` | DCCWaveform.cpp:213-262 | in every interleaving the requests on the track followed by at most two in flight are exactly the requests made, in order: none lost, doubled or reordered |
| `DccTransmitter.AiringsAreWhole` | DCCWaveform.cpp:213-262 | nothing half written is ever sent: each airing is its job with a checksum that XORs it to zero, sent exactly repeats + 1 times unless the repeats were cleared |
| `DccTimeline.BytesInFlightAreStable` | DCCWaveform.cpp:152-262 | in every interleaving, from its promotion to its end bit and through the preamble that follows, the transmit buffer and its length do not change; the next promotion comes exactly 9 bits a byte and one preamble later |
| `DccTimeline.FrameIsStable` | DCCWaveform.cpp:152-262 | the same from any moment: until as many interrupts have come as are missing to the next promotion |
| `DccTimeline.WindowMeans` | DCCWaveform.cpp:161-165 | in every run the reminder window is open only with two to eleven preamble bits to go and nothing to repeat, and after an interrupt exactly then |
| `DccTimeline.WindowCatches` | DCCWaveform.cpp:161-262 | from an open window on nothing goes out before the next promotion, at most ten interrupts away, and a packet in the mailbox by then is the very next on the track |
| `DccTimeline.ResetsAreFillers` | DCCWaveform.cpp:213-262 | in every run the reset count is the number of fillers chosen since a packet was last chosen or handed over, up to 250 |
| `DccTimeline.HandOverCompletes` | DCCWaveform.cpp:213-228 | once the mailbox is empty the main thread is done after as many steps of its own as there are bytes and six more, whatever the interrupts do |
| `DccTimeline.MailboxIsEmptied` | DCCWaveform.cpp:152-262 | a packet in the mailbox is chosen at the latest when the frame being sent and its repeats are over, whatever the main thread does |
| `DccTransmitter.MeetsTheStandard` | DCCWaveform.cpp:36-45 | preambles are as long as NMRA S-9.2 and S-9.2.3 ask for, and fillers are the idle and reset packets with their checksum |
| `DccTransmitter.FramingRoundTrip` | DCCWaveform.cpp:152-209 | from the first preamble on, in every run, the bits chosen are heard as exactly the frames that have ended |
| `DccTransmitter.JoinAnywhere` | DCCWaveform.cpp:152-209 | a receiver joining a run at any bit hears exactly the later frames, from a true frame start |
| `DccTicks.TickRunOk` | DCCWaveform.cpp:47-62 | at every tick the levels driven are whole bit shapes and the start of one |
| `DccTicks.TicksCarryBits` | DCCWaveform.cpp:75-104 | the tick stream decodes to exactly the bits chosen, and whole bits are as long high as low |
| `DccTicks.ReadShapes` | DCCWaveform.cpp:56-62 | reading the shapes of any bits gives the bits back |
| `DccWaveform.Waveform.constructor` | DCCWaveform.cpp:114-125 | the object starts as the model does |
| `DccWaveform.Waveform.ClearRepeats` | DCCWaveform.h:59-59 | refines the model's event |
| `DccWaveform.Waveform.PromotePendingPacket` | DCCWaveform.cpp:234-262 | the copy loop refines `Promote` |
| `DccWaveform.Waveform.Interrupt2` | DCCWaveform.cpp:152-209 | refines `DccTransmitter.Interrupt2`; the bit and wave state are those of the model |
| `DccWaveform.Waveform.PreambleBit` | DCCWaveform.cpp:152-188 | the preamble branch, with promotion one bit before the end |
| `DccWaveform.Waveform.DataBit` | DCCWaveform.cpp:190-209 | the data branch, with the restart of the preamble after the last byte |
| `DccWaveform.Waveform.OnTimer` | DCCWaveform.cpp:75-104 | one track's tick: its level and next state are those of `DccTicks.Tick` |
| `DccWaveform.Waveform.SchedulePacket` | DCCWaveform.cpp:213-216 | accepts a packet that fits and no other |
| `DccWaveform.Waveform.ThreadStep` | DCCWaveform.cpp:217-228 | each store of `schedulePacket` refines `MainStep` |
| `DccWaveform.InterruptHandler` | DCCWaveform.cpp:75-104 | both tracks move on one tick; with the tracks joined the programming track carries the main signal |
| `DccRmt.FrameRotated` | DCCRMT.cpp:135-145 | the preamble and data items of a packet are its frame moved by one bit |
| `DccRmt.SameSignal` | DCCRMT.cpp:206-244 | two transmitters, one signal: after the first bit the streams for any packets are equal |
| `DccRmt.RmtRunInv` | DCCRMT.cpp:206-264 | all interleavings of filling and loop ends keep the channel's invariant, with the repeat count a byte |
| `DccRmt.RmtAiringsAreExact` | DCCRMT.cpp:206-264 | the accepted packets are looped in order; one that is over was looped repeatCount + 1 times if and only if repeatCount was not 255, and once if it was |
| `DccRmt.RepeatCountWraps` | DCCRMT.cpp:239-264 | the run in which a packet with repeatCount 255 is looped once and the filler follows |
| `DccRmt.RmtIsHeard` | DCCRMT.cpp:206-264 | the receiver of `DccFraming` hears exactly the packets the channel looped |
| `DccRmt.RmtChannel.constructor` | DCCRMT.cpp:106-204 | preamble, idle items and memory are the idle frame |
| `DccRmt.RmtChannel.LoopsThePacket` | DCCRMT.cpp:199-202 | what the hardware loops is the frame of the packet in memory |
| `DccRmt.RmtChannel.FillData` | DCCRMT.cpp:206-244 | refines the model, with the byte that holds the repeat count; refuses exactly while earlier work is unfinished or the packet does not fit |
| `DccRmt.RmtChannel.FillItems` | DCCRMT.cpp:226-238 | the nested loops produce the data items of the packet and the end marker |
| `DccRmt.RmtChannel.FillByte` | DCCRMT.cpp:228-234 | eight items a byte, high bit first, and a zero |
| `DccRmt.RmtChannel.FillMemory` | DCCRMT.cpp:199-202 | copying behind the preamble leaves a whole frame in memory |
| `DccRmt.RmtChannel.Interrupt` | DCCRMT.cpp:246-264 | refines the model's loop end |
| `PacketQueue.Find` | DCCQueue.cpp:87-98 | the first slot that the replacement test accepts |
| `PacketQueue.FirstReady` | DCCQueue.cpp:179-190 | the first slot that is neither delayed nor for the loco just sent to |
| `PacketOrder.HighBeforeLow` | DCCQueue.cpp:165-218 | what is sent is the first slot of the high queue that need not wait; of the low queue only if the whole high queue waits; idle only if both wait and one is demanded |
| `PacketOrder.OthersKeepTheirPlace` | DCCQueue.cpp:179-218 | the slot sent stays with one repeat less, or is gone, or leaves its coil-off in front; every other slot keeps its place |
| `PacketOrder.StopIsNext` | DCCQueue.cpp:132-170 | after any emergency stop, whatever waits in either queue and whenever the main loop runs, the very next packet is that stop, with four repeats |
| `PacketOrder.LockIsNext` | DCC.cpp:1222-1231 | setting the lock makes the broadcast stop the very next packet |
| `PacketOrder.OtherIsQueued` | DCCQueue.cpp:81-83 | a packet joins the end of the low queue with its payload, length, repeats and loco, and nothing else changes |
| `PacketOrder.CoilOnIsQueued` | DCCQueue.cpp:155-159 | so does a coil-on, with its delay |
| `PacketOrder.FunctionIsQueued` | DCCQueue.cpp:102-127 | a function group takes the place of the first request for the same loco and group, or joins the end; every other slot stays |
| `PacketLedger.NextPays` | DCCQueue.cpp:165-218 | for every packet, what a call sends of it, repeats left to the waveform included, is exactly what the queues owe less afterwards |
| `PacketLedger.BooksBalance` | DCCQueue.cpp:81-218 | in every run, aliased or not, and for every packet: sent, still owed and withdrawn by newer requests add up to what was asked for |
| `PacketLedger.Delivered` | DCCQueue.cpp:165-218 | without further requests the main loop empties both queues in bounded time, and by then has sent every packet exactly as often as was owed |
| `PacketLedger.OtherIsDelivered` | DCCQueue.cpp:81-83 | a packet requested is sent repeats + 1 times, on top of what was owed of it |
| `PacketDrain.ForcedCall` | DCCQueue.cpp:165-178 | a forced call does work or sends idle and clears the spacing rule |
| `PacketDrain.EverySecondCallWorks` | DCCQueue.cpp:165-218 | once every coil-off queued is due, one of the next two passes does some of the work (repeats + 1 a slot, doubled for coil-on), however soon they come |
| `PacketDrain.NeverRises` | DCCQueue.cpp:165-218 | without requests the work never grows, whenever the main loop runs |
| `PacketDrain.PassIsForced` | DCC.cpp:1017-1026 | a pass of the main loop without reminders is one forced call |
| `PacketDrain.Drains` | DCCQueue.cpp:165-218 | whatever is queued and whenever the main loop runs, at least every g: both queues are empty once the longest coil delay and two gaps have passed for every unit of work |
| `ThrottleRuns.ThrottleReads` | DCC.cpp:145-192 | a throttle packet, in 28 or 128 steps, moves a loco exactly if its code is not emergency stop |
| `ThrottleRuns.CodeIsAsAsked` | DCC.cpp:145-155 | the speed sent is the one asked for, or emergency stop under the lock; the direction is the one asked for, the other way round exactly if the loco is reversed, locked or not |
| `ThrottleRuns.AtMostOneSlot` | DCCQueue.cpp:87-98 | in every run, aliased or not, a queue never holds two speed slots for a non-zero loco, nor two slots for a loco and function group |
| `ThrottleRuns.PacketsAreSpaced` | DCCQueue.cpp:179-218 | in every run no two consecutive emissions carry the same non-zero tag |
| `ThrottleRuns.RunKeeps` | DCC.cpp:145-192 | runs without aliasing keep: coil-offs move nothing, throttle slots are current, and under the lock they halt |
| `ThrottleRuns.LockedRun` | DCC.cpp:151-155 | from a locked state on, whatever is requested, nothing that moves a loco is queued or sent |
| `ThrottleRuns.EstopLockHolds` | DCC.cpp:1222-1231 | after any unaliased history, from locking to unlocking every speed slot queued carries emergency stop and nothing sent moves a loco |
| `ThrottleRuns.LatestWins` | DCCQueue.cpp:87-98 | in every unaliased run, what is sent from a speed or function slot is what was last requested for that loco and not stopped since |
| `ThrottleRuns.LastIsLatest` | DCC.cpp:145-192 | what is remembered for a loco is the packet of the last request of the run that said what speed it is to have |
| `ThrottleRuns.SpeedIsQueued` | DCCQueue.cpp:87-98 | after a request the queue holds that speed for the loco and no other |
| `ThrottleRuns.EstopFlushes` | DCCQueue.cpp:132-149 | an emergency stop is first in the high queue; exactly the throttle slots of the loco, or all for a broadcast, are gone, and every other slot stays |
| `ThrottleRuns.CoilOffIsTheOffPacket` | DCCQueue.cpp:205-210 | the coil-off made of a coil-on is the packet that switching the gate off would send, due after the delay |
| `ThrottleRuns.CoilsAreTimed` | DCCQueue.cpp:181-213 | a coil-on sent for the last time leaves its coil-off first in the high queue, and no coil-off is sent before it is due |
| `ThrottleRuns.AliasingIsTheOnlyHarm` | DCCQueue.cpp:87-98 | a throttle request keeps the invariant if and only if the slot its test finds is not a coil-off |
| `ThrottleRuns.LockIsSafeUnlessAliased` | DCC.cpp:1222-1231 | locking leaves nothing that moves a loco in the high queue if and only if no coil-off had been overwritten |
| `ThrottleRuns.AliasingDefeatsTheLock` | DCCQueue.h:37-41 | a concrete run in which a moving packet is sent under the lock |
| `PacketLists.CensusCount` | DCCQueue.cpp:221-239 | the lists account for every slot ever created |
| `PacketLists.PendingSlot.Refill` | DCCQueue.cpp:90-94 | overwriting in place changes packet, length and repeats only |
| `PacketLists.PendingSlot.TurnOff` | DCCQueue.cpp:205-210 | a coil-on becomes its delayed coil-off in the same storage |
| `PacketLists.PendingSlot.Prepare` | DCCQueue.cpp:240-252 | a slot holds the cut payload, and the length as given |
| `PacketLists.DccQueue.AddQueue` | DCCQueue.cpp:46-51 | appends; the chain stays acyclic and `tail` is its last slot |
| `PacketLists.DccQueue.JumpQueue` | DCCQueue.cpp:53-57 | prepends; the chain stays acyclic and `tail` its last slot |
| `PacketLists.DccQueue.Remove` | DCCQueue.cpp:65-78 | takes out exactly that slot, or none if it is not there; the chain stays acyclic and `tail` its last slot |
| `PacketLists.DccQueue.FindSlot` | DCCQueue.cpp:88-89 | the scan finds the slot that `PacketQueue.Find` names |
| `PacketLists.DccQueue.FirstSlot` | DCCQueue.cpp:181-189 | the scan finds the slot that `PacketQueue.FirstReady` names |
| `PacketLists.Scheduler.constructor` | DCCQueue.cpp:34-44 | empty queues, nothing allocated |
| `PacketLists.Scheduler.Recycle` | DCCQueue.cpp:60-63 | a slot in hand goes to the recycle list; every slot allocated is on exactly one list |
| `PacketLists.Scheduler.GetSlot` | DCCQueue.cpp:221-255 | a recycled or new slot with the contents asked for; the leak looked for is never found |
| `PacketLists.Scheduler.LooksLeaky` | DCCQueue.cpp:228-233 | with nothing to recycle the queues hold every slot created |
| `PacketLists.Scheduler.SendPacket` | DCCQueue.cpp:81-83 | does to the lists what the model does to the queues (`OtherIsQueued`), conserving every slot |
| `PacketLists.Scheduler.SendSpeed` | DCCQueue.cpp:87-98 | replaces or appends as the model does, conserving every slot |
| `PacketLists.Scheduler.SendFunction` | DCCQueue.cpp:102-127 | replaces or appends as the model does, conserving every slot; groups other than 1 to 5 do nothing |
| `PacketLists.Scheduler.SendEstop` | DCCQueue.cpp:132-149 | flushes and jumps the queue as the model does, conserving every slot |
| `PacketLists.Scheduler.Flush` | DCCQueue.cpp:139-147 | the scan that removes and recycles slots as it goes leaves exactly the survivors, in order |
| `PacketLists.Scheduler.SendAccOnOff` | DCCQueue.cpp:155-159 | queues a coil-on as the model does, conserving every slot |
| `PacketLists.Scheduler.NextInternal` | DCCQueue.cpp:179-218 | serves the first ready slot of a queue as the model does |
| `PacketLists.Scheduler.Retire` | DCCQueue.cpp:200-213 | a slot sent for the last time is recycled, or migrates to the high queue as coil-off |
| `PacketLists.Scheduler.ScheduleNext` | DCCQueue.cpp:165-178 | one call of the main loop does what `PacketQueue.Next` says (`HighBeforeLow`, `NextPays`) |
| `DccStation.Station.SetThrottleDcc` | DCC.cpp:145-192 | direction, lock and encoding as in the model's throttle step (`CodeIsAsAsked`) |
| `DccStation.Station.EstopLock` | DCC.cpp:1222-1231 | locking broadcasts one emergency stop, and only when it changes anything |
| `DccSniffer.HeaderInvertsAddress` | DCC.cpp:159-161 | a loco's packets are parsed for that loco if and only if its address is below 0x3F00 |
| `DccSniffer.InstructionArrives` | DCCDecoder.cpp:64-82 | the instruction is parsed for the loco it was built for |
| `DccSniffer.ThrottleArrives` | DCCDecoder.cpp:84-94 | for every loco and speed byte, exactly that speed and direction are recovered, and reported if new |
| `DccSniffer.Speed28IsStable` | DCC.cpp:163-183 | reading a 28-step byte and building it again gives the same byte; stop and emergency stop exactly |
| `DccSniffer.Throttle28Arrives` | DCCDecoder.cpp:95-106 | for every loco and speed the six bits are remembered and nothing else changes; exactly if they are new they are passed on, as a speed that encodes to the same packet |
| `DccSniffer.SpeedReportLost` | DCCDecoder.cpp:84-106 | the run in which a 28-step speed after a 128-step one is not passed on |
| `DccSniffer.GroupArrives` | DCCDecoder.cpp:107-148 | a group packet sets exactly its functions of that loco |
| `DccSniffer.GroupReported` | DCCDecoder.cpp:107-148 | a group packet is passed on as exactly those of its ranges that differ from what was remembered, in order and as they are; a change is returned exactly if the last range differs |
| `DccSniffer.GroupsRebuild` | DCCDecoder.cpp:214-231 | after any sequence of group packets the map is theirs where one was for that function, and as before elsewhere |
| `DccSniffer.AllFunctionsArrive` | DCC.cpp:1117-1146 | once all five groups have been heard, in any order, F0 to F28 are the loco's |
| `DccSniffer.AccessoryArrives` | DCC.cpp:371-401 | basic accessory packets recover address, port, gate and state; out of range nothing is sent |
| `DccSniffer.ErrorIsRejected` | DCCDecoder.cpp:45-56 | any error within one byte of a sound packet, such as a flipped bit, has no effect |
| `DccSniffer.StaysInside` | DCCDecoder.cpp:45-166 | what the parser does is independent of memory behind the packet if and only if it is not a sound three-byte packet with a long non-zero address and a two-byte instruction |
| `DccSniffer.BehindMatters` | DCCDecoder.cpp:64-148 | for every packet of that kind the byte behind it changes the result |
| `DccSniffer.DccDecoder.UpdateLoco` | DCCDecoder.cpp:200-212 | remembers the speed code and tells whether it is new |
| `DccSniffer.DccDecoder.UpdateFunc` | DCCDecoder.cpp:214-231 | remembers four functions, and the light with the first group |
| `DccSniffer.DccDecoder.Checksum` | DCCDecoder.cpp:46-48 | the loop computes the XOR of all bytes |
| `DccSniffer.DccDecoder.ParseMobile` | DCCDecoder.cpp:79-166 | refines the decoding of loco instructions |
| `DccSniffer.DccDecoder.Parse` | DCCDecoder.cpp:26-197 | refines the decoding of packets; inactive, it does nothing |
| `EndToEnd.LockReachesTheTrack` | DCC.cpp:1222-1231 | under the lock, once what was handed over before it is on the track, nothing put there moves a loco, in every interleaving and whatever is requested |
| `EndToEnd.LockIsHeard` | DCC.cpp:1222-1231 | and a receiver hears nothing that moves a loco from there on |
| `EndToEnd.ThrottleIsHeard` | DCC.cpp:145-192 | from the last speed request of a run: what is put on the track from the loco's speed slot is decoded by the sniffer as that speed and direction, turned round if the loco is reversed, and passed on exactly if it is new |
| `EndToEnd.IdleIsTheFiller` | DCCQueue.cpp:172-175 | the idle packet that the scheduler sends is the one that the waveform fills in |
| `AckMachine.PacketsAreUnderstood` | DCCACK.cpp:178-222 | every packet in range is read back from its three bytes as meant, the CV number modulo 1024 |
| `AckMachine.LongIdIs` | DCCACK.cpp:320-323 | what or-ing the marker makes of every CV 17 and CV 18, as a 16-bit result; -1 for exactly two values of CV 17 |
| `AckMachine.RunsEnd` | DCCACK.cpp:164-374 | against any decoder a fitting program ends, in retries used + 1 passes, never leaves the program, sends only packets in range, and fails only without retries left |
| `AckMachine.EveryJobEnds` | DCCACK.cpp:376-385 | from Setup on, at most ackRetry + 1 passes |
| `AckMachine.ReturnedMeansVerified` | DCCACK.cpp:164-374 | code that only reports bytes just verified returns only values a verify-byte packet of the final pass was acknowledged for |
| `AckLibrary.EveryRequestEnds` | DCC.cpp:558-920 | the same as `EveryJobEnds` for every request of the repository, bit numbers 0 to 7 included |
| `AckLibrary.RequestsFit` | DCC.cpp:558-920 | all the repository's programs fit |
| `AckLibrary.ReadValuesAreConfirmed` | DCC.cpp:607-653 | a value that readCV or verifyCVByte returns, over any noise, was acknowledged for that CV by the last packet of the final pass |
| `AckIdeal.ReadingBits` | DCCACK.cpp:281-291 | bit-wise reading with MERGE leaves in the byte register the value whose lower bits the CV has |
| `AckIdeal.ReadingAll` | DCC.cpp:663-672 | reading a CV and verifying it succeeds on an ideal decoder |
| `AckIdentities.LocoIdIsRead` | DCC.cpp:754-801 | on any ideal decoder of bytes getLocoId returns what its CVs say, through any retries: the marked long address, or CV 1, or -1 if that is 128 or more |
| `AckIdentities.DriveawayIsRead` | DCC.cpp:656-751 | on any ideal decoder of bytes getDriveawayLocoId returns the consist if there is one, else what getLocoId returns |
| `AckIdentities.ConsistIdIsRead` | DCC.cpp:804-853 | getConsistId returns what CVs 19 and 20 say, including values above 120 |
| `AckIdentities.ShortIdIsWritten` | DCC.cpp:855-874 | what setLocoId leaves in the decoder for a short address |
| `AckIdentities.LongIdIsWritten` | DCC.cpp:891-920 | and for a long one |
| `AckIdentities.ConsistIdIsWritten` | DCC.cpp:877-889 | what setConsistId leaves, or -4 |
| `AckIdentities.LocoIdRoundTrip` | DCC.cpp:962-971 | for every id from 1 to 10239, writing it and reading it by either program gives it back, marked exactly if long |
| `AckIdentities.ConsistIdRoundTrip` | DCC.cpp:973-991 | for every id from 0 to 10239 in both directions; -4 if and only if CV 20 is needed and writes are not acknowledged |
| `AckCvs.CvIsRead` | DCC.cpp:633-653 | on any ideal decoder readCV returns the CV |
| `AckCvs.CvIsVerified` | DCC.cpp:607-630 | verifyCVByte returns the CV whatever was asked about |
| `AckCvs.CvByteRoundTrip` | DCC.cpp:599-605 | a byte written by writeCVByte is what readCV and verifyCVByte then return, for every CV and value |
| `AckCvs.BitIsRead` | DCC.cpp:573-597 | readCVBit and verifyCVBit return the bit whatever was asked about |
| `AckCvs.BitIsWritten` | DCC.cpp:558-571 | writeCVBit sets that bit and changes no other CV |
| `AckCvs.CvBitRoundTrip` | DCC.cpp:926-945 | a bit written is the bit read; bit numbers from 8 up are refused |
| `AckWindDown.CallRepeats` | DCCACK.cpp:233-331 | executing a callback operation again, COMBINE1920 included, gives the same value |
| `AckWindDown.CalledOnceWithTheValue` | DCCACK.cpp:376-456 | however it is polled a job calls back at most once, with the value of the uninterrupted run |
| `AckWindDown.WindsDownProperly` | DCCACK.cpp:376-456 | if it calls back, power and JOIN are as before, 100 ms after every write before power-off or join, 30 ms off before a join if power was on |
| `AckWindDown.AnsweredOnce` | DCCACK.cpp:69-125 | whatever the track, the decoder and the polling, a request is answered at most once: at once with -3 or -2 without a track that can measure, else with the value of the uninterrupted run; then the tracks are joined exactly if they were, unless there is no programming track |
| `AckOrder.RequestsAreOrderly` | DCC.cpp:558-920 | every program of the repository writes before it decides anything, or never writes |
| `AckOrder.EveryRequestWindsDown` | DCCACK.cpp:376-456 | `WindsDownProperly` for every request, every decoder, every way of polling |
| `AckOrder.WriteForgottenByRetry` | DCCACK.cpp:378-385 | a program that is not orderly, for which the 100 ms are not kept |
| `AckProgress.NothingBeforeItsTime` | DCCACK.cpp:164-232 | however it is polled, a packet goes out or a baseline is taken only after enough resets, and an answer is taken only when its window is over |
| `AckProgress.EveryRequestIsAnswered` | DCCACK.cpp:164-456 | every request is answered, with the value of the uninterrupted run, once it has been polled a bounded number of times with nothing to wait for, 100 ms apart, however often it is polled in vain |
| `AckManager.Manager.Setup` | DCCACK.cpp:69-125 | borrows the track and loads the job as in the model, or refuses |
| `AckManager.Manager.SkipToTarget` | DCCACK.cpp:333-340 | the scan stops behind the first target |
| `AckManager.Manager.Issue` | DCCACK.cpp:178-222 | the packet, the acknowledgement window and the state after a write |
| `AckManager.Manager.ChangeRegisters` | DCCACK.cpp:224-318 | operations on registers refine the model |
| `AckManager.Manager.MayCall` | DCCACK.cpp:233-363 | operations that may call back refine the model |
| `AckManager.Manager.Callback` | DCCACK.cpp:376-456 | retry or one step of winding down, as in the model |
| `AckManager.Manager.OneStepDown` | DCCACK.cpp:386-455 | the wind-down automaton |
| `AckManager.Manager.OneOp` | DCCACK.cpp:164-374 | one turn of the interpreter refines `AckWindDown.Poll` |
| `AckPulse.AckMeansPulse` | DCCACK.cpp:459-509 | an ack is reported if and only if, before the window closed, some pulse from its first high sample to the first of three low ones was within the limits; a left-over trailing edge counter changes nothing |
| `AckPulse.SameEdge` | DCCACK.cpp:476-493 | a pulse has one leading edge |
| `AckPulse.AckDetector.SetAckPending` | DCCACK.cpp:144-153 | resets all but the trailing edge counter |
| `AckPulse.AckDetector.CheckAck` | DCCACK.cpp:459-509 | one sample refines the model |
| `ExrailCode.SkipScript` | EXRAIL2.cpp:471-497 | skipping a well-nested block ends at its own closer, whatever is nested in it |
| `ExrailCode.SkipFindsCloser` | EXRAIL2.cpp:471-497 | from an IF to its own ELSE or ENDIF |
| `ExrailCode.OperandsRoundTrip` | EXRAILMacros.h:515-515 | operands laid out in PAD instructions are read back |
| `ExrailCode.Preserved` | EXRAIL2.cpp:862-868 | at any place in any code, the flattened block does what the structured block does, and goes on behind it |
| `ExrailCode.RouteCodePreservesMeaning` | EXRAILMacros.h:769-773 | for every well-nested script and all condition outcomes the table performs the script's action sequence |
| `ExrailTask.SkipLandsInside` | EXRAIL2.cpp:471-497 | a skip ends at an ELSE or ENDIF inside the table |
| `ExrailTask.FoundInside` | EXRAIL2.cpp:133-138 | positions found in a lookup list are instruction boundaries of the right kind |
| `ExrailTask.StepKeepsTask` | EXRAIL2.cpp:1032-1079 | every step keeps counter and stack inside |
| `ExrailTask.ProgramCounterIntegrity` | EXRAIL2.cpp:1032-1079 | in every reachable state the counter and all return addresses are multiples of three inside the table, at most four deep |
| `ExrailTask.ReturnMatchesCall` | EXRAIL2.cpp:1037-1079 | the RETURN that ends a call resumes behind it, behind all operands of a RANDOM_CALL, with the stack as before |
| `ExrailTask.GeneratedCodeOk` | EXRAILMacros.h:679-684 | every table the macros generate satisfies the hypotheses of the two results above |
| `ExrailRoutes.FindIsFirst` | EXRAIL2.cpp:133-138 | what is found is the result of the first entry with the key looked for, and nothing if and only if there is none |
| `ExrailRoutes.RouteIsFound` | EXRAIL2.cpp:167-199 | a lookup gives the position of the first route or automation whose operand is the id, or else of the first such sequence, or -1 if there is none |
| `ExrailRoutes.StepLands` | EXRAIL2.cpp:1032-1070 | a FOLLOW, CALL or random choice goes to the route it asks for, its operand or the one of its choices that the clock picks, and lives if and only if there is one in reach and room on the stack |
| `ExrailRoutes.EndsExactly` | EXRAIL2.cpp:1071-1352 | when a task ends at an instruction that does not jump |
| `ExrailRoutes.TasksRunAsTheMachine` | EXRAIL2.cpp:539-1352 | on any table without calls the steps of a task perform exactly what the machine of `ExrailCode` does |
| `ExrailRoutes.ScriptIsPerformed` | EXRAILMacros.h:769-773 | so a task on the table of a script without calls performs the script's structured meaning |
| `ExrailInterpreter.LookList.Add` | EXRAIL2.cpp:126-131 | appends, and forgets when full |
| `ExrailInterpreter.LookList.Find` | EXRAIL2.cpp:133-138 | the first entry for the value (`FindIsFirst`) |
| `ExrailInterpreter.LookListLoader` | EXRAIL2.cpp:167-186 | both passes over the code agree on its entries |
| `ExrailInterpreter.RouteLookup.Find` | EXRAIL2.cpp:198-199 | routes and automations first, then sequences (`RouteIsFound`) |
| `ExrailInterpreter.Rmft2.SkipIfBlock` | EXRAIL2.cpp:471-497 | the loop computes the model's skip, or kills the task |
| `ExrailInterpreter.Rmft2.CallTo` | EXRAIL2.cpp:1037-1045 | pushes and jumps, or kills the task |
| `ExrailInterpreter.Rmft2.Loop2` | EXRAIL2.cpp:539-1352 | control flow of one turn refines `ExrailTask.StepTask` |
| `ExrailFlags.UsesAreIndependent` | EXRAIL2.cpp:1359-1371 | section, latch, task and signal bits never disturb each other |
| `ExrailFlags.ReservationExcludes` | EXRAIL2.cpp:705-720 | between a successful reservation of a section below 256 and its release no other succeeds, whatever else happens |
| `ExrailFlags.SecondReservationRefused` | EXRAIL2.cpp:898-901 | a second reservation is refused if and only if the id is below 256 |
| `ExrailFlags.FreedIsAvailable` | EXRAIL2.cpp:714-716 | a freed section can be reserved |
| `ExrailFlags.FlagsRemember` | EXRAIL2.cpp:705-785 | in every run each section, latch, task id and signal is as it was last set, in the bits of EXRAIL2.h |
| `ExrailFlags.SignalShows` | EXRAIL2.cpp:1484-1489 | a signal tests true for exactly the aspect it was last told to show, and before that for none |
| `ExrailRing.CoverNeeds` | EXRAIL2.cpp:407-414 | with fewer than 256 tasks an id is free |
| `ExrailRing.IdsAfterCreate` | EXRAIL2.cpp:406-414 | a new task's id is its own, and the task flags are exactly the ids in use |
| `ExrailRing.IdsAfterDestroy` | EXRAIL2.cpp:438-438 | when a task ends its id is free again, and the flags are exactly the ids still in use |
| `ExrailRing.TaskRing.TakeId` | EXRAIL2.cpp:406-414 | the first free id, or 255 |
| `ExrailRing.TaskRing.Create` | EXRAIL2.cpp:403-430 | ids and flags change as in the model; tasks stay one circle with `loopTask` on it, ids distinct while there are at most 256 |
| `ExrailRing.TaskRing.Destroy` | EXRAIL2.cpp:433-448 | ids and flags change as in the model; tasks stay one circle: the others keep their order and the next becomes `loopTask` |
| `ExrailRing.TaskRing.Unlink` | EXRAIL2.cpp:439-447 | going round finds the task in front, and closes the gap |
| `ExrailRing.TaskRing.Advance` | EXRAIL2.cpp:527-535 | round robin keeps the circle |
| `ExrailRing.TaskRing.KillAll` | EXRAIL2.cpp:1086-1088 | terminates and leaves no task |
| `ExrailCrowd.CreateKeepsIds` | EXRAIL2.cpp:403-430 | one more task keeps ids apart and flags exact if and only if there are fewer than 256 |
| `ExrailCrowd.IdsAreApart` | EXRAIL2.cpp:403-448 | in every run with at most 256 tasks at a time every task has its own id and the flags are exactly the ids in use |
| `ExrailCrowd.CrowdLosesAnId` | EXRAIL2.cpp:406-438 | the run with 257 tasks after which a living task's flag is clear and its id is given away again |
| `I2cRequests.FirstComeFirstServed` | I2CManager_NonBlocking.h:195-210 | in every run a request is pending if and only if it is queued, and requests complete exactly once each, in the order accepted |
| `I2cRequests.IndicesStayInside` | I2CManager_AVR.h:147-190 | in every run the indices are inside the buffers whenever a byte moves, also after arbitration loss |
| `I2cRequests.WholeUnlessArbitrationLost` | I2CManager_AVR.h:210-213 | a completed write sent the whole buffer in one piece if and only if no arbitration was lost with bytes sent |
| `I2cRequests.StartsAreBounded` | I2CManager_NonBlocking.h:322-406 | in every run a request is started at most MAX_I2C_RETRIES + 1 times if the retry counter it found was at most 253, and never more than one time more |
| `I2cRequests.PayloadFollowsItsProlog` | I2CManager_NonBlocking.h:336-351 | in every run a muxed payload starts only directly after its own prolog succeeded |
| `I2cOutcomes.LeavesWithItsVerdict` | I2CManager_NonBlocking.h:264-398 | in every run a request leaves with TIMEOUT exactly if a transfer of it was under way, and otherwise with the status of its own last transfer that was not a deselection |
| `I2cOutcomes.EndsAsReported` | I2CManager_AVR.h:130-222 | in every run an interrupt ends a transfer exactly if it reports an error, a last byte received or a byte sent with nothing left, and the status is what it reports |
| `I2cOutcomes.StatusIsPosted` | I2CManager_NonBlocking.h:380-393 | in every run what a requester reads, unless it is pending, is the status its request last left with |
| `I2cOutcomes.CourseOfARequest` | I2CManager_NonBlocking.h:322-406 | in every run, what follows the end of a transfer: another attempt, the payload, the deselection, or leaving and the next request; and the retry counter |
| `I2cOutcomes.OverdueCourse` | I2CManager_NonBlocking.h:264-305 | an overdue request leaves and the next begins, with the retry counter as it was |
| `I2cOutcomes.BeginsAtOnce` | I2CManager_NonBlocking.h:195-210 | a request that finds the bus free begins at once |
| `I2cLimits.RetryCounterWraps` | I2CManager_NonBlocking.h:264-406 | a request can be started more than MAX_I2C_RETRIES + 1 times if and only if it finds the retry counter at 254 or 255, both of which runs leave behind |
| `I2cLimits.LostMeans` | I2CManager_AVR.h:130-222 | in any sequence of bus events bytes are lost exactly if arbitration is lost at some time after a byte was acknowledged |
| `I2cLimits.EveryByteCounts` | I2CManager_AVR.h:130-222 | in any sequence of bus events each acknowledgement sends one byte and each byte received is taken, while there is one to send or room for one |
| `I2cLimits.ShortExactlyWhen` | I2CManager_AVR.h:130-222 | a write that completes is short if and only if arbitration was lost after a byte of it went out |
| `I2cLimits.ShortWriteSucceeds` | I2CManager_AVR.h:210-213 | the run in which nothing of a write has gone out since the last start, and its status is OK |
| `I2cRepeats.PayloadRepeatsExactly` | I2CManager_NonBlocking.h:322-406 | in every run a payload that has succeeded begins again at a step if and only if its channel has just been selected anew, which follows a deselection if and only if that failed with the incremented counter at most MAX_I2C_RETRIES and retries allowed |
| `I2cRepeats.NoRepeatOtherwise` | I2CManager_NonBlocking.h:322-406 | in every run no payload that has succeeded begins again unless it goes through a multiplexer to a device, there is not just one multiplexer and retries are allowed |
| `I2cRepeats.EpilogFailureRepeatsPayload` | I2CManager_NonBlocking.h:371-373 | for every such request a run in which it does |
| `I2cRepeats.RepeatsIfAndOnlyIf` | I2CManager_NonBlocking.h:322-406 | a request that is accepted can have its payload sent again after it succeeded if and only if it is such a request |
| `I2cManager.ByteEngine.SendStart` | I2CManager_AVR.h:97-106 | counts restart, what is left does not |
| `I2cManager.ByteEngine.HandleByte` | I2CManager_AVR.h:130-222 | refines the byte-level machine; a byte received goes to its place in the receive buffer and nothing else changes there; all accesses are in range and what is on the line is the front of the send buffer |
| `I2cManager.RequestQueue.Append` | I2CManager_NonBlocking.h:201-206 | the chain stays acyclic, the tail is its last block |
| `I2cManager.RequestQueue.RemoveHead` | I2CManager_NonBlocking.h:382-385 | takes off the first block; the tail is cleared with the last |
| `I2cManager.I2CManager.StartTransaction` | I2CManager_NonBlocking.h:132-190 | refines the model |
| `I2cManager.I2CManager.QueueRequest` | I2CManager_NonBlocking.h:195-210 | refines the model; null reads are ignored; block statuses follow |
| `I2cManager.I2CManager.Finish` | I2CManager_NonBlocking.h:335-392 | the multiplexer phases and the status posted refine the model (`CourseOfARequest`, `StatusIsPosted`) |
| `I2cManager.I2CManager.Complete` | I2CManager_NonBlocking.h:327-398 | the retry decision refines the model |
| `I2cManager.I2CManager.HandleInterrupt` | I2CManager_NonBlocking.h:322-406 | refines the model |
| `I2cManager.I2CManager.CheckForTimeout` | I2CManager_NonBlocking.h:264-305 | refines the model |

## Left out

- Hardware: timers, ADC sampling, pins, Railcom cutout, I2C clock setting and bus recovery pulses.
- Wrap-around of `millis()` and `micros()` in timed claims; one time is used for all of a call of `scheduleNext`.
- The very first frame after power-up, a one-byte runt; the log of `DccTransmitter` starts with the first preamble.
- Weak memory: single stores of the main thread are taken to reach the interrupt in program order.
- LocoSlot, consists, momentum and the reminder walk: throttle requests come with their loco, direction and speed.
- Raw packets that bypass the queues, extended accessory packets and writes on the main track, beyond being packets that move no loco.
- EXRAIL opcodes that only call devices are opaque actions; a CALL is one in `ExrailCode`, and is followed in `ExrailTask`.
- `PacketLists.Scheduler.SendSpeed`: packets longer than a slot are excluded, because the copy in the source would overrun it; no caller sends one.
- `PacketLists.Scheduler.SendFunction`: packets longer than a slot are excluded for the same reason.
- `ExrailRoutes.TasksRunAsTheMachine`: tables with CALL or RANDOM_CALL are excluded, because `ExrailCode` leaves open what a call does; `StepLands` and `ReturnMatchesCall` say what it does.
- `ExrailTask.ProgramCounterIntegrity`: the counter of a task that has been killed is not specified, and tables are at most 65536 bytes, which is what 16-bit positions can tell apart.
- `ExrailRing.TaskRing.Create`: once there have been more than 256 tasks at a time ids are no longer claimed to be distinct (`ExrailCrowd` shows that they need not be); the emergency stop of a dying task's loco is not modelled.
- `AckWindDown.WindsDownProperly`: needs an orderly program; programming track power that starts in overload, and a second Setup before the first has called back, are not covered.
- `PacketLedger.BooksBalance`: requests are counted by packet, so two slots with the same bytes are not told apart.
- `PacketDrain.Drains`: reminders, which are requests that the main loop makes itself, are left out, and times end before the clock wraps.
- `EndToEnd.LockIsHeard`: what the scheduler sends and what the waveform is given are tied by a hypothesis, that the waveform has been given the emissions in order; the call between them blocks.
- `AckMachine.RunsEnd`: an operand executed as an operation counts as having left the program; fitting programs do neither.
- `AckPulse.AckMeansPulse`: a leading edge at time 0 is excluded.
- `I2cRequests.FirstComeFirstServed`: needs callers to wait for a request block before they queue it again, as the manager's own `write` and `read` do; the byte count reported to a reader is not modelled.
- Progress of the I2C manager: an interrupt while idle can leave it waiting, and is not excluded.
- Diagnostic output and counters, and the other I2C back ends.

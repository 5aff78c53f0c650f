# stm32ecm verification

A Dafny model of the firmware that makes an STM32F072 look like a USB network adapter, with proofs of what
its drivers are for. `dafny verify dfyconfig.toml` checks everything.

The model has five independent parts.

* **USB device controller** (`stm32f0xx_hal_pcd.c`, `stm32f0xx_hal_pcd.h`, `stm32f0xx_hal_pcd_ex.c`).
  `EndpointRegister` and `EndpointRaces` treat the 16-bit endpoint register, whose bits toggle, clear or hold
  when written, and the macros that write it, down to hardware events between a macro's read and its write.
  `PacketMemory` treats the copy loops and the receive-size encoding. `Pcd` gives every driver call and every
  branch of the endpoint interrupt handler as a function on whole states; `PcdHandle` is the driver as it
  runs, a class whose methods update registers, memories and structures in place, each proved equal to its
  function. `PcdRegisters`, `PcdInterrupt`, `PmaLayout`, `ControlEndpoint`, `InStream`, `OutStream`, `InChain`,
  `OutChain`, `DoubleBuffer` and `DeferredAddress` prove the properties; `UsbTraffic` says what host and
  hardware may do. `BringUp` shows that configuring and opening endpoints establishes the configuration the
  proofs start from, and `BufferAllocation` says which endpoints the shipped buffer addresses isolate.
* **Clock tree** (`stm32f0xx_hal_rcc_ex.c`): `ClockTree`, `ClockControl`. A class over the clock registers
  with hardware moves between any two accesses; a ghost trace holds every intermediate state, so a claim
  about the trace is a claim about every register write and every way out.
* **Time** (`time.c`, `stm32f0xx_hal.c`): `WrappingTime`, `SoftTimers`. The 32-bit counter against an
  unbounded clock, and the linked list of timers on the heap.
* **Receive handshake** (`main.c`, `usbd_ecm.c`): `ReceiveHandshake`, `EcmReassembly`. Interrupt and main loop
  interleaved at every access where interrupts are enabled.
* **GPIO** (`stm32f0xx_hal_gpio.c`): `Gpio`. Packed registers against per-pin records.

Applications and network stack are opaque: in the USB part a callback is any function from the device state
to a list of driver calls, and the timer callbacks and interrupts are nondeterministic.

## What the code does not do

Where a property is false of the code, the code is modelled as it is, and what holds is stated exactly.

* Start-up writes `=+` where it means `+=` (`usbd_conf.c:238-239`), so both directions of endpoint 0 and the
  network data going out share one packet buffer; the network data coming in and the notifications have
  their own: `BufferAllocation.ShippedLayoutOverlaps`, `BufferAllocation.NetworkDataReplacesAnswer`. Plain
  addition would not be enough either, because endpoint 0 adds before placing and the class after.
* A bus reset clears the address register but keeps a remembered address:
  `DeferredAddress.ResetKeepsStaleAddress`.
* `xfer_count` after a multi-packet OUT transfer is the last packet's size, not the total:
  `OutStream.RxCountIsLastPacket`.
* The macros that clear one CTR flag can lose the other: `EndpointRaces.ClearCtrLosesTheOtherFlag`.
* Opening an endpoint single buffered does not undo double buffering: `PcdRegisters.KindAfterOpen`.
* Clearing a stall makes an IN endpoint send again what lies in its buffer, and the driver clears one whenever
  the host asks (`usbd_ctlreq.c:261-265`): `BringUp.ClearedStallSends`.
* The first buffer of a double-buffered endpoint is never given a size: opening, receiving and transmitting
  program the second's only. So a packet received may exceed it: `DoubleBuffer.FirstCapacityIsLeftOver`; and one
  sent from it has the length packet memory happened to hold, by which the pointer moves whichever buffer was
  sent: `DoubleBuffer.SenderCountsOneBuffer`, `DoubleBuffer.SenderMovesByFirstCount`.
* The receive-size encoding wraps above 1024 bytes: `PacketMemory.RxEncodingHolds`.
* With the PLL fed from its fixed half of the internal oscillator, the value after reset, the oscillator's
  check does not protect it: `ClockControl.Rcc.OscConfig`. The frequency function does not know that input
  either and computes with the predivider: `ClockTree.ComputedIsReal`.
* Start-up leaves the requested state of the oscillator it switches to uninitialised:
  `ClockControl.Rcc.SystemClockConfig`.
* A timer re-armed by another timer's callback during a scan can fire at once:
  `SoftTimers.Scheduler.ScanRearmingLater`. `msleep` returns early when the counter wraps:
  `WrappingTime.Clock.Sleep`.
* The main loop can lose the receive credit for good: the driver makes the endpoint valid before it releases
  its lock, a renewal that an interrupt asks for in between is refused, and the main loop then stores "not
  refused" over the note of it: `ReceiveHandshake.GivingBackLosesCredit`,
  `ReceiveHandshake.RefusalCanBeOverwritten`, `ReceiveHandshake.NoCreditNoFrames`.
* A renewed configuration arms the endpoint again while a frame may still wait, which makes two credits:
  `ReceiveHandshake.ReconfigurationCredits`, `ReceiveHandshake.SecondCreditCostsAFrame`.
* After a frame was lost for want of a buffer, the next one starts in the wrong place of the reassembly
  buffer, and runs past its end if it starts too late: `EcmReassembly.FrameAsReceived`,
  `EcmReassembly.OverrunExactly`. If the lost frame's length was odd, the copy's first halfword store is
  misaligned, which this processor answers with a hard fault, whose handler never returns
  (`stm32f0xx_it.c:62-68`): `EcmReassembly.Ecm.ReceiveFrame`.
* Configuring a former interrupt pin as a plain one leaves its interrupt line armed:
  `Gpio.PlainModeKeepsLineArmed`.

## Hardware assumptions

* Endpoint register bits: CTR_RX 15 and CTR_TX 7 cleared by writing zero, DTOG 14 and 6 and STAT 13:12 and 5:4
  toggled by writing one, SETUP 11 read-only, EP_TYPE 10:9, EP_KIND 8 and EA 3:0 plain. A finished transaction
  raises CTR, flips the toggle and sets the status to NAK; a double-buffered OUT endpoint stays valid and stops
  while its two toggles are equal. A SETUP is accepted by a control endpoint that is not disabled, also while
  it answers NAK or STALL; it sets both statuses to NAK and both toggles to DATA1. That hardware drops a SETUP
  while a completion is pending is not relied on.
* A reset does not clear packet memory.
* A misaligned halfword access is a hard fault.
* The interrupt status register names some endpoint with a CTR flag; DIR is set if its CTR_RX is.
* Ready flags rise only for enabled oscillators, and every write to an enable bit takes effect, also when the
  oscillator is in use, which is what "goes off" in `ClockControl.Rcc.OscConfig` rests on. A requested clock
  switch takes effect at any moment or never; the flash may refuse a latency. The clock security system does
  not intervene.
* A busy-wait loop sees the tick at least once in 2^31 ms; in `WrappingTime` the bound is a parameter.

## Model

| member | source | states |
|---|---|---|
| EndpointRegister.DecodeOfEncode | stm32f0xx_hal_pcd.h:286-289 | every record of register fields is the reading of some register word |
| EndpointRegister.EncodeOfDecode | stm32f0xx_hal_pcd.h:286-289 | no bit of a register word is lost when it is read as fields: words and records correspond one to one |
| EndpointRegister.RaceRefinement | stm32f0xx_hal_pcd.h:300-518 | for every word read and every word present when the write arrives, the bits each macro writes have the stated effect on the fields |
| EndpointRaces.MacroRefinement | stm32f0xx_hal_pcd.h:300-518 | on a quiet register each macro changes the fields it is named after and no others; the address macro does so exactly when the old address has no bit outside the new one |
| EndpointRaces.FlagsAfterExecute | stm32f0xx_hal_pcd.h:356-508 | after a macro with any sequence of hardware events before its read and any between read and write, a CTR flag is set if and only if it was set or raised, except where the macro clears it or writes back the zero it read |
| EndpointRaces.NoLostEvent | stm32f0xx_hal_pcd.h:356-414 | over every sequence of macros that write ones to both CTR flags and every timing of any number of hardware events, no transfer event is lost and none appears |
| EndpointRaces.ClearCtrLosesTheOtherFlag | stm32f0xx_hal_pcd.h:483-486 | a concrete register where clearing CTR_RX loses a transmit completion arriving between its read and its write |
| EndpointRaces.StatusUnderRace | stm32f0xx_hal_pcd.h:356-388 | a status macro reaches its status if and only if hardware left that status alone meanwhile |
| EndpointRaces.OtherFieldsUnderRace | stm32f0xx_hal_pcd.h:300-518 | toggles, statuses and SETUP that hardware changes during a macro survive it unless the macro names them |
| PcdRegisters.CallRefinesUpdate | stm32f0xx_hal_pcd.c:835-1220 | for every register word, kind of endpoint and call, the macros the call issues amount to its intended update of named fields |
| PcdRegisters.OpenReadies | stm32f0xx_hal_pcd.c:835-931 | on register words: an opened endpoint has the type asked for and starts at DATA0, a sender with NAK, a single-buffered receiver valid and nothing of the other direction touched; a double-buffered one has its toggles apart |
| PcdRegisters.CloseStops | stm32f0xx_hal_pcd.c:939-1001 | a closed direction is disabled at DATA0; single buffered, the other one goes on |
| PcdRegisters.StallAnswers | stm32f0xx_hal_pcd.c:1142-1180 | a stalled direction answers STALL, on endpoint 0 both do, the toggles kept |
| PcdRegisters.TransferArms | stm32f0xx_hal_pcd.c:1012-1134 | starting a transfer makes that direction valid and keeps every other field, but for the buffer toggle of a double-buffered sender |
| PcdRegisters.ClrStallStartsAtData0 | stm32f0xx_hal_pcd.c:1188-1220 | USB 2.0 section 9.4.5: after clearing a stall that direction is at DATA0 and valid, everything else as before |
| PcdRegisters.KindAfterOpen | stm32f0xx_hal_pcd.c:873-902 | the double-buffer bit agrees with the structure after opening except when a double-buffered endpoint is reopened single buffered |
| PcdRegisters.AddressStaysOwn | stm32f0xx_hal_pcd.h:517-518 | over every run of calls, hardware events and interrupt service on register n, its address field is 0 or n |
| PcdRegisters.OpenAssignsAddress | stm32f0xx_hal_pcd.c:873-873 | so the address macro, which only ORs, assigns the address |
| PacketMemory.CopyHalvesIsSplice | stm32f0xx_hal_pcd.c:1273-1310 | a copy replaces exactly the target range, byte for byte in order |
| PacketMemory.CopyHalvesOutside | stm32f0xx_hal_pcd.c:1273-1310 | and never touches anything else, even at the end of memory |
| PacketMemory.WritePMA | stm32f0xx_hal_pcd.c:1273-1290 | the loop over moving pointers performs that copy into packet memory |
| PacketMemory.ReadPMA | stm32f0xx_hal_pcd.c:1299-1310 | the loop performs that copy out of packet memory |
| PacketMemory.WriteReadRoundTrip | stm32f0xx_hal_pcd.c:1273-1310 | reading back n written bytes returns them; at most the one byte that completes a halfword is touched besides |
| PacketMemory.RxEncodingIsLeast | stm32f0xx_hal_pcd.h:559-594 | for 1 to 1024 bytes the encoded capacity is the least even number, above 62 the least multiple of 32, that suffices, and the count field is zero |
| PacketMemory.RxEncodingHolds | stm32f0xx_hal_pcd.h:559-594 | the encoded capacity suffices if and only if at most 1024 bytes were asked for |
| PcdHandle.Handle.Issue | stm32f0xx_hal_pcd.h:286-289 | one macro on the real register updates exactly its endpoint's fields in the whole state |
| PcdHandle.Handle.Open | stm32f0xx_hal_pcd.c:835-931 | opening in place changes the whole state as its function says |
| PcdHandle.Handle.Close | stm32f0xx_hal_pcd.c:939-1001 | closing in place |
| PcdHandle.Handle.Receive | stm32f0xx_hal_pcd.c:1012-1057 | arming a reception in place, splitting off the first packet |
| PcdHandle.Handle.Transmit | stm32f0xx_hal_pcd.c:1077-1134 | starting a transmission in place, with the copy and the descriptor |
| PcdHandle.Handle.SetStall | stm32f0xx_hal_pcd.c:1142-1180 | stalling in place, both directions for endpoint 0 |
| PcdHandle.Handle.ClrStall | stm32f0xx_hal_pcd.c:1188-1220 | clearing a stall in place |
| PcdHandle.Handle.SetDeviceAddress | stm32f0xx_hal_pcd.c:810-826 | a zero address takes effect at once, any other is remembered |
| PcdHandle.Handle.ConfigurePma | stm32f0xx_hal_pcd_ex.c:96-132 | the buffer addresses of one direction, nothing else |
| PcdHandle.Handle.ServeControlIn | stm32f0xx_hal_pcd.c:346-368 | endpoint 0 after a sent packet, callback and deferred address included |
| PcdHandle.Handle.ServeControlSetup | stm32f0xx_hal_pcd.c:378-388 | endpoint 0 after a SETUP packet |
| PcdHandle.Handle.ServeControlOut | stm32f0xx_hal_pcd.c:390-407 | endpoint 0 after a data packet, armed again after the callback |
| PcdHandle.Handle.ServeReceived | stm32f0xx_hal_pcd.c:417-468 | another endpoint after a received packet, single or double buffered |
| PcdHandle.Handle.ServeSent | stm32f0xx_hal_pcd.c:470-522 | another endpoint after a sent packet |
| PcdHandle.Handle.EpIsrHandler | stm32f0xx_hal_pcd.c:327-526 | the loop ends for every choice of endpoints by hardware and every callback; it is some legal sequence of turns, leaves nothing pending and has dispatched every completion exactly once |
| PcdInterrupt.CallbackEffect | stm32f0xx_hal_pcd.c:358-359 | whatever calls a callback makes, no completion flag changes and its own event is the only one dispatched |
| PcdInterrupt.ServeEndpointOnce | stm32f0xx_hal_pcd.c:341-522 | a turn clears exactly the flags it serves, one direction for endpoint 0 and both elsewhere, and dispatches once for each |
| PcdInterrupt.LoopEnds | stm32f0xx_hal_pcd.c:335-525 | there are never more turns than flags set on entry |
| PcdInterrupt.TurnsConserve | stm32f0xx_hal_pcd.c:335-525 | at every point of the loop, dispatched plus pending is constant for every endpoint and direction |
| PcdInterrupt.DrainServesExactlyOnce | stm32f0xx_hal_pcd.c:335-525 | when nothing is pending any more, each completion pending on entry was dispatched once and nothing else was, SETUP stages included |
| PcdInterrupt.ReceivedComesFirst | stm32f0xx_hal_pcd.c:341-522 | what a turn reports first: a received packet before a sent one, and on endpoint 0 a SETUP as a SETUP |
| ControlEndpoint.SetupReachesBuffer | stm32f0xx_hal_pcd.c:378-388 | from a configured device, when the application is told of a SETUP the setup buffer holds exactly the bytes sent, xfer_count says how many, no other byte of user memory has changed but a completing one, and the flag is cleared |
| ControlEndpoint.DataReachesBuffer | stm32f0xx_hal_pcd.c:390-407 | when it is told of a data packet for endpoint 0, the packet stands where the pointer was and the pointer is behind it; after the callback nothing changes but the receive direction, which becomes valid, and its size |
| ControlEndpoint.ReadyForNextPacket | stm32f0xx_hal_pcd.c:404-405 | and then endpoint 0 takes the next packet of up to its packet size, whatever the callback did within the configuration |
| ControlEndpoint.SentMovesPointer | stm32f0xx_hal_pcd.c:346-368 | when it is told that a packet of endpoint 0 was sent, the pointer has moved by the size of what hardware sent, which is the count, and user memory is as it was; a remembered address is applied after the callback and nothing else happens |
| PmaLayout.StepSpared | stm32f0xx_hal_pcd_ex.c:96-132 | any transaction, call or interrupt turn keeps the configuration, and one that is not direction k's own leaves k's buffer, descriptor, structure and register half as they were if no other buffer overlaps k's |
| PmaLayout.Isolation | stm32f0xx_hal_pcd_ex.c:96-132 | the same over every run of traffic; the other buffers may overlap each other |
| PmaLayout.IdleRun | stm32f0xx_hal_pcd.c:335-525 | with nothing under way on a direction and no call on it, over runs of any length nothing starts on it and nothing is reported for it |
| BringUp.OneMoreDirection | stm32f0xx_hal_pcd.c:877-893 | assigning a buffer to one more direction and opening it adds it to the configuration and leaves the view of every direction whose buffer is its own as it was |
| BringUp.StartUpConfigures | stm32f0xx_hal_pcd.c:835-931 | from a device after reset, doing so for any directions with even, large enough buffers between the descriptor table and the end of packet memory establishes the configuration isolation and the stream theorems start from, if and only if the transmit counts left in packet memory fit those buffers |
| BringUp.ConfigureThenOpen | usbd_conf.c:235-242 | assigning all buffers first and opening all endpoints later comes to the same |
| BringUp.ClearedStallSends | stm32f0xx_hal_pcd.c:1205-1209 | clearing a stall arms an IN endpoint with whatever its buffer and count hold, and opening leaves the count as packet memory held it |
| BringUp.StallIsNoted | stm32f0xx_hal_pcd.c:1142-1220 | the structure notes the stall and its end, and nothing else outside the register changes |
| BufferAllocation.BackToBackIsolates | usbd_ecm.c:257-266 | buffers of even size placed one after the other isolate all their endpoints if and only if the last one ends inside packet memory |
| BufferAllocation.ShippedAddresses | usbd_conf.c:235-242 | the addresses start-up really configures |
| BufferAllocation.ShippedLayoutOverlaps | usbd_conf.c:238-242 | these give a buffer of its own to the network data coming in and to the notifications, and to no other direction |
| BufferAllocation.ShippedBringsUp | usbd_conf.c:235-242 | the shipped calls, all buffer assignments first, bring up exactly that layout |
| BufferAllocation.ShippedIsolation | usbd_conf.c:238-242 | so after the shipped start-up those two are isolated from whatever runs on the other endpoints |
| BufferAllocation.NetworkDataReplacesAnswer | usbd_conf.c:238-242 | queueing a network packet replaces every byte of a waiting answer on endpoint 0 |
| InStream.PacketsJoin | stm32f0xx_hal_pcd.c:1094-1103 | the packets of a transfer concatenate to the buffer |
| InStream.PacketSizes | stm32f0xx_hal_pcd.c:1094-1103 | all but the last are full, none is over-long, and one is empty if and only if the transfer is |
| InStream.TransmitStarts | stm32f0xx_hal_pcd.c:1077-1134 | starting a transfer leaves exactly its packets to be sent |
| InStream.HostTakesPacket | stm32f0xx_hal_pcd.c:1106-1110 | what hardware sends next is the next packet of the transfer |
| InStream.RecopyIsHarmless | stm32f0xx_hal_pcd.c:478-485 | copying an already sent packet to packet memory again changes nothing |
| InStream.DriverMovesOn | stm32f0xx_hal_pcd.c:470-522 | after an acknowledgement the end is reported if nothing is left, and otherwise exactly the rest is armed |
| InStream.ReportFollowsBuffer | stm32f0xx_hal_pcd.c:470-522 | when the application is told of the end, the pointer is behind the whole buffer and the count is the size of the packet sent last |
| InStream.TransferRun | stm32f0xx_hal_pcd.c:470-522 | over every run, what was sent and what is left always make up the packets of the transfer, and once it is reported nothing more is sent or reported |
| InStream.TransferDeliversBuffer | stm32f0xx_hal_pcd.c:1077-1134 | over runs of any length, whatever the rest of the device does, the host receives a prefix of the buffer's packets, DataIn is reported at most once and only after all of them, until then the transfer can go on, and afterwards the endpoint stays silent |
| InChain.ChainRun | stm32f0xx_hal_pcd.c:470-522 | over every run of transfer after transfer, what the host received and what is left of the one under way are the packets of all transfers started, and reports and the one under way account for every start |
| InChain.ChainDeliversBuffers | stm32f0xx_hal_pcd.c:1077-1134 | any number of transfers, each started by the callback that reports the one before or by a call: the host receives the packets of all buffers in order without gap or repetition, and DataIn is reported once for each, after its last packet |
| InChain.CanReport | stm32f0xx_hal_pcd.c:470-522 | no transfer gets stuck: from every state of one, hardware and interrupt alone can bring it to its report |
| OutStream.ReceiveStarts | stm32f0xx_hal_pcd.c:1012-1057 | arming a reception sets up a transfer of exactly that length |
| OutStream.RoomForChunk | stm32f0xx_hal_pcd.c:1012-1057 | hardware is told of room for the packet armed, and of no more than the rounding to blocks adds |
| OutStream.DriverTakesPacket | stm32f0xx_hal_pcd.c:417-468 | the end is reported exactly at a packet that is short or completes the length, and otherwise the rest is armed, with the packet in place either way |
| OutStream.ReportFindsPackets | stm32f0xx_hal_pcd.c:417-468 | when the application is told of the end, every packet is in the buffer already, the pointer is behind them and the count is the last one's |
| OutStream.ReceptionRun | stm32f0xx_hal_pcd.c:417-468 | that over every run, reports counted, with the packets in place ever after |
| OutStream.TransferFillsBuffer | stm32f0xx_hal_pcd.c:1012-1057 | USB 2.0 section 5.8.3: over runs of any length, whatever the rest of the device does, DataOut is reported at most once, at the first short or completing packet, and from then on the buffer holds the packets in order and nothing more arrives |
| OutChain.ReceptionChain | stm32f0xx_hal_pcd.c:417-468 | over every run of transfer after transfer, the packets the host sent are those of the transfers reported and of the one under way, each reported once, with its packets in place |
| OutChain.ChainFillsBuffers | stm32f0xx_hal_pcd.c:1012-1057 | any number of transfers: what the host sent falls into them in order, each ended by its first short or completing packet and found in the buffer it was started with |
| OutChain.CanFill | stm32f0xx_hal_pcd.c:417-468 | no transfer gets stuck: from every state of one, host packets of the armed size and the interrupt bring it to its report |
| OutStream.RxCountIsLastPacket | stm32f0xx_hal_pcd.c:1022-1022 | the pointer advances by the total, but the count is the last packet's, and equals the total if and only if there was one packet |
| DoubleBuffer.OpenOwns | stm32f0xx_hal_pcd.c:904-915 | opening gives the first buffer to hardware, if and only if no completion is pending |
| DoubleBuffer.OrderedDelivery | stm32f0xx_hal_pcd.c:432-453 | over every interleaving of hardware, service and EP_Receive, access by access: pending means equal toggles, the service reads the buffer filled last while hardware is stopped, packets are delivered in order, each once |
| DoubleBuffer.ServiceInOnePiece | stm32f0xx_hal_pcd.c:417-457 | those accesses, uninterrupted, are the driver's service: same register, buffer address and count taken from the buffer DTOG_RX has left, pointer and count moved by it |
| DoubleBuffer.BuffersPlaced | stm32f0xx_hal_pcd_ex.c:96-132 | one word names both buffers, and opening puts the two addresses where hardware looks for them |
| DoubleBuffer.FirstCapacityIsLeftOver | stm32f0xx_hal_pcd.c:1046-1050 | whatever calls are made on a double-buffered OUT endpoint, the capacity hardware goes by for its first buffer is what packet memory held before |
| DoubleBuffer.SenderCountsOneBuffer | stm32f0xx_hal_pcd.c:1077-1134 | a double-buffered sender's packet goes into the buffer DTOG_TX names and the other toggle hands it over, but its size is told for the second buffer only |
| DoubleBuffer.SenderMovesByFirstCount | stm32f0xx_hal_pcd.c:470-522 | after it was sent the pointer moves by the first buffer's count, whichever buffer it was, and the copy made again and the buffer given back are those of DTOG_TX |
| DeferredAddress.AppliedWasRequested | stm32f0xx_hal_pcd.c:352-366 | USB 2.0 section 9.4.6: over every run, each address applied is nonzero and the latest requested, with no other request and no application in between |
| DeferredAddress.RegisterChangesOnlyAtStatusStage | stm32f0xx_hal_pcd.c:810-826 | no step but a finished status stage changes the address register to anything but zero-enabled, and that one puts the remembered address there and forgets it |
| DeferredAddress.ResetKeepsStaleAddress | stm32f0xx_hal_pcd.c:555-560 | after a bus reset and any traffic without a request for an address, the first finished status stage moves the device to a stale address if and only if one was remembered at the reset |
| ClockTree.PllFrequency | stm32f0xx_hal_rcc_ex.c:124-127 | the PLL frequency the driver computes is input times multiplier over divider up to the truncation of the division, and fits 32 bits |
| ClockTree.ComputedIsReal | stm32f0xx_hal_rcc_ex.c:939-973 | it is the real one if and only if the PLL does not run from the fixed half of the internal oscillator, or the unused predivider happens to divide by two |
| ClockControl.Rcc.WaitFor | stm32f0xx_hal_rcc_ex.c:190-201 | a wait ends with the flag as wanted, or with it otherwise after more than the timeout has truly passed, wrap or not, and at most one polling gap later; hardware alone acts meanwhile |
| ClockControl.Rcc.ConfigureHse | stm32f0xx_hal_rcc_ex.c:172-236 | the external oscillator's stage never disturbs the running clock; success leaves the requested settings and means that on the trace the oscillator was seen off after the write that stops it and then, after the write that configures it, with the flag wanted, or that it is in use and was not ready to be refused; an error means a refusal of an oscillator in use; a timeout that more than this stage's limit has passed and the flag does not answer the enable bit; and the stage takes no longer than its waits |
| ClockControl.Rcc.ConfigureHsi | stm32f0xx_hal_rcc_ex.c:237-300 | the same for the internal oscillator, seen with the flag wanted after its enabling or disabling write, except that in the one case its check misses the clock is disturbed |
| ClockControl.Rcc.ConfigureLsi | stm32f0xx_hal_rcc_ex.c:301-342 | the same for the low-speed internal oscillator, which is never refused |
| ClockControl.Rcc.ConfigureLse | stm32f0xx_hal_rcc_ex.c:343-413 | the same for the low-speed external oscillator: the backup domain seen writable, then the oscillator seen off, then its flag as wanted |
| ClockControl.Rcc.ConfigureHsi14 | stm32f0xx_hal_rcc_ex.c:414-473 | the same for the converter's oscillator, which is not waited for when the converter controls it |
| ClockControl.Rcc.ConfigureHsi48 | stm32f0xx_hal_rcc_ex.c:477-532 | the same for the 48 MHz oscillator: success means its flag was seen as wanted after the write, or that it is in use |
| ClockControl.Rcc.ConfigurePll | stm32f0xx_hal_rcc_ex.c:534-604 | the same for the PLL: seen off, then its settings written, then it switched on and seen ready; an error if and only if it drives the system clock |
| ClockControl.Rcc.OscConfig | stm32f0xx_hal_rcc_ex.c:166-607 | for every request, timing and way out the chain feeding the system clock and its frequency are undisturbed in every intermediate state, unless the internal oscillator is switched off under the PLL's fixed-half input and the external oscillator's stage was passed, when it goes off; a PLL input of the driver's stays one unless the request names another; success leaves every field of the registers at the value requested, or as it was, and means that every requested stage saw on the trace what its row says; an error that some request was refused because of what is in use; a timeout that some requested oscillator has not answered for longer than its limit; and no call takes longer than the waits it was asked for |
| ClockControl.Rcc.ClockConfig | stm32f0xx_hal_rcc_ex.c:633-889 | if wait states suffice for the real clock on entry and the requested ones suffice for the result, they suffice in every intermediate state and on every way out, a late switch included; a successful call ends safe if and only if they do, with each field as requested or as it was; the switch is not tried unless the source was seen ready; an error means the flash refused the latency, or the source is not ready and was not selected; a timeout that hardware has not switched for more than its limit |
| ClockControl.Rcc.GetSysClockFreq | stm32f0xx_hal_rcc_ex.c:922-984 | the frequency of the source in use, by the formula ClockTree.PllFrequency and ClockTree.ComputedIsReal are about |
| ClockControl.Rcc.SystemClockConfig | stm32f0xx_hal_helper.c:31-52 | whatever the stack held, start-up ends at 48 MHz with one wait state when the switch succeeds; with both calls successful the oscillator is enabled if and only if an uninitialised field is not OFF |
| WrappingTime.DifferenceOfReadings | time.c:65-75 | the unsigned difference of two readings never exceeds the time between them, and equals it if and only if less than one wrap passed |
| WrappingTime.ExitIsNeverEarly | stm32f0xx_hal.c:341-348 | for every delay and however far apart the readings, the exit test never passes early, and within one wrap passes exactly when it should |
| WrappingTime.Clock.Delay | stm32f0xx_hal.c:341-348 | HAL_Delay never returns early, whenever it starts, and returns at the first reading that allows it |
| WrappingTime.Clock.Sleep | time.c:65-75 | msleep returns at the first reading after the end of the sleep or the wrap of the counter, whichever comes first; so never early if the counter cannot wrap during the sleep, and always if it wraps early enough to be seen |
| SoftTimers.DueIsNeverEarly | time.c:92-95 | a timer stamped no later than the scan's time passes the test only when its period has passed, and exactly then within one wrap |
| SoftTimers.RearmedByAnother | time.c:82-97 | a timer stamped after the scan took its time passes the test at once if and only if its period is at most the rest of the wrap, or zero |
| SoftTimers.Scheduler.ScanRearmingLater | time.c:78-99 | a scan whose first timer's callback runs the second: under exactly that condition the second fires in the same scan, before its period has passed |
| SoftTimers.Scheduler.Add | time.c:112-116 | puts an unlisted timer first and keeps the list acyclic and free of duplicates |
| SoftTimers.Scheduler.Init | time.c:101-110 | the same with cleared fields |
| SoftTimers.Scheduler.Free | time.c:118-143 | takes out exactly that timer, keeps the order of the rest, and does nothing if it is not listed |
| SoftTimers.Scheduler.Run | time.c:150-154 | activates with the present time as stamp, and keeps the timer's history honest |
| SoftTimers.Scheduler.Callback | time.c:96-96 | a timer's callback, whatever it does to its own timer, to unlisted and new ones, is what puts the firing on record: when it was called and came back, the stamp it counted from and the period then |
| SoftTimers.Scheduler.Fire | time.c:96-97 | a due timer's callback is called once, at least its period after its stamp, and the new stamp is taken when the callback has come back |
| SoftTimers.Scheduler.Scan | time.c:78-99 | the scan ends, looks at each timer listed on entry once, calls the callbacks of exactly the active due ones, once each, and stamps them anew afterwards, whatever callbacks do to their own timers, freeing and putting them back included, to unlisted timers and to new ones, and says what the list is then |
| SoftTimers.Scheduler.MainLoop | main.c:283-287 | over any number of scans, with any calls on any timers between them, each firing of a timer comes at least its period after the callback before it came back |
| ReceiveHandshake.CreditStep | main.c:77-91 | one receive credit stays one credit through every step but a store that overwrites a noted refusal, through which it is lost |
| ReceiveHandshake.NoCreditNoFrames | main.c:225-244 | without a credit nothing is received ever again |
| ReceiveHandshake.FramesInOrder | main.c:77-91 | in every interleaving within one configuration the credit is in exactly one place unless a refusal was overwritten, no chunk meets an occupied slot and each lands behind those before it; the frames received are the host's chunks joined up to and with each that is not full, and what is collected is the chunks since; frames are handled whole, in order, each once, losing only those without a buffer, and only a frame after a lost one starts elsewhere than at the beginning |
| ReceiveHandshake.LostFrameShiftsNext | main.c:82-87 | after a frame that found no buffer the next one is put behind it if the endpoint could be armed at once, and at the beginning if that was refused and made up for later |
| ReceiveHandshake.GivingBackLosesCredit | usbd_ecm.c:99-106 | giving the credit back loses it if and only if an interrupt asks for the endpoint between its becoming valid and the release of the lock, and no start of frame comes before the store |
| ReceiveHandshake.RefusalCanBeOverwritten | usbd_ecm.c:99-106 | a run from the first configuration in which a noted refusal is overwritten and the credit lost |
| ReceiveHandshake.ReconfigurationCredits | usbd_ecm.c:108-128 | a renewed configuration leaves two credits if and only if a frame is waiting or being handled and the driver is not locked, and none if and only if it comes under the lock after a refusal |
| ReceiveHandshake.SecondCreditCostsAFrame | main.c:77-80 | with two credits a frame that meets the occupied slot is dropped although there is a buffer for it |
| ReceiveHandshake.Receiver.RecvCallback | main.c:77-91 | the callback leaves the state the protocol says, the renewal at the stale index included |
| ReceiveHandshake.Receiver.DataOut | usbd_ecm.c:191-215 | the handler of a chunk is the chunk step of the protocol |
| ReceiveHandshake.Receiver.Sof | usbd_ecm.c:217-221 | the mop-up of a refused renewal is the start-of-frame step of the protocol |
| ReceiveHandshake.Receiver.ServiceTraffic | main.c:225-244 | the main loop's function, with interrupts wherever they are enabled, under the driver's lock too, takes steps of the protocol only and ends idle; a frame in the slot is handled, and never more than one |
| EcmReassembly.FrameAsReceived | usbd_ecm.c:191-215 | wherever its first chunk lands, the frame passed on is right except for that chunk, which is whatever the start of the buffer holds; it is intact if and only if that is the chunk, in particular if it landed at the start |
| EcmReassembly.FrameFits | usbd_ecm.c:191-215 | a frame of at most the segment size that starts at the beginning is passed on intact |
| EcmReassembly.OverrunExactly | stm32f0xx_hal_pcd.c:1299-1310 | memory behind the buffer is safe from every chunk of a length copied to a place if and only if the chunk, rounded up to halfwords as the copy does, ends inside the buffer |
| EcmReassembly.BehindTheBuffer | usbd_ecm.c:191-215 | what lies behind the buffer after a whole frame: what the copy of its first chunk moved there, and otherwise what was there |
| EcmReassembly.Ecm.Chunks | usbd_ecm.c:191-215 | driver and class over the chunks of a frame, copied halfword by halfword, leave the buffer those theorems speak of and pass on its beginning, unless the first copy is misaligned |
| EcmReassembly.Ecm.ReceiveFrame | usbd_ecm.c:191-215 | a whole frame as the code receives it: fatal if and only if armed at an odd place with a chunk that is not empty; otherwise right but for its first chunk, intact if armed at the start, and when it is lost the next one is armed where it ended |
| Gpio.PinsDetermineRegisters | stm32f0xx_hal_gpio.c:217-309 | the packed registers are nothing but the per-pin records and the bits of no pin |
| Gpio.CodeTells | stm32f0xx_hal_gpio.c:153-160 | the bit tests on the mode constants mean what the modes mean |
| Gpio.Driver.ConfigureOne | stm32f0xx_hal_gpio.c:217-309 | one turn of the loop configures that pin's record and leaves every other pin and bit |
| Gpio.Driver.ReleaseOne | stm32f0xx_hal_gpio.c:342-376 | one turn resets that pin, and its interrupt line only if routed to this port |
| Gpio.Driver.Init | stm32f0xx_hal_gpio.c:198-314 | for every port state, mask and legal settings exactly the masked pins' records are configured |
| Gpio.ConfiguredRegisters | stm32f0xx_hal_gpio.c:217-309 | on the registers, mode by mode: a configured pin has the mode's code, the pull, for outputs and alternates the speed and type, for alternates the function number, for line modes route, interrupt or event and edges as asked, and every field its mode does not set as it was |
| Gpio.OtherRegisters | stm32f0xx_hal_gpio.c:211-216 | a pin outside the mask keeps every field |
| Gpio.Driver.DeInit | stm32f0xx_hal_gpio.c:325-381 | exactly the masked pins are released |
| Gpio.ReleasedRegisters | stm32f0xx_hal_gpio.c:342-376 | on the registers: a released pin has every field of the port zero, and its line off if routed to this port and otherwise as it was |
| Gpio.UnionOfMasks | stm32f0xx_hal_gpio.c:198-314 | configuring a union of masks leaves the same registers as configuring the parts one after the other, in either order |
| Gpio.ReleaseAfterInit | stm32f0xx_hal_gpio.c:325-381 | releasing after configuring zeroes all port fields of those pins, restores every other pin, and releases an interrupt line if and only if it is routed here |
| Gpio.ArmedAfterInit | stm32f0xx_hal_gpio.c:265-309 | a configuration leaves a pin's interrupt line enabled if and only if it asks for an interrupt, or is plain and the line was enabled |
| Gpio.ArmedAfterRelease | stm32f0xx_hal_gpio.c:342-376 | a release leaves it enabled if and only if it was and is routed to another port |
| Gpio.PlainModeKeepsLineArmed | stm32f0xx_hal_gpio.c:265-309 | over any number of plain configurations the line stays as it was |

## Left out

- Streams over double-buffered IN endpoints, and stall clearing on double-buffered endpoints: EP_Transmit and EP_Receive program the count of one buffer only, so no stream claim holds; DoubleBuffer.SenderCountsOneBuffer and DoubleBuffer.SenderMovesByFirstCount say what one packet does.
- ControlEndpoint.SetupReachesBuffer: speaks of a turn that follows its transaction, as the other theorems of the module do; what other endpoints do in between is PmaLayout.Isolation.
- Interrupts inside a driver call, and HAL_LOCK: the endpoint structure is written before the lock is taken; calls are atomic with respect to the interrupt handler, except for hardware events, which EndpointRaces and DoubleBuffer place between any two register accesses, and for the renewal of the network reception, whose lock ReceiveHandshake models.
- The remaining interrupt sources of HAL_PCD_IRQHandler (suspend, wake-up, start of frame), connection, remote wake-up, HAL_PCD_Init and HAL_PCD_DeInit: single register writes.
- The members `num` and `is_in` of an endpoint structure: they always equal its place in the two arrays.
- Accesses outside memory and alignment: undefined in C; here they read zero or are ignored, and claims about data ask for the range they need.
- InStream.TransferDeliversBuffer: asks that nobody writes the user's buffer, or the byte after it, until the transfer is reported, that calls leave the endpoint alone, and that no callback starts another transfer on it, which InChain covers, or does anything else to it unless the run ends with that callback; the copy loop reads whole halfwords.
- OutStream.TransferFillsBuffer: asks the same of calls and callbacks, that the host keeps within the packet size and the length, and that one byte of memory follows the buffer, because the copy loop writes whole halfwords.
- PmaLayout.Isolation: covers configurations of single-buffered endpoints. With a double-buffered OUT endpoint nothing the driver does bounds what hardware writes to its first buffer, as DoubleBuffer.FirstCapacityIsLeftOver says.
- ClockControl.Rcc.OscConfig: asks that no clock switch is pending and that the running clock's internal oscillator is enabled.
- ClockControl.Rcc.SystemClockConfig: says whether the oscillator is enabled only when both calls succeed; the statuses are ignored by the code. The uninitialised fields of the PLL are values of their fields; the code ORs the raw words into the configuration register (stm32f0xx_hal_rcc.h:1054-1058), so other contents of the stack could also reach the clock switch and bus divider bits.
- The clock security system, calibration's effect on real frequencies, the tick reconfiguration after a clock switch, peripheral clock muxes, clock recovery and HAL_RCC_DeInit: register writes or analogue behaviour.
- WrappingTime.Clock.Delay: asks that a reading falls between the end of the delay and the wrap of the difference, which is so for every delay when the counter is read every millisecond; WrappingTime.ExitIsNeverEarly does not ask for it.
- WrappingTime.Clock.Sleep: asks that a reading falls between the end of the sleep and the wrap of the difference, as Delay does.
- WrappingTime.Clock.Read: does not model the retry of mtime when a tick arrives during the reading; a reading sees the count at some moment of the call. Which of the two tick handlers in the repository is linked is not part of this model.
- SoftTimers.Scheduler.Callback: a callback leaves the other timers of the list it was called from alone, as the timer claims assume; what happens otherwise is SoftTimers.Scheduler.ScanRearmingLater.
- ReceiveHandshake.FramesInOrder: covers one configuration by the host, in which no copy is misaligned as in EcmReassembly.Ecm.ReceiveFrame; ReceiveHandshake.ReconfigurationCredits says what another one does, and bus resets and the class's other endpoints are not part of this model.
- EcmReassembly.Ecm.ReceiveFrame: asks that the host keeps to the segment size its descriptor names; the class does not check it.
- Transmission of network frames, the USB device core, lwIP, pbuf reference counts, DHCP, DNS and HTTP: opaque.
- Reading and writing pins, locking pin configurations and the external interrupt handler of the GPIO driver: one-line accesses.

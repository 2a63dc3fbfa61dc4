# Verified model of the M720 BLE mouse receiver

The receiver is a Zephyr module that pairs a Logitech M720 with a ZMK keyboard, reads its HID report
map, subscribes to its input reports, and turns each report into input events. This project models
the receiver's five stateful parts in Dafny and proves what their C code keeps over every run. It
also says exactly when a promise of the code fails.

`dafny verify dfyconfig.toml` checks everything.

## The parts

**Output stream** (`src/mouse_output.c`, `src/button_state.c`). Reports, endpoint changes and
disconnections reach one worker through a bounded queue, an epoch counter and a one-slot reset
mailbox.

- `ButtonState` has the forwarded and suppressed masks.
- `MouseOutput` has packets and the cutting of a large delta into at most 32 of them.
- `OutputStream` has the shared variables and the worker undisturbed.
- `OutputPipeline` has every interleaving of producers and worker: each locked section, queue get,
  unlocked epoch read, packet and submission is one step.
- `OutputMotion` follows each report's motion through every interleaving to its packets.
- `OutputAlone` proves that the interleaved worker, left alone, does what the class does.

**HID reports** (`src/hid_parser.c`). A subset of section 6.2.2 of the USB Device Class Definition
for Human Interface Devices, version 1.11.

- `HidParser` is the parser as a fold over items; `HidParserLoop` is the C loop over an array, filling
  a layout in place, proved equal to the fold.
- `HidInvariant`, `HidSummary`, `HidInsertion` and `HidRefusals` say what holds of every descriptor.
- `HidDescribe` is the inverse direction: it writes descriptors, with collections one inside the other and
  Input items of every kind, whose usages are listed, given as a range, or repeated. `HidReadBack`,
  `HidAccept` and `HidDescriptors` prove that the parser reads them back, and refuses exactly what is beyond
  its limits; `HidFixture` is the mouse of the repository's tests.
- `HidDecode` and `HidRoundTrip` extract fields, and say when the saturated sums are exact.
- `HidWide` and `HidOverflow` are two families of descriptors, one at each side of a limit.

**Client** (`src/ble_mouse.c`).

- `MouseClient` is the life of a connection: pairing window, bonds, failure, Clear, retry.
  `ClientRuns` has the invariants, `ClientProperties`, `ClientCauses`, `ClientSafety`, `ClientLooking`,
  `ClientTending` and `ClientClearing` the promises, and `ClientHandlers` the handlers updating the client's
  variables in place, each turn of which is one step of the machine.
- `ClientOrder` adds the order of the work queue and the state of the link, for the runs that break a
  promise; `ClientSuccess` has the runs that keep it: pairing, coming back and forgetting.
- `GattDiscovery`, `GattSetup`, `GattCoverage` and `GattSetupRuns` take one connection from service
  discovery to READY; `GattSetupClient` has those handlers in place. `GattReferences` says which reports are
  subscribed to and what is written. `GattPeer`, `GattTalk` and `GattReady` set up a peer that answers what it
  is asked, in whatever parts, and say exactly which peers reach READY; `GattFixture` is one of them.
- `ClientSetup` runs both machines together; `ClientOutput` runs the client with the output stream, and has
  the notifications that feed it; `ClientMotion` follows their motion to the listener.
- `AdvertCache` and `AdvertRuns` compare the eight-slot table of advertisers with unbounded memory.

**Radio coordinator** (`src/central_scan.c`). `CentralScan` has the two threads at the granularity of
single atomics, with the work they schedule; `CentralScanHandlers` has the handlers in place, each equal
to its thread run alone.

**Bond storage** (`src/bond_compat.c`). `BondCompat` has the two record formats.

`Bits`, `Masks` and `HidMap` hold what the others share.

## Choices

- A state machine has one total `Step`; an action that cannot happen leaves the state alone. Theorems
  are about every sequence of actions, or about every state that satisfies the invariant.
- `Client` and `Setup` steps are whole handlers; a work item runs only while it is due, and a delayed
  one fires at any time once scheduled. For what holds in every run the order of the work queue is left
  open. So is every answer of the Bluetooth host and of the settings. A run that shows that something
  does happen keeps the queue first in, first out, and reports only what the state of the link allows.
- Work of the coordinator is scheduled or not; how long it waits is left open. `scan_wanted` is set only by
  the retry, on the worker, and may be cleared by the client at any moment.
- A connection is attempted when the coordinator serves the request in its mailbox, which a wanted
  advertisement or a retry with a saved peer has posted. A connection is reported only while automatic
  connection is on (`armed`); an accepted disconnection is owed until it is reported (`owed`).
- What a handler does is stated once as a function of the state. The class methods that run it in
  place, with its loops, are proved equal to that function.
- History (sent packets, leaked bonds, operations and writes) is recorded beside the state and read by
  nothing in the program.
- C integers are mathematical ones; where the width matters it is in the type (`int32`, `u32`, `byte`,
  `bv8`) or written out. `|`, `^` and shifts of the parser are defined bit by bit in `Bits`.
- Times of advertisements start at 1, because an unused slot reads as seen at time 0.

## What turned out not to hold as promised

- *An idle output worker is always drained* fails for an endpoint change before
  `zmk_ble_central_scan_init`: the submission is dropped. It holds exactly unless the last submission
  came before initialization (`OutputPipeline.NoLostWakeUp`, `OutputPipeline.MissedWakeUpHappens`).
- *Each unsuccessful attempt leaves the bonds as they were* fails when a failed connection event is
  handled after the candidate has bonded, and when the host refuses to unpair. It holds exactly
  otherwise (`ClientProperties.AttemptRestores`, `ClientOrder.LeakHappens`).
- *The client keeps looking for its saved mouse* fails after a Clear that runs without a connection and
  cannot unpair, and then only if no retry, no failure and no Pair is due, each of which would scan again.
  It holds exactly otherwise (`ClientLooking.LooksExactly`). Such a Clear, running between a retry and the
  request that the retry has posted, leaves nothing scheduled at all, until Pair is pressed
  (`ClientOrder.StallHappens`).
- *A failed connection is let go* fails when the host refuses to disconnect while no disconnection is owed
  and nothing else is due that takes the connection up: its own timer or events, the pairing window's timer
  for a candidate, or a Clear being held. If that Clear is the last of these, releasing its key abandons
  the connection too. It holds exactly otherwise (`ClientTending.TendedExactly`). So a saved mouse that is
  not reached in time is left held, with nothing due, queued or requested, until the host reports something
  of itself or Clear is held (`ClientOrder.AbandonHappens`).
- *No scan while the split link settles* needs the stop call to succeed; a failed stop restores
  `scan_owned`. With both threads at rest the module scans on exactly while the flag stands restored
  (`CentralScan.SettlingYields`, `CentralScanHandlers.FailedStopKeepsScanning`).
- *A link that settles is let settle* fails when a connection changes between the registration of the
  callback and the end of initialization: the flag is set, and the work that clears it is not scheduled. It
  holds exactly otherwise, and until the next changed connection the module never scans
  (`CentralScan.SettlingEnds`, `CentralScanHandlers.LostSettlingHappens`).
- *Decoding is exact* holds for an axis exactly when the extreme values of its fields sum within an
  `int32_t`. Fields of up to 26 bits always do; seventeen unsigned 27-bit ones, which the parser
  accepts, do not (`HidRoundTrip.ExactIff`, `HidWide.WideIsExactUpTo16`).
- *An axis flag means a field on that axis* holds for every accepted layout, but the parser raises the
  flag before it finds the field table full. A field keeps it exactly unless the table is full and the
  flag is not up yet (`HidSummary.AddFieldKeepsAxesExactly`). Over a whole descriptor at most one flag
  outruns the fields so, and the parse ends there with E2BIG (`HidSummary.ParseKeepsAxes`). The refused
  layout is then left with a flag and no field (`HidOverflow.OverflowRaisesFlag`, `HidOverflow.OverflowHappens`).

## Model

| member | source | states |
|---|---|---|
| ButtonState.Tracker.Update | src/button_state.c:4-14 | updates both masks in place and returns the edges, equal to the functions that the trace theorems are about |
| ButtonState.Tracker.Reset | src/button_state.c:16-21 | releases what was forwarded and suppresses what is held, in place |
| ButtonState.UpdateIsConsistent | src/button_state.c:4-14 | after an update forwarded and suppressed are disjoint, together exactly the buttons down, and nothing becomes suppressed |
| ButtonState.ForwardedMeaning | src/button_state.c:4-21 | after any trace a button is forwarded iff the last operation is an update with it down and it has not been held ever since the last reset |
| ButtonState.SuppressedMeaning | src/button_state.c:4-21 | a button is suppressed iff it was held at the last reset and in every update since |
| ButtonState.EdgesAlternate | src/button_state.c:4-21 | presses and releases of a button strictly alternate, starting with a press, and it is down iff forwarded |
| MouseOutput.SendPacket | src/mouse_output.c:30-60 | the two loops and the sync marking give the packet of the specification |
| MouseOutput.PacketMeaning | src/mouse_output.c:30-60 | a packet presses and releases exactly its edges, moves by exactly its motion, holds nothing else and syncs once, on its last event |
| MouseOutput.SendFrame | src/mouse_output.c:73-96 | the loop sends the packets of the specification for any epochs read on the way, and updates the buttons once |
| MouseOutput.DeltaConserved | src/mouse_output.c:73-96 | delivered plus remaining is the original delta after every packet and on every axis, with no int32 overflow |
| MouseOutput.DeliveredSoFar | src/mouse_output.c:73-96 | every packet moves by at most 32767 in x and y and 127 on the wheels, and after j packets each axis has moved by its delta, or by j times that most in the delta's direction if the delta is beyond it |
| MouseOutput.DeliveredInFull | src/mouse_output.c:73-96 | with the epoch unchanged the whole delta is delivered, or as much of it as the packets may carry in its direction |
| MouseOutput.FrameMeaning | src/mouse_output.c:73-96 | packet k moves by the k-th chunk, only packet 0 has edges, and each non-empty packet syncs once, last |
| OutputStream.Stream.Receive | src/mouse_output.c:111-132 | queues the record with the current epoch, or on overflow purges, opens a new epoch and posts a reset to the reported buttons |
| OutputStream.Stream.ResetStream | src/mouse_output.c:134-148 | opens a new epoch, purges, and posts a reset to the physical buttons, or to none when disconnected |
| OutputStream.Stream.OutputWork | src/mouse_output.c:62-109 | undisturbed, the worker applies the mailbox first, then sends every queued frame in order, leaving both empty |
| OutputPipeline.EpochStep | src/mouse_output.c:62-148 | every step keeps the relation between the epochs of the queue, the frame in hand, the mailbox and the applied reset |
| OutputPipeline.TargetStep | src/mouse_output.c:62-148 | every step keeps: what the buttons will be once all is sent is exactly what is physically down |
| OutputPipeline.NetStep | src/mouse_output.c:62-148 | every step keeps: the listener's presses minus releases of a button are one iff it is forwarded, up to a packet about to start |
| OutputPipeline.SettledState | src/mouse_output.c:62-148 | in every interleaving, once nothing waits and the worker is idle: forwarded and suppressed are disjoint, together exactly the physical buttons, and the listener's net count equals forwarded |
| OutputPipeline.NoLostWakeUp | src/mouse_output.c:98-148 | waiting work always has a submission, a producer about to submit, or a worker check to come; an idle system is drained iff no submission was dropped |
| OutputPipeline.MissedWakeUpHappens | src/central_scan.c:17-19 | the dropped submission does happen: an endpoint change before initialization waits for ever |
| OutputPipeline.StaleFramesStop | src/mouse_output.c:73-142 | every queued record carries the current epoch, and after any reset or overflow at most one packet of an earlier frame still starts |
| OutputPipeline.ResetBeforeFrame | src/mouse_output.c:62-109 | no packet of a frame starts before the reset that opened its epoch has reached the buttons |
| OutputMotion.FramesCarryTheirReports | src/mouse_output.c:73-132 | in every interleaving the frames sent are those of different reports in the order of their receipt, each packet by packet has carried its own report's motion so far, and nothing else has moved the listener |
| OutputMotion.DrainedMotion | src/mouse_output.c:73-142 | once the worker is idle with nothing waiting, every report since the last reset or overflow has been given its whole frame's motion on each axis; without any, the listener has been moved by exactly the sum over all reports received |
| OutputMotion.SinceTheStart | src/mouse_output.c:111-148 | that no purge has happened means: no reset, and no report that found the queue full |
| OutputAlone.WorkerAlone | src/mouse_output.c:98-109 | the worker of the interleaving machine, left alone, ends in the state and sends the events that OutputWork promises |
| HidParser.SignedBitsInverts | src/hid_parser.c:32-38 | sign extension inverts truncation for every width 1 to 32 and every value of the signed range |
| HidParserLoop.UnsignedItem | src/hid_parser.c:24-30 | joining bytes with shifts and `OR` gives their little-endian value |
| HidMap.ReportIndex | src/hid_parser.c:51-58 | the first report with the id, or none |
| HidParserLoop.LayoutBuffer.InputItem | src/hid_parser.c:60-127 | the in-place Input item, with its early exits, leaves the layout and the result of the specification |
| HidParserLoop.ParseDescriptor | src/hid_parser.c:129-234 | the loop over the array gives the result and the layout of the fold over items, accepted or not, and refuses null and wrong lengths untouched |
| HidInvariant.ParseWellFormed | src/hid_parser.c:60-234 | for every byte string the layout has at most 8 reports with distinct ids and 48 fields of width 1 to 32, inside reports of at most 512 bits, disjoint and increasing |
| HidSummary.AcceptedLayoutTells | src/hid_parser.c:95-124 | an accepted layout has X and Y, and each flag and button mask says exactly what the fields hold |
| HidSummary.AddFieldKeepsAxesExactly | src/hid_parser.c:95-124 | a field keeps "each axis flag says what the fields hold" iff not: the table is full and the flag of its axis is not up yet |
| HidSummary.ParseKeepsAxes | src/hid_parser.c:95-124 | for every descriptor, accepted or not, each axis flag says what the fields hold, or the parse ended with E2BIG at a full table and exactly one flag is up without its field |
| HidOverflow.OverflowRaisesFlag | src/hid_parser.c:95-124 | any descriptor of 48 fields followed by a first field of another axis is refused and leaves that flag up with no field behind it |
| HidOverflow.OverflowHappens | src/hid_parser.c:95-124 | there is such a descriptor: 48 buttons, then X |
| HidInsertion.ParseSplits | src/hid_parser.c:138-229 | parsing is compositional at item boundaries |
| HidInsertion.InsertLongItem | src/hid_parser.c:140-146 | a well-formed long item anywhere between items changes neither result nor layout of the parse |
| HidInsertion.InsertPushPop | src/hid_parser.c:178-189 | Push, any valid balanced Global items, Pop change neither result nor layout of the parse, given room on the stack |
| HidInsertion.LongItemKeepsResult | src/hid_parser.c:129-146 | the same of what `mouse_hid_parse` returns and leaves, both descriptors being of acceptable length |
| HidInsertion.PushPopKeepsResult | src/hid_parser.c:129-189 | likewise for Push, Global items and Pop |
| HidDescriptors.DescribeRoundTrip | src/hid_parser.c:60-234 | whatever collections and Input, Output and Feature items a descriptor describes, the parser yields exactly those reports and fields, each behind all earlier Input items of its report, constant and array items counted in full; it accepts iff every element is within its limits, every collection is closed, and X and Y are among the fields, and ENOTSUP means that only an axis is missing |
| HidAccept.InputAdds | src/hid_parser.c:60-127 | one Input item of any kind adds exactly its fields behind all the bits of its report, and its own bits; beyond the limits on size, count, bits, reports or fields, and only there, it is refused |
| HidReadBack.SlotUsage | src/hid_parser.c:40-49 | each slot has the usage that is listed for it, or its place in the range, or the last one listed, or none |
| HidReadBack.TooManyUsages | src/hid_parser.c:193-199 | a thirty-third listed usage is refused |
| HidFixture.FixtureParses | tests/fixtures/hid_reports.h:6-23 | the mouse of the repository's tests is accepted, with X at bit 8 behind five ranged buttons and three constant bits, its vendor report of 160 bits, and Back and Forward as buttons four and five of a third report |
| HidRefusals.RefusedExactly | src/hid_parser.c:158-216 | but for Input items, exactly these items are refused, each with its error, and leave the layout alone |
| HidRefusals.ItemScope | src/hid_parser.c:158-229 | a Main item ends the Local state and opens or closes one collection at most; Global and Local items change their own state only |
| HidRefusals.CutShortIsRefused | src/hid_parser.c:140-153 | a descriptor cut short within an item, long or short, is refused with the layout of the items before |
| HidRefusals.EndExactly | src/hid_parser.c:230-233 | at its end a descriptor is accepted iff no collection is open, nothing is pushed, and X and Y have been seen |
| HidRefusals.InsertIgnored | src/hid_parser.c:158-203 | any other Global, Local or reserved item between two items changes neither result nor layout |
| HidDecode.ExtractField | src/hid_parser.c:236-244 | assembling a field bit by bit gives its signed or clamped value |
| HidDecode.Decode | src/hid_parser.c:251-284 | the error of each refused call, a null map and a null report among them, with the frame untouched, else the decoded fields, all of them inside the report |
| HidDecode.ButtonsDecoded | src/hid_parser.c:276-280 | a decoded button is down iff some field of the report for it is not zero |
| HidRoundTrip.WriteFieldElsewhere | src/hid_parser.c:236-244 | writing one field leaves every field outside its bits as it was |
| HidRoundTrip.ReportRoundTrip | src/hid_parser.c:236-284 | for any well-formed layout, in-range values written to all fields of a report are all read back, an unsigned one above INT32_MAX as INT32_MAX |
| HidRoundTrip.ExactIff | src/hid_parser.c:246-282 | an axis decodes to its mathematical sum for every report iff the extreme values of its fields sum within an int32 |
| HidRoundTrip.SaturatesAtEnd | src/hid_parser.c:246-282 | fields that all push an axis one way add up to their sum, or stop at that end of the int32 range |
| HidRoundTrip.NarrowIsExact | src/hid_parser.c:246-282 | with fields of at most 26 bits no report saturates |
| HidWide.WideIsExactUpTo16 | src/hid_parser.c:246-282 | one bit more is too much: a descriptor of n unsigned 27-bit X fields and a Y field is accepted, and its X axis is exact iff n is at most sixteen |
| AdvertCache.Record | src/ble_mouse.c:259-284 | one pass over the table finds the live entry or the oldest slot and updates it in place as specified |
| AdvertRuns.NamedExactly | src/ble_mouse.c:233-240 | the names that count are shortened (8) or complete (9) ones whose first four bytes are "M720" |
| AdvertRuns.TrackerIsExact | src/ble_mouse.c:242-285 | with unbounded memory a connection is decided iff an ADV_IND and an M720 name of that address lead up to it with every gap under 2000 ms |
| AdvertRuns.ConnectIsJustified | src/ble_mouse.c:259-284 | every decision of the eight-slot table is justified so, however many devices advertise |
| AdvertRuns.TableRefinesTracker | src/ble_mouse.c:259-284 | with at most eight addresses in any window the table decides exactly as unbounded memory would |
| GattDiscovery.Session.OnCharacteristic | src/ble_mouse.c:315-335 | closes the last open range, notes the characteristic, and refuses a thirteenth report |
| GattDiscovery.Session.OnDescriptor | src/ble_mouse.c:336-348 | the loop notes the descriptor in every report whose range holds it |
| GattDiscovery.FullExactlyBeyondTwelve | src/ble_mouse.c:327-334 | a listing is refused iff it has more than twelve report characteristics |
| GattDiscovery.RangesFound | src/ble_mouse.c:315-335 | for an ordered listing each report gets its value handle and the range up to the next declaration or the end of the service |
| GattDiscovery.RangesDisjoint | src/ble_mouse.c:315-341 | the descriptor ranges of two reports never meet |
| GattDiscovery.DiscoveryFindsDescriptors | src/ble_mouse.c:308-350 | after both discoveries each report has the last report reference and the last client configuration inside its range |
| GattDiscovery.HandlesFound | src/ble_mouse.c:320-326 | the report map, protocol mode and control point are the values of the last such characteristics |
| GattSetupClient.SetupClient.DiscoveryWork | src/ble_mouse.c:491-606 | the worker, with its skipping loops and the parse in place, does the step of the machine |
| GattSetupClient.SetupClient.CharacteristicCallback | src/ble_mouse.c:315-335 | does the step of the machine in place |
| GattSetupClient.SetupClient.DiscoveryEndedCallback | src/ble_mouse.c:293-307 | does the step of the machine in place |
| GattSetupClient.SetupClient.ReadDataCallback | src/ble_mouse.c:361-391 | appends a part of the map or reference to its buffer, or fails when it does not fit |
| GattSetupClient.SetupClient.ReadEndedCallback | src/ble_mouse.c:369-391 | does the step of the machine in place |
| GattSetupClient.SetupClient.SubscribedCallback | src/ble_mouse.c:423-449 | counts the subscription and, looping over the fields, marks what the report carries |
| GattCoverage.MarkButtonsMeans | src/ble_mouse.c:435-445 | marking a report adds exactly the buttons of its fields |
| GattCoverage.MarkAxesMean | src/ble_mouse.c:435-445 | marking a report adds exactly the axes of its fields |
| GattCoverage.FullMasksExactly | src/ble_mouse.c:463-464 | the masks are full iff every button and axis is among the subscribed fields |
| GattSetupRuns.WorkAdvances | src/ble_mouse.c:491-606 | every call of the worker keeps the invariant and lowers the measure (stages to come, reports to go), or fails |
| GattSetupRuns.CallbackAdvances | src/ble_mouse.c:287-460 | every callback that ends a request does too |
| GattSetupRuns.DeliveryDelivers | src/ble_mouse.c:315-391 | a callback that brings part of a response changes neither the measure, the request nor the count, or fails |
| GattSetupRuns.SetupBounds | src/ble_mouse.c:287-606 | in every run at most one request is awaited, index ≤ count ≤ 12, at most 30 operations are issued, and short of READY or failure something is always due or awaited |
| GattSetupRuns.SetupEnds | src/ble_mouse.c:287-606 | whatever the peer answers, at most 183 effective steps lead to READY or failure |
| GattSetupRuns.ReadyMeansCovered | src/ble_mouse.c:462-489 | READY is reached only with the layout accepted for the map read, some subscribed report, and all five buttons and four axes among the subscribed fields |
| GattSetupRuns.FinishExactly | src/ble_mouse.c:462-467 | at the end of the reports set-up succeeds iff the subscribed fields are complete and the peer is admitted |
| GattSetupRuns.FailureIsFinal | src/ble_mouse.c:352-460 | an error response to what is awaited, and an abandonment, fail the set-up for good |
| GattReferences.ReferencesAreBytes | src/ble_mouse.c:374-390 | in every run each report that has a reference is known by exactly the two bytes delivered for it, first the id and then the type |
| GattReferences.SubscribedExactly | src/ble_mouse.c:577-600 | a run that ends READY has subscribed to exactly those reports of the accepted layout that hold a field and that some reference, as it was delivered, names as an input report |
| GattReferences.ReportProtocolSelected | src/ble_mouse.c:549-576 | before any subscription a peer with a Protocol Mode has been written the report protocol, with a response iff it takes no write without one, after 1 to its control point; nothing else is ever written |
| GattReady.NeverFails | src/ble_mouse.c:287-606 | however the answers of an M720 arrive, its set-up never fails |
| GattReady.ReachesReady | src/ble_mouse.c:287-606 | from wherever it is, a conversation with an M720 can be carried on to READY |
| GattReady.ReadyExactly | src/ble_mouse.c:287-606 | a peer that answers what it is asked, of the handles it is asked for, can be brought to READY iff its listing, accepted report map, two-byte references and client configurations cover all buttons and axes and it may be adopted |
| GattFixture.M720ReachesReady | src/ble_mouse.c:287-606 | there is such a peer: the mouse of the repository's tests, with three reports of which one is of no use |
| ClientHandlers.MouseState.ConnectMouse | src/ble_mouse.c:182-223 | verdict and new state of an attempt, in place |
| ClientHandlers.MouseState.ConnectedWorkRun | src/ble_mouse.c:608-642 | new state, in place, for each answer of the host |
| ClientHandlers.MouseState.DisconnectedWorkRun | src/ble_mouse.c:656-677 | unpairs only a bonded candidate, drops the connection, forgets on request and schedules the retry |
| ClientHandlers.MouseState.FailureWorkRun | src/ble_mouse.c:146-165 | closes, or drops at once what is not connected, or returns to idle |
| ClientHandlers.MouseState.FinishReady | src/ble_mouse.c:462-489 | adopts and saves a bonded candidate, or fails |
| ClientHandlers.MouseState.RetryWorkRun | src/ble_mouse.c:124-137 | whether to scan, and the connect request posted for a saved peer, in place |
| ClientHandlers.MouseState.PairTimeoutRun | src/ble_mouse.c:173-180 | closes the window, fails a candidate, rescans |
| ClientHandlers.MouseState.PairWorkRun | src/ble_mouse.c:745-764 | opens the window if there is no mouse and a free slot |
| ClientHandlers.MouseState.Forget | src/ble_mouse.c:773-794 | forgets the peer unless the host refuses to unpair |
| ClientHandlers.MouseState.ClearWorkRun | src/ble_mouse.c:796-808 | a held Clear fails a connection, or forgets at once |
| ClientHandlers.MouseState.PairingCompleteCallback | src/ble_mouse.c:700-707 | the candidate counts as bonded iff it is, else the connection fails |
| ClientHandlers.MouseState.SecurityCallback | src/ble_mouse.c:688-698 | set-up starts on encryption |
| ClientHandlers.MouseState.ConnectWorkRun | src/central_scan.c:87-94 | serves the request in the mailbox with an attempt, unless its own scan cannot be stopped |
| ClientHandlers.MouseState.Handle | src/ble_mouse.c:124-826 | for everything that may happen next, the handlers in place take the step of the machine and keep its invariant |
| ClientRuns.PerformKeepsCore | src/ble_mouse.c:124-223 | every handler keeps the window invariant and the link between stage and connection |
| ClientRuns.PerformKeepsBonds | src/ble_mouse.c:608-794 | every handler keeps the account of the bonds |
| ClientRuns.RunKeepsInv | src/ble_mouse.c:124-826 | the whole invariant holds in every run |
| ClientProperties.CandidateOnlyInWindow | src/ble_mouse.c:124-223 | a candidate's connection neither failed nor closing means an open window with its timer running; wanting to scan means no connection and a peer or a window; no connection iff idle; a failure is always being handled; a saved mouse means no window and no such timer |
| ClientProperties.AdoptedOnlyInWindow | src/ble_mouse.c:462-489 | a peer is adopted only at the end of set-up, inside the window, bonded and saved, and otherwise never changes |
| ClientProperties.LegacyExactlyForCandidate | src/ble_mouse.c:70-82 | legacy pairing is allowed exactly for the connection of this attempt's candidate, unfailed and before set-up; that candidate is bonded to nobody else, and the window's timer runs |
| ClientProperties.LegacyWhileConnecting | src/ble_mouse.c:70-82 | inside connect_mouse, before the connection has been looked up, it is allowed exactly for the address being connected to, unless that is the saved mouse; nobody is bonded to it |
| ClientProperties.BondsAccounted | src/ble_mouse.c:182-223 | every bond is somebody else's, leaked, or the mouse's own, and the client never touches the others' |
| ClientProperties.LeaksExactly | src/ble_mouse.c:608-677 | a step leaks a bond iff it gives a bonded candidate up without unpairing it |
| ClientProperties.AttemptRestores | src/ble_mouse.c:656-677 | an attempt that ends unadopted leaves the bonds as the others have made them iff it does not leak |
| ClientProperties.AttemptsRestore | src/ble_mouse.c:182-677 | over any number of attempts without a leak, a client without a mouse at both ends has exactly the bonds it started with |
| ClientProperties.PeerKeepsItsBond | src/ble_mouse.c:608-794 | no handler but a Clear takes the saved mouse's bond away |
| ClientProperties.PeerSurvives | src/ble_mouse.c:656-686 | nor does any run without a Clear, whatever happens to the link |
| ClientProperties.RemovesOnlyItsOwn | src/ble_mouse.c:656-808 | handlers remove only the candidate's bond, or the saved peer's under a Clear |
| ClientCauses.WindowExactly | src/ble_mouse.c:173-200 | the pairing window opens exactly when Pair is carried out without a connection, without a mouse and with room for a bond; it closes exactly on its timer, on adoption, for want of room, or under a held Clear |
| ClientCauses.AttemptExactly | src/ble_mouse.c:182-223 | a connection is attempted exactly when a request is served while the client wants to scan, for the saved mouse or a candidate without a bond and with room for one; it is the one asked for, with its timer, and nothing left over |
| ClientCauses.AsksExactly | src/ble_mouse.c:124-137 | the empty mailbox is filled exactly by a wanted advertisement, or by a retry or Pair beside a saved mouse still bonded and not connected |
| ClientCauses.FailsExactly | src/ble_mouse.c:93-808 | a connection fails exactly for a lost link or refused security before set-up, failed encryption, a pairing that fails or makes no bond, a set-up that fails or does not end in adoption, its timeout, the end of a candidate's window, or a held Clear |
| ClientClearing.ClearForgets | src/ble_mouse.c:773-808 | a held Clear without a connection leaves no saved mouse and no bond of it iff the host agrees to unpair, and no setting iff it could be deleted; otherwise the mouse is remembered with all bonds |
| ClientClearing.ClearTakesEffect | src/ble_mouse.c:608-808 | in every run a saved mouse that is connected at a held Clear is forgotten so by the first step after it that drops the connection, iff the host agrees in that step, whatever happens in between |
| ClientClearing.RequestEndsWithConnection | src/ble_mouse.c:773-808 | without a connection no mouse is waiting to be forgotten, and none is while a window is open |
| ClientLooking.LooksExactly | src/ble_mouse.c:124-144 | a client that scans, or has work due that scans again, whenever it could look for its mouse goes on so iff the step is not a Clear without a connection that cannot unpair while no such work is due |
| ClientLooking.KeepsLooking | src/ble_mouse.c:124-144 | so it does in any run without such a Clear |
| ClientTending.TendedExactly | src/ble_mouse.c:146-180 | a held connection stays ready, or with work due that takes it up, or owed its end, iff the step is neither a refused disconnection with none of that left nor the release of a Clear that was the last of it |
| ClientTending.KeepsTending | src/ble_mouse.c:146-180 | so it does in any run without such a step |
| ClientOrder.OccursIsReachable | src/ble_mouse.c:62-66 | the runs with the queue in order and the link in mind are among all runs |
| ClientOrder.LeakHappens | src/ble_mouse.c:617-627 | in order, a leak happens: paired, lost, and reported failed on reconnection, all before the worker gets to the first report |
| ClientOrder.StallHappens | src/ble_mouse.c:773-783 | in order, a stall happens: a refused Clear just after the retry, before its request is served, leaves a bonded mouse with nothing due, queued or requested |
| ClientOrder.FailedAttemptReturns | src/ble_mouse.c:124-223 | an attempt to reach the saved mouse that fails ends exactly where it began, so any number of them may come before |
| ClientOrder.AbandonHappens | src/ble_mouse.c:146-165 | in order, an attempt at the saved mouse that has timed out is abandoned when the host refuses to disconnect: the connection is held with nothing due, queued or requested |
| ClientSuccess.PairingSucceeds | src/ble_mouse.c:462-489 | in order, a mouse that pairs and is covered is adopted: bonded, saved, ready, and the window closed |
| ClientSuccess.ReconnectSucceeds | src/ble_mouse.c:608-642 | in order, a saved mouse that answers again is ready again, without a window or a new bond |
| ClientSuccess.ClearingSucceeds | src/ble_mouse.c:773-808 | in order, holding Clear over a mouse in use ends its connection and leaves no bond, no setting and no mouse |
| ClientSafety.SetupIsEncrypted | src/ble_mouse.c:634-698 | no stage of set-up is reached before the connection is encrypted |
| ClientSafety.NoEviction | src/ble_mouse.c:194-199 | while the others take no new bond, the client never needs more bonds than the host can hold |
| ClientSetup.ReadyIsCovered | src/ble_mouse.c:462-489 | in every run of client and set-up together, a ready client has a peer, and its subscribed reports carry all five buttons and four axes of the accepted layout |
| ClientSetup.AdoptedIsCovered | src/ble_mouse.c:462-489 | a peer is adopted only by set-up, inside the window, bonded and saved, over a connection so covered |
| ClientOutput.DroppingDisconnects | src/ble_mouse.c:608-677 | in every run of client and output together, a connection that has been ready is dropped only by a step that calls `zmk_mouse_output_disconnect`, and no report of a connection is ever handled for it |
| ClientOutput.JoinButtons | src/ble_mouse.c:415-418 | the loop joins the buttons of all reports of the session |
| ClientOutput.HeldExactly | src/ble_mouse.c:395-421 | in every run of both a button is down for the stream iff the connection held has been ready and some report of it has the button down; once the output has settled exactly those are forwarded or suppressed, and the listener holds exactly the forwarded ones, so none without a mouse |
| ClientMotion.StreamRuns | src/ble_mouse.c:395-421 | the stream of a joint run does what it does in a run of its own, so the theorems about those are about it too |
| ClientMotion.ReportsArrive | src/ble_mouse.c:395-421 | in every run of both, once the stream has settled, the reports that a ready mouse has sent since the last disconnection, change of endpoint or overflow have been given exactly the motion they ask for; without any of these that is all the listener's motion |
| CentralScan.StopsOnlyOwnScan | src/central_scan.c:42-51 | in every interleaving a thread about to stop the scanner stops this module's own scan, and only one is |
| CentralScan.SettlingYields | src/central_scan.c:60-118 | scanning while the link settles means a thread between its write and its recheck or stop, or a flag restored by a failed stop; with both threads at rest it is exactly the restored flag |
| CentralScan.RequestsKeepTheirAddress | src/central_scan.c:87-102 | a connection request is served with the address it was claimed for, whatever else is claimed meanwhile |
| CentralScan.WantedIsPursued | src/central_scan.c:60-118 | in every interleaving a wanted scan is running, or scan_work or settle_work is scheduled, or a connection request is held and being posted, submitted or served, or a thread is before its schedule; with none of that left the module scans |
| CentralScan.SettlingEnds | src/central_scan.c:104-128 | with both threads at rest a settling link has settle_work scheduled iff that schedule was not dropped before initialization; while it stands dropped the module never scans |
| CentralScanHandlers.LostSettlingHappens | src/central_scan.c:110-128 | the dropped schedule does happen, and leaves the link settling for ever |
| CentralScanHandlers.FailedStopKeepsScanning | src/central_scan.c:45-49 | a failed stop does leave the module scanning while the link settles, with both threads at rest |
| CentralScanHandlers.ScanWorkStarts | src/central_scan.c:60-84 | undisturbed, scan_work leaves a wanted scan running iff no request is held, the transports are ready and settled, the free scanner started and the second look let it be; otherwise, without a request, it is scheduled again |
| CentralScanHandlers.Coordinator.StopOwnScan | src/central_scan.c:42-51 | stops an owned scan, keeping ownership when that fails |
| CentralScanHandlers.Coordinator.ScanWorkRun | src/central_scan.c:60-84 | does exactly what the worker thread does when it runs this handler alone |
| CentralScanHandlers.Coordinator.ConnectWorkRun | src/central_scan.c:87-94 | likewise |
| CentralScanHandlers.Coordinator.SettleWorkRun | src/central_scan.c:105-108 | likewise |
| CentralScanHandlers.Coordinator.ConnectionChangedCallback | src/central_scan.c:110-118 | does exactly what the callback thread does when it runs alone |
| CentralScanHandlers.Coordinator.Connect | src/central_scan.c:96-102 | claims, fills and announces the mailbox, or is busy |
| BondCompat.SaveOne | src/bond_compat.c:106-115 | what is written for each setting |
| BondCompat.CallSetHandler | src/bond_compat.c:76-104 | what the host is handed, or why the record is refused, for each stored length and load |
| BondCompat.ShortenedExactly | src/bond_compat.c:60-115 | after any saves a full bond record is stored in the old length iff its key size is 7 to 16, its SC flag is set and its key types are P-256 with at most identity and signing keys, and then holds its fields; any other is stored byte for byte |
| BondCompat.BondRoundTrip | src/bond_compat.c:60-115 | saving and loading returns such a record with everything past the old fields zeroed, and any other byte for byte |
| BondCompat.LegacyIsKept | src/bond_compat.c:60-115 | a Legacy key, no SC flag, or no P-256 key: each is enough for a record to be stored and loaded byte for byte |
| BondCompat.OldDeliveredExactly | src/bond_compat.c:76-104 | a bond of the old length is delivered, extended with zeros, iff all of it is read and it is such a record; of other lengths but the full one none is |
| BondCompat.OthersPassThrough | src/bond_compat.c:56-86 | other settings, empty and full records, raw loads and excluded subtrees are passed on as they are |
| BondCompat.OldRecordRoundTrip | src/bond_compat.c:76-115 | expanding and saving an old record restores its fields with zero padding |
| BondCompat.ReloadIsStable | src/bond_compat.c:76-115 | a loaded record is a fixed point of saving and loading |
| BondCompat.StoreHoldsTwoFormats | src/bond_compat.c:76-115 | after any run of full-length bond saves every stored bond has one of the two recognised formats, with clean padding, and loads |

## Left out

- `src/behavior_ble_mouse.c`, devicetree, Kconfig, CMake and `scripts/verify_build.py`: glue and build-time checks.
- `src/smp_guard.c`, `src/split_battery_guard.c`, `src/auth_guard.c`: guards of one or two branches.
- The Bluetooth host's own code (GATT transport, advertising-data parsing, pairing, settings back end, input queues): its answers are open, with the assumptions named at `MouseClient.Plausible` (nobody else pairs with the mouse; a pairing that made no bond finds none; a connection is reported only while automatic connection is on) and `GattSetup.Answers` (a callback answers an issued request).
- Memory-model reordering: atomics are sequentially consistent.
- The epoch counter's wrap at 2^32: epochs are unbounded.
- Interleavings inside a handler of `src/ble_mouse.c`: a handler is one step, so a completion before `connect_mouse` has returned does not arise in `connected_cb`; the legacy check at that point is `ClientProperties.LegacyWhileConnecting`.
- The branches of `zmk_ble_mouse_advertisement` before the table: they only pass the saved peer's advertisements on.
- The flags of subscriptions and the UUIDs of discoveries: requests are modelled by kind and handles.
- Descriptors written with Report Size, Count, ID or Logical Minimum of more than one byte, or with Push, Pop and long items: the first are read like any other item, the rest are the subject of `HidInsertion`.
- The delays of scheduled work, retry back-off, log messages, reference counts, thread stacks and radio timing.
- C struct padding and alignment: bond records have symbolic lengths 4 < fields ≤ old < full.
- `NULL` names of settings, and `settings_set` of the saved peer: the client starts with a saved peer or with none.

# Wii Remote driver and gesture layer of the wiisis mod, in Dafny

This project models the Wii Remote support of the wiisis modification for Crysis and proves properties of the model.

- **Driver core.** The driver core lives under `trunk/WiiRemote/Core`:
  - the connection object `CWR_WiiRemote`: its flag word, the connect, attempt and timeout state machine, the outbound report queue, the routing of input reports to the helpers, the status report and the extension handshake;
  - its helpers: the button pad with chords and named actions, the accelerometer with calibration and motion windows, the IR camera with its four dots and cursor, the data channel with chunked flash reads and writes and the callbacks waiting for replies, and the Nunchuk with its decryption, active-low buttons, accelerometer and analog stick;
  - the HID controller, which admits Wii Remote devices and fills the four remote slots;
  - the listener lists that every helper keeps.
- **Gesture layer.** The gesture layer lives under `trunk/WiiRemote/Motions`:
  - `CBaseMotion`, with its state word, pass mask, priority and the static registration list;
  - the ten detectors: zoom in and out, seat next and previous, throw, drop, punch, melee, pick up, and the Nunchuk's jump.
- **`CWiiRemoteManager`.** The manager splits the registry into a Wii Remote list and a Nunchuk list. For each list, every detector is run over each motion, and the fired detector of highest priority is executed, the first listed winning ties. The manager also keeps the HUD error flags, the battery warning, the ammunition LED bar and the movement freeze.
- **`CWiiRemoteProfile`.** The profile is the table of typed, named and grouped settings: gesture thresholds, tunings and key bindings. The model covers its factory defaults, its lookups by index and by name, and the translation of a binding into the button mask that the remote or the Nunchuk is asked about.

How the source's forms are modelled:

- Objects whose fields the source updates are classes with `modifies` clauses. Examples are the button pad, the motion sensor, the Nunchuk, the IR sensor, the data channel, the remote, the HID controller, the manager, its input listener, and the profile and its variables.
- A helper's update method states its new state as a function of its old state and its input: `AfterWord` and `AfterPost` for the buttons, `Sample` for the accelerometer, `Sensed` and `Tracked` for the camera, `Replied` for the data channel, and `AfterReport` for the Nunchuk.
- The remote's section methods state the helper state each report section produces. The dispatch methods above them state the routes taken and the remote's own fields; "## Left out" says which of them do not restate the helpers' state.
- Pure decisions are functions, with lemmas relating them. Examples are the chord rule, the report routing, the detector fire tests, the arbitration, the battery and LED arithmetic, and the button translation.
- Bytes of the wire protocol are `bv8`, and C's unsigned-char wrap-around is `bv8` arithmetic.
- Flag words are `bv32`, with a record of booleans and a proved round trip between the two.
- Floating point is `real`.
- The clock is a `now` parameter.
- Orientation is a parameter computed by the caller.

## Model

| member | source | states |
|---|---|---|
| Listeners.AddSpec | trunk/WiiRemote/Core/WR_CWiiButtons.cpp:197-204 | AddListener ignores NULL, registers a new listener, never registers one twice and keeps the others |
| Listeners.RemoveSpec | trunk/WiiRemote/Core/WR_CWiiButtons.cpp:207-216 | RemoveListener ignores NULL and otherwise drops exactly the one registration of the listener |
| Listeners.EraseFirstSpec | trunk/WiiRemote/Core/WR_CWiiButtons.cpp:207-216 | erasing at the first match removes one copy and keeps every other listener |
| Listeners.EraseFirstAbsent | trunk/WiiRemote/Core/WR_CWiiButtons.cpp:207-216 | removing a listener that is not registered leaves the list as it was |
| Listeners.AddThenRemove | trunk/WiiRemote/Core/WR_CWiiButtons.cpp:197-216 | adding a new listener and then removing it restores the list |
| Listeners.RemoveNoDup | trunk/WiiRemote/Core/WR_CWiiButtons.cpp:207-216 | removal keeps the list free of duplicates |
| Buttons.NextFollowsContact | trunk/WiiRemote/Core/WR_CWiiButtons.cpp:81-135 | after a report a button is Pushed or Down exactly when the report shows it down |
| Buttons.NextUnbuffered | trunk/WiiRemote/Core/WR_CWiiButtons.cpp:83-119 | without buffered input a button only moves between Up and Down |
| Buttons.StampsOnBufferedEdge | trunk/WiiRemote/Core/WR_CWiiButtons.cpp:89-90 | the report time is recorded exactly on a buffered press from Up or release from Down, which enter Pushed or Released |
| Buttons.Settle | trunk/WiiRemote/Core/WR_CWiiButtons.cpp:160-164 | settling leaves only Up or Down, keeps whether the button is held, and maps Pushed to Down and Released to Up |
| Buttons.SettleIdempotent | trunk/WiiRemote/Core/WR_CWiiButtons.cpp:152-177 | settling twice equals settling once; Up and Down are already settled |
| Buttons.ChangesNone | trunk/WiiRemote/Core/WR_CWiiButtons.cpp:137-145 | when no status changes, no OnButton notification is sent |
| Buttons.ChangesComplete | trunk/WiiRemote/Core/WR_CWiiButtons.cpp:137-145 | every button whose status changed is notified with its new status and whether it is down |
| Buttons.ChangesSound | trunk/WiiRemote/Core/WR_CWiiButtons.cpp:137-145 | only buttons whose status changed are notified |
| Buttons.ChordAsWrittenOrderDependent | trunk/WiiRemote/Core/WR_CWiiButtons.cpp:273-291 | the fold as written gives Released for a released button before a held one, but Up for the same two in the other order |
| Buttons.ChordMeetsRule | trunk/WiiRemote/Core/WR_CWiiButtons.cpp:280-284 | the corrected fold computes the stated rules: any Up gives Up, one release among non-releases gives Up, Down dominates Pushed |
| Buttons.ChordOrderIndependent | trunk/WiiRemote/Core/WR_CWiiButtons.cpp:280-284 | the corrected chord status depends only on the multiset of member statuses |
| Buttons.ChordAgreesWithoutRelease | trunk/WiiRemote/Core/WR_CWiiButtons.cpp:273-291 | without a release in progress the as-written and the corrected folds agree |
| Buttons.LookupFinds | trunk/WiiRemote/Core/WR_CWiiButtons.cpp:239-244 | with distinct masks a single-bit query returns that button's own status |
| Buttons.LookupMissing | trunk/WiiRemote/Core/WR_CWiiButtons.cpp:246 | a single-bit mask that names no button reads Up |
| Buttons.RemoteMasksSingleBits | trunk/WiiRemote/Core/Interfaces/WR_IWiiButtons.h:63-68 | the eleven Wii Remote button masks are distinct single bits |
| Buttons.SingleButtonStatus | trunk/WiiRemote/Core/WR_CWiiButtons.cpp:239-247 | a single-button query ignores the error window and reads the button's status |
| Buttons.NextId | trunk/WiiRemote/Core/WR_CWiiButtons.cpp:322 | the pre-increment of the 16-bit action ID seed counts up and wraps to 0 after 0xFFFF |
| Buttons.PutElements | trunk/WiiRemote/Core/WR_CWiiButtons.cpp:327 | map[id] = action stores the action and drops only an entry with the same ID |
| Buttons.PutOrdered | trunk/WiiRemote/Core/WR_CWiiButtons.cpp:327 | the action map stays in ascending ID order |
| Buttons.PutNamesUnique | trunk/WiiRemote/Core/WR_CWiiButtons.cpp:320-327 | inserting an unused name keeps action names unique |
| Buttons.PutFreshName | trunk/WiiRemote/Core/WR_CWiiButtons.cpp:320-327 | inserting an unused name keeps the action map valid |
| Buttons.FindNameNone | trunk/WiiRemote/Core/WR_CWiiButtons.cpp:335-342 | a name search fails exactly when no action has the name |
| Buttons.FindIdAt | trunk/WiiRemote/Core/WR_CWiiButtons.cpp:349 | map::find on an ID returns the one entry holding it |
| Buttons.FindNameAt | trunk/WiiRemote/Core/WR_CWiiButtons.cpp:335-340 | with unique names the name search finds that action |
| Buttons.PutThenFind | trunk/WiiRemote/Core/WR_CWiiButtons.cpp:320-328 | after registering a new action, looking it up by ID or by name returns it |
| Buttons.RefreshedKeepsActions | trunk/WiiRemote/Core/WR_CWiiButtons.cpp:179-191 | refreshing the last statuses changes no ID, name or mask |
| Buttons.AfterPostSettles | trunk/WiiRemote/Core/WR_CWiiButtons.cpp:150-177 | a post-update pass right after a report keeps the statuses the report left, and two passes without a report leave every button Up or Down |
| Buttons.ButtonPad.constructor | trunk/WiiRemote/Core/WR_CWiiButtons.cpp:20-28 | all buttons start Up with time 0; no actions, listeners or events |
| Buttons.ButtonPad.Initialize | trunk/WiiRemote/Core/WR_CWiiButtons.cpp:37-53 | fails without a remote; otherwise every button is Up at time 0 and the ID seed is reset, with the actions kept |
| Buttons.ButtonPad.Update | trunk/WiiRemote/Core/WR_CWiiButtons.cpp:70-146 | every button steps through its state machine, times are stamped on buffered edges, and each change is notified in button order |
| Buttons.ButtonPad.StepAll | trunk/WiiRemote/Core/WR_CWiiButtons.cpp:74-146 | the button loop yields the stepped statuses, the new stamps and the change notifications |
| Buttons.ButtonPad.StepOne | trunk/WiiRemote/Core/WR_CWiiButtons.cpp:77-138 | one button takes its next state and records the time on a buffered edge; no other button changes |
| Buttons.ButtonPad.OnButtonUpdate | trunk/WiiRemote/Core/WR_CWiiButtons.cpp:63-147 | the button word is the big-endian pair at the offset; then Update |
| Buttons.ButtonPad.OnPostUpdate | trunk/WiiRemote/Core/WR_CWiiButtons.cpp:150-194 | settles buttons only in a tick with no report, then recomputes every action with the frame time as error window and notifies the changes; clears the updated flag |
| Buttons.ButtonPad.SettleButtons | trunk/WiiRemote/Core/WR_CWiiButtons.cpp:152-177 | every button settled, each change notified |
| Buttons.ButtonPad.RefreshActions | trunk/WiiRemote/Core/WR_CWiiButtons.cpp:179-191 | every action's last status recomputed in ID order, each changed action notified |
| Buttons.ButtonPad.Refreshing | trunk/WiiRemote/Core/WR_CWiiButtons.cpp:180-191 | the action loop computes the refreshed actions and their notifications |
| Buttons.ButtonPad.AddListener | trunk/WiiRemote/Core/WR_CWiiButtons.cpp:197-204 | listeners become Listeners.Add of the old list; nothing else changes |
| Buttons.ButtonPad.RemoveListener | trunk/WiiRemote/Core/WR_CWiiButtons.cpp:207-216 | listeners become Listeners.Remove of the old list; nothing else changes |
| Buttons.ButtonPad.GetButtonStatus | trunk/WiiRemote/Core/WR_CWiiButtons.cpp:234-297 | a single-bit mask reads its button; any other mask gives the corrected chord of the effective statuses of its member buttons; a mask with no member reads Up |
| Buttons.ButtonPad.IsButtonDown | trunk/WiiRemote/Core/WR_CWiiButtons.cpp:300-304 | down exactly when the status is not Up |
| Buttons.ButtonPad.RegisterAction | trunk/WiiRemote/Core/WR_CWiiButtons.cpp:307-329 | a known name keeps its ID and gets the new mask; a new name takes the next 16-bit ID and is inserted; the map stays valid |
| Buttons.ButtonPad.GetActionStatus | trunk/WiiRemote/Core/WR_CWiiButtons.cpp:346-354 | an unknown ID reads Up; otherwise the status of the action's mask |
| Buttons.ButtonPad.GetNamedActionStatus | trunk/WiiRemote/Core/WR_CWiiButtons.cpp:332-343 | the first action with the name, in ID order, gives the status; an unknown name reads Up |
| Buttons.ButtonPad.IsActionDown | trunk/WiiRemote/Core/WR_CWiiButtons.cpp:357-379 | an unknown action is not down; otherwise down when its status is not Up |
| Buttons.ButtonWord | trunk/WiiRemote/Core/WR_CWiiButtons.cpp:73 | the low byte is the second buffer byte and the high byte the first |
| Motion.Recip | trunk/WiiRemote/Core/WR_CWiiMotion.cpp:83-85 | the reciprocal times its argument is 1 whenever the argument is not zero |
| Motion.CalibratedScale | trunk/WiiRemote/Core/WR_CWiiMotion.cpp:83-103 | once calibrated, a reading at the zero point measures 0 and a reading at the 1G point measures 1 on that axis |
| Motion.UncalibratedIsRaw | trunk/WiiRemote/Core/WR_CWiiMotion.cpp:100-103 | before calibration, with a zero point of (0,0,0), the acceleration is the raw reading |
| Motion.DeliveredUpdates | trunk/WiiRemote/Core/WR_CWiiMotion.cpp:165-170 | flushing a queue as updates delivers exactly the queued samples in order |
| Motion.StepKeepsOrder | trunk/WiiRemote/Core/WR_CWiiMotion.cpp:154-180 | one changing sample keeps an active window's queue empty and loses or reorders no sample |
| Motion.RunKeepsOrder | trunk/WiiRemote/Core/WR_CWiiMotion.cpp:154-180 | over any run of changing samples, the delivered samples followed by the queue are the old queue followed by the new samples |
| Motion.RunNeverEnds | trunk/WiiRemote/Core/WR_CWiiMotion.cpp:154-180 | changing samples raise only Start and Update, never End |
| Motion.StartNeedsMoreThanMin | trunk/WiiRemote/Core/WR_CWiiMotion.cpp:155-173 | from an idle window up to the minimum size samples are only queued; the next one starts the motion with the oldest and delivers the rest as updates |
| Motion.QueueUntilFull | trunk/WiiRemote/Core/WR_CWiiMotion.cpp:155-173 | the same from any partly filled queue |
| Motion.ActiveRunUpdatesOnly | trunk/WiiRemote/Core/WR_CWiiMotion.cpp:175-180 | once a motion is active each changing sample raises exactly one Update with that sample |
| Motion.StableEnds | trunk/WiiRemote/Core/WR_CWiiMotion.cpp:137-152 | a stable sample empties the window and raises End exactly when a motion was active |
| Motion.MotionSize | trunk/WiiRemote/Core/WR_CWiiMotion.cpp:201-204 | the window size is the request but never below 10 |
| Motion.MotionSensor.constructor | trunk/WiiRemote/Core/WR_CWiiMotion.cpp:20-29 | no flags, lifetime 0, pitch and roll 0, window size 10 |
| Motion.MotionSensor.Initialize | trunk/WiiRemote/Core/WR_CWiiMotion.cpp:38-46 | fails without a remote; otherwise calibrated and active flags clear |
| Motion.MotionSensor.SetCalibration | trunk/WiiRemote/Core/WR_CWiiMotion.cpp:75-88 | stores the zero and 1G points, derives the ratio and sets the calibrated flag |
| Motion.MotionSensor.Calibrate | trunk/WiiRemote/Core/WR_CWiiMotion.cpp:55-60 | queues the read of the 8-byte block at 0x16 and registers the calibration callback there |
| Motion.CalibrationReadIsOnePacket | trunk/WiiRemote/Core/Interfaces/WR_IWiiData.h:32-33 | the remote's calibration block is one read request |
| Motion.MotionSensor.OnCalibrateData | trunk/WiiRemote/Core/WR_CWiiMotion.cpp:69-89 | a reply from any other address changes nothing; otherwise bytes 0-2 are the zero point and 4-6 the 1G point, and calibration is set |
| Motion.MotionSensor.Measure | trunk/WiiRemote/Core/WR_CWiiMotion.cpp:99-131 | new acceleration; direction, pitch and roll change only for a sample near 1 g; the lifetime counts up and the element carries them |
| Motion.MotionSensor.StopMotion | trunk/WiiRemote/Core/WR_CWiiMotion.cpp:184-192 | the queue empties, the lifetime is 0 and no motion is active |
| Motion.MotionSensor.Flush | trunk/WiiRemote/Core/WR_CWiiMotion.cpp:161-170 | the oldest queued sample starts the motion, the rest follow as updates in order, and the queue is empty |
| Motion.MotionSensor.Track | trunk/WiiRemote/Core/WR_CWiiMotion.cpp:137-180 | the window and its events follow the windowing step for the sample |
| Motion.SampleOrients | trunk/WiiRemote/Core/WR_CWiiMotion.cpp:99-131 | after a sample the acceleration is the calibrated one; direction, pitch and roll are the orientation step's for a sample near 1 g and the previous ones otherwise; the single-sample event delivers that acceleration and orientation, first for the remote and last for the Nunchuk, after the earlier events unchanged |
| Motion.MotionSensor.OnMotionUpdate | trunk/WiiRemote/Core/WR_CWiiMotion.cpp:92-181 | the new state is Sample of the old one on the three report bytes: the calibrated acceleration, the orientation step near 1 g, the single-sample event first, then the windowing step against the previous acceleration |
| Motion.MotionSensor.OnExtensionMotion | trunk/WiiRemote/Core/WR_CWiiNunchuk.cpp:246-330 | the new state is Sample of the old one in the Nunchuk's order: measure (orientation included), window the sample, then the single-sample event |
| Motion.MotionSensor.OnPostUpdate | trunk/WiiRemote/Core/WR_CWiiMotion.cpp:195-198 | only the updated flag is cleared |
| Motion.MotionSensor.SetMotionSize | trunk/WiiRemote/Core/WR_CWiiMotion.cpp:201-204 | the window size becomes MAX(n, 10) |
| Nunchuk.DecryptRoundTrip | trunk/WiiRemote/Core/WR_CWiiNunchuk.cpp:149 | the byte decryption has an inverse on both sides, so it is a bijection on bytes |
| Nunchuk.DecryptInjective | trunk/WiiRemote/Core/WR_CWiiNunchuk.cpp:149 | two different encrypted bytes never decrypt to the same byte |
| Nunchuk.DecryptedRoundTrip | trunk/WiiRemote/Core/WR_CWiiNunchuk.cpp:145-151 | decrypting a whole buffer is undone by encrypting it, and the other way round |
| Nunchuk.DecryptBuffer | trunk/WiiRemote/Core/WR_CWiiNunchuk.cpp:145-151 | every byte of the 22-byte buffer is decrypted in place, and encrypting the output gives back the input |
| Nunchuk.NunchukMasksSingleBits | trunk/WiiRemote/Core/WR_CWiiNunchuk.h:39-55 | the Z and C masks are distinct single bits |
| Nunchuk.Stick | trunk/WiiRemote/Core/WR_CWiiNunchuk.cpp:335-341 | the stick value is zero when the raw byte equals the centre byte |
| Nunchuk.StickRatio | trunk/WiiRemote/Core/WR_CWiiNunchuk.cpp:128-129 | the stick ratio maps the calibrated range onto a span of 2 |
| Nunchuk.AnalogChanges | trunk/WiiRemote/Core/WR_CWiiNunchuk.cpp:342-346 | one OnExtensionAnalogUpdate for stick 1 with the new values, sent exactly when either axis changed |
| Nunchuk.Nunchuk.constructor | trunk/WiiRemote/Core/WR_CWiiNunchuk.cpp:19-37 | both buttons Up at time 0, seed 0, motion size at its minimum of 10, not calibrated, no motion, stick at 0 |
| Nunchuk.Nunchuk.Initialize | trunk/WiiRemote/Core/WR_CWiiNunchuk.cpp:80-100 | fails without a remote; otherwise the flags clear, both buttons are Up at time 0 and the seed restarts; actions are kept |
| Nunchuk.Nunchuk.Calibrate | trunk/WiiRemote/Core/WR_CWiiNunchuk.cpp:572-576 | queues the read of the 16-byte calibration block and registers the calibration callback for its reply address |
| Nunchuk.CalibrationReadIsOnePacket | trunk/WiiRemote/Core/WR_CWiiNunchuk.h:20-21 | the calibration block is one read request, answered at address 0x0020 |
| Nunchuk.Nunchuk.OnCalibrateData | trunk/WiiRemote/Core/WR_CWiiNunchuk.cpp:103-133 | zero point, 1G and stick limits taken from their decrypted bytes, ratios derived, calibrated flag set |
| Nunchuk.Nunchuk.OnUpdate | trunk/WiiRemote/Core/WR_CWiiNunchuk.cpp:154-348 | any ID but the update report changes nothing; an update report gives the state AfterReport on the decrypted buffer: the pad's word, statuses, stamps and events step, the motion sample is measured (orientation included) and windowed, and the stick moves |
| Nunchuk.Nunchuk.Report | trunk/WiiRemote/Core/WR_CWiiNunchuk.cpp:164-346 | the new state is AfterReport of the old one: active-low buttons from byte 5 (statuses, stamps and events), acceleration and orientation from bytes 2-4 through the motion window plus one single-motion event, stick from bytes 0-1; the calibration is unchanged |
| Nunchuk.Nunchuk.UpdateStick | trunk/WiiRemote/Core/WR_CWiiNunchuk.cpp:332-346 | stick x centres on the maximum's z and y on the minimum's z, scaled once calibrated; an event when it moved |
| Nunchuk.Nunchuk.StopMotion | trunk/WiiRemote/Core/WR_CWiiNunchuk.cpp:351-359 | the queue empties, the lifetime is 0 and no motion is active |
| Nunchuk.Nunchuk.OnPostUpdate | trunk/WiiRemote/Core/WR_CWiiNunchuk.cpp:362-406 | the remote's button finaliser applied to Z and C: settle only without a report, then refresh the actions |
| Nunchuk.Nunchuk.GetButtonStatus | trunk/WiiRemote/Core/WR_CWiiNunchuk.cpp:424-487 | the remote's chord rules over Z and C; a Z or C query reads that button |
| Nunchuk.Nunchuk.RegisterAction | trunk/WiiRemote/Core/WR_CWiiNunchuk.cpp:497-519 | a known name keeps its ID and gets the new mask; a new one takes the next 16-bit ID |
| Nunchuk.Nunchuk.SetMotionSize | trunk/WiiRemote/Core/WR_CWiiNunchuk.cpp:585-588 | the minimum motion size is the request, but never below 10 |
| Data.WithRumble | trunk/WiiRemote/Core/WR_CWiiData.cpp:130 | OR-ing the rumble bit sets bit 0 when rumbling and keeps every other bit |
| Data.ControlLayout | trunk/WiiRemote/Core/WR_CWiiRemote.cpp:409-419 | a control report is its opcode and two argument bytes, the rest of the 22 bytes zero |
| Data.Outbox.constructor | trunk/WiiRemote/Core/WR_CWiiRemote.cpp:64-95 | the write queue starts empty |
| Data.Outbox.Send | trunk/WiiRemote/Core/WR_CWiiRemote.cpp:697-702 | WriteData appends the packet to the write queue |
| Data.ReadPacketLayout | trunk/WiiRemote/Core/WR_CWiiData.cpp:128-135 | a read request is opcode 0x17, the address big-endian with the rumble bit in the top byte, the 16-bit size, zeros after |
| Data.ChunkSize | trunk/WiiRemote/Core/WR_CWiiData.cpp:125 | a chunk is what is left, but at most 16 bytes |
| Data.PacketCount | trunk/WiiRemote/Core/WR_CWiiData.cpp:121-143 | a transfer takes one packet up to 16 bytes, otherwise one per started 16-byte chunk |
| Data.ReadPacketsCount | trunk/WiiRemote/Core/WR_CWiiData.cpp:118-143 | ReadData sends exactly that many read requests |
| Data.ReadPacketAt | trunk/WiiRemote/Core/WR_CWiiData.cpp:118-143 | request k asks for the address 16k bytes in and for MIN(16, what is left) bytes |
| Data.WritePacketLayout | trunk/WiiRemote/Core/WR_CWiiData.cpp:160-170 | a write packet is opcode 0x16, the address with the rumble bit, the chunk size, the payload from byte 6, zeros after |
| Data.PayloadOfWritePacket | trunk/WiiRemote/Core/WR_CWiiData.cpp:160-170 | reading a write packet back through its size byte gives the payload it was built from |
| Data.WritePacketsStep | trunk/WiiRemote/Core/WR_CWiiData.cpp:153-177 | the first write packet carries the first chunk and the rest carry the remainder |
| Data.WritePacketsCarryData | trunk/WiiRemote/Core/WR_CWiiData.cpp:147-178 | the payloads of all write packets, in order, are exactly the data written |
| Data.WriteIsOnePacket | trunk/WiiRemote/Core/WR_CWiiData.cpp:147-178 | data of at most 16 bytes goes out as one packet that carries all of it |
| Data.WritePacketsCount | trunk/WiiRemote/Core/WR_CWiiData.cpp:147-178 | WriteData sends one packet per started 16-byte chunk, and one for empty data |
| Data.DecodeReply | trunk/WiiRemote/Core/WR_CWiiData.cpp:54-59 | a reply header gives a 16-bit address, a size in 1..16 and a 4-bit error |
| Data.ReplyRoundTrip | trunk/WiiRemote/Core/WR_CWiiData.cpp:54-59 | decoding the header of any valid reply recovers address, size and error |
| Data.ReplyBytesRoundTrip | trunk/WiiRemote/Core/WR_CWiiData.cpp:54-59 | every three header bytes are the encoding of the reply they decode to, so decoding loses nothing |
| Data.ReplyEvents | trunk/WiiRemote/Core/WR_CWiiData.cpp:58-69 | an error notification comes first exactly when the error nibble is set, and the data notification always comes last |
| Data.ConsumeDropsLater | trunk/WiiRemote/Core/WR_CWiiData.cpp:72-81 | a reply calls the oldest callback waiting on its address, erases that address's whole list and leaves the other addresses alone |
| Data.ConsumeUnregistered | trunk/WiiRemote/Core/WR_CWiiData.cpp:72-73 | a reply at an address nobody waits on changes nothing |
| Data.ReadThenReply | trunk/WiiRemote/Core/WR_CWiiData.cpp:113-116 | after a read, a reply at that 16-bit address calls back the oldest reader, which is the new one when nobody else was waiting |
| Data.DataChannel.constructor | trunk/WiiRemote/Core/WR_CWiiData.cpp:20-24 | no callbacks waiting, no events |
| Data.DataChannel.Initialize | trunk/WiiRemote/Core/WR_CWiiData.cpp:33-39 | succeeds exactly when there is a remote |
| Data.DataChannel.ReadData | trunk/WiiRemote/Core/WR_CWiiData.cpp:113-144 | the callback joins the list of the address's low 16 bits, and the read requests are queued in order |
| Data.DataChannel.SendReads | trunk/WiiRemote/Core/WR_CWiiData.cpp:118-143 | the do-while loop queues exactly the chunked read requests |
| Data.DataChannel.WriteData | trunk/WiiRemote/Core/WR_CWiiData.cpp:147-178 | the do-while loop queues exactly the chunked write requests |
| Data.DataChannel.FillPacket | trunk/WiiRemote/Core/WR_CWiiData.cpp:160-170 | the header plus copy loop builds exactly the bytes of the write request queued for the chunk |
| Data.DataChannel.OnDataRead | trunk/WiiRemote/Core/WR_CWiiData.cpp:48-82 | decodes the header, notifies, and returns the call of the oldest non-NULL callback for the address after erasing its list |
| Data.DataChannel.OnPostUpdate | trunk/WiiRemote/Core/WR_CWiiData.cpp:85-88 | only the updated flag is cleared |
| Sensor.HighBits | trunk/WiiRemote/Core/WR_CWiiSensor.cpp:85-92 | two bits of the shared byte, a value in 0..3 |
| Sensor.Coord | trunk/WiiRemote/Core/WR_CWiiSensor.cpp:85-92 | a 10-bit coordinate whose low byte and high bits are the two parts it was built from |
| Sensor.Sensed | trunk/WiiRemote/Core/WR_CWiiSensor.cpp:74-106 | the report keeps four dots |
| Sensor.SensedSpec | trunk/WiiRemote/Core/WR_CWiiSensor.cpp:74-106 | a dot is targeted exactly when its two bytes are not both 0xFF, an untargeted dot keeps its position, dots 2 and 3 are never targeted, coordinates stay within 10 bits |
| Sensor.PackDots | trunk/WiiRemote/Core/WR_CWiiSensor.cpp:82-93 | the camera's five-byte layout of two dots |
| Sensor.UnpackPackDots | trunk/WiiRemote/Core/WR_CWiiSensor.cpp:82-93 | unpacking the camera's bytes gives back both dots at their coordinates |
| Sensor.SharedByte | trunk/WiiRemote/Core/WR_CWiiSensor.cpp:85-92 | the shared byte holds the high bits of x0, y0, x1 and y1 at bits 4-5, 6-7, 0-1 and 2-3 |
| Sensor.FoldInUnitRange | trunk/WiiRemote/Core/WR_CWiiSensor.cpp:114-124 | with on-camera coordinates the cursor lies in [0, 1] on both axes |
| Sensor.UnseenDotsIgnored | trunk/WiiRemote/Core/WR_CWiiSensor.cpp:117-124 | dots at 0x3FF contribute nothing, so a lone dot 0 places the cursor by itself |
| Sensor.AlternatingStep | trunk/WiiRemote/Core/WR_CWiiSensor.cpp:127-161 | an enter while off screen or a leave while on keeps enter and leave alternating |
| Sensor.IRSensor.constructor | trunk/WiiRemote/Core/WR_CWiiSensor.cpp:20-36 | four unseen dots, camera off, cursor at the origin off screen |
| Sensor.IRSensor.Initialize | trunk/WiiRemote/Core/WR_CWiiSensor.cpp:45-65 | fails without a remote and changes nothing; otherwise four unseen dots, camera off, cursor at the origin off screen |
| Sensor.IRSensor.OnSensorUpdate | trunk/WiiRemote/Core/WR_CWiiSensor.cpp:74-106 | the dots become the unpacked report, and the sensor stays valid |
| Sensor.IRSensor.FoldCursor | trunk/WiiRemote/Core/WR_CWiiSensor.cpp:114-124 | the cursor is the running halving average of the dots |
| Sensor.IRSensor.OnPostUpdate | trunk/WiiRemote/Core/WR_CWiiSensor.cpp:109-163 | with a dot targeted the cursor is refolded, with an enter or an update; otherwise a leave from the last position if it was on screen, and the cursor returns to the origin; enters and leaves alternate |
| Sensor.IRSensor.OnSetReport | trunk/WiiRemote/Core/WR_CWiiSensor.cpp:194-220 | queues the two IR control reports and the four register writes in order, and enables the camera |
| Sensor.IRPacketLayout | trunk/WiiRemote/Core/WR_CWiiSensor.cpp:197-200 | an IR control report is the opcode and 0x04 carrying the rumble bit, then zeros |
| Sensor.SetReportIsSixPackets | trunk/WiiRemote/Core/WR_CWiiSensor.cpp:196-216 | switching the camera on takes six packets, each register write carrying exactly its block |
| Remote.LowBits | trunk/WiiRemote/Core/Interfaces/WR_IWiiRemote.h:55-62 | the six connection flags occupy bits 0-5 only, each read back by CheckFlags at its own WRF_ bit |
| Remote.StatusBits | trunk/WiiRemote/Core/Interfaces/WR_IWiiRemote.h:64-74 | the eight status flags occupy bits 8-15 only, each read back at its own WRF_STATUS_ bit |
| Remote.FromWordOfWord | trunk/WiiRemote/Core/WR_CWiiRemote.cpp:667-685 | reading every flag of the word with CheckFlags gives back the flags that were set |
| Remote.LowOfFromWord | trunk/WiiRemote/Core/Interfaces/WR_IWiiRemote.h:55-62 | the connection half rebuilt from a word's bits is the word's low six bits |
| Remote.StatusOfFromWord | trunk/WiiRemote/Core/Interfaces/WR_IWiiRemote.h:64-74 | the status half rebuilt from a word's bits is the word masked with WRF_STATUS_MASK |
| Remote.WordOfFromWord | trunk/WiiRemote/Core/Interfaces/WR_IWiiRemote.h:55-79 | a word rebuilt from its flags is the word without its unused bits 6 and 7 |
| Remote.WordStatus | trunk/WiiRemote/Core/Interfaces/WR_IWiiRemote.h:74-75 | masking the word with WRF_STATUS_MASK leaves exactly the status flags |
| Remote.StatusRoundTrip | trunk/WiiRemote/Core/Interfaces/WR_IWiiRemote.h:64-74 | the status flags are recovered from their bits |
| Remote.StatusHalf | trunk/WiiRemote/Core/WR_CWiiRemote.cpp:595-612 | the status-changed test on the masked words holds exactly when the status flags differ |
| Remote.ReportPacket | trunk/WiiRemote/Core/WR_CWiiRemote.cpp:323-351 | the report request carries WR_OUT_REPORT, the continuity bit 0x04 and the rumble bit in byte 1 and the mode in byte 2 |
| Remote.LedPacket | trunk/WiiRemote/Core/WR_CWiiRemote.cpp:409-419 | the LED request carries WR_OUT_LED, the LED nibble in the high half of byte 1 and the rumble bit in the low half |
| Remote.ReportPacketBytes | trunk/WiiRemote/Core/WR_CWiiRemote.cpp:340-350 | on the wire the report request is a 22-byte packet with opcode, control and mode bytes and zeros after them |
| Remote.LowNine | trunk/WiiRemote/Core/Interfaces/WR_IWiiRemote.h:55-65 | bits 0-8 of the word are the connection flags and the status rumble bit |
| Remote.StatusFlagsSpec | trunk/WiiRemote/Core/WR_CWiiRemote.cpp:598-605 | a status report sets bits 9-15 from bits 1-7 of byte 3, one for one, and keeps bits 0-8 |
| Remote.StatusKeepsLink | trunk/WiiRemote/Core/WR_CWiiRemote.cpp:593-642 | a status report never changes the connected or attempting flag |
| Remote.InputRoutesOf | trunk/WiiRemote/Core/WR_CWiiRemote.cpp:509-532 | the sections read one after another from the running offset make up the input routes |
| Remote.InputRoutesTile | trunk/WiiRemote/Core/WR_CWiiRemote.cpp:512-531 | the sections of an input report start at byte 1 and follow buttons, motion, IR, extension order without gap or overlap; each is present only when its report bit asks for it, and all fit in 22 bytes |
| Remote.DataWroteReadAsIR | trunk/WiiRemote/Core/WR_CWiiRemote.cpp:497-532 | as written, the write acknowledgement 0x22 passes the input-mask test and is handed to the IR sensor from byte 1 |
| Remote.RoutesCorrected | trunk/WiiRemote/Core/WR_CWiiRemote.cpp:497-532 | the corrected dispatch sends the write acknowledgement nowhere and every other opcode where the source sends it |
| Remote.ReceiptPreventsTimeout | trunk/WiiRemote/Core/WR_CWiiRemote.cpp:476-556 | a remote that has just received a report cannot time out on that tick |
| Remote.NoTimeoutWithoutLimit | trunk/WiiRemote/Core/WR_CWiiRemote.cpp:546 | without a positive timeout the connection is never dropped |
| Remote.CreateButtonHelper | trunk/WiiRemote/Core/WR_CWiiRemote.cpp:29-32 | the remote's button pad is fresh, valid, active-high and uses the eleven remote masks |
| Remote.CreateMotionHelper | trunk/WiiRemote/Core/WR_CWiiRemote.cpp:35-38 | the accelerometer helper is fresh, valid and not yet attached |
| Remote.CreateDataHelper | trunk/WiiRemote/Core/WR_CWiiRemote.cpp:41-44 | the data helper is fresh and writes into an empty outbound queue |
| Remote.CreateSensorHelper | trunk/WiiRemote/Core/WR_CWiiRemote.cpp:57-60 | the IR helper is fresh and switched off |
| Remote.CreateNunchuk | trunk/WiiRemote/Core/WR_CWiiRemote.cpp:47-54 | the Nunchuk helper for type 0xFEFE is fresh and initialised |
| Remote.ExtensionReply | trunk/WiiRemote/Core/WR_CWiiRemote.cpp:645-653 | a data reply answers the type register exactly when its address bytes are 0x00FE, and then the type is bytes 6 and 7 |
| Remote.WiiRemote.constructor | trunk/WiiRemote/Core/WR_CWiiRemote.cpp:64-95 | a remote starts with no ID, no flags, no listeners, an empty read queue and fresh helpers |
| Remote.WiiRemote.Initialize | trunk/WiiRemote/Core/WR_CWiiRemote.cpp:158-203 | a remote that has an ID, or is given the invalid ID, fails with BADINIT and is unchanged; otherwise it takes the ID and attaches its helpers; an unopened handle fails with INVALIDHANDLE, and an open one succeeds and starts connecting with the default report |
| Remote.WiiRemote.AttachHelpers | trunk/WiiRemote/Core/WR_CWiiRemote.cpp:164-176 | every helper is initialised against this remote: the pad's buttons all Up at time 0 with the ID seed restarted and the actions kept, the accelerometer uncalibrated and at rest, the camera off with four unseen dots and the cursor at the origin off screen |
| Remote.WiiRemote.AddListener | trunk/WiiRemote/Core/WR_CWiiRemote.cpp:136-143 | a listener joins once, and a null listener never |
| Remote.WiiRemote.RemoveListener | trunk/WiiRemote/Core/WR_CWiiRemote.cpp:146-155 | the one occurrence of the listener leaves |
| Remote.WiiRemote.Shutdown | trunk/WiiRemote/Core/WR_CWiiRemote.cpp:231-299 | the remote is reset (LEDs off and rumble stopped while connected, with the status announced, and the next status request rescheduled), every flag is cleared, the extension is gone without an unplug notification, and listeners hear a disconnect that did not time out |
| Remote.WiiRemote.WriteData | trunk/WiiRemote/Core/WR_CWiiRemote.cpp:697-702 | the packet joins the end of the outbound queue |
| Remote.WiiRemote.Reconnect | trunk/WiiRemote/Core/WR_CWiiRemote.cpp:206-216 | a connection attempt starts now with the kept or the default report, sent through the connect bypass, and listeners hear that the remote is connecting |
| Remote.WiiRemote.SetReportConnect | trunk/WiiRemote/Core/WR_CWiiRemote.cpp:354-360 | the report goes out as if connected, and the remote is left neither connected nor continuous |
| Remote.WiiRemote.SetReport | trunk/WiiRemote/Core/WR_CWiiRemote.cpp:323-351 | unconnected: nothing changes; connected: the mode and continuity are recorded, a change of either is announced, the IR camera is enabled and the IR packets then the report request are queued |
| Remote.WiiRemote.TriggerContinuousReport | trunk/WiiRemote/Core/WR_CWiiRemote.cpp:363-366 | continuity, which the pad and the Nunchuk read as their buffered-input setting, changes while connected, and the mode stays |
| Remote.WiiRemote.SetStatusUpdate | trunk/WiiRemote/Core/WR_CWiiRemote.cpp:381-393 | a positive frequency turns status requests on and schedules the next one from now; any other turns them off |
| Remote.WiiRemote.RequestStatusUpdate | trunk/WiiRemote/Core/WR_CWiiRemote.cpp:396-406 | a status request is queued exactly when connected |
| Remote.WiiRemote.SetLEDs | trunk/WiiRemote/Core/WR_CWiiRemote.cpp:409-419 | an LED request is queued exactly when connected |
| Remote.WiiRemote.SetRumble | trunk/WiiRemote/Core/WR_CWiiRemote.cpp:422-441 | while connected both rumble flags follow the request, the rumble packet goes out and the status is announced; otherwise nothing changes |
| Remote.WiiRemote.Reset | trunk/WiiRemote/Core/WR_CWiiRemote.cpp:302-314 | while connected the LEDs go off and the rumble stops, with the status announced; the next status request is rescheduled from now |
| Remote.WiiRemote.Push | trunk/WiiRemote/Core/WR_CWiiRemote.cpp:763-812 | the reading thread's report joins the end of the read queue |
| Remote.WiiRemote.Update | trunk/WiiRemote/Core/WR_CWiiRemote.cpp:456-590 | the read queue is emptied; any report completes a pending attempt and leaves the remote connected and heard from now; with no report a stale link is dropped with a timed-out disconnect and the extension released, and otherwise the link is unchanged |
| Remote.WiiRemote.Finish | trunk/WiiRemote/Core/WR_CWiiRemote.cpp:538-589 | after the finalisers, a timed-out link is dropped and otherwise the link and extension stay |
| Remote.WiiRemote.Supervise | trunk/WiiRemote/Core/WR_CWiiRemote.cpp:545-589 | a timed-out link is dropped; otherwise a due status request goes out and is rescheduled |
| Remote.WiiRemote.Drain | trunk/WiiRemote/Core/WR_CWiiRemote.cpp:460-536 | the queue is emptied oldest first; after any report the remote is not attempting and cannot time out on this tick |
| Remote.WiiRemote.Receive | trunk/WiiRemote/Core/WR_CWiiRemote.cpp:476-533 | a report marks the receipt time, completes a pending attempt with a Connected notice and keeps a connected remote connected |
| Remote.WiiRemote.Establish | trunk/WiiRemote/Core/WR_CWiiRemote.cpp:480-493 | the first report of an attempt connects the remote, stops the attempt clock and is announced |
| Remote.WiiRemote.Dispatch | trunk/WiiRemote/Core/WR_CWiiRemote.cpp:495-532 | the sections handed out are those the corrected Routes assigns to the opcode; the connected and attempting flags are untouched, and an extension is kept except by a status report |
| Remote.WiiRemote.ReadReply | trunk/WiiRemote/Core/WR_CWiiRemote.cpp:502-508 | a data reply feeds the buttons, the data channel, the callback and the remote's own type check; it keeps the connection flags and any extension already plugged in |
| Remote.WiiRemote.ReplyHelpers | trunk/WiiRemote/Core/WR_CWiiRemote.cpp:505-506 | the pad's new state is AfterWord of its old state on the word in bytes 1-2; the channel's new state and the callback handed back are Replied of its old state on the reply at byte 3 |
| Remote.WiiRemote.DispatchInput | trunk/WiiRemote/Core/WR_CWiiRemote.cpp:509-532 | the sections read are the input routes of the opcode, the extension's only while one is plugged in |
| Remote.WiiRemote.OwnSections | trunk/WiiRemote/Core/WR_CWiiRemote.cpp:512-527 | buttons, motion and IR read the input routes of the opcode without the extension; the offset left over is where the extension section starts |
| Remote.WiiRemote.ButtonSection | trunk/WiiRemote/Core/WR_CWiiRemote.cpp:513-517 | when both button bits are set the pad's new state is AfterWord of its old state on bytes 1-2 and the offset moves to 3; otherwise nothing changes |
| Remote.WiiRemote.PointerSections | trunk/WiiRemote/Core/WR_CWiiRemote.cpp:518-527 | from the offset the buttons leave, bit 0 reads the motion section and moves three bytes on, then bit 1 reads the IR section and moves ten bytes on; the routes read are those two in that order |
| Remote.WiiRemote.MotionSection | trunk/WiiRemote/Core/WR_CWiiRemote.cpp:518-522 | when bit 0 is set the accelerometer's new state is Sample of its old state on the three bytes at the running offset, which moves past them; otherwise nothing changes |
| Remote.WiiRemote.SensorSection | trunk/WiiRemote/Core/WR_CWiiRemote.cpp:523-527 | when bit 1 is set the dots become Sensed of the old dots on the ten bytes at the running offset, which moves past them; otherwise they stay |
| Remote.WiiRemote.ExtensionSection | trunk/WiiRemote/Core/WR_CWiiRemote.cpp:528-531 | when bit 2 is set the Nunchuk's new state is AfterReport of its old state on the decrypted report at the running offset; otherwise it is unchanged |
| Remote.WiiRemote.Invoke | trunk/WiiRemote/Core/WR_CWiiData.cpp:71-80 | a remote-calibration callback recalibrates the accelerometer from the reply; a Nunchuk-calibration callback gives a plugged-in Nunchuk the calibration of the reply and leaves the rest of its state; no other calibration changes |
| Remote.WiiRemote.UpdateStatus | trunk/WiiRemote/Core/WR_CWiiRemote.cpp:593-642 | the status flags follow byte 3 and the battery byte 6, a change of either is announced, and the extension is probed or unplugged |
| Remote.WiiRemote.CheckExtension | trunk/WiiRemote/Core/WR_CWiiRemote.cpp:619-641 | an expansion reported but not yet checked is probed; an extension no longer reported is unplugged and the checked flag cleared |
| Remote.WiiRemote.ApplyStatus | trunk/WiiRemote/Core/WR_CWiiRemote.cpp:595-617 | the status bits and battery are taken from the report, with a notice exactly when either changed |
| Remote.WiiRemote.Unplug | trunk/WiiRemote/Core/WR_CWiiRemote.cpp:632-641 | the extension is released, its unplugging logged and the checked flag cleared |
| Remote.WiiRemote.ProbeExtension | trunk/WiiRemote/Core/WR_CWiiRemote.cpp:620-631 | zero is written to the init register, the report re-sent and the type register read with no callback |
| Remote.WiiRemote.OnDataRead | trunk/WiiRemote/Core/WR_CWiiRemote.cpp:645-664 | a Nunchuk is created, marked checked and announced exactly when there was none and the reply gives type 0xFEFE from the type register; otherwise nothing changes |
| Remote.WiiRemote.PostUpdates | trunk/WiiRemote/Core/WR_CWiiRemote.cpp:538-543 | every helper, the extension included, is finalised and left valid and not updated |
| Remote.WiiRemote.PostOwn | trunk/WiiRemote/Core/WR_CWiiRemote.cpp:539-542 | the pad becomes AfterPost of its old state, the accelerometer and the data channel only lose their updated flag, the dots stay and the cursor becomes Tracked from the old cursor and dots |
| Remote.WiiRemote.CheckTimeout | trunk/WiiRemote/Core/WR_CWiiRemote.cpp:545-582 | the link is lost exactly when TimedOut holds; then both connection flags and the checked flag clear, the extension goes and a timed-out disconnect is announced; otherwise nothing changes |
| Remote.WiiRemote.SetConnectionTimeout | trunk/WiiRemote/Core/WR_CWiiRemote.cpp:688-691 | the connection timeout becomes the given value |
| Hid.AdmitSpec | trunk/WiiRemote/Core/WR_CHIDController.cpp:97-116 | one device keeps the found paths repeat-free and at most four, only appends, and appends only a new remote's path |
| Hid.AdmitAllSpec | trunk/WiiRemote/Core/WR_CHIDController.cpp:76-126 | a pass keeps the found paths repeat-free and at most four, extends them, and every added path is a listed remote's |
| Hid.AdmitAllKeeps | trunk/WiiRemote/Core/WR_CHIDController.cpp:76-126 | a remote the pass lists is among the found paths afterwards, unless four paths are known |
| Hid.ScannedRest | trunk/WiiRemote/Core/WR_CHIDController.cpp:63-133 | a path scanned in a later pass was scanned by the poll |
| Hid.PollSpec | trunk/WiiRemote/Core/WR_CHIDController.cpp:55-139 | a poll keeps its starting paths, adds only scanned remotes' paths, never repeats one, never exceeds four, and returns the count or the no-devices error |
| Hid.PollStops | trunk/WiiRemote/Core/WR_CHIDController.cpp:131-133 | after a pass the poll goes on exactly while time is left and fewer paths than wanted are known |
| Hid.Extended | trunk/WiiRemote/Core/WR_CHIDController.cpp:63-133 | the paths a poll adds are those of the first pass followed by those of the later passes |
| Hid.OccupiedUpdate | trunk/WiiRemote/Core/WR_CHIDController.cpp:183 | filling an empty slot adds one to the remote count and emptying a taken one subtracts one |
| Hid.OccupiedBound | trunk/WiiRemote/Core/WR_CHIDController.cpp:239-245 | the remote count is at most the number of slots, and zero exactly when every slot is empty |
| Hid.FourthSlotUnreachable | trunk/WiiRemote/Core/WR_CHIDController.cpp:225-229 | as written, GetRemote(4) does not return the remote InitializeRemote(4) placed in the fourth slot |
| Hid.RemoteAt | trunk/WiiRemote/Core/WR_CHIDController.cpp:225-229 | IDs 1 to 4 name slots 0 to 3 and every other ID names no remote |
| Hid.RemoteAtEverySlot | trunk/WiiRemote/Core/WR_CHIDController.cpp:168-229 | the remote InitializeRemote puts in a slot is the one GetRemote returns for that ID, for all four slots |
| Hid.Controller.constructor | trunk/WiiRemote/Core/WR_CHIDController.cpp:31-35 | the controller starts with four empty paths, four empty slots and no listeners |
| Hid.Controller.ClearFoundRemotes | trunk/WiiRemote/Core/WR_CHIDController.cpp:151-159 | every found path is emptied and the found count is zero |
| Hid.Controller.Place | trunk/WiiRemote/Core/WR_CHIDController.cpp:101-108 | the duplicate scan ends below four exactly when the path is new and there is room, and then it ends at the found count |
| Hid.Controller.AdmitDevice | trunk/WiiRemote/Core/WR_CHIDController.cpp:97-116 | the found paths become Admit of the old ones, and each added path is announced |
| Hid.Controller.ScanDevices | trunk/WiiRemote/Core/WR_CHIDController.cpp:76-126 | the found paths become AdmitAll of the old ones over the pass, and each added path is announced |
| Hid.Controller.PoolRemoteDevices | trunk/WiiRemote/Core/WR_CHIDController.cpp:55-139 | the found paths and the result are those of Poll over the scans, with every added path announced |
| Hid.Controller.FoundCount | trunk/WiiRemote/Core/WR_CHIDController.cpp:162-165 | the found count is the number of found paths, at most four |
| Hid.Controller.InitializeRemote | trunk/WiiRemote/Core/WR_CHIDController.cpp:168-197 | a remote is created, placed and announced exactly when the ID is 1 to 4, its path is found, its slot is empty and the remote opens its device; otherwise no slot changes |
| Hid.Controller.Open | trunk/WiiRemote/Core/WR_CHIDController.cpp:179-181 | a new remote given a valid ID initialises successfully exactly when its device handle opens, and takes that ID |
| Hid.Controller.GetRemote | trunk/WiiRemote/Core/WR_CHIDController.cpp:225-229 | with the corrected bound: the remote in slot ID - 1 for IDs 1 to 4, none otherwise |
| Hid.Controller.GetRemoteCount | trunk/WiiRemote/Core/WR_CHIDController.cpp:239-245 | the number of taken slots, at most four |
| Hid.Controller.AddListener | trunk/WiiRemote/Core/WR_CHIDController.cpp:248-255 | a listener joins once, and a null listener never |
| Hid.Controller.RemoveListener | trunk/WiiRemote/Core/WR_CHIDController.cpp:258-267 | the one occurrence of the listener leaves |
| Gesture.ZeroMaskFires | trunk/WiiRemote/Motions/BaseMotion.cpp:43-46 | a detector whose pass mask was never set counts as fired whatever its state |
| Gesture.WordHas | trunk/WiiRemote/Motions/BaseMotion.cpp:43-46 | a flag's bit is set in the state word exactly when the flag was set in the state |
| Gesture.EvidenceStays | trunk/WiiRemote/Motions/BaseMotion.h:152-170 | a threshold met, met before a veto, or met in succession stays so when more samples follow |
| Gesture.ThenNeedsEarlier | trunk/WiiRemote/Motions/BaseMotion.h:152-170 | a succession that completes on the last sample started on an earlier one |
| BaseMotion.MaskMeans | trunk/WiiRemote/Motions/BaseMotion.cpp:43-46 | with its registered mask, a class has fired exactly when its state holds every flag of that mask |
| BaseMotion.UpdatesSnoc | trunk/WiiRemote/Motions/BaseMotion.h:161 | one more update sample is one more OnUpdate call |
| BaseMotion.UpdatesAgree | trunk/WiiRemote/Motions/BaseMotion.h:152-170 | the updates dispatched by kind are the class's own updates |
| BaseMotion.RunAgrees | trunk/WiiRemote/Motions/BaseMotion.h:152-170 | a whole motion dispatched by kind is the class's own OnBegin, OnUpdate and OnEnd sequence |
| BaseMotion.FiresOnlyWhenAllowed | trunk/WiiRemote/Motions/BaseMotion.h:152-170 | no registered gesture fires under a game state or game answer that switches it off |
| BaseMotion.MenusSilence | trunk/WiiRemote/Motions/BaseMotion.h:152-170 | in the nanosuit and weapon menus no gesture fires |
| BaseMotion.VehiclesZoomAndSeatOnly | trunk/WiiRemote/Motions/BaseMotion.h:152-170 | in a land, sea, helicopter or VTOL vehicle only the zoom and seat gestures fire |
| BaseMotion.WiimotePrioritiesDistinct | trunk/WiiRemote/Motions/ZoomMotion.cpp:365-366 | no two Wiimote gestures are registered with the same priority |
| BaseMotion.PriorityExtremes | trunk/WiiRemote/Motions/ThrowMotion.cpp:153 | the throw (3.0) outranks every other Wiimote gesture and the drop (0.1) yields to all of them |
| BaseMotion.Select | trunk/WiiRemote/CWiiRemoteManager.cpp:284-296 | the shapes registered for one controller, in registration order, never more than the registrations |
| BaseMotion.SelectPartition | trunk/WiiRemote/CWiiRemoteManager.cpp:284-296 | every Wiimote or Nunchuk registration lands in exactly one of the two lists, and the Wiimote list holds exactly the Wiimote registrations |
| BaseMotion.BuiltinsNunchuk | trunk/WiiRemote/Motions/JumpMotion.cpp:101 | the built-in registrations give the Nunchuk the jump alone |
| BaseMotion.BuiltinsWiimote | trunk/WiiRemote/Motions/ZoomMotion.cpp:365-366 | the built-in registrations give the Wiimote nine gestures |
| BaseMotion.AllConsts | trunk/WiiRemote/Motions/BaseMotion.h:54-56 | the constants of a list of registrations, one for one |
| BaseMotion.Detector.constructor | trunk/WiiRemote/Motions/BaseMotion.cpp:28-34 | a new detector has zero priority, an empty state and a zero pass mask |
| BaseMotion.Detector.IsFired | trunk/WiiRemote/Motions/BaseMotion.cpp:43-46 | a detector with a zero pass mask is always fired |
| BaseMotion.Detector.FiredMeans | trunk/WiiRemote/Motions/BaseMotion.cpp:43-46 | with its class's mask, a detector is fired exactly when its state holds all the mask's flags |
| BaseMotion.Detector.SetPassMask | trunk/WiiRemote/Motions/BaseMotion.cpp:49-52 | the pass mask becomes the given one |
| BaseMotion.Detector.SetPriority | trunk/WiiRemote/Motions/BaseMotion.cpp:61-64 | the priority becomes the given one and GetPriority returns it |
| BaseMotion.Detector.OnBegin | trunk/WiiRemote/Motions/BaseMotion.cpp:67-70 | the state is cleared and then holds exactly the class's begin flags |
| BaseMotion.Detector.OnUpdate | trunk/WiiRemote/Motions/BaseMotion.cpp:73-76 | the state becomes the class's update of the old state |
| BaseMotion.Detector.OnEnd | trunk/WiiRemote/Motions/BaseMotion.cpp:79-82 | the state becomes the class's end step of the old state |
| BaseMotion.Registration.constructor | trunk/WiiRemote/Motions/BaseMotion.h:33-43 | a registration keeps its controller, pass mask and priority, and has no successor |
| BaseMotion.Registration.Create | trunk/WiiRemote/Motions/BaseMotion.h:66-73 | a new detector of the class with the registration's pass mask and priority and an empty state |
| BaseMotion.Registry.constructor | trunk/WiiRemote/Motions/BaseMotion.cpp:16-17 | the static list starts empty |
| BaseMotion.Registry.Register | trunk/WiiRemote/Motions/BaseMotion.h:33-43 | the registration is appended: it heads an empty list or follows the old tail, and becomes the tail |
| BaseMotion.Registry.Walk | trunk/WiiRemote/CWiiRemoteManager.cpp:284-296 | following the links from the head visits every registration once, in the order they were made |
| BaseMotion.RegisterBuiltins | trunk/WiiRemote/Motions/ZoomMotion.cpp:365-366 | after the ten REGISTER_MOTION lines the list holds their controllers, masks and priorities in order |
| JumpMotion.Passed | trunk/WiiRemote/Motions/JumpMotion.cpp:23-29 | the pass mask holds exactly when both the begin and the G flag are set |
| JumpMotion.UpdateBits | trunk/WiiRemote/Motions/JumpMotion.cpp:56-64 | updates set the G flag exactly when on foot and some sample reaches JumpSensitivity, and never touch the begin flag |
| JumpMotion.Fires | trunk/WiiRemote/Motions/JumpMotion.cpp:38-81 | a jump fires exactly when the player is on foot or behind binoculars, began within CrouchTilt of level, and z reached JumpSensitivity on an update or end sample |
| ZoomMotion.Passed | trunk/WiiRemote/Motions/ZoomMotion.cpp:27-35 | the pass mask holds exactly when the begin, good-swing and end flags are set, whatever the bad-swing flag |
| ZoomMotion.UpdatesIdle | trunk/WiiRemote/Motions/ZoomMotion.cpp:91-110 | outside the zoom states, or with nothing to zoom, updates change nothing |
| ZoomMotion.Gated | trunk/WiiRemote/Motions/ZoomMotion.cpp:73-135 | outside the zoom states, or with nothing to zoom, no flag is set and the zoom never fires |
| ZoomMotion.SwingStep | trunk/WiiRemote/Motions/ZoomMotion.cpp:91-110 | one sample sets the good-swing flag when it swings far enough and no bad swing came before, and the bad-swing flag when it swings the wrong way |
| ZoomMotion.UpdateBits | trunk/WiiRemote/Motions/ZoomMotion.cpp:91-110 | after the updates the good-swing flag means a good swing came before any bad one and the bad-swing flag that a bad one came |
| ZoomMotion.StateBits | trunk/WiiRemote/Motions/ZoomMotion.cpp:73-135 | after a motion: begun exactly when the pitch started within 30 degrees, good swing before any bad one, bad swing somewhere, ended exactly when the roll is within 45 degrees |
| ZoomMotion.Fires | trunk/WiiRemote/Motions/ZoomMotion.cpp:73-135 | a zoom fires exactly when it began level, a good swing came before any bad one and it ended without roll; a later bad swing does not cancel it |
| ZoomMotion.FlipAll | trunk/WiiRemote/Motions/ZoomMotion.cpp:254-268 | every sample, in order, with its y acceleration negated |
| ZoomMotion.MirrorUpdates | trunk/WiiRemote/Motions/ZoomMotion.cpp:254-268 | zoom out's updates are zoom in's updates over the y-negated samples, with zoom out's sensitivity |
| ZoomMotion.Mirror | trunk/WiiRemote/Motions/ZoomMotion.cpp:236-298 | a whole zoom-out motion is a zoom-in motion with the y axis reversed and the zoom-out sensitivity |
| ThrowMotion.Passed | trunk/WiiRemote/Motions/ThrowMotion.cpp:26-35 | the pass mask holds exactly when the lift, back-swing, forward-swing, end and no-dive flags are all set |
| ThrowMotion.UpdatesIdle | trunk/WiiRemote/Motions/ThrowMotion.cpp:60-92 | outside the player and binoculars states updates change nothing |
| ThrowMotion.Gated | trunk/WiiRemote/Motions/ThrowMotion.cpp:44-122 | outside the player and binoculars states no flag is set and the throw never fires |
| ThrowMotion.UpdateBits | trunk/WiiRemote/Motions/ThrowMotion.cpp:60-92 | after the updates: lift when y reached ThrowSensitivity, back-swing when z swung back, forward-swing when z swung forward after a back-swing, no-dive kept only while no sample dived |
| ThrowMotion.StateBits | trunk/WiiRemote/Motions/ThrowMotion.cpp:44-122 | each flag after a whole throw motion in terms of its begin, update and end samples |
| ThrowMotion.ForwardNeedsBack | trunk/WiiRemote/Motions/ThrowMotion.cpp:60-122 | the forward-swing flag is never set without the back-swing flag |
| ThrowMotion.Fires | trunk/WiiRemote/Motions/ThrowMotion.cpp:44-122 | a throw fires exactly when no sample dives, y reaches ThrowSensitivity, z swings back and later forward, and the motion ends level |
| ThrowMotion.DiveLatches | trunk/WiiRemote/Motions/ThrowMotion.cpp:60-92 | once a dive clears the no-dive flag no later update sets it again |
| PickUpMotion.Passed | trunk/WiiRemote/Motions/PickUpMotion.cpp:26-34 | the pass mask holds exactly when the begin, y, z and end flags are set |
| PickUpMotion.UpdatesIdle | trunk/WiiRemote/Motions/PickUpMotion.cpp:60-77 | outside the player and binoculars states updates change nothing |
| PickUpMotion.Gated | trunk/WiiRemote/Motions/PickUpMotion.cpp:43-98 | outside the player and binoculars states no flag is set and the pick-up never fires |
| PickUpMotion.UpdateBits | trunk/WiiRemote/Motions/PickUpMotion.cpp:60-77 | after the updates the y and z flags record whether some sample reached PickUpSensitivity on that axis |
| PickUpMotion.StateBits | trunk/WiiRemote/Motions/PickUpMotion.cpp:43-98 | each flag after a whole pick-up motion in terms of its samples |
| PickUpMotion.Fires | trunk/WiiRemote/Motions/PickUpMotion.cpp:43-98 | a pick-up fires exactly when it began level, y and z each reached PickUpSensitivity and it ended pointed up |
| MeleeMotion.Passed | trunk/WiiRemote/Motions/MeleeMotion.cpp:26-35 | the pass mask holds exactly when the begin, x, z, no-bad-x and side-roll flags are set |
| MeleeMotion.UpdatesIdle | trunk/WiiRemote/Motions/MeleeMotion.cpp:76-98 | outside the player and binoculars states, or without a melee weapon, updates change nothing |
| MeleeMotion.Gated | trunk/WiiRemote/Motions/MeleeMotion.cpp:54-124 | outside those states, or without a melee weapon, no flag is set and the melee never fires |
| MeleeMotion.UpdateBits | trunk/WiiRemote/Motions/MeleeMotion.cpp:76-98 | after the updates the x and z flags record a swipe and a chop, and the no-bad-x flag stays only while no sample swung wildly in x |
| MeleeMotion.StateBits | trunk/WiiRemote/Motions/MeleeMotion.cpp:54-124 | each flag after a whole melee motion in terms of its samples |
| MeleeMotion.Fires | trunk/WiiRemote/Motions/MeleeMotion.cpp:54-124 | a melee fires exactly when it began level with x below 3, no sample swung wildly in x, a swipe and a chop came, and it ended on its side |
| PunchMotion.Passed | trunk/WiiRemote/Motions/PunchMotion.cpp:26-34 | the pass mask holds exactly when the begin, strike, wind-up and end flags are set |
| PunchMotion.UpdatesIdle | trunk/WiiRemote/Motions/PunchMotion.cpp:86-107 | outside the player state, or without the fists, updates change nothing |
| PunchMotion.Gated | trunk/WiiRemote/Motions/PunchMotion.cpp:68-127 | outside the player state, or without the fists, no flag is set and the punch never fires |
| PunchMotion.UpdateBits | trunk/WiiRemote/Motions/PunchMotion.cpp:86-107 | after the updates the wind-up flag records a wind-up and the strike flag a strike after an earlier wind-up |
| PunchMotion.StateBits | trunk/WiiRemote/Motions/PunchMotion.cpp:68-127 | each flag after a whole punch motion in terms of its samples |
| PunchMotion.Fires | trunk/WiiRemote/Motions/PunchMotion.cpp:68-127 | a punch fires exactly when it began level, a strike sample came strictly after a wind-up sample, and it ended without roll |
| PunchMotion.NoStrikeAlone | trunk/WiiRemote/Motions/PunchMotion.cpp:86-127 | a single update or end sample cannot both wind up and strike |
| SeatMotion.Passed | trunk/WiiRemote/Motions/SeatMotion.cpp:26-34 | the pass mask holds exactly when the begin, good-swing and end flags are set |
| SeatMotion.UpdatesIdle | trunk/WiiRemote/Motions/SeatMotion.cpp:72-93 | in a menu or outside a vehicle updates change nothing |
| SeatMotion.Gated | trunk/WiiRemote/Motions/SeatMotion.cpp:54-118 | in a menu or outside a vehicle no flag is set and the seat change never fires |
| SeatMotion.UpdateBits | trunk/WiiRemote/Motions/SeatMotion.cpp:72-93 | after the updates the good-swing flag means a good swing came before any bad one and the bad-swing flag that a bad one came |
| SeatMotion.StateBits | trunk/WiiRemote/Motions/SeatMotion.cpp:54-118 | each flag after a whole seat motion in terms of its samples |
| SeatMotion.Fires | trunk/WiiRemote/Motions/SeatMotion.cpp:54-118 | a seat change fires exactly when it began level, a good swing came before any bad one and it ended without roll |
| SeatMotion.SeatCycle | trunk/WiiRemote/Motions/SeatMotion.cpp:129-137 | on seats 1 to the last, next and previous stay on the seats and undo each other |
| SeatMotion.SeatWrap | trunk/WiiRemote/Motions/SeatMotion.cpp:274-282 | the seat after the last is the first, and the one before the first is the last |
| DropMotion.Passed | trunk/WiiRemote/Motions/DropMotion.cpp:27-35 | the pass mask holds exactly when the begin, x, z and end flags are set |
| DropMotion.UpdatesIdle | trunk/WiiRemote/Motions/DropMotion.cpp:85-103 | outside the player and binoculars states, or with nothing to drop, updates change nothing |
| DropMotion.Gated | trunk/WiiRemote/Motions/DropMotion.cpp:67-121 | outside those states, or with nothing to drop, no flag is set and the drop never fires |
| DropMotion.UpdateBits | trunk/WiiRemote/Motions/DropMotion.cpp:85-103 | after the updates the x and z flags record whether some sample fell to -DropSensitivity on that axis |
| DropMotion.StateBits | trunk/WiiRemote/Motions/DropMotion.cpp:67-121 | each flag after a whole drop motion in terms of its samples |
| DropMotion.Fires | trunk/WiiRemote/Motions/DropMotion.cpp:67-121 | a drop fires exactly when it began level, x and z each fell to -DropSensitivity and it ended rolled over by 45 degrees or more |
| DropMotion.RolledOverIsNotLevel | trunk/WiiRemote/Motions/DropMotion.cpp:118-120 | the drop's end roll is exactly the complement of the level roll the other detectors end on |
| RemoteManager.Pick | trunk/WiiRemote/CWiiRemoteManager.cpp:1803-1810 | the pick, when there is one, is a fired detector of the list |
| RemoteManager.WinnerUnique | trunk/WiiRemote/CWiiRemoteManager.cpp:1803-1810 | at most one detector is the winner of a list |
| RemoteManager.PickIsWinner | trunk/WiiRemote/CWiiRemoteManager.cpp:1803-1810 | the loop picks nothing exactly when nothing fired, and otherwise exactly the winner: the fired detector of highest priority, the earliest listed among equals |
| RemoteManager.PickHighest | trunk/WiiRemote/CWiiRemoteManager.cpp:1803-1810 | with distinct priorities among the fired detectors the pick is the one of highest priority, whatever the list order |
| RemoteManager.Arbitrate | trunk/WiiRemote/CWiiRemoteManager.cpp:1803-1810 | one candidate per listed class, carrying whether it fired over the motion and its registered priority |
| RemoteManager.WiimoteNeverTies | trunk/WiiRemote/CWiiRemoteManager.cpp:1803-1810 | distinct Wiimote classes never tie, whatever fired |
| RemoteManager.ThrowWins | trunk/WiiRemote/CWiiRemoteManager.cpp:1803-1817 | a throw that fires is always the gesture executed, wherever it sits in the list |
| RemoteManager.DropYields | trunk/WiiRemote/CWiiRemoteManager.cpp:1803-1817 | a drop is executed only when it is the only gesture that fired |
| RemoteManager.MenuPicksNothing | trunk/WiiRemote/CWiiRemoteManager.cpp:1803-1817 | in the nanosuit or weapon menu no gesture is executed |
| RemoteManager.Candidates | trunk/WiiRemote/CWiiRemoteManager.cpp:1808 | IsFired and GetPriority of each detector, one for one |
| RemoteManager.Shapes | trunk/WiiRemote/CWiiRemoteManager.cpp:284-296 | the registration constants of each detector, one for one |
| RemoteManager.Placed | trunk/WiiRemote/CWiiRemoteManager.cpp:289-293 | appending a new detector keeps the list free of repeats and appends its constants |
| RemoteManager.SelectSnoc | trunk/WiiRemote/CWiiRemoteManager.cpp:284-296 | one more registration walked appends its shape to its controller's list only |
| RemoteManager.Adopt | trunk/WiiRemote/CWiiRemoteManager.cpp:287-294 | the registration's new detector is appended to the list of its controller, and a registration for any other controller is dropped |
| RemoteManager.Walk | trunk/WiiRemote/CWiiRemoteManager.cpp:283-296 | every registration creates one fresh detector, appended to the Wiimote or Nunchuk list by its controller, in registry order |
| RemoteManager.BeginAll | trunk/WiiRemote/CWiiRemoteManager.cpp:1773-1783 | every detector of the list has run OnBegin on the sample |
| RemoteManager.UpdateAll | trunk/WiiRemote/CWiiRemoteManager.cpp:1786-1795 | every detector of the list has run OnUpdate on the sample |
| RemoteManager.ChosenIsWinner | trunk/WiiRemote/CWiiRemoteManager.cpp:1803-1810 | nothing is chosen exactly when no detector fired, and otherwise the winner's kind |
| RemoteManager.PickSnoc | trunk/WiiRemote/CWiiRemoteManager.cpp:1808-1809 | one more detector replaces the running choice exactly when it fired and outranks it, or no choice was made yet |
| RemoteManager.EndOne | trunk/WiiRemote/CWiiRemoteManager.cpp:1806-1808 | the detector runs OnEnd and reports whether it fired and its priority |
| RemoteManager.EndAll | trunk/WiiRemote/CWiiRemoteManager.cpp:1803-1810 | every detector runs OnEnd, and the choice is the pick over the detectors' final states |
| RemoteManager.EndChoose | trunk/WiiRemote/CWiiRemoteManager.cpp:1803-1815 | every detector runs OnEnd, and the choice is the kind of the winner |
| RemoteManager.Raised | trunk/WiiRemote/CWiiRemoteManager.cpp:641-645 | a level outside the table leaves the flags as they are |
| RemoteManager.Cleared | trunk/WiiRemote/CWiiRemoteManager.cpp:648-656 | the flags keep their number |
| RemoteManager.RaisedSets | trunk/WiiRemote/CWiiRemoteManager.cpp:641-645 | raising a level sets exactly that flag and leaves the others alone |
| RemoteManager.ClearedClears | trunk/WiiRemote/CWiiRemoteManager.cpp:648-656 | clearing -1 turns every flag off; clearing a level turns off that flag and no other |
| RemoteManager.ClearUndoesRaise | trunk/WiiRemote/CWiiRemoteManager.cpp:641-656 | clearing a level undoes raising it, and clearing twice is clearing once |
| RemoteManager.BatteryLevel | trunk/WiiRemote/CWiiRemoteManager.cpp:744 | the level lies in [0, 1] and is the reported percentage divided by 100 |
| RemoteManager.LowBatteryAtTen | trunk/WiiRemote/CWiiRemoteManager.cpp:744-748 | the low-battery warning is raised exactly for a report of 10 percent or less |
| RemoteManager.BatteryMonotone | trunk/WiiRemote/CWiiRemoteManager.cpp:744 | a fuller battery never shows a lower level |
| RemoteManager.LedsAreBar | trunk/WiiRemote/CWiiRemoteManager.cpp:450-456 | the lit player LEDs always form a bar from P1 upwards |
| RemoteManager.LedQuarters | trunk/WiiRemote/CWiiRemoteManager.cpp:451-455 | P4, P3, P2 and P1 stay lit while more than 75, 50, 25 and 0 percent of the clip are left |
| RemoteManager.LedsMonotone | trunk/WiiRemote/CWiiRemoteManager.cpp:451-455 | more ammo never puts out an LED |
| RemoteManager.ClipExtremes | trunk/WiiRemote/CWiiRemoteManager.cpp:439-460 | a full clip lights all four LEDs, an empty one none, and a zero clip size with no ammo all four |
| RemoteManager.Manager.constructor | trunk/WiiRemote/CWiiRemoteManager.cpp:175-202 | a manager starts enabled, with no error shown, a full battery, no freeze and no detectors |
| RemoteManager.Manager.Initialize | trunk/WiiRemote/CWiiRemoteManager.cpp:272-296 | when the core fails to initialise nothing is created; otherwise the registry walk appends one fresh detector per registration to its controller's list, in registry order |
| RemoteManager.Manager.SetErrorLevel | trunk/WiiRemote/CWiiRemoteManager.cpp:641-645 | the error flags become Raised of the old ones |
| RemoteManager.Manager.ClearErrorLevel | trunk/WiiRemote/CWiiRemoteManager.cpp:648-664 | the error flags become Cleared of the old ones, and the message time resets once none is left on |
| RemoteManager.Manager.OnStatusUpdate | trunk/WiiRemote/CWiiRemoteManager.cpp:741-749 | the battery level is the clamped percentage, and the low-battery flag is raised at or below 10 percent and cleared above |
| RemoteManager.Manager.SetMasterEnabled | trunk/WiiRemote/CWiiRemoteManager.cpp:567-620 | without a remote nothing changes; with one the enabled flag follows the request, and turning off with a player resets the message time |
| RemoteManager.Manager.FreezeMovement | trunk/WiiRemote/CWiiRemoteManager.cpp:629-638 | movement is frozen from now for exactly half a second |
| RemoteManager.InputListener.constructor | trunk/WiiRemote/CWiiRemoteManager.cpp:137-142 | the listener starts in the player state with no motion lifetimes and nothing executed |
| RemoteManager.InputListener.SetState | trunk/WiiRemote/CWiiRemoteManager.cpp:355-422 | the game state the detectors see becomes the one Update computed |
| RemoteManager.InputListener.OnMotionStart | trunk/WiiRemote/CWiiRemoteManager.cpp:1773-1783 | while enabled, the end lifetime resets and every Wiimote detector begins on the sample; otherwise nothing changes |
| RemoteManager.InputListener.OnMotionUpdate | trunk/WiiRemote/CWiiRemoteManager.cpp:1786-1795 | while enabled, every Wiimote detector updates on the sample; otherwise nothing changes |
| RemoteManager.InputListener.OnMotionEnd | trunk/WiiRemote/CWiiRemoteManager.cpp:1798-1820 | every Wiimote detector ends on the sample even while disabled; then, only while enabled, the winner is executed and the motion's lifetime recorded |
| RemoteManager.InputListener.OnExtensionMotionStart | trunk/WiiRemote/CWiiRemoteManager.cpp:1877-1887 | as OnMotionStart, over the Nunchuk detectors |
| RemoteManager.InputListener.OnExtensionMotionUpdate | trunk/WiiRemote/CWiiRemoteManager.cpp:1890-1899 | as OnMotionUpdate, over the Nunchuk detectors |
| RemoteManager.InputListener.OnExtensionMotionEnd | trunk/WiiRemote/CWiiRemoteManager.cpp:1902-1924 | as OnMotionEnd, over the Nunchuk detectors |
| Profile.TranslateButton | trunk/WiiRemote/CWiiRemoteProfile.cpp:295-316 | a binding translates to no mask exactly when it is not a bindable button; the Wii Remote's buttons translate to button-pad masks and C and Z to the Nunchuk's masks tagged with the Nunchuk bit |
| Profile.TranslateInjective | trunk/WiiRemote/CWiiRemoteProfile.cpp:295-316 | two different bindable buttons never share a mask |
| Profile.TranslateRemoteOrder | trunk/WiiRemote/CWiiRemoteProfile.cpp:295-316 | the Wii Remote's buttons translate, one by one, to the button pad's masks in the pad's own order |
| Profile.RemoteBindingReadsItsButton | trunk/WiiRemote/CWiiRemoteManager.cpp:2355-2363 | asking whether a binding to a Wii Remote button is down reads exactly that button's status on the remote's pad |
| Profile.NunchukBindingReadsItsButton | trunk/WiiRemote/CWiiRemoteManager.cpp:2355-2363 | a binding to C or Z is down exactly when a Nunchuk is plugged in and that button of the Nunchuk's pad is not up |
| Profile.UnboundNeverDown | trunk/WiiRemote/CWiiRemoteManager.cpp:2355-2363 | an unbound slot, or any value outside the buttons, is never reported down |
| Profile.NamesDistinct | trunk/WiiRemote/Interfaces/IWiiRemoteProfile.h:40-44 | no two buttons share a name, so a name stands for a single button |
| Profile.TranslateStrButton | trunk/WiiRemote/CWiiRemoteProfile.cpp:319-327 | the result is a button index; it names the given string exactly when the string is one of the button names, it is the only index that does, and an unknown name gives WIIBTN_NONE |
| Profile.NameRoundTrip | trunk/WiiRemote/Interfaces/IWiiRemoteProfile.h:40-44 | every button's name is a listed name that belongs to that button alone, so translating the name gives the button back |
| Profile.Value.Type | trunk/WiiRemote/CWiiRemoteProfile.cpp:576-580 | the type code matches the kind of value the variable holds, one code per kind |
| Profile.Value.Float | trunk/WiiRemote/CWiiRemoteProfile.cpp:582-586 | a float variable reads its value; any variable whose type code is not the float code reads 0 |
| Profile.Value.Button | trunk/WiiRemote/CWiiRemoteProfile.cpp:589-593 | a button variable reads its button; any variable whose type code is not the button code reads WIIBTN_NONE |
| Profile.Value.Bool | trunk/WiiRemote/CWiiRemoteProfile.cpp:596-600 | a bool variable reads its value; any variable whose type code is not the bool code reads false |
| Profile.Value.SetFloat | trunk/WiiRemote/CWiiRemoteProfile.cpp:603-607 | the type never changes; only a float variable is changed, and it ends up inside a non-empty range, unchanged when the new value already lies in the range |
| Profile.Value.SetButton | trunk/WiiRemote/CWiiRemoteProfile.cpp:610-614 | the type never changes; only a button variable is changed, and it always ends up a real button, namely the given one when that is a real button |
| Profile.Value.SetBool | trunk/WiiRemote/CWiiRemoteProfile.cpp:617-621 | the type never changes; only a bool variable is changed, and it takes the given value |
| Profile.UnknownNameBindsFirstButton | trunk/WiiRemote/CWiiRemoteProfile.cpp:610-614 | giving a button variable WIIBTN_NONE, as an unknown name does, binds it to DPad Up because of the clamp |
| Profile.SettersKeepRange | trunk/WiiRemote/CWiiRemoteProfile.cpp:603-621 | every setter keeps a variable's value inside its range, as long as a float's range is not empty |
| Profile.SettersKeepUsable | trunk/WiiRemote/CWiiRemoteProfile.cpp:603-621 | every setter keeps a usable variable usable: it still has a type, its value is in range and its range is not empty |
| Profile.Variable.constructor | trunk/WiiRemote/CWiiRemoteProfile.cpp:514-520 | a new variable has no type, no name or group, and the range FLT_MIN to FLT_MAX |
| Profile.Variable.InitializeFloat | trunk/WiiRemote/CWiiRemoteProfile.cpp:530-536 | the variable gets the name, the group and the float value, and keeps its range |
| Profile.Variable.InitializeButton | trunk/WiiRemote/CWiiRemoteProfile.cpp:539-545 | the variable gets the name, the group and the button value, stored without clamping, and keeps its range |
| Profile.Variable.InitializeBool | trunk/WiiRemote/CWiiRemoteProfile.cpp:548-554 | the variable gets the name, the group and the bool value, and keeps its range |
| Profile.Variable.SetRange | trunk/WiiRemote/CWiiRemoteProfile.cpp:557-561 | only the range changes, and the value is not re-clamped |
| Profile.Variable.SetValueFloat | trunk/WiiRemote/CWiiRemoteProfile.cpp:603-607 | only the value changes, as the float setter describes, clamped to the variable's own range |
| Profile.Variable.SetValueButton | trunk/WiiRemote/CWiiRemoteProfile.cpp:610-614 | only the value changes, as the button setter describes |
| Profile.Variable.SetValueBool | trunk/WiiRemote/CWiiRemoteProfile.cpp:617-621 | only the value changes, as the bool setter describes |
| Profile.Variable.Apply | trunk/WiiRemote/CWiiRemoteProfile.cpp:98-292 | one slot of the defaults: the variable's Initialize call, then its SetRange call when it has one; a slot without calls leaves the variable as it was |
| Profile.Real | trunk/WiiRemote/CWiiRemoteProfile.cpp:98-292 | a float default that lies inside its range makes a sound slot |
| Profile.Key | trunk/WiiRemote/CWiiRemoteProfile.cpp:98-292 | a button default that is a real button makes a sound slot |
| Profile.Flag | trunk/WiiRemote/CWiiRemoteProfile.cpp:98-292 | every bool default makes a sound slot |
| Profile.DefaultAsWritten | trunk/WiiRemote/CWiiRemoteProfile.cpp:98-292 | the defaults as written: every slot except EnableRumble's is initialised, in range and a real button where it is a binding, and EnableRumble's slot gets no call |
| Profile.OptionSlot | trunk/WiiRemote/CWiiRemoteProfile.cpp:100-108 | the Options defaults are sound, except EnableRumble, which gets no call |
| Profile.PlayerTiltSlot | trunk/WiiRemote/CWiiRemoteProfile.cpp:110-130 | the Player jump, tilt, look and turn defaults are sound |
| Profile.PlayerGestureSlot | trunk/WiiRemote/CWiiRemoteProfile.cpp:131-156 | the Player gesture, IR-sensor and soft-lock defaults are sound |
| Profile.PlayerKeySlot | trunk/WiiRemote/CWiiRemoteProfile.cpp:158-173 | the Player key bindings are real buttons |
| Profile.VehicleSlot | trunk/WiiRemote/CWiiRemoteProfile.cpp:175-208 | the Vehicle look, turn and steering defaults are sound |
| Profile.VehicleKeySlot | trunk/WiiRemote/CWiiRemoteProfile.cpp:210-219 | the Vehicle key bindings are real buttons |
| Profile.HelicopterSlot | trunk/WiiRemote/CWiiRemoteProfile.cpp:221-244 | the Helicopter pitch, turn and roll defaults are sound |
| Profile.HelicopterKeySlot | trunk/WiiRemote/CWiiRemoteProfile.cpp:246-253 | the Helicopter key bindings are real buttons |
| Profile.VtolSlot | trunk/WiiRemote/CWiiRemoteProfile.cpp:255-282 | the VTOL pitch, turn and strafe defaults are sound |
| Profile.VtolKeySlot | trunk/WiiRemote/CWiiRemoteProfile.cpp:284-291 | the VTOL key bindings are real buttons |
| Profile.RumbleStaysOff | trunk/WiiRemote/CWiiRemoteProfile.cpp:100-108 | with the defaults as written, EnableRumble stays untyped, so it reads false and setting it to true has no effect |
| Profile.Default | trunk/WiiRemote/CWiiRemoteProfile.h:34 | the corrected defaults: every slot is sound, and each slot other than EnableRumble's is the one written |
| Profile.RumbleSettable | trunk/WiiRemote/CWiiRemoteProfile.h:34 | with the corrected defaults rumble starts allowed, and the option takes whichever value it is set to |
| Profile.SoundApplied | trunk/WiiRemote/CWiiRemoteProfile.cpp:530-561 | a sound slot leaves its variable usable and holding the slot's default, whatever the variable held before |
| Profile.Lower | trunk/WiiRemote/CWiiRemoteProfile.cpp:54-65 | the case folding under stricmp: an ASCII capital becomes its lower-case letter and every other character stays as it is |
| Profile.SameTextEquivalence | trunk/WiiRemote/CWiiRemoteProfile.cpp:54-65 | comparing names up to case is reflexive, symmetric and transitive |
| Profile.SameTextNotEqual | trunk/WiiRemote/CWiiRemoteProfile.cpp:54-65 | names that differ only in case match, while a shorter name or a different digit does not |
| Profile.Profile.constructor | trunk/WiiRemote/CWiiRemoteProfile.cpp:24-31 | the profile creates one new variable per slot, each as a new variable is left |
| Profile.Profile.GetVariable | trunk/WiiRemote/CWiiRemoteProfile.cpp:82-87 | the result is null exactly when the index is outside the slots, and otherwise the variable of that slot and of no other |
| Profile.Profile.GetVariableNamed | trunk/WiiRemote/CWiiRemoteProfile.cpp:54-65 | the result is null exactly when no variable has that name and group up to case, and otherwise the first variable that has them |
| Profile.Profile.SetToDefault | trunk/WiiRemote/CWiiRemoteProfile.cpp:98-292 | every slot's variable gets its corrected default, EnableRumble included, and the variable objects stay the same |
| Profile.AfterDefaultsUsable | trunk/WiiRemote/CWiiRemoteProfile.cpp:98-292 | after the corrected defaults every variable is usable and holds its slot's default |

## Left out

- The reader and writer threads (`trunk/WiiRemote/Core/WR_CWiiRemote.cpp:707-812`), critical sections and overlapped I/O are concurrency. The model keeps their effect: the inbound queue of 22-byte reports the remote drains, and the outbound queue of packets it fills.
- The `Sleep` calls only pace the threads and the data channel, so they are left out.
- Operating-system HID enumeration and opening (SetupDi, CreateFile, HidD) are replaced by input lists. Each scan says which devices one pass reported, with their vendor, product and whether they could be opened, and how long the pass took.
- `WR_CTimer.cpp` is not part of this model: the current time is a `now` parameter of every operation that reads the clock.
- `WR_Implementation.cpp` is not part of this model: the global instance, the singleton of the manager and the broadcast of errors are wiring.
- Failures to create the reader or writer thread are not modelled, because the threads are left out.
- Floats are mathematical reals. IEEE rounding, infinities and NaN are not modelled, except where an explicit `Ratio` value stands for the division in the LED code.
- A zero calibration span divides by zero in C. The model's reciprocal gives 0 there instead of an infinity.
- The orientation of a sample (`sqrtf`, `asinf` and the quadrant correction in `WR_CWiiMotion.cpp` and `WR_CWiiNunchuk.cpp`) is a parameter computed by the caller. `DEG2RAD` is the multiplication by 3.14159265 / 180.
- The detectors' `Execute` bodies act on the game and are reduced to a record of which kind ran. The seat detectors keep their seat-wrap arithmetic.
- The game queries (`CanZoom`, `CanDrop`, `CanPunch`, `CanMelee`, `CanChangeSeat`) and the profile tunings a detector reads are inputs.
- The manager's game glue acts on the player, vehicle, HUD and game engine and is left out, because it drives the game. This covers `OnCommonButton`, `OnSingleMotion`, `OnExtensionSingleMotion`, `UpdatePlayerMovement`, `OnCursorUpdate`, `UpdateHUD`, `OnAction`, `OnWeaponShoot`, `EditorResetGame`, `GetLockedEntity` and `Rumble`.
- RemoteManager.InputListener.SetState: the manager's `Update` computes the game state from the player and vehicle. The model takes that state as given and keeps only its assignment.
- RemoteManager.Manager.SetMasterEnabled: only the enabled flag and the message-time reset are modelled. The LED, rumble, action-capture and crosshair side effects are game output.
- `CWiiRemoteManager::Shutdown` and the destructors release objects and save the configuration. They have no model.
- The order in which C++ runs static initialisers across translation units is unspecified. The registry is modelled as filled in a given order, one `REGISTER_MOTION` object at a time.
- `m_bFired` of `CBaseMotion` is never read by the source's decisions and is not modelled.
- Profile persistence and the console commands are XML file I/O and a console UI: LoadCFG and SaveCFG, WriteToConfig and ReadFromConfig, and `wr_get` and `wr_set` (`trunk/WiiRemote/CWiiRemoteProfile.cpp:330-511` and `624-752`).
- Profile.Profile.SetToDefault: the source's 108 unrolled Initialize and SetRange calls are a slot table and one loop. Each call touches its own slot's object, so the order of the calls does not matter.
- Profile.Profile.GetVariableNamed: `stricmp` is modelled as an ASCII case fold; locale-dependent folding is not modelled.
- That the (name, group) keys of the 108 defaults are pairwise distinct is not proved. The lookup's contract holds either way, since it returns the first match.
- The `const` overloads of `GetVariable` do the same as the non-const ones and are not modelled separately.
- The Nunchuk's `IsButtonDown`, `GetActionStatus` and `IsActionDown` are the shared button pad's operations. The Nunchuk reuses that pad and has no separate copy in the model.
- The getters that only return a field (GetName, GetGroup, IsMasterEnabled, SetRemote, GetRemote of the manager) have no members of their own: the model reads the fields directly.
- `EnableBufferedInput` and `IsBufferedInputEnabled` of the buttons and the Nunchuk are the remote's TriggerContinuousReport and IsContinuousReport; the pad and the Nunchuk, which hold no pointer to the remote, take the setting as a `buffered` parameter, which the remote's dispatch passes from its continuous-report flag.
- Hid.Controller.InitializeRemote: the opening of the device itself is an input, namely whether Open succeeds.
- Remote.WiiRemote.Shutdown: closing the reader and writer threads, the event and the device handle is I/O, and deleting the four helpers after their own `Shutdown` is object lifetime. Neither is modelled; the helper objects stay allocated.
- Remote.WiiRemote.OwnSections: states the routes and the offset left over, not the new state of the buttons, accelerometer and dots. That state is stated by ButtonSection, MotionSection and SensorSection; it calls ButtonSection and then PointerSections, which calls the other two.
- Remote.WiiRemote.DispatchInput: states the routes, not the helpers' new state. The state is stated by the four section methods.
- Remote.WiiRemote.Dispatch: states the routes and the remote's own flags and extension, not the helpers' new state. The helpers' state is stated by ReplyHelpers, Invoke and the section methods for the branches that change it. The 0x22 branch follows the corrected routing of "## Findings", so it reaches no helper, while the source hands it to the IR sensor (Remote.DataWroteReadAsIR states that).
- Remote.WiiRemote.Receive: states the receipt time and the connection state machine, not the helpers' new state, like Dispatch; Dispatch and the section methods state it.
- Remote.WiiRemote.Drain: states the queue and the connection state machine, not the helpers' new state, like Dispatch; Dispatch and the section methods state it.
- Remote.WiiRemote.ReadReply: states the flags and the extension, not the helpers' new state, which ReplyHelpers and Invoke state; its helper step ReplyPart states only that the helpers stay valid.
- Remote.WiiRemote.PostUpdates: states that every helper is left valid and not updated, not the helpers' new state, which PostOwn and each helper's OnPostUpdate state.
- Remote.WiiRemote.Finish: states the supervision of the link after the finalisers, not the helpers' new state, like PostUpdates.
- Remote.WiiRemote.Update: states the read queue and the link, not the helpers' new state, like Drain and Finish; a 0x22 acknowledgement in the queue follows Dispatch's corrected routing.
- Buttons.ButtonPad.GetButtonStatus: a mask of several buttons is answered with the corrected chord fold of "## Findings", not the order-dependent fold the source runs. Buttons.ChordAsWrittenOrderDependent shows where the two differ, and Buttons.ChordAgreesWithoutRelease shows that they agree whenever no button is releasing.
- Buttons.ButtonPad.IsButtonDown: a mask of several buttons is read through the corrected chord, like GetButtonStatus.
- Buttons.ButtonPad.GetActionStatus: a multi-button action's status is answered through the corrected chord, like GetButtonStatus.
- Buttons.ButtonPad.GetNamedActionStatus: a multi-button action's status is answered through the corrected chord, like GetButtonStatus.
- Buttons.ButtonPad.IsActionDown: a multi-button action is read through the corrected chord, like GetButtonStatus.
- Buttons.ButtonPad.RefreshActions: recomputes the actions' statuses with the corrected chord, like GetButtonStatus.
- Buttons.ButtonPad.Refreshing: recomputes the actions' statuses with the corrected chord, like GetButtonStatus.
- Buttons.ButtonPad.OnPostUpdate: recomputes the actions' statuses with the corrected chord, like GetButtonStatus.
- Nunchuk.Nunchuk.GetButtonStatus: answers a mask of both Z and C with the corrected chord, like the remote's pad.
- Nunchuk.Nunchuk.OnPostUpdate: recomputes the actions' statuses with the corrected chord over Z and C, like the remote's pad.
- Profile.Profile.SetToDefault: gives EnableRumble the corrected default of "## Findings" (an Options bool, true), while the source leaves it uninitialised. Profile.RumbleStaysOff states what the source's defaults do.
- Profile.AfterDefaultsUsable: holds of the corrected defaults, in which all 109 slots are usable. With the source's defaults the EnableRumble slot is not usable, as Profile.RumbleStaysOff states.
- Hid.Controller.GetRemote: returns the remote in the fourth slot for ID 4, following the corrected bound of "## Findings". The source returns NULL there, as Hid.FourthSlotUnreachable states.

## Findings

| source | as written | input that shows it | evidently intended | confidence | as-written member | corrected member |
|---|---|---|---|---|---|---|
| trunk/WiiRemote/Core/WR_CHIDController.cpp:227 | `GetRemote` rejects every ID with `nID >= MAX_REMOTES`, although IDs run from 1 to `MAX_REMOTES` and `InitializeRemote` fills slot `nID - 1` | a remote initialised with ID 4: `GetRemote(4)` returns NULL instead of it | reject only `nID > MAX_REMOTES`, so that every slot can be fetched | high, not executed | Hid.FourthSlotUnreachable | Hid.RemoteAtEverySlot |
| trunk/WiiRemote/Core/WR_CWiiButtons.cpp:273-291 | the chord status is folded pairwise from the first button, so whether "one button releasing, none other" makes the chord Up depends on the order of the buttons in the mask | buttons Released then Down give Released; the same two statuses Down then Released give Up | the three rules of the comment, whatever the order: any Up button makes it Up; a release beside a button that is not releasing makes it Up; otherwise Down beats Pushed | medium, not executed | Buttons.ChordAsWrittenOrderDependent | Buttons.ChordOrderIndependent |
| trunk/WiiRemote/Core/WR_CWiiRemote.cpp:509 | the write acknowledgement (opcode 0x22) has no branch of its own, and `0x22 & WR_IN_INPUTMASK` is non-zero, so it is treated as an input report that carries IR data from byte 1 | report 0x22 from any flash write: its button bytes are read as the first IR dot | an acknowledgement reaches no helper | medium, not executed | Remote.DataWroteReadAsIR | Remote.RoutesCorrected |
| trunk/WiiRemote/CWiiRemoteProfile.cpp:98-108 | `SetToDefault` never initialises the `EnableRumble` slot, so it stays untyped, reads false and ignores `SetValue(true)`; the manager then never starts rumble and kills any running one | a profile after `SetToDefault`, then `SetValue(true)` on `EnableRumble` | initialise it as an Options bool, true (TRUE if rumble is allowed) | medium, not executed | Profile.RumbleStaysOff | Profile.RumbleSettable |

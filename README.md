# DNP3 outstation trainer, modelled in Dafny

This project models the simulation engine of the mitre/dnp3 outstation "trainer". It
also models the client-side command builders that drive the trainer from a DNP3
master.

The trainer has these parts:

- **Points.** These are binary, double-bit, analog and counter inputs. Each point holds a
  sanitised name, an optional 16-bit index, a value, an event class, static and event
  variations, and an optional attached outstation.
- **Publishing.** Writing a point stores the value. If the point has both an index and an
  outstation, the write also publishes one update record.
- **Decoders.** Three Control Relay Output Block (CROB) decoders turn the CROB's operation
  type, trip/close code and operate mode into a command status and at most one side
  effect:
  - latch, which writes a point;
  - activation, which fires one action;
  - complementary two-output, which fires the trip action or the close action.

  An analog-output decoder forwards a setpoint.
- **Two-signal control.** It decides whether a device exposes two activation outputs or
  one two-output decoder.
- **I/O table.** It gives every registered point its position as its index and builds the
  outstation database. It attaches the inputs, creates the devices with their points,
  and dispatches select and operate requests by index.
- **Devices.** These are the simple latching device, the breaker, the slow motorised
  switch and the noisy setpoint controller. The trainer builds a fixed start-up layout
  from them.

On the client side, the project models:

- the string-to-enum parsers for operate modes and analog output types;
- the trip/close code and class header mappings;
- the master calls that the command-line actions issue: operate, read, set analog
  outputs, enable and disable unsolicited messages, select-before-operate sweeps,
  breaker toggles and the brute-force sweep.

How the model represents the program:

- **Logs instead of foreign calls.** Calls into the DNP3 library become logs of records:
  - `Outstation.applied` holds the updates applied to the outstation database;
  - `UpdateHandler.updates` holds the updates sent through a command handler;
  - `Master.calls` holds the requests a master issues.

  Timestamps are dropped. An update record is (index, value, flags).
- **Decoders as pure functions plus one method.** Each decoder is a function returning a
  `Decision` (a status and an effect). `Devices.OperateOutput` carries the effect out on
  the device objects.
- **Device actions as data.** The C++ closures that devices hand to their decoders become
  the datatypes `Action` and `AnalogAction`.
- **Slow-switch position in tenths, from 0 to 10.** A background motion becomes a method
  that takes one step of the motion; a new command replaces the motion.

| file | module | models |
|---|---|---|
| dnp3.dfy | `Dnp3` | the DNP3 library vocabulary (CROB, enums, update records) and the outstation, handler and master endpoints as logs |
| measurements.dfy | `Measurements` | `IMeasurement`, `Binary`, `DoubleBit`, `Analog`, `Counter` (types.h/types.cpp) |
| controls.dfy | `Controls` | `TwoSignalControlModelSpec`, the decoders, `BinaryOutput`, `AnalogOutput`, `TwoSignalControl` |
| devices.dfy | `Devices` | `IDevice`, `SimpleDevice`, `Breaker`, `SlowDevice`, `SetpointController`, and the device actions |
| io_table.dfy | `IoTable` | `IOTable` |
| trainer.dfy | `Trainer` | the start-up device layout of the trainer's `main` |
| actions.dfy | `Actions` | `actions.h` / `actions.cpp` of the command-line client |
| dnp3_actions.dfy | `Dnp3Actions` | `dnp3_actions.cpp` of the second command-line client |

## Model

| member | source | states |
|---|---|---|
| `Dnp3.ToU16` | src/cpp/trainer/outstation/io_table.cpp:196-201 | the 16-bit index cast agrees with its argument modulo 2^16, and is the identity below 65536 |
| `Dnp3.LastIndex` | src/cpp/trainer/outstation/io_table.cpp:199 | the index assigned after a push is the new size minus one, cast to 16 bits |
| `Dnp3.DoubleBitToType` | src/cpp/trainer/outstation/types.cpp:448-461 | a double-bit state encodes to a byte 0..3 that decodes back to the same state |
| `Dnp3.DoubleBitFromType` | src/cpp/trainer/outstation/types.cpp:442-446 | bytes 0, 1 and 2 decode to intermediate, determined-off and determined-on, and every other byte to indeterminate (each an iff) |
| `Dnp3.ControlCall` | src/cpp/actions/actions.cpp:61-68 | direct-operate mode gives a direct-operate request, select-before-operate mode a select-and-operate request (both iff), and either carries exactly the given command set |
| `Measurements.SanitizeName` | src/cpp/trainer/outstation/types.cpp:16-28 | the in-place character loop produces the sanitised name |
| `Measurements.SanitizedShape` | src/cpp/trainer/outstation/types.cpp:16-28 | sanitising keeps the length, replaces exactly the spaces, dots and commas by underscores, keeps every other character, and leaves no reserved character |
| `Measurements.SanitizedIdempotent` | src/cpp/trainer/outstation/types.cpp:16-28 | renaming a point with its own name changes nothing |
| `Measurements.SanitizedAppend` | src/cpp/trainer/outstation/types.cpp:16-28 | sanitising distributes over concatenation, so a suffix with no reserved character is kept verbatim |
| `Measurements.Publish` | src/cpp/trainer/outstation/types.cpp:50-57 | exactly the update for (index, value, online flags) is applied to the outstation, or nothing when there is no outstation or no index |
| `Measurements.Binary.constructor` | src/cpp/trainer/outstation/types.h:18-42 | a fresh binary input has an empty name, no index, no outstation, value false, class 3 and variations g1v2/g2v2 |
| `Measurements.Binary.SetName` | src/cpp/trainer/outstation/types.cpp:16-28 | the stored name is the sanitised input |
| `Measurements.Binary.SetIndex` | src/cpp/trainer/outstation/types.cpp:35-38 | the point now has the given index |
| `Measurements.Binary.RegisterOutstation` | src/cpp/trainer/outstation/types.cpp:45-48 | the point is now attached to the given outstation |
| `Measurements.Binary.Write` | src/cpp/trainer/outstation/types.cpp:71-84 | the value is stored and exactly one update carrying it is published when the point has an index and an outstation |
| `Measurements.Binary.Config` | src/cpp/trainer/outstation/types.cpp:86-89 | the database configuration carries the point's class and variations |
| `Measurements.Binary.SetClass` | src/cpp/trainer/outstation/types.cpp:91-94 | the event class is replaced |
| `Measurements.Binary.SetVariation` | src/cpp/trainer/outstation/types.cpp:96-99 | the static variation is replaced |
| `Measurements.Binary.SetEventVariation` | src/cpp/trainer/outstation/types.cpp:101-104 | the event variation is replaced |
| `Measurements.DoubleBit.constructor` | src/cpp/trainer/outstation/types.h:219-223 | a fresh double-bit input holds byte 1, reads as determined-off, is class 3 with variations g3v2/g4v2, and has no name, index or outstation |
| `Measurements.DoubleBit.SetName` | src/cpp/trainer/outstation/types.cpp:16-28 | the stored name is the sanitised input |
| `Measurements.DoubleBit.SetIndex` | src/cpp/trainer/outstation/types.cpp:35-38 | the point now has the given index |
| `Measurements.DoubleBit.RegisterOutstation` | src/cpp/trainer/outstation/types.cpp:45-48 | the point is now attached to the given outstation |
| `Measurements.DoubleBit.Read` | src/cpp/trainer/outstation/types.cpp:442-446 | the stored byte reads as indeterminate exactly when it is above 2, and a byte 0..3 is the encoding of what is read |
| `Measurements.DoubleBit.Write` | src/cpp/trainer/outstation/types.cpp:448-461 | the encoded state is stored, reading returns the written state, and one update carrying it is published when indexed and attached |
| `Measurements.DoubleBit.Config` | src/cpp/trainer/outstation/types.cpp:463-466 | the database configuration carries the point's class and variations |
| `Measurements.DoubleBit.SetClass` | src/cpp/trainer/outstation/types.cpp:468-471 | the event class is replaced |
| `Measurements.DoubleBit.SetVariation` | src/cpp/trainer/outstation/types.cpp:473-476 | the static variation is replaced |
| `Measurements.DoubleBit.SetEventVariation` | src/cpp/trainer/outstation/types.cpp:478-481 | the event variation is replaced |
| `Measurements.Analog.constructor` | src/cpp/trainer/outstation/types.h:178-183 | a fresh analog input holds 100.0 with deadband 0.4, class 3, variations g30v5/g32v7, and has no name, index or outstation |
| `Measurements.Analog.WithValue` | src/cpp/trainer/outstation/types.cpp:357-360 | an analog input built from a value holds that value and the other defaults |
| `Measurements.Analog.SetName` | src/cpp/trainer/outstation/types.cpp:16-28 | the stored name is the sanitised input |
| `Measurements.Analog.SetIndex` | src/cpp/trainer/outstation/types.cpp:35-38 | the point now has the given index |
| `Measurements.Analog.RegisterOutstation` | src/cpp/trainer/outstation/types.cpp:45-48 | the point is now attached to the given outstation |
| `Measurements.Analog.Write` | src/cpp/trainer/outstation/types.cpp:375-388 | the value is stored and exactly one update carrying it is published when indexed and attached |
| `Measurements.Analog.Config` | src/cpp/trainer/outstation/types.cpp:390-393 | the database configuration carries the class, variations and deadband |
| `Measurements.Analog.SetClass` | src/cpp/trainer/outstation/types.cpp:395-398 | the event class is replaced |
| `Measurements.Analog.SetDeadband` | src/cpp/trainer/outstation/types.cpp:400-403 | the deadband is replaced |
| `Measurements.Counter.constructor` | src/cpp/trainer/outstation/types.h:264-268 | a fresh counter holds 0, class 3, variations g20v1/g22v5 |
| `Measurements.Counter.Write` | src/cpp/trainer/outstation/types.cpp:535-538 | the value is stored |
| `Measurements.Counter.Config` | src/cpp/trainer/outstation/types.cpp:540-543 | the database configuration carries the class and variations |
| `Measurements.Counter.SetClass` | src/cpp/trainer/outstation/types.cpp:545-548 | the event class is replaced |
| `Measurements.Counter.SetVariation` | src/cpp/trainer/outstation/types.cpp:550-553 | the static variation is replaced |
| `Measurements.Counter.SetEventVariation` | src/cpp/trainer/outstation/types.cpp:555-558 | the event variation is replaced |
| `Controls.ModelToType` | src/cpp/trainer/outstation/types.cpp:122-125 | every control model's byte decodes back to that model |
| `Controls.ModelFromType` | src/cpp/trainer/outstation/types.cpp:127-138 | byte 0 is the activation model, byte 1 the complementary model, and every byte above 1 is undefined (each an iff) |
| `Controls.ModelToString` | src/cpp/trainer/outstation/types.cpp:140-151 | every control model's name parses back to that model |
| `Controls.ModelToHumanString` | src/cpp/trainer/outstation/types.cpp:153-164 | the human-readable names are not parseable names: each parses as undefined |
| `Controls.ModelToHumanStringInjective` | src/cpp/trainer/outstation/types.cpp:153-164 | distinct models have distinct human-readable names |
| `Controls.ModelFromString` | src/cpp/trainer/outstation/types.cpp:166-173 | "ACTIVATION" and "COMPLEMENTARY_TWO_OUTPUT" are the only strings naming the two models (each an iff) |
| `Controls.LatchDecision` | src/cpp/trainer/outstation/types.cpp:242-275 | a missing select gives NO_SELECT and no effect, checked first; otherwise SUCCESS iff the code is NUL and the operation is NUL, LATCH_ON or LATCH_OFF, else NOT_SUPPORTED; the point is set true iff NUL/LATCH_ON and false iff NUL/LATCH_OFF; no action fires |
| `Controls.ActivationDecision` | src/cpp/trainer/outstation/types.cpp:289-309 | a missing select gives NO_SELECT; otherwise SUCCESS iff the CROB is NUL/NUL or the operation is PULSE_ON under any trip/close code; the action fires iff PULSE_ON is accepted |
| `Controls.TwoOutputDecision` | src/cpp/trainer/outstation/types.cpp:327-353 | a missing select gives NO_SELECT; otherwise SUCCESS iff NUL/NUL or PULSE_ON with code NUL, TRIP or CLOSE; an action fires iff PULSE_ON with TRIP or CLOSE, and it is the trip action exactly for TRIP |
| `Controls.Decide` | src/cpp/trainer/outstation/types.cpp:113-118 | the base output always answers NOT_SUPPORTED; every decoder answers NO_SELECT when the select is missing and SUCCESS with no effect for NUL/NUL; an effect only comes with SUCCESS, writes only through a latch, and fires only the decoder's own actions |
| `Controls.DecideAnalog` | src/cpp/trainer/outstation/types.cpp:422-433 | NO_SELECT iff the select rule fails; otherwise SUCCESS with the value forwarded to the action |
| `Controls.ApplySetPoint` | src/cpp/trainer/outstation/types.cpp:256-273 | the latch writes the point, publishes it, and sends exactly one update with the new value to the command handler when the point has an index |
| `Controls.BinaryOutput.constructor` | src/cpp/trainer/outstation/types.h:59-65 | a fresh binary output has its decoder, an empty name and no index |
| `Controls.BinaryOutput.SetName` | src/cpp/trainer/outstation/types.cpp:16-28 | the stored name is the sanitised input |
| `Controls.BinaryOutput.SetIndex` | src/cpp/trainer/outstation/types.cpp:35-38 | the output now has the given index |
| `Controls.AnalogOutput.constructor` | src/cpp/trainer/outstation/types.h:202-214 | a fresh analog output has its action and select rule, an empty name and no index |
| `Controls.AnalogOutput.SetName` | src/cpp/trainer/outstation/types.cpp:16-28 | the stored name is the sanitised input |
| `Controls.AnalogOutput.SetIndex` | src/cpp/trainer/outstation/types.cpp:35-38 | the output now has the given index |
| `Controls.TwoSignalControl.constructor` | src/cpp/trainer/outstation/types.cpp:177-194 | the control keeps its model and both actions and builds fresh, unnamed, unindexed outputs |
| `Controls.TwoSignalControl.GetOutputs` | src/cpp/trainer/outstation/types.cpp:201-212 | activation gives two distinct outputs (trip action, then close action), complementary gives one two-output decoder, undefined gives none, all with no select required |
| `Controls.TwoSignalControl.SetPointNames` | src/cpp/trainer/outstation/types.cpp:214-228 | activation outputs are named `<name>_trip` and `<name>_close`, and a complementary output `<name>_control` |
| `Devices.Screen.constructor` | src/cpp/trainer/outstation/devices.cpp:11-19 | a new screen has received no redraw events |
| `Devices.Screen.PostEvent` | src/cpp/trainer/outstation/devices.cpp:18 | posting an event counts one redraw |
| `Devices.ForceRedraw` | src/cpp/trainer/outstation/devices.cpp:11-19 | a registered screen receives one redraw; with no screen nothing changes |
| `Devices.SimpleDevice.constructor` | src/cpp/trainer/outstation/devices.h:29-45 | a device keeps its name and starts with no status, no control and no screen |
| `Devices.SimpleDevice.Default` | src/cpp/trainer/outstation/devices.h:32 | the default device is named "Simple Device" |
| `Devices.SimpleDevice.RegisterScreen` | src/cpp/trainer/outstation/devices.cpp:6-9 | the device now has the given screen |
| `Devices.SimpleDevice.AssignInputPoint` | src/cpp/trainer/outstation/devices.cpp:27-31 | the point becomes the device's status and is named `<name>_status` |
| `Devices.SimpleDevice.CreateControlSignal` | src/cpp/trainer/outstation/devices.cpp:33-42 | the output is a fresh latch bound to the device's status point, with no select required, named `<name>_control`; a status point is created only when none was assigned |
| `Devices.Breaker.constructor` | src/cpp/trainer/outstation/devices.cpp:60-67 | a breaker keeps its name and builds a two-signal control of its model whose outputs are named after it |
| `Devices.Breaker.RegisterScreen` | src/cpp/trainer/outstation/devices.cpp:6-9 | the breaker now has the given screen |
| `Devices.Breaker.Trip` | src/cpp/trainer/outstation/devices.cpp:74-82 | tripping writes false to the status point and publishes it; with no status point nothing changes |
| `Devices.Breaker.Close` | src/cpp/trainer/outstation/devices.cpp:84-92 | closing writes true to the status point and publishes it; with no status point nothing changes |
| `Devices.Breaker.AssignInputPoint` | src/cpp/trainer/outstation/devices.cpp:94-98 | the point becomes the breaker's status and is named `<name>_status` |
| `Devices.Breaker.CreateControlSignal` | src/cpp/trainer/outstation/devices.cpp:100-103 | activation gives the trip, then the close activation output; complementary gives one two-output decoder over trip and close; undefined gives none; the outputs are distinct, need no select and fire only this breaker's trip or close |
| `Devices.Snapped` | src/cpp/trainer/outstation/devices.cpp:155-172 | the stored position is within 0..10 tenths and positions strictly between the thresholds are kept |
| `Devices.TriState` | src/cpp/trainer/outstation/devices.cpp:155-172 | determined-off iff the snapped position is 0, determined-on iff it is 10, intermediate iff in between |
| `Devices.TravelClosedForm` | src/cpp/trainer/outstation/devices.cpp:180-220 | after n steps a closing motion is at min(10, p + n) and an opening motion at max(0, p - n) |
| `Devices.TravelInRange` | src/cpp/trainer/outstation/devices.cpp:180-220 | the position stays within fully open and fully closed throughout a motion |
| `Devices.TravelReachesEnd` | src/cpp/trainer/outstation/devices.cpp:180-220 | a motion can still move after n steps iff n is less than its distance to the end |
| `Devices.TripNeverReportsClosed` | src/cpp/trainer/outstation/devices.cpp:180-199 | after at least one opening step the switch never reports determined-on |
| `Devices.CloseFromOpenReports` | src/cpp/trainer/outstation/devices.cpp:201-220 | closing from fully open reports determined-off, then intermediate for steps 1..9, then determined-on from step 10 |
| `Devices.StatusEmissionsAppend` | src/cpp/trainer/outstation/types.cpp:448-461 | the updates published for two runs of writes are those of the first run followed by those of the second |
| `Devices.TravelStep` | src/cpp/trainer/outstation/devices.cpp:180-220 | one more iteration moves one tenth iff the end of travel was not reached |
| `Devices.MotionSettled` | src/cpp/trainer/outstation/devices.cpp:184-197 | once the end of travel is reached, further iterations neither move, write nor change the status |
| `Devices.MotionStatusReports` | src/cpp/trainer/outstation/devices.cpp:174-177 | once a motion has moved, its status reads the tri-state of the position reached |
| `Devices.IntermediateMotionWrites` | src/cpp/trainer/outstation/devices.cpp:174-177 | from an intermediate position a motion writes nothing until it reaches its end, then that end's state exactly once |
| `Devices.MotionWritesFromStart` | src/cpp/trainer/outstation/devices.cpp:184-197 | a motion writes its first iteration's state change, then what the motion from the reached position writes |
| `Devices.FullCloseWrites` | src/cpp/trainer/outstation/devices.cpp:201-220 | a close from fully open publishes intermediate once, then determined-on once after ten steps, and nothing else |
| `Devices.FullTripWrites` | src/cpp/trainer/outstation/devices.cpp:180-199 | a trip from fully closed publishes intermediate once, then determined-off once after ten steps, and nothing else |
| `Devices.SlowDevice.constructor` | src/cpp/trainer/outstation/devices.cpp:121-129 | a switch keeps its name and run time, starts at position 0 and not moving, and builds a two-signal control of its model whose outputs are named after it |
| `Devices.SlowDevice.RegisterScreen` | src/cpp/trainer/outstation/devices.cpp:6-9 | the switch now has the given screen |
| `Devices.SlowDevice.StopMoving` | src/cpp/trainer/outstation/devices.cpp:141-153 | after stopping, no motion is in progress |
| `Devices.SlowDevice.SetPosition` | src/cpp/trainer/outstation/devices.cpp:155-178 | the snapped position is stored and the status reads its tri-state; the status point is written and published only when the tri-state changes |
| `Devices.SlowDevice.DoTrip` | src/cpp/trainer/outstation/devices.cpp:180-199 | an opening motion replaces any previous one |
| `Devices.SlowDevice.DoClose` | src/cpp/trainer/outstation/devices.cpp:201-220 | a closing motion replaces any previous one |
| `Devices.SlowDevice.Trip` | src/cpp/trainer/outstation/devices.cpp:222-228 | tripping is ignored while the status reads determined-off, and otherwise starts an opening motion |
| `Devices.SlowDevice.Close` | src/cpp/trainer/outstation/devices.cpp:230-236 | closing is ignored while the status reads determined-on, and otherwise starts a closing motion |
| `Devices.SlowDevice.Step` | src/cpp/trainer/outstation/devices.cpp:184-198 | away from the end of travel one step moves a tenth, the status reads the new tri-state, the outstation receives one update only when the tri-state changed, and the screen is redrawn once; at the end the motion ends and position, status, outstation log and screen are untouched |
| `Devices.SlowDevice.Advance` | src/cpp/trainer/outstation/devices.cpp:184-198 | the i-th iteration of a motion moves the position from the i-step to the (i+1)-step travel, the status from the i-step to the (i+1)-step motion status, publishes that iteration's writes and redraws once iff the end was not yet reached |
| `Devices.SlowDevice.RunMotion` | src/cpp/trainer/outstation/devices.cpp:180-220 | n iterations land on the closed-form travel position and end the motion iff n exceeds the distance; the status reads the tri-state of the position once a step has moved; the outstation receives exactly the updates of the states written, in order; the screen is redrawn once per tenth moved; an idle switch changes nothing |
| `Devices.SlowDevice.AssignInputPoint` | src/cpp/trainer/outstation/devices.cpp:238-242 | the point becomes the switch's status and is named `<name>_status` |
| `Devices.SlowDevice.CreateControlSignal` | src/cpp/trainer/outstation/devices.cpp:244-247 | activation gives the trip, then the close activation output; complementary gives one two-output decoder over trip and close; undefined gives none; the outputs are distinct, need no select and fire only this switch's trip or close |
| `Devices.NoiseUpdatesBounded` | src/cpp/trainer/outstation/devices.cpp:267-283 | the controller publishes one analog update per tick when indexed, each within the variance of the setpoint with online flags |
| `Devices.NoiseUpdatesAt` | src/cpp/trainer/outstation/devices.cpp:267-283 | for an indexed point the i-th published update carries the base value plus the i-th jitter |
| `Devices.NoiseWithinDeadband` | src/cpp/trainer/outstation/devices.cpp:317-322 | any two values the noise thread publishes around one base differ by at most twice the variance, the deadband the controller gives its point |
| `Devices.NoiseUpdatesAppend` | src/cpp/trainer/outstation/devices.cpp:267-283 | one more tick appends exactly that tick's update |
| `Devices.SetpointController.constructor` | src/cpp/trainer/outstation/devices.cpp:261-284 | a controller keeps its name, setpoint and variance and is running, with no status, control or screen |
| `Devices.SetpointController.RegisterScreen` | src/cpp/trainer/outstation/devices.cpp:6-9 | the controller now has the given screen |
| `Devices.SetpointController.Stop` | src/cpp/trainer/outstation/devices.cpp:286-303 | after stopping, the controller is no longer running |
| `Devices.SetpointController.Set` | src/cpp/trainer/outstation/devices.cpp:312-315 | only the setpoint changes |
| `Devices.SetpointController.Tick` | src/cpp/trainer/outstation/devices.cpp:267-283 | one tick writes the setpoint plus the jitter to the status point and publishes it |
| `Devices.SetpointController.Run` | src/cpp/trainer/outstation/devices.cpp:267-283 | a run of ticks leaves the last noisy reading in the status point and publishes one update per tick, in order |
| `Devices.SetpointController.AssignInputPoint` | src/cpp/trainer/outstation/devices.cpp:317-322 | the point becomes the status, named `<name>_status`, with deadband twice the variance |
| `Devices.SetpointController.CreateControlSignal` | src/cpp/trainer/outstation/devices.cpp:324-330 | the output is fresh, needs no select, is named `<name>_control`, and its action sets this controller's setpoint |
| `Devices.Fire` | src/cpp/trainer/outstation/devices.cpp:74-236 | firing an action trips or closes exactly its breaker or switch |
| `Devices.OperateOutput` | src/cpp/trainer/outstation/types.cpp:242-353 | operating an output returns the decoder's status and carries out exactly its effect |
| `Devices.OperateAnalogOutput` | src/cpp/trainer/outstation/types.cpp:422-433 | operating an analog output returns the decoder's status; on SUCCESS the controller's setpoint is the value, otherwise it is unchanged |
| `IoTable.BinaryIndicesDense` | src/cpp/trainer/outstation/io_table.cpp:196-201 | registered binary inputs have pairwise distinct indices, and index n belongs to the n-th input |
| `IoTable.BinarySnapshotOfIndexed` | src/cpp/trainer/outstation/io_table.cpp:33-40 | rewriting registered binary inputs publishes one update per input, at its position, carrying its value |
| `IoTable.DoubleBitSnapshotOfIndexed` | src/cpp/trainer/outstation/io_table.cpp:42-46 | rewriting registered double-bit inputs publishes one update per input, at its position, carrying its state |
| `IoTable.AnalogSnapshotOfIndexed` | src/cpp/trainer/outstation/io_table.cpp:48-52 | rewriting registered analog inputs publishes one update per input, at its position, carrying its value |
| `IoTable.IOTable.constructor` | src/cpp/trainer/outstation/io_table.cpp:3-6 | a new table has five empty collections |
| `IoTable.IOTable.ReadyAt` | src/cpp/trainer/outstation/io_table.cpp:313-324 | every registered binary output's decoder can be operated |
| `IoTable.IOTable.RegisterBinaryInput` | src/cpp/trainer/outstation/io_table.cpp:196-201 | the input is appended and its index is its position; positional indexing is preserved |
| `IoTable.IOTable.RegisterDoubleBitInput` | src/cpp/trainer/outstation/io_table.cpp:203-208 | the input is appended and its index is its position; positional indexing is preserved |
| `IoTable.IOTable.RegisterAnalogInput` | src/cpp/trainer/outstation/io_table.cpp:210-215 | the input is appended and its index is its position; positional indexing is preserved |
| `IoTable.IOTable.RegisterBinaryOutput` | src/cpp/trainer/outstation/io_table.cpp:217-222 | the output is appended and its index is its position; positional indexing is preserved |
| `IoTable.IOTable.RegisterAnalogOutput` | src/cpp/trainer/outstation/io_table.cpp:224-229 | the output is appended and its index is its position; positional indexing is preserved |
| `IoTable.IOTable.RegisterBinaryOutputs` | src/cpp/trainer/outstation/io_table.cpp:253-256 | registering a device's outputs appends them in order; distinct new outputs get their positions as indices and positional indexing is preserved |
| `IoTable.IOTable.ConfigureDatabase` | src/cpp/trainer/outstation/io_table.cpp:8-31 | the database has an entry for exactly the indices 0..n-1 of each input kind, holding that input's configuration |
| `IoTable.IOTable.RegisterOutstation` | src/cpp/trainer/outstation/io_table.cpp:33-53 | attaching publishes every binary, then double-bit, then analog input's current value, in registration order |
| `IoTable.IOTable.AttachBinaryInputs` | src/cpp/trainer/outstation/io_table.cpp:36-40 | every binary input is attached, keeps its value, and its value is published |
| `IoTable.IOTable.AttachDoubleBitInputs` | src/cpp/trainer/outstation/io_table.cpp:42-46 | every double-bit input is attached, keeps its state, and its state is published |
| `IoTable.IOTable.AttachAnalogInputs` | src/cpp/trainer/outstation/io_table.cpp:48-52 | every analog input is attached, keeps its value, and its value is published |
| `IoTable.IOTable.SelectCrob` | src/cpp/trainer/outstation/io_table.cpp:303-311 | OUT_OF_RANGE iff the index is past the binary outputs, SUCCESS iff it is within them |
| `IoTable.IOTable.OperateCrob` | src/cpp/trainer/outstation/io_table.cpp:313-324 | out of range gives OUT_OF_RANGE with no update; in range, the status and effect are exactly those of that output's decoder |
| `IoTable.IOTable.SelectAnalog` | src/cpp/trainer/outstation/io_table.cpp:326-373 | 16-bit, 32-bit and single-precision selects are NOT_SUPPORTED; a double-precision select is OUT_OF_RANGE iff past the analog outputs and SUCCESS iff within them |
| `IoTable.IOTable.OperateAnalog` | src/cpp/trainer/outstation/io_table.cpp:326-386 | 16-bit, 32-bit and single-precision operates are NOT_SUPPORTED; double precision is bounds-checked and otherwise delegated, setting the setpoint only on SUCCESS |
| `IoTable.IOTable.CreateSimpleDevice` | src/cpp/trainer/outstation/io_table.cpp:231-243 | one binary input (the device's status) and one binary output (its latch) are appended with the device's names, each at the index of its position |
| `IoTable.IOTable.CreateBreaker` | src/cpp/trainer/outstation/io_table.cpp:245-259 | one binary input (the breaker's status) and the breaker's control outputs are appended, each at the index of its position |
| `IoTable.IOTable.CreateSlowDevice` | src/cpp/trainer/outstation/io_table.cpp:261-277 | one double-bit input reading determined-off and the switch's control outputs are appended, each at the index of its position; the switch is at position 0, not moving |
| `IoTable.IOTable.AddSlowDeviceOutputs` | src/cpp/trainer/outstation/io_table.cpp:271-274 | the switch joins the devices and its control outputs are appended, each at the index of its position |
| `IoTable.IOTable.CreateSetpointController` | src/cpp/trainer/outstation/io_table.cpp:279-299 | one analog input is appended at the index of its position, and one analog output, at the index of its position, that sets the controller's setpoint iff the controller is not read-only |
| `Trainer.NumberText` | src/cpp/trainer/main.cpp:81 | the decimal text of a number is non-empty, made of digits, and a single digit below 10 |
| `Trainer.AddSimpleDevices` | src/cpp/trainer/main.cpp:79-84 | five devices append five binary inputs and five latch outputs, the k-th latch on the k-th input, each at the index of its position |
| `Trainer.AddComplementaryBreakers` | src/cpp/trainer/main.cpp:86-93 | five complementary breakers append five binary inputs and five two-output decoders, each tripping and closing one breaker, each at the index of its position |
| `Trainer.AddActivationBreakers` | src/cpp/trainer/main.cpp:94-100 | five activation breakers append five binary inputs and ten outputs, in pairs tripping then closing the same breaker, each at the index of its position |
| `Trainer.AddSwitches` | src/cpp/trainer/main.cpp:101-106 | three switches append three double-bit inputs and six outputs, in pairs tripping then closing the same switch, each at the index of its position |
| `Trainer.AddSetpointControllers` | src/cpp/trainer/main.cpp:70-77 | the three controllers give three analog inputs and two analog outputs (voltage, then frequency; temperature is read-only), none needing a select, each at the index of its position |
| `Trainer.AddLatchesAndBreakers` | src/cpp/trainer/main.cpp:79-100 | binary outputs 0-4 latch binary inputs 0-4, 5-9 are complementary breaker controls, 10-19 activation breaker pairs; 15 inputs and 20 outputs, each at the index of its position |
| `Trainer.AddBinaryDevices` | src/cpp/trainer/main.cpp:79-106 | as the latches and breakers, then binary outputs 20-25 are switch pairs over 3 double-bit inputs; 26 outputs, each at the index of its position |
| `Trainer.Layout` | src/cpp/trainer/main.cpp:66-106 | 15 binary, 3 double-bit and 3 analog inputs, 26 binary and 2 analog outputs, every one at the index of its position; binary outputs 0-4 latch inputs 0-4, 5-9 are complementary breaker controls, 10-19 trip/close pairs of one breaker each, 20-25 trip/close pairs of one switch each; analog outputs 0 and 1 set the voltage and frequency setpoints with no select |
| `Actions.OperateModeFromString` | src/cpp/actions/actions.h:106-117 | "DIRECT_OPERATE" and "DO" name direct operate, "SELECT_BEFORE_OPERATE", "SELECT_OPERATE" and "SBO" name select-before-operate, and every other string is undefined (each an iff) |
| `Actions.ModeOf` | src/cpp/actions/actions.cpp:61-68 | an undefined mode issues no request, and direct operate is the only mode issuing a direct-operate request |
| `Actions.AnalogOutputTypeFromString` | src/cpp/actions/actions.h:147-162 | the four type names parse to their types and every other string is undefined (each an iff) |
| `Actions.CommandKind` | src/cpp/actions/actions.cpp:119-160 | an undefined output type sends double-precision commands; each other type sends commands of its own width |
| `Actions.CrobSettings.Create` | src/cpp/actions/actions.h:68-88 | the CROB carries the parsed operation and code and the settings' clear flag, count and on and off times |
| `Actions.DefaultCrobIsLibraryPulseOn` | src/cpp/actions/actions.h:71-76 | the default settings build the PULSE_ON, NUL, count 1, 100 ms on and off CROB |
| `Actions.ClassMask` | src/cpp/actions/actions.cpp:38 | class number i gives the mask 2^i below 8, and 0 once the shift leaves the byte |
| `Actions.HeaderOfMask` | src/cpp/actions/actions.cpp:38-39 | the masks 1, 2, 4 and 8 are exactly the ones that name a class header, whose class encodes back to the mask; others are kept as a raw mask |
| `Actions.ClassNumbersNameClasses` | src/cpp/actions/actions.cpp:34-42 | class numbers 0..3 give the headers for classes 0..3; larger numbers give no class header |
| `Actions.ClassHeaders` | src/cpp/actions/actions.cpp:34-42 | one header per class number, in input order |
| `Actions.ParseClasses` | src/cpp/actions/actions.cpp:34-42 | the loop appends the class headers to the given vector |
| `Actions.IndexedCopies` | src/cpp/actions/actions.cpp:53-57 | one copy of the CROB per index, in index order |
| `Actions.CrobCommands` | src/cpp/actions/actions.cpp:53-58 | the command set built in the loop is the CROB set of the indexed copies |
| `Actions.Operate` | src/cpp/actions/actions.cpp:48-69 | direct operate sends one direct-operate request, select-before-operate one select-and-operate request, with the indexed copies; an undefined mode sends nothing |
| `Actions.Paired` | src/cpp/actions/actions.cpp:119-160 | the i-th command carries the i-th value at the i-th index |
| `Actions.AnalogCommands` | src/cpp/actions/actions.cpp:126-158 | the command set built in the loop is the paired values of the requested kind |
| `Actions.SetAnalogOutputs` | src/cpp/actions/actions.cpp:114-163 | mismatched lengths send nothing; otherwise exactly one select-and-operate request with the paired values |
| `Actions.ReadRequestAsWritten` | src/cpp/actions/actions.cpp:77-86 | a range scan is issued iff start and end are both strictly positive, otherwise a scan of all objects |
| `Actions.ReadFromZeroScansAll` | src/cpp/actions/actions.cpp:77 | a read of 0..3 scans all objects as written, and scans 0..3 under the corrected guard |
| `Actions.ReadRequest` | src/cpp/actions/actions.cpp:71-87 | a range scan with the 16-bit casts of start and end is issued iff both are non-negative; otherwise a scan of all objects |
| `Actions.ReadGuardsDifferOnlyAtZero` | src/cpp/actions/actions.cpp:77 | the two guards disagree exactly when both bounds are non-negative and one of them is 0 |
| `Actions.ReadRequestKeepsRange` | src/cpp/actions/actions.cpp:79-81 | bounds within 16 bits are scanned unchanged |
| `Actions.Read` | src/cpp/actions/actions.cpp:71-87 | the corrected read: it sends exactly the request of the corrected guard, `ReadRequest` (see Findings) |
| `Actions.DisableUnsolicitedMessages` | src/cpp/actions/actions.cpp:100-105 | one disable-unsolicited request carrying the class headers |
| `Actions.EnableUnsolicitedMessages` | src/cpp/actions/actions.cpp:107-112 | one enable-unsolicited request carrying the class headers |
| `Dnp3Actions.GetHeader` | src/src/dnp3-actions/dnp3_actions.cpp:13-32 | 0..3 give the headers for classes 0..3 (iff) and every other number an empty header |
| `Dnp3Actions.GetTripCloseCode` | src/src/dnp3-actions/dnp3_actions.cpp:37-54 | 1 is CLOSE, 2 is TRIP and every other byte NUL (each an iff) |
| `Dnp3Actions.TripCloseCodeRoundTrip` | src/src/dnp3-actions/dnp3_actions.cpp:37-54 | the wire value of NUL, CLOSE and TRIP decodes back to the same code, and RESERVED decodes to NUL |
| `Dnp3Actions.ClassHeaders` | src/src/dnp3-actions/dnp3_actions.cpp:172-180 | one header per class number, in input order |
| `Dnp3Actions.ParseClasses` | src/src/dnp3-actions/dnp3_actions.cpp:172-180 | the loop appends exactly the class headers to the given vector |
| `Dnp3Actions.DisableUnsolicitedMessagesOnOutstation` | src/src/dnp3-actions/dnp3_actions.cpp:145-151 | one disable-unsolicited request carrying the class headers |
| `Dnp3Actions.EnableUnsolicitedMessagesOnOutstation` | src/src/dnp3-actions/dnp3_actions.cpp:159-166 | one enable-unsolicited request carrying the class headers |
| `Dnp3Actions.SteppedRangeElements` | src/src/dnp3-actions/dnp3_actions.cpp:208 | the k-th target index is start + k*step, every target is at most end, and the next one would pass end |
| `Dnp3Actions.UncheckedStepNeverEnds` | src/src/dnp3-actions/dnp3_actions.cpp:208 | as written, with a step of zero or less and start at most end, the loop counter never passes end after any number of iterations |
| `Dnp3Actions.CheckedStep` | src/src/dnp3-actions/dnp3_cli.cpp:127 | the corrected option check accepts a step iff it is positive, and then keeps it |
| `Dnp3Actions.CounterClosedForm` | src/src/dnp3-actions/dnp3_actions.cpp:208 | after n iterations the counter is start + n*step |
| `Dnp3Actions.CheckedStepLoopEnds` | src/src/dnp3-actions/dnp3_actions.cpp:208 | with a checked step the counter stays within the range for exactly the visited indices and has passed end afterwards, so the loop ends |
| `Dnp3Actions.OperateTypeMode` | src/src/dnp3-actions/dnp3_actions.cpp:86-118 | type 0 is select-and-operate, type 1 direct operate, and every other type sends nothing (each an iff) |
| `Dnp3Actions.CrobCalls` | src/src/dnp3-actions/dnp3_actions.cpp:204-276 | one single-CROB request per target index, in order, or none for an unknown operate type |
| `Dnp3Actions.SendEach` | src/src/dnp3-actions/dnp3_actions.cpp:225-276 | the stepped loop sends one request per target index, in order |
| `Dnp3Actions.Sbo` | src/src/dnp3-actions/dnp3_actions.cpp:204-214 | each index of the stepped range receives a select-and-operate of the same CROB |
| `Dnp3Actions.ToggleOnAllBreakers` | src/src/dnp3-actions/dnp3_actions.cpp:225-245 | each index of the stepped range receives PULSE_ON/TRIP in the chosen mode; an unknown mode sends nothing |
| `Dnp3Actions.ToggleOffAllBreakers` | src/src/dnp3-actions/dnp3_actions.cpp:256-276 | each index of the stepped range receives PULSE_OFF/CLOSE in the chosen mode; an unknown mode sends nothing |
| `Dnp3Actions.PairCalls` | src/src/dnp3-actions/dnp3_actions.cpp:88-117 | two requests per index of the pass, none for an unknown operate type |
| `Dnp3Actions.PairCallsElements` | src/src/dnp3-actions/dnp3_actions.cpp:88-117 | the k-th index receives the off CROB as request 2k and the output after it the on CROB as request 2k+1 |
| `Dnp3Actions.PairCallsAppend` | src/src/dnp3-actions/dnp3_actions.cpp:88-117 | one more index appends exactly its off and on requests |
| `Dnp3Actions.SendPair` | src/src/dnp3-actions/dnp3_actions.cpp:90-116 | the body of a pass sends the off CROB to j, then the on CROB to j+1, or nothing for an unknown operate type |
| `Dnp3Actions.BruteForcePass` | src/src/dnp3-actions/dnp3_actions.cpp:88-117 | one pass over j = start, start+2, ... up to end sends exactly the paired requests |
| `Dnp3Actions.Repeat` | src/src/dnp3-actions/dnp3_actions.cpp:86 | n repetitions have n times the length, and repeating nothing sends nothing |
| `Dnp3Actions.BruteForceOutstation` | src/src/dnp3-actions/dnp3_actions.cpp:69-119 | the requests are one pass per iteration (none for a non-positive count) with PULSE_OFF/trip_off and PULSE_ON/trip_on CROBs carrying the given times |
| `Dnp3Actions.BruteForcePassReachesPastEnd` | src/src/dnp3-actions/dnp3_actions.cpp:88-103 | a range ending at 0 still operates index 1 |

## Left out

- Threads, mutexes, condition variables and waiting times are not modelled. The slow
  switch's motion thread becomes `Step` / `RunMotion`, one step per call, with no run time.
  The controller's noise thread becomes `Tick` / `Run`, with the jitter as a parameter.
- The random jitter source is not modelled. Jitter values arrive as a parameter bounded by
  the variance.
- Floating point is not modelled. The switch position is in integer tenths, and the
  0.1/0.9 thresholds become the ends of 0..10. Analog values are Dafny reals. The numeric
  casts to 16-bit, 32-bit and single precision in `set_analog_outputs` are not applied:
  every value is carried uncast.
- `Devices.SetpointController.Tick`: requires a status point. The C++ thread starts in the
  constructor, before `AssignInputPoint`, so it can run without one; that race is not
  modelled.
- `IoTable.IOTable.OperateCrob`: requires the table's invariant that every slow switch it
  holds has a status point. The factories establish this invariant.
- `IoTable.IOTable.RegisterOutstation`: states only the updates it publishes. That every
  input is attached and keeps its value is stated by `AttachBinaryInputs`,
  `AttachDoubleBitInputs` and `AttachAnalogInputs`, which it calls.
- The `Register*` methods preserve positional indexing only when the item was not already
  in the collection. Registering the same object twice re-indexes it, as the C++ does.
- Index wrap after 65536 registrations is modelled through the 16-bit cast `ToU16`, not
  excluded.
- The DNP3 library is not modelled. This covers `UpdateBuilder`, `DNPTime`, `Header::From`,
  the database, sessions and the master's task queue and callbacks. They are replaced by logs
  of records.
- The library's `OperationTypeSpec` / `TripCloseCodeSpec` string parsers are parameters of
  `Actions.CrobSettings.Create`.
- `PointClassSpec::from_type` of a mask that names no class is not modelled. Such a mask is
  kept as a raw mask header.
- `1 << i` for a class number of 32 or more is undefined behaviour in C++. The model gives it
  mask 0, which is the value for 8..31.
- The C++ `int` loop counters are unbounded here. Overflow near 2^31 is not modelled.
- Target indices of the sweeps pass through the 16-bit cast `Dnp3.ToU16`. A negative index
  wraps modulo 2^16, as the implicit conversion to `uint16_t` does.
- The UI is not modelled. This covers the `Render` methods, `RenderInputs` / `RenderOutputs`
  and the pages under `src/cpp/trainer/ui`. Screens are reduced to a redraw counter.
- Command-line parsing and process wiring are not modelled, beyond the start-up layout of
  `main`.
- Network and session operations are not modelled. This covers `init_client`,
  `restart_outstation`, `integrity_poll`, `ReadFromOutstation`, `CollectAllData`,
  `DenyTcpSessions` and the serial configuration.
- Logging, printing and the one-second sleeps are not modelled.
- The Python plug-in glue is not modelled.
- `OctetString` and `TimeAndInterval` points are not modelled. The trainer never creates
  them.
- Fields that the output classes inherit from the point classes are not modelled.
- Only the command statuses that the trainer returns are modelled.
- `Trainer.Layout`: states the contents and indices of the table, not that the created
  points are fresh and distinct. Operating the full layout end to end is therefore not proved.
- `Actions.Read`: sends the request of the corrected guard `ReadRequest`, not what
  src/cpp/actions/actions.cpp:77 sends; the code as written is `ReadRequestAsWritten` (see Findings).
- `Dnp3Actions.SendEach`: requires a positive step or an empty range. With a step of zero or
  less over a non-empty range the C++ loop never ends (`UncheckedStepNeverEnds`), and that
  case is not modelled; the model assumes the checked step of `CheckedStep`.
- `Dnp3Actions.Sbo`: the same exclusion of a non-positive step over a non-empty range, which
  the unchecked `--step` option lets through.
- `Dnp3Actions.ToggleOnAllBreakers`: the same exclusion of a non-positive step over a
  non-empty range.
- `Dnp3Actions.ToggleOffAllBreakers`: the same exclusion of a non-positive step over a
  non-empty range.

## Findings

| source | as written | input that shows it | evidently intended | confidence | as-written member | corrected member |
|---|---|---|---|---|---|---|
| src/cpp/actions/actions.cpp:77 | a range scan only when `start_range > 0 && end_range > 0`; the command line's "no range" default is -1 (src/cpp/actions/cli.cpp:124-125) | `read` with start 0 and end 3 | a range scan whenever both bounds are given, i.e. `>= 0`, so that ranges starting at index 0 can be read | not executed | `Actions.ReadRequestAsWritten`, `Actions.ReadFromZeroScansAll` | `Actions.ReadRequest`, `Actions.ReadGuardsDifferOnlyAtZero`, `Actions.Read` |
| src/src/dnp3-actions/dnp3_cli.cpp:126-127 | `--step` of `sbo` (likewise lines 137-138 and 150-151) is passed unchecked to the loops `for (i = start; i <= end; i = i + step)` of src/src/dnp3-actions/dnp3_actions.cpp:208 | `sbo --start 0 --end 3 --step 0` | the option checked positive, as other options are checked with `CLI::Range`, so every sweep ends | not executed | `Dnp3Actions.UncheckedStepNeverEnds` | `Dnp3Actions.CheckedStep`, `Dnp3Actions.CheckedStepLoopEnds` |

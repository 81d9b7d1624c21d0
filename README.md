# plastic-tester core, modelled in Dafny

The plastic tester is ESP32 firmware for a small tensile-test bench. A stepper axis
pulls a specimen while a load cell measures force. Each test is recorded and aligned
on its rupture point. The curves of several tests are averaged, and the result is
exported to CSV by the web front end.

The model covers six parts of the firmware:

- **`slot_pool.dfy` (module `SlotPool`): the fixed-capacity containers of `lib/src/dataTable.h`.**
  - `Pool` is `BaseData`'s `items[N]`, as an array of ids and an array of payloads. A slot is free exactly when its id is `CREATE_NEW`.
  - `SlotList` is `DataList` and `DataArray`: an ordered sequence of slot indices.
  - `SlotTable` is `DataTable`: a map from item id to slot index.
  - Each class keeps the invariant that the referenced slots are exactly the used ones, with no slot referenced twice. So `size() <= N`.
- **`records.dfy` (module `Records`): the records of `src/data.h`.**
  - `Config` is a class whose setters update fields in place.
  - `SensorItem` (here `Sample`) and `ResultItem` are values.
  - Each record has its JSON key mapping. A JSON object is a `map<string, JValue>`.
- **`analyzer.dfy` (module `Analyzer`): `src/TestAnalyzer.h`.**
  - Rupture detection.
  - The bracketing scan with linear interpolation and extrapolation.
  - The find-or-create running mean over the 16-point grid.
  - Each is stated first as functions on sequences. Class `TestAnalyzer` then implements it in place over two `SlotList`s.
  - TestAnalyzer.h writes `min` and `max` on the `SensorItem`s of its accumulated list (src/TestAnalyzer.h:72-73, 83-84), but `SensorItem` in `data.h` declares no such fields. The accumulated entries are modelled as `AccPoint`, a sample with `min` and `max`.
- **`motor.dfy` (module `Motor`): `lib/src/MotorController.h`.**
  - The `ccwMotor` sign convention and the commands.
  - The debounced right limit switch, the soft left limit and the motion-end report of `checkLimit`.
  - One `checkLimit` call is the function `Tick` on a snapshot `Ctl` of the controller. Class `MotorController` implements it in place, and `CheckLimit` ensures `Snapshot() == Tick(old(Snapshot()), reading, now)`.
  - The stepper driver is abstract: its position, direction of motion, motion-complete flag and limit-switch flag, plus a log of the calls made to it. The registered callback is a log of the states it was called with.
- **`tester.dfy` (module `Tester`): the application logic of `src/main.cpp`.**
  - The globals and the statics of `updateTest` become class `App`.
  - The modelled logic:
    - the START/MEASURING test sequencer;
    - the `receivedCmd` gate: stop override, test lock, homing requirement;
    - the `limitChecked` homing handshake in `onMotorEvent`;
    - the config groups of `receivedConfig` and the home shift;
    - steps per millimetre;
    - the checks of `newResult`.
  - Calls to the motor are logged as `MotorCmd`s.
  - main.cpp calls motor members that `MotorController.h` does not declare: `move`, `setSpeedAcceleration` and `setCurrentPosition`. They exist here only as `MotorCmd` entries in the log.
  - main.cpp reads config members that `data.h` does not declare: `setSpeedAcceleration`, `setMotor` with an invert flag, `setHome`, `home_pos`, `max_travel`, `max_force` and `invert_motor`. They are modelled as `AppConfig`, a record around the stored `ConfigData`.
  - The trigger step records `zeroTime` as the tick's own time `now`. The source reads `millis()` again after `readSensors()` (src/main.cpp:449), a few milliseconds later at most.
- **`csv.dfy` (module `Csv`): `JsonToCsv.convert` from `vue/lib/jsonToCsv.js`.** It is modelled as a pure function over JavaScript values.

The following are parameters of the model rather than things it computes:

- Sensor readings and the end-stop pin reading.
- `millis()`, as a `u32`.
- The driver's progress.
- The results of file operations.
- JavaScript's `Number.prototype.toString` (`numToStr`).
- JSON parsing, given as the already-parsed document.

## Model

| member | source | states |
|---|---|---|
| SlotPool.Pool.GetEmpty | lib/src/dataTable.h:65-74 | the lowest-index slot whose id is CREATE_NEW; None exactly when all N slots are in use |
| SlotPool.Pool.FreeAll | lib/src/dataTable.h:93-100 | afterwards every slot's id is CREATE_NEW |
| SlotPool.ListSizeBound | lib/src/dataTable.h:362 | the list invariant implies size() <= N, with equality exactly when no slot is free |
| SlotPool.TableSizeBound | lib/src/dataTable.h:201 | the table invariant implies size() <= N |
| SlotPool.SlotList.GetEmpty | lib/src/dataTable.h:65-74 | through a list, a free unreferenced slot is returned exactly when size() < N (null after filling to maxSize) |
| SlotPool.SlotList.Push | lib/src/dataTable.h:368-377 | push(null) returns null and changes nothing; otherwise the slot gets id 1 and is appended at the end, earlier items and their order kept, other slots untouched, invariant kept (DataArray::push, lines 535-544, is the same) |
| SlotPool.SlotList.Has | lib/src/dataTable.h:383-389 | true exactly when the item is in the list |
| SlotPool.SlotList.Remove | lib/src/dataTable.h:395-411 | true exactly when the item was present; then it is erased at its first position, the others keep their order, its slot is freed; has(item) is false afterwards; absent, nothing changes |
| SlotPool.RemoveAtKeepsInv | lib/src/dataTable.h:395-411 | erasing one reference and freeing its slot keeps the list invariant and the order of the remaining payloads |
| SlotPool.SlotList.Clear | lib/src/dataTable.h:415-419 | all N slots free, the list empty, size() == 0 |
| SlotPool.SlotList.Shift | lib/src/dataTable.h:424-433 | false on an empty list; otherwise drops the front item and frees exactly its slot |
| SlotPool.SlotList.Pop | lib/src/dataTable.h:438-446 | false on an empty list; otherwise drops the back item and frees exactly its slot |
| SlotPool.SlotList.Last | lib/src/dataTable.h:451-454 | on a non-empty list, exactly the last reference, a used slot holding the last item |
| SlotPool.SlotList.First | lib/src/dataTable.h:459-462 | on a non-empty list, exactly the first reference, a used slot holding the first item |
| SlotPool.SlotList.At | lib/src/dataTable.h:623-628 | None exactly when index >= size(); otherwise exactly the index-th reference, holding the index-th item |
| SlotPool.SlotList.Create | lib/src/dataTable.h:81-88 | a slot exactly when a free slot exists and the object was accepted, then holding the item; the list is unchanged |
| SlotPool.SlotList.PushCreated | lib/src/dataTable.h:123-127 | push(create(obj)) succeeds exactly when the object was accepted and there is room, and then appends that item |
| SlotPool.SlotList.DeserializeData | lib/src/dataTable.h:108-130 | false on a parse error; otherwise the leading run of accepted elements that fits is appended in order, and the result is true exactly when every element was pushed and there was at least one |
| SlotPool.AdmittedIsLeadingRun | lib/src/dataTable.h:121-127 | the elements pushed are exactly the leading run of created elements, stopping at the first rejected one or when the pool is full |
| SlotPool.SlotTable.Size | lib/src/dataTable.h:201 | the number of entries, never more than N |
| SlotPool.SlotTable.Has | lib/src/dataTable.h:208-211 | true exactly when the key is in the map |
| SlotPool.SlotTable.Remove | lib/src/dataTable.h:225-239 | true exactly when the key was present; the entry is erased and exactly its slot freed |
| SlotPool.SlotTable.Clear | lib/src/dataTable.h:215-219 | all N slots free and the map empty |
| SlotPool.SlotTable.GetUniqueId | lib/src/dataTable.h:295-305 | an explicit id is kept; otherwise the smallest key in [0, N) not in the map, or CREATE_NEW when there is none |
| SlotPool.FirstUnusedKeyFromSpec | lib/src/dataTable.h:299-304 | the generated key is free and below N with every smaller key taken, or CREATE_NEW when every key in range is taken |
| SlotPool.SlotTable.Push | lib/src/dataTable.h:313-326 | push as corrected (see Findings): stored under its id or a fresh one, null and no change when no key is available or the key is taken |
| SlotPool.TablePushKeepsInv | lib/src/dataTable.h:313-326 | the corrected push keeps the table invariant and succeeds exactly when the key is valid and new, adding one entry |
| SlotPool.TablePushAsWrittenLeaksSlot | lib/src/dataTable.h:313-326 | as written, pushing an id already in the map reports success while its slot is marked used and referenced by no entry |
| Records.ConfigToJson | src/data.h:55-68 | extra = true emits only the five public keys; extra = false emits all eight |
| Records.ConfigRoundTrip | src/data.h:55-86 | deserializing the full serialization of a config whose strings fit gives the config back |
| Records.ConfigPublicIsNotAConfig | src/data.h:55-78 | the public serialization lacks the secret keys, so deserializeItem refuses it |
| Records.ConfigAcceptsOverlongStrings | src/data.h:70-86 | a well-typed object is accepted even when setAdmin or setWifi refuse its strings; the refused pair keeps its old values and the rest is taken |
| Records.Config.constructor | src/data.h:11-18 | the field initialisers: "Zyxel_E49C", "^t!pcm774K", "admin", "admin", pitch 2.0, micro_step 8, speed 8.0, acc_desc 4.0 |
| Records.Config.SetAdmin | src/data.h:20-28 | false and nothing changed when the user exceeds 32 or the password 64 characters; otherwise both stored and true |
| Records.Config.SetWifi | src/data.h:30-38 | the same accept rule for ssid (32) and password (64); nothing changes on reject |
| Records.Config.SetSpeed | src/data.h:40-45 | always true; stores exactly its two arguments |
| Records.Config.SetMotor | src/data.h:47-52 | always true; stores exactly its two arguments |
| Records.Config.DeserializeItem | src/data.h:70-86 | true exactly when all eight keys are present with their types; then the setters' combined effect, otherwise no change |
| Records.SampleRoundTrip | src/data.h:99-114 | deserializing a serialized SensorItem gives it back |
| Records.SampleNeedsEveryKey | src/data.h:104-111 | a missing d, f or t, a d or f that is not a number, or a t that is not an unsigned integer, is refused |
| Records.SampleFromJsonAgrees | src/data.h:104-114 | an accepted object's values are the ones read from its keys |
| Records.IsValide | src/data.h:133-138 | holds exactly when path < 53, name < 38, date < 38 and description < 198 characters; then every string with its terminator fits its buffer with room to spare |
| Records.ResultRoundTrip | src/data.h:139-159 | deserializing a serialized ResultItem gives it back |
| Records.ResultFromJsonAgrees | src/data.h:146-159 | an accepted object serializes back to the same values under the same keys |
| Records.ResultNeedsEveryKey | src/data.h:146-154 | any of the four keys missing or not a string is refused |
| Analyzer.RuptureScanSpec | src/TestAnalyzer.h:106-119 | the scan from max_force = 0 ends on the first index of the greatest force when some force is positive, else on 0 |
| Analyzer.RuptureIsFirstMax | src/TestAnalyzer.h:106-119 | detect_rupture's answer is the unique index meeting that condition, and within the buffer |
| Analyzer.RuptureUnique | src/TestAnalyzer.h:110-117 | the first strict maximum is unique |
| Analyzer.FirstAfter | src/TestAnalyzer.h:130-139 | the scan's stop: every earlier sample is at or before target, the one it stops on is after it |
| Analyzer.BracketStart | src/TestAnalyzer.h:141-152 | prev's index after the fallbacks always has a next sample after it |
| Analyzer.BracketEncloses | src/TestAnalyzer.h:127-152 | inside the sampled span, prev <= target < next; before it, samples 0 and 1; after it, the last two |
| Analyzer.LineThroughEnds | src/TestAnalyzer.h:154-155 | the interpolating line passes through prev and next |
| Analyzer.DistanceAt | src/TestAnalyzer.h:122-156 | calculate_distance as corrected (see Findings): 0 with fewer than two samples |
| Analyzer.ForceAt | src/TestAnalyzer.h:158-193 | calculate_force as corrected (see Findings): never negative, and 0 with fewer than two samples |
| Analyzer.AtSampleTime | src/TestAnalyzer.h:130-155 | at a sample's own time, the distance is that sample's and the force its clamped value |
| Analyzer.DistanceOnLine | src/TestAnalyzer.h:141-155 | samples on one straight line are reproduced exactly everywhere, interpolating or extrapolating on either side |
| Analyzer.AsWrittenAgreesFromFirstSample | src/TestAnalyzer.h:154-155 | from the first sample's time onward, the unsigned subtraction as written gives the intended value |
| Analyzer.BackwardExtrapolationWraps | src/TestAnalyzer.h:141-155 | two samples at 150 and 250 ms: the intended backward extrapolation gives -1, the code as written more than 10^7 |
| Analyzer.ForceOnLine | src/TestAnalyzer.h:178-192 | forces on one straight line are reproduced everywhere, clamped at 0, interpolating or extrapolating on either side |
| Analyzer.ForceAsWrittenAgreesFromFirstSample | src/TestAnalyzer.h:191-192 | from the first sample's time onward, the force's unsigned subtraction as written gives the intended value |
| Analyzer.ForceExtrapolationWraps | src/TestAnalyzer.h:178-192 | the same two samples with forces 1 and 5: the intended backward extrapolation is clamped to 0, the code as written gives more than 10^8 |
| Analyzer.Seed | src/TestAnalyzer.h:66-74 | a new grid entry starts with min = max = force |
| Analyzer.AddTestPoint | src/TestAnalyzer.h:49-85 | grid point k after one addTest is at grid time k |
| Analyzer.AddTestSpec | src/TestAnalyzer.h:44-87 | after addTest the grid has exactly one entry per grid time (16), whether it was empty or complete before |
| Analyzer.Accumulate | src/TestAnalyzer.h:44-87 | a series of tests from a cleared analyzer leaves the grid empty only when there were no tests, complete otherwise |
| Analyzer.ObservedAtTarget | src/TestAnalyzer.h:51-54 | a test contributes its interpolated curves at rupture time plus the grid offset |
| Analyzer.FoldPoint | src/TestAnalyzer.h:66-85 | seeding with the first observation and folding the rest keeps the grid time |
| Analyzer.AccumulatePointwise | src/TestAnalyzer.h:44-87 | entry k after k tests is the fold of the tests' observations at grid point k, in test order |
| Analyzer.MeanStep | src/TestAnalyzer.h:79-80 | the update (mean·n + x)/(n+1) turns the mean of n values into the mean of n+1 |
| Analyzer.FoldIsMean | src/TestAnalyzer.h:66-85 | folding n observations gives their arithmetic mean distance and force, and their minimum and maximum force |
| Analyzer.FoldWithinMinMax | src/TestAnalyzer.h:79-84 | the folded mean force lies between the folded min and max |
| Analyzer.AccumulateIsMean | src/TestAnalyzer.h:44-87 | after addTest(0) ... addTest(k-1) each grid entry holds the mean of the k interpolated values, min, max and min <= mean <= max |
| Analyzer.FindTime | src/TestAnalyzer.h:89-98 | the first entry whose time is t, or None when no entry has that time |
| Analyzer.FindOnGrid | src/TestAnalyzer.h:89-98 | on a complete grid, getPoint finds exactly the 16 grid times, at their grid position; off-grid times give null |
| Analyzer.RecordingRupture | src/TestAnalyzer.h:106-119 | the 37-sample recording ruptures at its 12th sample, 1200 ms |
| Analyzer.ObservedAtRupture | src/TestAnalyzer.h:51-54 | at grid time 0 a test contributes its force at the rupture sample |
| Analyzer.SingleTest | src/TestAnalyzer.h:66-75 | after one test each grid entry is that test's observation with min = max = force |
| Analyzer.RecordingPeakAtZero | src/TestAnalyzer.h:44-87 | after clear, the recording and addTest(0), getPoint(0).force is 4.66, the peak at 1200 ms |
| Analyzer.TestAnalyzer.Clear | src/TestAnalyzer.h:22-24 | the grid is empty; the raw samples stay |
| Analyzer.TestAnalyzer.ClearData | src/TestAnalyzer.h:25-27 | the raw samples are empty; the grid stays |
| Analyzer.TestAnalyzer.IsEmpty | src/TestAnalyzer.h:29-31 | true exactly when the grid has no entry |
| Analyzer.TestAnalyzer.AddPoint | src/TestAnalyzer.h:33-42 | appends (distance, force, time as uint32_t) and returns true exactly when the 1000-slot raw buffer has room; otherwise nothing changes |
| Analyzer.TestAnalyzer.DetectRupture | src/TestAnalyzer.h:106-119 | the scan loop returns Rupture of the samples, the first strict maximum |
| Analyzer.TestAnalyzer.Bracket | src/TestAnalyzer.h:127-152 | the bracketing loop and its fallbacks land on BracketStart |
| Analyzer.TestAnalyzer.CalculateDistance | src/TestAnalyzer.h:122-156 | as corrected: equals DistanceAt of the samples, without the unsigned wrap of line 155 |
| Analyzer.TestAnalyzer.CalculateForce | src/TestAnalyzer.h:158-193 | as corrected: equals ForceAt of the samples, without the unsigned wrap of line 192 |
| Analyzer.TestAnalyzer.GetPoint | src/TestAnalyzer.h:89-98 | the slot of the first entry whose time is `time`, or None exactly when there is none |
| Analyzer.TestAnalyzer.AccumulateAt | src/TestAnalyzer.h:56-85 | creates an entry exactly when none has the grid time, in a free slot that must exist because the source dereferences getEmpty() unchecked; otherwise folds into the first one |
| Analyzer.TestAnalyzer.AccumulateOffset | src/TestAnalyzer.h:51-85 | one pass of the loop folds the values interpolated at rupture time plus offset |
| Analyzer.TestAnalyzer.DetectRuptureTime | src/TestAnalyzer.h:46-47 | the time of the sample at the rupture index |
| Analyzer.TestAnalyzer.AddTest | src/TestAnalyzer.h:44-87 | as corrected (interpolation without the unsigned wraps): the grid becomes AddTestSpec of the old grid and the samples; the raw samples are kept |
| Analyzer.TestAnalyzer.GridPasses | src/TestAnalyzer.h:49-86 | the loop over rel_time from -200 to 100 in steps of 20 produces AddTestSpec |
| Analyzer.TestAnalyzer.GridPass | src/TestAnalyzer.h:49-86 | each pass brings one more grid entry to its final value and keeps the raw samples |
| Motor.Debounce | lib/src/MotorController.h:136-166 | the debounce section dispatches nothing and leaves motion and configuration as they were |
| Motor.RightCheck | lib/src/MotorController.h:168-174 | the right check keeps the switch state and the motion, and dispatches at most once |
| Motor.LeftCheck | lib/src/MotorController.h:177-196 | the left check keeps the switch state and the motion, and dispatches at most once |
| Motor.MotionEndCheck | lib/src/MotorController.h:198-205 | the motion-end check keeps the switch state and the motion, and dispatches at most once |
| Motor.TrackDirection | lib/src/MotorController.h:207-208 | only lastDir changes |
| Motor.DebounceCommit | lib/src/MotorController.h:136-166 | a reading becomes stable exactly when it equals the last raw reading, differs from the stable one, and has held for more than 50 ms |
| Motor.NoCommitNoEffect | lib/src/MotorController.h:144-166 | without a committed edge the limit, the flags and the driver are unchanged |
| Motor.CommittedEdge | lib/src/MotorController.h:146-165 | a committed LOW edge sets LIMIT_RIGHT with a pending dispatch, and while moving right also raises the driver limit and drops the pending motion; a HIGH edge sets NOT_LIMIT |
| Motor.BurstRejected | lib/src/MotorController.h:136-166 | from a stable switch, any readings within one debounce window leave the stable state unchanged |
| Motor.HeldReadingCommits | lib/src/MotorController.h:144-148 | a different reading that has held for more than 50 ms is committed |
| Motor.TickExtendsEvents | lib/src/MotorController.h:132-209 | a tick only appends to the callback log |
| Motor.TickEvents | lib/src/MotorController.h:168-205 | a tick reports at most one limit event and then at most one MOTION_END, in that order, so one checkLimit call can report LIMIT_RIGHT or LIMIT_LEFT and then MOTION_END; a limit event needs a pending dispatch and a stopped driver and clears the pending flag; MOTION_END needs a pending motion the driver completed and leaves the state NOT_LIMIT |
| Motor.RightCheckEvents | lib/src/MotorController.h:168-172 | LIMIT_RIGHT is dispatched, once, exactly when it is pending and the driver stopped; the pending flag is then cleared and the motion flag kept |
| Motor.LeftCheckEvents | lib/src/MotorController.h:186-191 | at the soft limit, the pending state is dispatched, once, exactly when a dispatch is pending and the driver stopped; that clears the pending flag and drops the pending motion; a new pending dispatch only arises while running |
| Motor.MotionEndEvents | lib/src/MotorController.h:199-205 | MOTION_END is dispatched exactly when a motion was pending and is complete; the motion is then no longer pending and the state is NOT_LIMIT |
| Motor.TickNeverMotionEnd | lib/src/MotorController.h:199-205 | getState() is never MOTION_END when checkLimit returns |
| Motor.LeftLimit | lib/src/MotorController.h:177-196 | at or beyond home - maxTravel: moving left raises the driver limit with LIMIT_LEFT pending; stopped, the pending dispatch is made; moving right clears the state |
| Motor.LeftLimitInactive | lib/src/MotorController.h:177-196 | away from the soft limit, the left check changes nothing |
| Motor.RightLimit | lib/src/MotorController.h:168-174 | LIMIT_RIGHT is reported only once the driver has stopped; backing off releases the driver's limit flag |
| Motor.TickTracksDirection | lib/src/MotorController.h:207-208 | lastDir becomes the direction only while running; the tick does not change the direction of motion |
| Motor.SignConvention | lib/src/MotorController.h:61-98 | getPosition and getDirection multiply by ccwMotor; isRunning exactly when the direction is not 0; setHome(p) reads back as p |
| Motor.MotorController.constructor | lib/src/MotorController.h:233-249 | the field initialisers: switch HIGH (raw and stable), lastChange 0, NOT_LIMIT, nothing pending, lastDir 0, ccwMotor -1, home 5, maxTravel 20, no callback calls |
| Motor.MotorController.Begin | lib/src/MotorController.h:23-33 | the pin reading becomes both the raw and the stable switch state |
| Motor.MotorController.MoveRelative | lib/src/MotorController.h:50-54 | a relative target dist·ccwMotor, and a motion becomes pending |
| Motor.MotorController.MoveAbsolute | lib/src/MotorController.h:56-60 | an absolute target dist·ccwMotor, and a motion becomes pending |
| Motor.MotorController.SetHome | lib/src/MotorController.h:62-65 | the driver position becomes position·ccwMotor, so getPosition() returns position |
| Motor.MotorController.GoHome | lib/src/MotorController.h:67-71 | target 0 and a motion becomes pending |
| Motor.MotorController.EmergencyStop | lib/src/MotorController.h:83-87 | the driver's hard stop; a pending motion stays pending |
| Motor.MotorController.Stop | lib/src/MotorController.h:89-93 | a decelerated stop, and no motion is pending |
| Motor.MotorController.SetSpeed | lib/src/MotorController.h:100-102 | the driver speed is set; nothing else changes |
| Motor.MotorController.SetConfigMotor | lib/src/MotorController.h:104-114 | the driver's scale and profile; ccwMotor is -1 exactly when the motor is inverted |
| Motor.MotorController.SetConfigHome | lib/src/MotorController.h:116-120 | home and maximum travel are stored |
| Motor.MotorController.SeekLimitSwitch | lib/src/MotorController.h:122-126 | jogging in direction ccwMotor, and a motion becomes pending |
| Motor.MotorController.DebounceSwitch | lib/src/MotorController.h:136-166 | the debounce section in place equals Debounce |
| Motor.MotorController.CheckRight | lib/src/MotorController.h:168-174 | the right-limit section in place equals RightCheck |
| Motor.MotorController.CheckLeft | lib/src/MotorController.h:177-196 | the left-limit section in place equals LeftCheck |
| Motor.MotorController.CheckMotionEnd | lib/src/MotorController.h:198-205 | the motion-end section in place equals MotionEndCheck |
| Motor.MotorController.CheckLimit | lib/src/MotorController.h:132-209 | checkLimit in place equals Tick and keeps state != MOTION_END between calls |
| Tester.StepsPerMm | src/main.cpp:362 | steps per mm times the pitch is 200·micro_step·6; undefined exactly for a zero pitch |
| Tester.DefaultStepsPerMm | src/main.cpp:362 | the defaults, micro_step 8 and pitch 2, give 4800 steps per mm |
| Tester.StepsToEnd | src/main.cpp:455-486 | over a sequence of measuring steps, the first step at which the exit test holds, counting stored samples as updateTest does |
| Tester.MeasuringEnds | src/main.cpp:455-486 | from n <= 200 stored samples a test ends within 201 - n measuring steps whatever the sensor reads; a test still running holds at most 200 samples |
| Tester.App.constructor | src/main.cpp:401-405 | idle, no test phase, limit unchecked, empty buffers, test defaults 0.3, 5.0, 1.0, 2.0 |
| Tester.App.StartTest | src/main.cpp:407-418 | clears the last result, TESTRUN and START, speed doubled for the approach, then seekLimitSwitch |
| Tester.App.ClearTest | src/main.cpp:419-424 | EMPTY, STOP and the stop latch released; nothing else changes |
| Tester.App.UpdateTest | src/main.cpp:425-489 | acts only when more than 100 ms have passed (unsigned); START with force >= trigger moves testDist and records zero time and position; MEASURING stores (pos - zeroPos, force, now - zeroTime) when there is room, latches ready past 1, and ends the test (stop, profile restored, clearTest) on the four exit conditions |
| Tester.App.TriggerStep | src/main.cpp:442-454 | the first tick with force >= trigger starts the measuring move; otherwise nothing changes |
| Tester.App.MeasureStep | src/main.cpp:455-486 | one sample stored while the 200-slot buffer has room; the test ends exactly on TestEnds; on a full buffer nothing is stored and the test ends |
| Tester.App.OnMotorEvent | src/main.cpp:367-392 | the homing state changes as HomingEvent says; the test state is untouched |
| Tester.App.DefaultConfigMotor | src/main.cpp:359-365 | setConfigMotor with steps per mm, speed, acc_desc and invert, then setConfigHome |
| Tester.App.ReceivedCmd | src/main.cpp:554-671 | the reply is CmdReply of the message and the state; the stop runs clearTest then emergencyStop; each accepted command issues exactly its motor call; every other reply leaves state and motor alone |
| Tester.App.MoveCmd | src/main.cpp:570-585 | a well-formed move issues move(dist·dir) only once the limit is checked |
| Tester.App.RunCmd | src/main.cpp:586-604 | the limit check comes first; four numbers set the test parameters and start the test |
| Tester.App.SetHomeCmd | src/main.cpp:605-635 | sethome 0 sets home at the motor's position only when stopped and the limit is checked; sethome 1 goes home |
| Tester.CmdReply | src/main.cpp:554-671 | the branch receivedCmd takes, first matching key in source order |
| Tester.StopAlwaysObeyed | src/main.cpp:557-562 | a well-typed stop wins in every state, whatever else the message holds |
| Tester.TestRunGate | src/main.cpp:564-569 | while a test runs, only the stop gets through |
| Tester.HomingGate | src/main.cpp:347-357 | move, run and sethome 0 act only once the limit is checked, and never during a test |
| Tester.GoHomeUngated | src/main.cpp:629-634 | sethome 1 is not gated on the limit check: outside a test it sends the axis home whether or not the limit was found and whether or not the motor runs |
| Tester.SeekOnlyWhenUnchecked | src/main.cpp:636-640 | homing starts only when the limit is unchecked and no test runs |
| Tester.NoSetHomeWhileRunning | src/main.cpp:609-615 | home is never redefined while the motor runs |
| Tester.HomingHandshake | src/main.cpp:377-383 | over any event sequence, limitChecked becomes true exactly when homing was under way and LIMIT_RIGHT arrives; it is never lost; the motor is told the home position and sent home exactly once, on that event |
| Tester.HomingIdle | src/main.cpp:377-383 | with the limit found or no homing under way, events change nothing |
| Tester.App.ReceivedConfig | src/main.cpp:490-553 | the config becomes ApplyConfig of the message; the motor calls are ConfigCmds; modified exactly when a group applied; wifi changes flag a wifi reset |
| Tester.App.ReceivedIdentity | src/main.cpp:496-512 | the wifi and admin groups apply when present and within bounds |
| Tester.App.ReceivedMotor | src/main.cpp:514-523 | a complete motor group is stored and the motor reconfigured |
| Tester.App.ReceivedHome | src/main.cpp:525-540 | a complete home group shifts the motor position once the limit is checked, stores the group and reconfigures |
| Tester.ShiftedPosition | src/main.cpp:528-534 | the new position keeps its distance to home: r - newHome == pos - oldHome |
| Tester.ApplyConfigIdempotent | src/main.cpp:490-540 | applying the same config message twice leaves the config as applying it once |
| Tester.ConfigHomeShift | src/main.cpp:525-540 | with the limit checked, a new home shifts the motor position by newHome - oldHome before the reconfiguration |
| Tester.ConfigNoShiftUnchecked | src/main.cpp:529-535 | before the limit is checked, a config message never sets the motor position |
| Tester.App.NewResult | src/main.cpp:239-298 | refuses when the history is full or there is no last result; the history gains ("/result/" + name + ".json", name, date, desc) exactly when the strings are valid, the name is new and the result file was written; the last result is cleared only on full success |
| Csv.Convert | vue/lib/jsonToCsv.js:4-56 | throws exactly when the input is not a non-empty array, or (TypeError) when an element is null or undefined |
| Csv.Renamed | vue/lib/jsonToCsv.js:10-16 | each record becomes distance, force, time, min, max from d, f, t, mi, ma, in that order |
| Csv.ReplaceFirst | vue/lib/jsonToCsv.js:28 | replace keeps the length |
| Csv.ReplaceFirstAbsent | vue/lib/jsonToCsv.js:27-29 | a number text with no "." is kept as it is |
| Csv.ReplaceFirstAt | vue/lib/jsonToCsv.js:27-29 | only the first "." becomes ","; text before and after it is kept |
| Csv.EscapeRoundTrip | vue/lib/jsonToCsv.js:31-33 | a field with a tab is quoted with inner quotes doubled, and reading it back gives the original string |
| Csv.EscapeKeeps | vue/lib/jsonToCsv.js:31-33 | escaping adds no tab or newline |
| Csv.Rows | vue/lib/jsonToCsv.js:22-37 | one row per record, in input order |
| Csv.Cells | vue/lib/jsonToCsv.js:23-36 | a row is the five cells in header order joined by tabs |
| Csv.HeaderLine | vue/lib/jsonToCsv.js:51 | the header line is "distance\tforce\ttime\tmin\tmax" |
| Csv.ConvertLayout | vue/lib/jsonToCsv.js:40-53 | with no newline in any text, the CSV has 6 + n lines: the four metadata lines with their values verbatim, a blank line, the header, the rows in input order |
| Csv.RowFields | vue/lib/jsonToCsv.js:22-37 | with no tab in any text, a row splits on tabs into exactly its five cells, in header order |

## Left out

- I/O, as parameters or not modelled at all:
  - The web server, websockets and authentication (`ServerManager`).
  - Networking (`NetworkManager`).
  - File storage (`FileJsonManager`).
  - The HX711 scale and `readSensors`.
  - `ESP.restart`.
  - The messages sent to clients. The model returns a `Reply` or `NewOutcome` in their place.
- The `tare`, `restar`, `delete`, `new` and `save` commands: `ReceivedCmd` only decides that they are taken; `deleteResult` and `saveResult` are not part of this model.
- ArduinoJson parsing and its number conversions. JSON values are already typed, and a parsed document is `Option<seq<Option<T>>>`.
- Floating point: every `float` is a `real`, with no rounding, NaN or infinity. `StepsPerMm` is None for a zero pitch instead of an infinity.
- Number formatting (`Number.prototype.toString`) is the parameter `numToStr`. Object and array values inside CSV cells are not modelled.
- The ESP_FlexyStepper driver's trapezoidal motion and its background service task. The driver's position, direction and completion are inputs (`DriverProgress`). `EmergencyStop` is logged, but its effect on the direction is not modelled.
- A callback that re-enters the controller during a dispatch. The callback is a log of states, and main.cpp's `onMotorEvent` is modelled separately as `HomingEvent`.
- `millis()` is a `u32`. The subtractions `millis() - lastChange` and `millis() - currentTime` wrap as in the source. `zeroTime` is an `int32_t` in the source, but it is only used in an unsigned subtraction, so it is kept as a `u32`.
- C strings are `seq<char>` with the source's length checks as written. `strlen == 32` into `char[32]` would overflow the buffer, and the model does not represent that.
- Analyzer.TestAnalyzer.AddTest: requires a non-empty raw buffer, increasing sample times and a rupture time of at least 200 ms.
  - With an empty buffer the source dereferences a null `test_data[0]`.
  - Equal times divide by zero.
  - Earlier targets are compared as unsigned numbers.
- Analyzer.TestAnalyzer.AccumulateAt: requires a free slot whenever the grid time is new, because src/TestAnalyzer.h:68-69 dereferences the result of `getEmpty()` unchecked. `GridPointRoom` shows that addTest always meets this on an empty or complete grid.
- SlotPool.SlotList.Push: requires the pushed slot to be a free slot of the list's own pool. The pushes at src/TestAnalyzer.h:38,74 and src/main.cpp:277,462 each push a slot just returned by the same list's `getEmpty`, and `deserializeData` pushes the result of `create` (a null is refused by `push` itself, as modelled), so the source never pushes anything else.
- Csv.ConvertLayout: stated for texts without newlines. A newline inside a value or a number's text would add lines.
- Csv.RowFields: stated for texts without tabs. A quoted field holding a tab is not split back.
- Duplicated and superseded code is not modelled: `docs/MotorController.h`, `lib/dataTable/dataTable.h`, the averaging experiments under `mytests/`, `docs/test.cpp`, `docs/avg.py` and `docs/tester.cpp`.

## Findings

| source | as written | input that shows it | evidently intended | confidence | as-written member | corrected member |
|---|---|---|---|---|---|---|
| lib/src/dataTable.h:313-326 | `DataTable::push` writes the id into the item and returns the item even when that id is already a key, where `std::map::insert` keeps the old entry | a table {0 ↦ slot 0}; pushing the free slot 1 carrying id 0 | refuse the push, return null and leave the slot free | not executed | SlotPool.TablePushAsWrittenLeaksSlot | SlotPool.TablePushKeepsInv |
| src/TestAnalyzer.h:155 | `target_time - prev->time` subtracts a `uint32_t` from an `int`, so a target before the first sample wraps to a huge positive offset | samples (0.0 mm, 150 ms) and (1.0 mm, 250 ms): rupture at 250 ms, first grid target 50 ms | backward extrapolation along the first two samples, -1.0 mm | not executed | Analyzer.BackwardExtrapolationWraps | Analyzer.DistanceOnLine |
| src/TestAnalyzer.h:192 | the same unsigned subtraction in `calculate_force` | samples (1.0 kg, 150 ms) and (5.0 kg, 250 ms): first grid target 50 ms | backward extrapolation along the first two samples, 1 + 0.04·(50 - 150) = -3, clamped to 0.0 | not executed | Analyzer.ForceExtrapolationWraps | Analyzer.ForceOnLine |

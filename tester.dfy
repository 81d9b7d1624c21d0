/**
 * The application layer of the tester (src/main.cpp): the test-run
 * sequencer fed by the polling loop, the gate on remote commands, the homing
 * handshake with the motor's event callback, the motor configuration derived
 * from the stored config, and the creation of a saved result.
 *
 * main.cpp drives a motor API that is richer than MotorController.h (move,
 * setSpeedAcceleration, setCurrentPosition) and a config with fields that
 * data.h lacks (home_pos, max_travel, max_force, invert_motor). Both are
 * abstract here: the motor is the log of calls made to it, the extra config
 * fields are an AppConfig around the stored ConfigData. Sensor readings,
 * millis(), the motor's running state and position, and the outcome of file
 * operations are inputs.
 */
module Tester {
  import opened Wrappers
  import opened SlotPool
  import opened Records
  import Motor

  /** Capacity of the saved-result history. */
  const MAX_HISTORY: nat := 10
  /** Capacity of the samples of the last test. */
  const MAX_RESULT: nat := 200
  /** Milliseconds between two steps of a running test. */
  const TEST_PERIOD: nat := 100

  /** main.cpp's State: idle, seeking the limit switch, or running a test. */
  datatype AppState = Empty | RunHome | TestRun

  /** main.cpp's Step: the phase of a test run. */
  datatype Step = Stop | Start | Measuring

  /** The motor calls main.cpp makes, in millimetres of the controller's frame. */
  datatype MotorCmd =
    | Move(dist: real)
    | StopMotor
    | EmergencyStop
    | SeekLimitSwitch
    | GoHome
    | SetCurrentPosition(mm: real)
    | SetHome(mm: real)
    | SetSpeedAcceleration(speed: real, acc: real)
    /** stepsMm is None when screw_pitch is 0, where the float division gives no finite value. */
    | SetConfigMotor(stepsMm: Option<real>, speed: real, accDesc: real, invert: bool)
    | SetConfigHome(home: real, maxTravel: real)

  /** The config main.cpp reads: the stored record plus the motor and homing fields. */
  datatype AppConfig = AppConfig(base: ConfigData, invertMotor: bool, homePos: real, maxTravel: real, maxForce: real)

  /**
   * Steps per millimetre: 200 steps per revolution, micro_step microsteps,
   * a 6:1 reduction, screw_pitch millimetres per screw turn. The integer
   * product is divided as a float; None where the pitch is 0.
   */
  function StepsPerMm(microStep: u8, screwPitch: real): (r: Option<real>)
    ensures r.None? <==> screwPitch == 0.0
    ensures r.Some? ==> r.value * screwPitch == (1200 * microStep) as real
  {
    if screwPitch == 0.0 then None else Some((200 * microStep * 6) as real / screwPitch)
  }

  /** The shipped defaults, micro_step 8 and a 2 mm pitch, give 4800 steps per millimetre. */
  lemma DefaultStepsPerMm()
    ensures StepsPerMm(DEFAULT_CONFIG.microStep, DEFAULT_CONFIG.screwPitch) == Some(4800.0)
  {
  }

  /** The two motor calls of defaultConfigMotor for a config. */
  function MotorSetup(c: AppConfig): seq<MotorCmd> {
    [SetConfigMotor(StepsPerMm(c.base.microStep, c.base.screwPitch), c.base.speed, c.base.accDesc, c.invertMotor),
     SetConfigHome(c.homePos, c.maxTravel)]
  }

  /**
   * The exit condition of a measuring step: no room for the sample, the force
   * fell under 0.5 after having passed 1 (ready, latched), the force is
   * within 2 of the maximum, or the motor's motion has ended.
   */
  predicate TestEnds(stored: bool, ready: bool, force: real, maxForce: real, motionEnd: bool) {
    !stored || (ready && force < 0.5) || force > maxForce - 2.0 || motionEnd
  }

  /** What one measuring step of updateTest reads: the force and the motor's motion-complete flag. */
  datatype MeasureInput = MeasureInput(force: real, motionEnd: bool)

  /**
   * Measuring steps of updateTest, from a buffer holding n samples and the
   * stop latch at ready: the number of steps after which the test has
   * ended, or None when it is still running after all of them.
   */
  function StepsToEnd(n: nat, ready: bool, inputs: seq<MeasureInput>, maxForce: real): (r: Option<nat>)
    ensures r.Some? ==> 1 <= r.value <= |inputs|
    decreases |inputs|
  {
    if inputs == [] then None
    else
      var ready' := ready || inputs[0].force > 1.0;
      if TestEnds(n < MAX_RESULT, ready', inputs[0].force, maxForce, inputs[0].motionEnd) then Some(1)
      else
        match StepsToEnd(n + 1, ready', inputs[1..], maxForce)
        case None => None
        case Some(m) => Some(m + 1)
  }

  /**
   * A test cannot outgrow its buffer: from n <= MAX_RESULT samples it ends
   * within MAX_RESULT - n + 1 measuring steps whatever the sensor reads, and
   * a test still running has stored at most MAX_RESULT samples.
   */
  lemma {:induction false} MeasuringEnds(n: nat, ready: bool, inputs: seq<MeasureInput>, maxForce: real)
    requires n <= MAX_RESULT
    ensures StepsToEnd(n, ready, inputs, maxForce).None? ==> n + |inputs| <= MAX_RESULT
    ensures StepsToEnd(n, ready, inputs, maxForce).Some? ==>
              StepsToEnd(n, ready, inputs, maxForce).value <= MAX_RESULT - n + 1
    decreases |inputs|
  {
    if inputs != [] {
      var ready' := ready || inputs[0].force > 1.0;
      if !TestEnds(n < MAX_RESULT, ready', inputs[0].force, maxForce, inputs[0].motionEnd) {
        MeasuringEnds(n + 1, ready', inputs[1..], maxForce);
      }
    }
  }

  /** A JSON value that ArduinoJson reads as an int8_t. */
  predicate IsI8(v: JValue) {
    v.JInt? && -128 <= v.i < 128
  }

  /** A JSON value that ArduinoJson reads as a JsonObject. */
  predicate IsObject(v: JValue) {
    v.JObject?
  }

  predicate IsBool(v: JValue) {
    v.JBool?
  }

  /** A uint read into a uint8_t: ArduinoJson gives 0 for a value that does not fit. */
  function AsU8(v: JValue): u8
    requires IsU32(v)
  {
    if v.i < 0x100 then v.i else 0
  }

  /** What receivedCmd did with a command, in place of the message it sends back. */
  datatype Reply =
    | StopEmergency
    | TestRunning
    | NeedsLimitCheck
    | Moving
    | TestStarted
    | FirstStopMotor
    | HomeSet
    | GoingHome
    | SeekingLimit
    | Tared
    | Restarting
    /** delete, new and save: handed to deleteResult, newResult and saveResult. */
    | Delegated
    | Ignored

  /**
   * The replies receivedCmd gives only once the limit switch has been found:
   * a move, a test run and sethome 0. sethome 1 (go home) is not gated.
   */
  predicate NeedsHoming(r: Reply) {
    r == Moving || r == TestStarted || r == HomeSet
  }

  /** What newResult did, in place of the message it sends back. */
  datatype NewOutcome =
    | HistoryFull
    | NoLastResult
    | NotStrings
    | NameTaken
    | Invalid
    | ResultWriteError
    | HistoryWriteError
    | Created

  /** The globals of main.cpp, with the statics of updateTest as fields. */
  class App {
    var state: AppState
    var testStep: Step
    var testReadyToStop: bool
    var limitChecked: bool
    var resetWifi: bool
    const history: SlotList<ResultItem>
    const lastResult: SlotList<Sample>
    var currentTime: u32
    var zeroPos: real
    /** The int32_t zeroTime, kept as the uint32_t it is subtracted as. */
    var zeroTime: u32
    var testTriggerWeigth: real
    var testDist: real
    var testSpeed: real
    var testAcceleration: real
    var config: AppConfig
    /** The calls made to the motor, oldest first. */
    var motorCmds: seq<MotorCmd>

    ghost function Repr(): set<object> {
      {this} + history.Repr() + lastResult.Repr()
    }

    /**
     * Both buffers are sound and of their sizes; a test phase is set exactly
     * while a test runs, and the stop latch is only armed during a test.
     */
    ghost predicate Valid()
      reads Repr()
    {
      && history.Valid() && lastResult.Valid()
      && history.MaxSize() == MAX_HISTORY && lastResult.MaxSize() == MAX_RESULT
      && history.Repr() !! lastResult.Repr() && this !in history.Repr() && this !in lastResult.Repr()
      && (state == TestRun <==> testStep != Stop)
      && (testReadyToStop ==> state == TestRun)
    }

    /** The samples of the last test, in order. */
    function Samples(): seq<Sample>
      reads Repr()
      requires Valid()
    {
      lastResult.Contents()
    }

    constructor (cfg: AppConfig)
      ensures Valid() && fresh(Repr())
      ensures state == Empty && testStep == Stop && !testReadyToStop && !limitChecked
      ensures config == cfg && motorCmds == [] && Samples() == [] && history.Contents() == []
      ensures testTriggerWeigth == 0.3 && testDist == 5.0 && testSpeed == 1.0 && testAcceleration == 2.0
    {
      state, testStep := Empty, Stop;
      testReadyToStop, limitChecked, resetWifi := false, false, false;
      history := new SlotList(MAX_HISTORY);
      lastResult := new SlotList(MAX_RESULT);
      currentTime, zeroPos, zeroTime := 0, 0.0, 0;
      testTriggerWeigth, testDist, testSpeed, testAcceleration := 0.3, 5.0, 1.0, 2.0;
      config := cfg;
      motorCmds := [];
    }

    /** startTest: empties the last result and starts a test waiting for the trigger force. */
    method StartTest()
      requires Valid()
      modifies this, lastResult.Repr()
      ensures Valid()
      ensures state == TestRun && testStep == Start && Samples() == []
      ensures testReadyToStop == old(testReadyToStop) && limitChecked == old(limitChecked)
      ensures motorCmds == old(motorCmds) + [SetSpeedAcceleration(testSpeed * 2.0, testAcceleration), SeekLimitSwitch]
      ensures config == old(config) && history.Contents() == old(history.Contents()) && resetWifi == old(resetWifi)
      ensures testDist == old(testDist) && testTriggerWeigth == old(testTriggerWeigth)
      ensures testSpeed == old(testSpeed) && testAcceleration == old(testAcceleration)
    {
      lastResult.Clear();
      state := TestRun;
      testStep := Start;
      motorCmds := motorCmds + [SetSpeedAcceleration(testSpeed * 2.0, testAcceleration), SeekLimitSwitch];
    }

    /** clearTest: back to idle with no test phase and the stop latch released. */
    method ClearTest()
      modifies this
      ensures state == Empty && !testReadyToStop && testStep == Stop
      ensures limitChecked == old(limitChecked) && motorCmds == old(motorCmds) && config == old(config)
      ensures currentTime == old(currentTime) && zeroPos == old(zeroPos) && zeroTime == old(zeroTime)
      ensures testDist == old(testDist) && testTriggerWeigth == old(testTriggerWeigth)
      ensures testSpeed == old(testSpeed) && testAcceleration == old(testAcceleration)
      ensures resetWifi == old(resetWifi)
    {
      state := Empty;
      testReadyToStop := false;
      testStep := Stop;
    }

    /**
     * updateTest, at time `now` with the sensor's force and position and the
     * motor's motion-complete flag. Every 100 ms: in START, the trigger force
     * starts the measuring move; in MEASURING, one sample relative to the
     * trigger point is stored, and the test ends when the buffer is full,
     * when the force drops after the peak, near the maximum force, or when
     * the motor's move is over.
     */
    method UpdateTest(now: u32, force: real, pos: real, motionEnd: bool)
      requires Valid()
      modifies this, lastResult.Repr()
      ensures Valid()
      ensures limitChecked == old(limitChecked) && config == old(config)
      ensures history.Contents() == old(history.Contents())
      ensures Motor.Elapsed(now, old(currentTime)) <= TEST_PERIOD ==>
        && currentTime == old(currentTime) && state == old(state) && testStep == old(testStep)
        && testReadyToStop == old(testReadyToStop) && Samples() == old(Samples()) && motorCmds == old(motorCmds)
      ensures Motor.Elapsed(now, old(currentTime)) > TEST_PERIOD ==> currentTime == now
      ensures Motor.Elapsed(now, old(currentTime)) > TEST_PERIOD && old(testStep) == Stop ==>
        state == old(state) && testStep == Stop && Samples() == old(Samples()) && motorCmds == old(motorCmds)
      ensures Motor.Elapsed(now, old(currentTime)) > TEST_PERIOD && old(testStep) == Start ==>
        && Samples() == old(Samples()) && state == TestRun
        && (force >= old(testTriggerWeigth) ==>
              && testStep == Measuring && zeroTime == now && zeroPos == pos
              && motorCmds == old(motorCmds) + [SetSpeedAcceleration(old(testSpeed), old(testAcceleration)), Move(old(testDist))])
        && (force < old(testTriggerWeigth) ==> testStep == Start && motorCmds == old(motorCmds))
      ensures Motor.Elapsed(now, old(currentTime)) > TEST_PERIOD && old(testStep) == Measuring ==>
        var stored := |old(Samples())| < MAX_RESULT;
        var ready := old(testReadyToStop) || force > 1.0;
        && Samples() == old(Samples()) + (if stored then [Sample(pos - old(zeroPos), force, Wrap32(now - old(zeroTime)))] else [])
        && (TestEnds(stored, ready, force, old(config).maxForce, motionEnd) ==>
              && state == Empty && testStep == Stop && !testReadyToStop
              && motorCmds == old(motorCmds) + [StopMotor, SetSpeedAcceleration(old(config).base.speed, old(config).base.accDesc)])
        && (!TestEnds(stored, ready, force, old(config).maxForce, motionEnd) ==>
              state == TestRun && testStep == Measuring && testReadyToStop == ready && motorCmds == old(motorCmds))
    {
      if Motor.Elapsed(now, currentTime) > TEST_PERIOD {
        currentTime := now;
        match testStep
        case Stop =>
        case Start => TriggerStep(now, force, pos);
        case Measuring => MeasureStep(force, pos, motionEnd);
      }
    }

    /** The START case of updateTest: the trigger force starts the measuring move from here and now. */
    method TriggerStep(now: u32, force: real, pos: real)
      requires Valid() && testStep == Start
      modifies this
      ensures Valid() && state == TestRun && currentTime == old(currentTime)
      ensures limitChecked == old(limitChecked) && config == old(config) && testReadyToStop == old(testReadyToStop)
      ensures force >= testTriggerWeigth ==>
        && testStep == Measuring && zeroTime == now && zeroPos == pos
        && motorCmds == old(motorCmds) + [SetSpeedAcceleration(testSpeed, testAcceleration), Move(testDist)]
      ensures force < testTriggerWeigth ==> testStep == Start && motorCmds == old(motorCmds)
      ensures testTriggerWeigth == old(testTriggerWeigth) && testSpeed == old(testSpeed)
      ensures testAcceleration == old(testAcceleration) && testDist == old(testDist)
    {
      if force >= testTriggerWeigth {
        motorCmds := motorCmds + [SetSpeedAcceleration(testSpeed, testAcceleration), Move(testDist)];
        testStep := Measuring;
        zeroTime := now;
        zeroPos := pos;
      }
    }

    /**
     * The MEASURING case of updateTest: one sample relative to the trigger
     * point while there is room, the stop latch armed past 1, and the end of
     * the test on TestEnds.
     */
    method MeasureStep(force: real, pos: real, motionEnd: bool)
      requires Valid() && testStep == Measuring
      modifies this, lastResult.Repr()
      ensures Valid()
      ensures limitChecked == old(limitChecked) && config == old(config) && currentTime == old(currentTime)
      ensures history.Contents() == old(history.Contents())
      ensures var stored := |old(Samples())| < MAX_RESULT;
        var ready := old(testReadyToStop) || force > 1.0;
        && Samples() == old(Samples()) + (if stored then [Sample(pos - zeroPos, force, Wrap32(currentTime - zeroTime))] else [])
        && (TestEnds(stored, ready, force, config.maxForce, motionEnd) ==>
              && state == Empty && testStep == Stop && !testReadyToStop
              && motorCmds == old(motorCmds) + [StopMotor, SetSpeedAcceleration(config.base.speed, config.base.accDesc)])
        && (!TestEnds(stored, ready, force, config.maxForce, motionEnd) ==>
              state == TestRun && testStep == Measuring && testReadyToStop == ready && motorCmds == old(motorCmds))
      ensures |old(Samples())| == MAX_RESULT ==> Samples() == old(Samples()) && state == Empty && testStep == Stop
      ensures zeroPos == old(zeroPos) && zeroTime == old(zeroTime)
    {
      var exit := false;
      var item := lastResult.GetEmpty();
      if item.Some? {
        lastResult.Store(item.value, Sample(pos - zeroPos, force, Wrap32(currentTime - zeroTime)));
        var _ := lastResult.Push(item);
      } else {
        exit := true;
      }
      if force > 1.0 {
        testReadyToStop := true;
      }
      if exit || (testReadyToStop && force < 0.5) || force > config.maxForce - 2.0 || motionEnd {
        motorCmds := motorCmds + [StopMotor, SetSpeedAcceleration(config.base.speed, config.base.accDesc)];
        ClearTest();
      }
    }

    /** isLimitChecked: whether homing has found the limit switch (otherwise the client is asked to run it). */
    predicate IsLimitChecked()
      reads this
    {
      limitChecked
    }

    /**
     * onMotorEvent: the first LIMIT_RIGHT while homing marks the limit as
     * checked, sets the position to home_pos, sends the axis home and ends
     * homing. Any other event changes nothing.
     */
    method OnMotorEvent(s: Motor.State)
      requires Valid()
      modifies this
      ensures Valid()
      ensures Homing(state, limitChecked, motorCmds) == HomingEvent(Homing(old(state), old(limitChecked), old(motorCmds)), s, config.homePos)
      ensures testStep == old(testStep) && testReadyToStop == old(testReadyToStop) && config == old(config)
    {
      if s == Motor.LimitRight {
        if !limitChecked && state == RunHome {
          limitChecked := true;
          motorCmds := motorCmds + [SetCurrentPosition(config.homePos), GoHome];
          state := Empty;
        }
      }
    }

    /** defaultConfigMotor: the motor's scale, profile, direction and soft limits from the config. */
    method DefaultConfigMotor()
      modifies this
      ensures motorCmds == old(motorCmds) + MotorSetup(config)
      ensures config == old(config) && state == old(state) && testStep == old(testStep)
      ensures testReadyToStop == old(testReadyToStop) && limitChecked == old(limitChecked)
      ensures resetWifi == old(resetWifi)
    {
      var stepsMm := StepsPerMm(config.base.microStep, config.base.screwPitch);
      motorCmds := motorCmds + [SetConfigMotor(stepsMm, config.base.speed, config.base.accDesc, config.invertMotor)];
      motorCmds := motorCmds + [SetConfigHome(config.homePos, config.maxTravel)];
    }

    /**
     * receivedCmd, with the motor's running state and position as inputs.
     * Which branch runs, and so the reply, is CmdReply; the branches that
     * act change the state as below, the others change nothing.
     */
    method ReceivedCmd(root: JsonObject, motorRunning: bool, motorPosition: real) returns (reply: Reply)
      requires Valid()
      modifies this, lastResult.Repr()
      ensures Valid()
      ensures reply == CmdReply(root, old(state), old(limitChecked), motorRunning)
      ensures limitChecked == old(limitChecked) && config == old(config)
      ensures history.Contents() == old(history.Contents())
      ensures reply == StopEmergency ==>
        && state == Empty && testStep == Stop && !testReadyToStop
        && motorCmds == old(motorCmds) + [EmergencyStop] && Samples() == old(Samples())
      ensures reply == Moving ==> motorCmds == old(motorCmds) + [Move(MoveDist(Get(root, "move")))]
      ensures reply == TestStarted ==>
        && state == TestRun && testStep == Start && Samples() == []
        && var r := Get(root, "run").fields;
        && testDist == AsFloat(Get(r, "dist")) && testTriggerWeigth == AsFloat(Get(r, "trigger"))
        && testSpeed == AsFloat(Get(r, "speed")) && testAcceleration == AsFloat(Get(r, "acc_desc"))
        && motorCmds == old(motorCmds) + [SetSpeedAcceleration(testSpeed * 2.0, testAcceleration), SeekLimitSwitch]
      ensures reply == HomeSet ==> motorCmds == old(motorCmds) + [SetHome(motorPosition)]
      ensures reply == GoingHome ==> motorCmds == old(motorCmds) + [GoHome]
      ensures reply == SeekingLimit ==> state == RunHome && motorCmds == old(motorCmds) + [SeekLimitSwitch]
      ensures reply !in {StopEmergency, TestStarted, SeekingLimit} ==> state == old(state)
      ensures reply !in {StopEmergency, Moving, TestStarted, HomeSet, GoingHome, SeekingLimit} ==> motorCmds == old(motorCmds)
      ensures reply != StopEmergency && reply != TestStarted ==>
        testStep == old(testStep) && testReadyToStop == old(testReadyToStop) && Samples() == old(Samples())
    {
      if IsU8(Get(root, "stop")) {
        ClearTest();
        motorCmds := motorCmds + [EmergencyStop];
        return StopEmergency;
      } else if state == TestRun {
        return TestRunning;
      } else if IsObject(Get(root, "move")) {
        reply := MoveCmd(Get(root, "move"));
      } else if IsObject(Get(root, "run")) {
        reply := RunCmd(Get(root, "run"));
      } else if IsU32(Get(root, "sethome")) {
        reply := SetHomeCmd(Get(root, "sethome"), motorRunning, motorPosition);
      } else if IsU32(Get(root, "checkLimit")) && !limitChecked {
        motorCmds := motorCmds + [SeekLimitSwitch];
        state := RunHome;
        return SeekingLimit;
      } else if IsU32(Get(root, "tare")) {
        if motorRunning {
          return FirstStopMotor;
        }
        return Tared;
      } else if IsU8(Get(root, "restar")) {
        return Restarting;
      } else if IsU8(Get(root, "delete")) || IsObject(Get(root, "new")) || IsObject(Get(root, "save")) {
        return Delegated;
      } else {
        return Ignored;
      }
    }

    /** The move command: dist times dir, once the limit is checked. */
    method MoveCmd(v: JValue) returns (reply: Reply)
      requires IsObject(v)
      modifies this
      ensures reply == (if !MoveOk(v) then Ignored else if !limitChecked then NeedsLimitCheck else Moving)
      ensures motorCmds == old(motorCmds) + (if reply == Moving then [Move(MoveDist(v))] else [])
      ensures state == old(state) && testStep == old(testStep) && testReadyToStop == old(testReadyToStop)
      ensures limitChecked == old(limitChecked) && config == old(config) && resetWifi == old(resetWifi)
    {
      var m := v.fields;
      if IsFloat(Get(m, "dist")) && IsI8(Get(m, "dir")) {
        if !IsLimitChecked() {
          return NeedsLimitCheck;
        }
        var dist := AsFloat(Get(m, "dist"));
        var dir := Get(m, "dir").i;
        motorCmds := motorCmds + [Move(dist * dir as real)];
        assert MoveDist(v) == dist * dir as real;
        return Moving;
      }
      return Ignored;
    }

    /** The run command: the limit check comes before the fields are looked at. */
    method RunCmd(v: JValue) returns (reply: Reply)
      requires Valid() && IsObject(v) && state != TestRun
      modifies this, lastResult.Repr()
      ensures Valid()
      ensures reply == (if !limitChecked then NeedsLimitCheck else if RunOk(v) then TestStarted else Ignored)
      ensures limitChecked == old(limitChecked) && config == old(config) && resetWifi == old(resetWifi)
      ensures history.Contents() == old(history.Contents())
      ensures reply == TestStarted ==>
        && state == TestRun && testStep == Start && Samples() == [] && testReadyToStop == old(testReadyToStop)
        && testDist == AsFloat(Get(v.fields, "dist")) && testTriggerWeigth == AsFloat(Get(v.fields, "trigger"))
        && testSpeed == AsFloat(Get(v.fields, "speed")) && testAcceleration == AsFloat(Get(v.fields, "acc_desc"))
        && motorCmds == old(motorCmds) + [SetSpeedAcceleration(testSpeed * 2.0, testAcceleration), SeekLimitSwitch]
      ensures reply != TestStarted ==>
        && state == old(state) && testStep == old(testStep) && testReadyToStop == old(testReadyToStop)
        && Samples() == old(Samples()) && motorCmds == old(motorCmds)
    {
      if !IsLimitChecked() {
        return NeedsLimitCheck;
      }
      var obj := v.fields;
      if IsFloat(Get(obj, "dist")) && IsFloat(Get(obj, "trigger")) &&
         IsFloat(Get(obj, "speed")) && IsFloat(Get(obj, "acc_desc")) {
        testDist := AsFloat(Get(obj, "dist"));
        testTriggerWeigth := AsFloat(Get(obj, "trigger"));
        testSpeed := AsFloat(Get(obj, "speed"));
        testAcceleration := AsFloat(Get(obj, "acc_desc"));
        StartTest();
        return TestStarted;
      }
      return Ignored;
    }

    /** The sethome command: 0 sets home at the current position of a stopped motor, 1 goes home. */
    method SetHomeCmd(v: JValue, motorRunning: bool, motorPosition: real) returns (reply: Reply)
      requires IsU32(v)
      modifies this
      ensures reply == (if AsU8(v) == 0 then
                          (if motorRunning then FirstStopMotor else if limitChecked then HomeSet else NeedsLimitCheck)
                        else if AsU8(v) == 1 then GoingHome else Ignored)
      ensures motorCmds == old(motorCmds) + (if reply == HomeSet then [SetHome(motorPosition)]
                                             else if reply == GoingHome then [GoHome] else [])
      ensures state == old(state) && testStep == old(testStep) && testReadyToStop == old(testReadyToStop)
      ensures limitChecked == old(limitChecked) && config == old(config) && resetWifi == old(resetWifi)
    {
      var home := AsU8(v);
      if home == 0 {
        if motorRunning {
          return FirstStopMotor;
        } else if IsLimitChecked() {
          motorCmds := motorCmds + [SetHome(motorPosition)];
          return HomeSet;
        }
        return NeedsLimitCheck;
      } else if home == 1 {
        motorCmds := motorCmds + [GoHome];
        return GoingHome;
      }
      return Ignored;
    }

    /**
     * receivedConfig, with the motor's position as input: each well-typed
     * group of keys is applied in turn; modified reports whether any was.
     */
    method ReceivedConfig(root: JsonObject, motorPosition: real) returns (modified: bool)
      requires Valid()
      modifies this
      ensures Valid()
      ensures config == ApplyConfig(root, old(config))
      ensures motorCmds == old(motorCmds) + ConfigCmds(root, old(config), limitChecked, motorPosition)
      ensures modified <==> WifiGroup(root) || AdminGroup(root) || MotorGroup(root) || HomeGroup(root)
      ensures resetWifi == (old(resetWifi) || WifiGroup(root))
      ensures state == old(state) && testStep == old(testStep) && limitChecked == old(limitChecked)
      ensures testReadyToStop == old(testReadyToStop)
    {
      ReceivedIdentity(root);
      ghost var cmds0 := motorCmds;
      ReceivedMotor(root);
      ghost var cmds1 := motorCmds;
      ReceivedHome(root, motorPosition);
      assert motorCmds == cmds0 + (cmds1[|cmds0|..] + motorCmds[|cmds1|..]);
      modified := WifiGroup(root) || AdminGroup(root) || MotorGroup(root) || HomeGroup(root);
    }

    /** The wifi and admin groups of receivedConfig. */
    method ReceivedIdentity(root: JsonObject)
      requires Valid()
      modifies this
      ensures Valid()
      ensures config == ApplyAdmin(root, ApplyWifi(root, old(config)))
      ensures resetWifi == (old(resetWifi) || WifiGroup(root))
      ensures motorCmds == old(motorCmds) && state == old(state) && testStep == old(testStep)
      ensures limitChecked == old(limitChecked) && testReadyToStop == old(testReadyToStop)
    {
      if IsString(Get(root, "wifi_ssid")) && IsString(Get(root, "wifi_pass")) {
        var ssid, pass := Get(root, "wifi_ssid").s, Get(root, "wifi_pass").s;
        if WifiFits(ssid, pass) {
          config := config.(base := config.base.(wifiSsid := ssid, wifiPass := pass));
          resetWifi := true;
        }
      }
      if IsString(Get(root, "www_user")) && IsString(Get(root, "www_pass")) {
        var user, pass := Get(root, "www_user").s, Get(root, "www_pass").s;
        if AdminFits(user, pass) {
          config := config.(base := config.base.(wwwUser := user, wwwPass := pass));
        }
      }
    }

    /** The motor group of receivedConfig: store the profile and reconfigure the motor. */
    method ReceivedMotor(root: JsonObject)
      requires Valid()
      modifies this
      ensures Valid()
      ensures config == ApplyMotor(root, old(config))
      ensures motorCmds == old(motorCmds) + (if MotorGroup(root) then MotorSetup(config) else [])
      ensures resetWifi == old(resetWifi) && state == old(state) && testStep == old(testStep)
      ensures limitChecked == old(limitChecked) && testReadyToStop == old(testReadyToStop)
    {
      if IsFloat(Get(root, "speed")) && IsFloat(Get(root, "acc_desc")) && IsFloat(Get(root, "screw_pitch"))
         && IsU8(Get(root, "micro_step")) && IsBool(Get(root, "invert_motor")) {
        config := config.(base := config.base.(speed := AsFloat(Get(root, "speed")), accDesc := AsFloat(Get(root, "acc_desc")),
                                               screwPitch := AsFloat(Get(root, "screw_pitch")),
                                               microStep := Get(root, "micro_step").i),
                          invertMotor := Get(root, "invert_motor").b);
        DefaultConfigMotor();
      }
    }

    /**
     * The home group of receivedConfig: once the limit is checked, the
     * motor's position is shifted with the home, then the motor is
     * reconfigured.
     */
    method ReceivedHome(root: JsonObject, motorPosition: real)
      requires Valid()
      modifies this
      ensures Valid()
      ensures config == ApplyHome(root, old(config))
      ensures motorCmds == old(motorCmds) + HomeCmds(root, old(config), limitChecked, motorPosition)
      ensures resetWifi == old(resetWifi) && state == old(state) && testStep == old(testStep)
      ensures limitChecked == old(limitChecked) && testReadyToStop == old(testReadyToStop)
    {
      if IsFloat(Get(root, "home_pos")) && IsFloat(Get(root, "max_travel")) && IsFloat(Get(root, "max_force")) {
        var newPos := AsFloat(Get(root, "home_pos"));
        if limitChecked {
          var prevHome := config.homePos;
          var delta := newPos - prevHome;
          motorCmds := motorCmds + [SetCurrentPosition(motorPosition + delta)];
        }
        config := config.(homePos := newPos, maxTravel := AsFloat(Get(root, "max_travel")),
                          maxForce := AsFloat(Get(root, "max_force")));
        DefaultConfigMotor();
      }
    }

    /**
     * newResult, with the file operations' outcomes as inputs: refuses when
     * the history is full or there is no last result; otherwise saves the
     * last result under a new history entry when its strings are valid.
     */
    method NewResult(obj: JsonObject, fileExists: bool, resultWritten: bool, historyWritten: bool)
      returns (outcome: NewOutcome)
      requires Valid()
      modifies history.Repr(), lastResult.Repr()
      ensures Valid()
      ensures outcome == HistoryFull <==> |old(history.Contents())| == MAX_HISTORY
      ensures outcome == NoLastResult <==> |old(history.Contents())| < MAX_HISTORY && old(Samples()) == []
      ensures outcome == HistoryFull || outcome == NoLastResult ==>
        history.Contents() == old(history.Contents()) && Samples() == old(Samples())
      ensures (outcome == Created || outcome == HistoryWriteError) <==>
        |old(history.Contents())| < MAX_HISTORY && old(Samples()) != []
        && IsString(Get(obj, "name")) && IsString(Get(obj, "desc")) && IsString(Get(obj, "date"))
        && !fileExists && resultWritten
        && IsValide("/result/" + Get(obj, "name").s + ".json", Get(obj, "name").s, Get(obj, "date").s, Get(obj, "desc").s)
      ensures outcome == Created || outcome == HistoryWriteError ==>
        history.Contents() == old(history.Contents()) + [ResultItem("/result/" + Get(obj, "name").s + ".json",
                                                                    Get(obj, "name").s, Get(obj, "date").s, Get(obj, "desc").s)]
      ensures outcome == Created ==> historyWritten
      ensures outcome == HistoryWriteError ==> !historyWritten
      ensures outcome == Created ==> Samples() == []
      ensures outcome != Created && outcome != HistoryWriteError ==> history.Contents() == old(history.Contents())
      ensures outcome != Created ==> Samples() == old(Samples())
    {
      var item := history.GetEmpty();
      if item.None? {
        return HistoryFull;
      }
      if lastResult.Size() < 1 {
        return NoLastResult;
      }
      if !(IsString(Get(obj, "name")) && IsString(Get(obj, "desc")) && IsString(Get(obj, "date"))) {
        return NotStrings;
      }
      var name, date, desc := Get(obj, "name").s, Get(obj, "date").s, Get(obj, "desc").s;
      var path := "/result/" + name + ".json";
      if fileExists {
        return NameTaken;
      }
      if !IsValide(path, name, date, desc) {
        return Invalid;
      }
      if !resultWritten {
        return ResultWriteError;
      }
      history.Store(item.value, ResultItem(path, name, date, desc));
      var _ := history.Push(item);
      if !historyWritten {
        return HistoryWriteError;
      }
      lastResult.Clear();
      return Created;
    }
  }

  /** A well-formed move object: a numeric distance and an int8 direction. */
  predicate MoveOk(v: JValue) {
    IsObject(v) && IsFloat(Get(v.fields, "dist")) && IsI8(Get(v.fields, "dir"))
  }

  /** The signed distance of a move: dist times dir. */
  function MoveDist(v: JValue): real
    requires MoveOk(v)
  {
    AsFloat(Get(v.fields, "dist")) * Get(v.fields, "dir").i as real
  }

  /** A well-formed run object: four numbers. */
  predicate RunOk(v: JValue) {
    IsObject(v) && IsFloat(Get(v.fields, "dist")) && IsFloat(Get(v.fields, "trigger"))
    && IsFloat(Get(v.fields, "speed")) && IsFloat(Get(v.fields, "acc_desc"))
  }

  /**
   * The branch receivedCmd takes: the first key that is present and well
   * typed decides, in the order stop, (test gate), move, run, sethome,
   * checkLimit, tare, restar, delete, new, save.
   */
  function CmdReply(root: JsonObject, state: AppState, limitChecked: bool, motorRunning: bool): Reply {
    if IsU8(Get(root, "stop")) then StopEmergency
    else if state == TestRun then TestRunning
    else if IsObject(Get(root, "move")) then
      (if !MoveOk(Get(root, "move")) then Ignored else if !limitChecked then NeedsLimitCheck else Moving)
    else if IsObject(Get(root, "run")) then
      (if !limitChecked then NeedsLimitCheck else if RunOk(Get(root, "run")) then TestStarted else Ignored)
    else if IsU32(Get(root, "sethome")) then
      var home := AsU8(Get(root, "sethome"));
      if home == 0 then
        (if motorRunning then FirstStopMotor else if limitChecked then HomeSet else NeedsLimitCheck)
      else if home == 1 then GoingHome
      else Ignored
    else if IsU32(Get(root, "checkLimit")) && !limitChecked then SeekingLimit
    else if IsU32(Get(root, "tare")) then (if motorRunning then FirstStopMotor else Tared)
    else if IsU8(Get(root, "restar")) then Restarting
    else if IsU8(Get(root, "delete")) || IsObject(Get(root, "new")) || IsObject(Get(root, "save")) then Delegated
    else Ignored
  }

  /** An emergency stop is obeyed in every state, whatever else the message holds. */
  lemma StopAlwaysObeyed(root: JsonObject, state: AppState, limitChecked: bool, motorRunning: bool)
    requires IsU8(Get(root, "stop"))
    ensures CmdReply(root, state, limitChecked, motorRunning) == StopEmergency
  {
  }

  /** While a test runs, only the emergency stop gets through. */
  lemma TestRunGate(root: JsonObject, limitChecked: bool, motorRunning: bool)
    ensures var r := CmdReply(root, TestRun, limitChecked, motorRunning);
      r == StopEmergency || r == TestRunning
  {
  }

  /** No move, no test run and no new home (sethome 0) before the limit switch has been found. */
  lemma HomingGate(root: JsonObject, state: AppState, limitChecked: bool, motorRunning: bool)
    requires NeedsHoming(CmdReply(root, state, limitChecked, motorRunning))
    ensures limitChecked && state != TestRun
  {
  }

  /**
   * sethome 1 is the exception to the homing gate: outside a test it sends
   * the axis to 0 mm whether or not the limit switch has been found.
   */
  lemma GoHomeUngated(root: JsonObject, state: AppState, limitChecked: bool, motorRunning: bool)
    requires !IsU8(Get(root, "stop")) && state != TestRun
    requires !IsObject(Get(root, "move")) && !IsObject(Get(root, "run"))
    requires Get(root, "sethome") == JInt(1)
    ensures CmdReply(root, state, limitChecked, motorRunning) == GoingHome
    ensures !NeedsHoming(CmdReply(root, state, limitChecked, motorRunning))
  {
  }

  /** Homing can only be started from idle, and only once. */
  lemma SeekOnlyWhenUnchecked(root: JsonObject, state: AppState, limitChecked: bool, motorRunning: bool)
    requires CmdReply(root, state, limitChecked, motorRunning) == SeekingLimit
    ensures !limitChecked && state != TestRun && IsU32(Get(root, "checkLimit"))
  {
  }

  /** The home is never redefined while the motor runs. */
  lemma NoSetHomeWhileRunning(root: JsonObject, state: AppState, limitChecked: bool)
    ensures CmdReply(root, state, limitChecked, true) != HomeSet
  {
  }

  /** The part of the application state the homing handshake touches. */
  datatype Homing = Homing(state: AppState, limitChecked: bool, cmds: seq<MotorCmd>)

  /**
   * onMotorEvent on that state: the first right-limit event while homing
   * marks the limit as found, sets the position to the home position, sends
   * the axis home and ends homing.
   */
  function HomingEvent(h: Homing, s: Motor.State, homePos: real): Homing {
    if s == Motor.LimitRight && !h.limitChecked && h.state == RunHome then
      Homing(Empty, true, h.cmds + [SetCurrentPosition(homePos), GoHome])
    else h
  }

  /** A sequence of motor events, oldest first. */
  function HomingRun(h: Homing, events: seq<Motor.State>, homePos: real): Homing
    decreases |events|
  {
    if events == [] then h else HomingRun(HomingEvent(h, events[0], homePos), events[1..], homePos)
  }

  /**
   * Over any sequence of events the limit is found exactly when homing was
   * under way and a right-limit event arrives; a found limit is never
   * forgotten, and the position is set to home at most once (only once the
   * limit is found). Without homing under way, events change nothing.
   */
  lemma {:induction false} HomingHandshake(h: Homing, events: seq<Motor.State>, homePos: real)
    requires h.limitChecked ==> h.state != RunHome
    decreases |events|
    ensures var h' := HomingRun(h, events, homePos);
      && h'.limitChecked == (h.limitChecked || (h.state == RunHome && Motor.LimitRight in events))
      && (h.limitChecked || h.state != RunHome ==> h' == h)
      && |h'.cmds| >= |h.cmds| && h'.cmds[..|h.cmds|] == h.cmds
      && h'.cmds[|h.cmds|..] == (if h'.limitChecked && !h.limitChecked then [SetCurrentPosition(homePos), GoHome] else [])
  {
    if events != [] {
      var h1 := HomingEvent(h, events[0], homePos);
      HomingHandshake(h1, events[1..], homePos);
      if h1 != h {
        HomingIdle(h1, events[1..], homePos);
      }
      assert events == [events[0]] + events[1..];
    }
  }

  /** Once the limit is found and homing has ended, events change nothing. */
  lemma {:induction false} HomingIdle(h: Homing, events: seq<Motor.State>, homePos: real)
    requires h.limitChecked || h.state != RunHome
    ensures HomingRun(h, events, homePos) == h
    decreases |events|
  {
    if events != [] {
      HomingIdle(h, events[1..], homePos);
    }
  }

  /** The wifi group: both strings present and within setWifi's bounds. */
  predicate WifiGroup(root: JsonObject) {
    IsString(Get(root, "wifi_ssid")) && IsString(Get(root, "wifi_pass"))
    && WifiFits(Get(root, "wifi_ssid").s, Get(root, "wifi_pass").s)
  }

  /** The admin group: both strings present and within setAdmin's bounds. */
  predicate AdminGroup(root: JsonObject) {
    IsString(Get(root, "www_user")) && IsString(Get(root, "www_pass"))
    && AdminFits(Get(root, "www_user").s, Get(root, "www_pass").s)
  }

  /** The motor group: speed, acc_desc, screw_pitch, micro_step and invert_motor, all well typed. */
  predicate MotorGroup(root: JsonObject) {
    IsFloat(Get(root, "speed")) && IsFloat(Get(root, "acc_desc")) && IsFloat(Get(root, "screw_pitch"))
    && IsU8(Get(root, "micro_step")) && IsBool(Get(root, "invert_motor"))
  }

  /** The home group: home_pos, max_travel and max_force, all numbers. */
  predicate HomeGroup(root: JsonObject) {
    IsFloat(Get(root, "home_pos")) && IsFloat(Get(root, "max_travel")) && IsFloat(Get(root, "max_force"))
  }

  function ApplyWifi(root: JsonObject, c: AppConfig): AppConfig {
    if WifiGroup(root) then c.(base := c.base.(wifiSsid := Get(root, "wifi_ssid").s, wifiPass := Get(root, "wifi_pass").s))
    else c
  }

  function ApplyAdmin(root: JsonObject, c: AppConfig): AppConfig {
    if AdminGroup(root) then c.(base := c.base.(wwwUser := Get(root, "www_user").s, wwwPass := Get(root, "www_pass").s))
    else c
  }

  function ApplyMotor(root: JsonObject, c: AppConfig): AppConfig {
    if MotorGroup(root) then
      c.(base := c.base.(speed := AsFloat(Get(root, "speed")), accDesc := AsFloat(Get(root, "acc_desc")),
                         screwPitch := AsFloat(Get(root, "screw_pitch")), microStep := Get(root, "micro_step").i),
         invertMotor := Get(root, "invert_motor").b)
    else c
  }

  function ApplyHome(root: JsonObject, c: AppConfig): AppConfig {
    if HomeGroup(root) then
      c.(homePos := AsFloat(Get(root, "home_pos")), maxTravel := AsFloat(Get(root, "max_travel")),
         maxForce := AsFloat(Get(root, "max_force")))
    else c
  }

  /** The config after a config message: the four groups in receivedConfig's order. */
  function ApplyConfig(root: JsonObject, c: AppConfig): AppConfig {
    ApplyHome(root, ApplyMotor(root, ApplyAdmin(root, ApplyWifi(root, c))))
  }

  /**
   * The position to give the motor when the home moves from oldHome to
   * newHome: shifted by the same amount, so its distance to home is kept.
   */
  function ShiftedPosition(pos: real, oldHome: real, newHome: real): (r: real)
    ensures r - newHome == pos - oldHome
    ensures newHome == oldHome ==> r == pos
  {
    pos + (newHome - oldHome)
  }

  /** The motor calls of the home group, given the config it starts from. */
  function HomeCmds(root: JsonObject, c: AppConfig, limitChecked: bool, pos: real): seq<MotorCmd> {
    if HomeGroup(root) then
      (if limitChecked then [SetCurrentPosition(ShiftedPosition(pos, c.homePos, AsFloat(Get(root, "home_pos"))))] else [])
      + MotorSetup(ApplyHome(root, c))
    else []
  }

  /** The motor calls a config message leads to, from config c. */
  function ConfigCmds(root: JsonObject, c: AppConfig, limitChecked: bool, pos: real): seq<MotorCmd> {
    var m := ApplyMotor(root, ApplyAdmin(root, ApplyWifi(root, c)));
    (if MotorGroup(root) then MotorSetup(m) else []) + HomeCmds(root, m, limitChecked, pos)
  }

  /** Applying the same config message twice leaves the config as applying it once. */
  lemma ApplyConfigIdempotent(root: JsonObject, c: AppConfig)
    ensures ApplyConfig(root, ApplyConfig(root, c)) == ApplyConfig(root, c)
  {
  }

  /**
   * A new home once the limit is checked: the motor is first told a
   * position whose distance to the new home is its old distance to the old
   * home, and then reconfigured with the new config.
   */
  lemma ConfigHomeShift(root: JsonObject, c: AppConfig, pos: real)
    requires HomeGroup(root)
    ensures var cmds := ConfigCmds(root, c, true, pos);
      && |cmds| >= 3 && cmds[|cmds| - 3].SetCurrentPosition?
      && cmds[|cmds| - 3].mm - ApplyConfig(root, c).homePos == pos - c.homePos
      && cmds[|cmds| - 2..] == MotorSetup(ApplyConfig(root, c))
  {
    var m := ApplyMotor(root, ApplyAdmin(root, ApplyWifi(root, c)));
    assert m.homePos == c.homePos;
  }

  /** Before the limit is checked, a config message never tells the motor where it is. */
  lemma ConfigNoShiftUnchecked(root: JsonObject, c: AppConfig, pos: real)
    ensures var cmds := ConfigCmds(root, c, false, pos);
      forall k | 0 <= k < |cmds| :: !cmds[k].SetCurrentPosition?
  {
  }
}

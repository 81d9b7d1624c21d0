/**
 * The axis controller (lib/src/MotorController.h): unit and sign conversion
 * over an ESP_FlexyStepper driver, a debounced end-stop switch on the right,
 * a soft limit on the left, and the event callback.
 *
 * The driver is abstract: its position in millimetres, its direction of
 * motion, whether its motion is complete and whether its limit-switch flag is
 * set, plus the log of commands it was given. The registered callback is the
 * log of the states it was called with. The first half of the module states
 * one checkLimit tick as a function on a snapshot of the controller; class
 * MotorController is the in-place implementation.
 */
module Motor {
  import opened Records

  /** Milliseconds a new switch reading must hold before it is taken as stable. */
  const DEBOUNCE_TIME: nat := 50

  /** MotorController::State */
  datatype State = NotLimit | LimitRight | LimitLeft | MotionEnd

  /** A digital pin reading; the end stop pulls the pin LOW when pressed. */
  datatype Level = Low | High

  /** A direction of motion: -1, 0 (stopped) or 1. */
  type Dir = x: int | -1 <= x <= 1

  /** The counterclockwise factor ccwMotor: -1 or 1. */
  type Sign = x: int | x == -1 || x == 1 witness 1

  /** The ESP_FlexyStepper calls the controller makes, in millimetres of the driver's own frame. */
  datatype StepperCmd =
    | TargetRelative(mm: real)
    | TargetAbsolute(mm: real)
    | CurrentPosition(mm: real)
    | StopDecelerating
    | StopImmediately
    | StartJogging(dir: int)
    | LimitSwitchActive
    | ClearLimitSwitchActive
    | StepsPerMillimeter(v: real)
    | Speed(v: real)
    | Acceleration(v: real)
    | Deceleration(v: real)

  /** What the controller can observe of the driver, and what it has told it. */
  datatype Driver = Driver(position: real, direction: Dir, motionComplete: bool, limitActive: bool,
                           cmds: seq<StepperCmd>)

  /**
   * A driver call: logged, and the setters that act at once take effect
   * (setCurrentPositionInMillimeters and the limit-switch flag). Motion
   * itself is the driver's business and is an input to the controller.
   */
  function Apply(d: Driver, cmd: StepperCmd): (d': Driver)
    ensures d'.cmds == d.cmds + [cmd] && d'.direction == d.direction && d'.motionComplete == d.motionComplete
  {
    var logged := d.(cmds := d.cmds + [cmd]);
    match cmd
    case CurrentPosition(mm) => logged.(position := mm)
    case LimitSwitchActive => logged.(limitActive := true)
    case ClearLimitSwitchActive => logged.(limitActive := false)
    case _ => logged
  }

  /** A snapshot of a MotorController's fields. */
  datatype Ctl = Ctl(
    drv: Driver,
    currentSwitch: Level, lastSwitch: Level, lastChange: u32,
    limit: State, callMotion: bool, call: bool, lastDir: int,
    ccw: Sign, homePosition: real, maxTravel: real,
    events: seq<State>)

  /** getPosition: the driver's position, in the controller's sign convention. */
  function Position(c: Ctl): real {
    c.drv.position * c.ccw as real
  }

  /** getDirection: the driver's direction of motion, in the controller's sign convention. */
  function Direction(c: Ctl): int {
    c.drv.direction * c.ccw
  }

  /** isRunning */
  predicate Running(c: Ctl) {
    c.drv.direction != 0
  }

  /** millis() - lastChange as an unsigned 32-bit subtraction. */
  function Elapsed(now: u32, since: u32): u32 {
    Wrap32(now - since)
  }

  /** The callback call: the listener observes the current state. */
  function Dispatch(c: Ctl): Ctl {
    c.(events := c.events + [c.limit])
  }

  // ---------------------------------------------------------------- one tick

  /** The switch state is as it was. */
  predicate SameSwitch(c: Ctl, c': Ctl) {
    c'.currentSwitch == c.currentSwitch && c'.lastSwitch == c.lastSwitch && c'.lastChange == c.lastChange
  }

  /** The motion and the configuration are as they were. */
  predicate SameMotion(c: Ctl, c': Ctl) {
    && c'.drv.position == c.drv.position && c'.drv.direction == c.drv.direction
    && c'.drv.motionComplete == c.drv.motionComplete
    && c'.ccw == c.ccw && c'.homePosition == c.homePosition && c'.maxTravel == c.maxTravel
    && c'.lastDir == c.lastDir
  }

  /** The callback log is as it was, or has one more state. */
  predicate AtMostOneEvent(c: Ctl, c': Ctl) {
    c'.events == c.events || (|c'.events| == |c.events| + 1 && c'.events[..|c.events|] == c.events)
  }

  /** The debounce section of checkLimit, with a committed LOW edge raising the right limit. */
  function Debounce(c: Ctl, reading: Level, now: u32): (c': Ctl)
    ensures SameMotion(c, c') && c'.events == c.events
  {
    var c1 := if reading != c.currentSwitch then c.(lastChange := now, currentSwitch := reading) else c;
    if Elapsed(now, c1.lastChange) > DEBOUNCE_TIME && c1.lastSwitch != c1.currentSwitch then
      var c2 := c1.(lastSwitch := c1.currentSwitch);
      if c2.currentSwitch == Low then
        var c3 := if Direction(c2) > 0 then c2.(drv := Apply(c2.drv, LimitSwitchActive), callMotion := false) else c2;
        c3.(limit := LimitRight, call := true)
      else c2.(limit := NotLimit)
    else c1
  }

  /** The right-limit section: dispatch once stopped, or release the driver's limit when backing off. */
  function RightCheck(c: Ctl): (c': Ctl)
    ensures SameSwitch(c, c') && SameMotion(c, c') && AtMostOneEvent(c, c')
  {
    if c.limit == LimitRight && !Running(c) && c.call then Dispatch(c).(call := false)
    else if c.limit == LimitRight && Direction(c) < 0 then c.(drv := Apply(c.drv, ClearLimitSwitchActive))
    else c
  }

  /** Whether the position is at or beyond the soft left limit. */
  predicate AtLeftLimit(c: Ctl) {
    Position(c) <= c.homePosition - c.maxTravel
  }

  /** The soft left-limit section. */
  function LeftCheck(c: Ctl): (c': Ctl)
    ensures SameSwitch(c, c') && SameMotion(c, c') && AtMostOneEvent(c, c')
  {
    var isLimitLeft := AtLeftLimit(c);
    if isLimitLeft && Direction(c) < 0 then
      c.(drv := Apply(c.drv, LimitSwitchActive), limit := LimitLeft, call := true)
    else if isLimitLeft && !Running(c) && c.call then
      Dispatch(c.(callMotion := false)).(call := false)
    else if isLimitLeft && Direction(c) > 0 then
      c.(drv := Apply(c.drv, ClearLimitSwitchActive), limit := NotLimit)
    else c
  }

  /** The motion-end section: report MOTION_END once, then go back to NOT_LIMIT. */
  function MotionEndCheck(c: Ctl): (c': Ctl)
    ensures SameSwitch(c, c') && SameMotion(c, c') && AtMostOneEvent(c, c')
  {
    if c.callMotion && c.drv.motionComplete then
      Dispatch(c.(limit := MotionEnd, callMotion := false)).(limit := NotLimit)
    else c
  }

  /** lastDir follows the direction while the motor runs. */
  function TrackDirection(c: Ctl): (c': Ctl)
    ensures c' == c.(lastDir := c'.lastDir)
  {
    if Running(c) then c.(lastDir := Direction(c)) else c
  }

  /** checkLimit with the pin reading and millis() as inputs. */
  function Tick(c: Ctl, reading: Level, now: u32): Ctl {
    TrackDirection(MotionEndCheck(LeftCheck(RightCheck(Debounce(c, reading, now)))))
  }

  /** Consecutive ticks, one per (reading, time) input. */
  function Run(c: Ctl, inputs: seq<(Level, u32)>): Ctl
    decreases |inputs|
  {
    if inputs == [] then c else Run(Tick(c, inputs[0].0, inputs[0].1), inputs[1..])
  }

  // ---------------------------------------------------------------- properties

  /**
   * A reading becomes the stable state exactly when it was already the last
   * raw reading, differs from the stable one, and has held for more than the
   * debounce time; a reading that just changed is never committed.
   */
  lemma DebounceCommit(c: Ctl, reading: Level, now: u32)
    ensures var c' := Tick(c, reading, now);
      && (c'.lastSwitch != c.lastSwitch <==>
           reading == c.currentSwitch && reading != c.lastSwitch && Elapsed(now, c.lastChange) > DEBOUNCE_TIME)
      && (c'.lastSwitch == c.lastSwitch || c'.lastSwitch == reading)
      && c'.currentSwitch == reading
      && c'.lastChange == (if reading != c.currentSwitch then now else c.lastChange)
  {
    if reading != c.currentSwitch {
      assert Elapsed(now, now) == 0;
    }
  }

  /** Without a committed edge the debounce section changes no limit, flag or driver state. */
  lemma NoCommitNoEffect(c: Ctl, reading: Level, now: u32)
    requires Debounce(c, reading, now).lastSwitch == c.lastSwitch
    ensures var d := Debounce(c, reading, now);
      d.limit == c.limit && d.call == c.call && d.callMotion == c.callMotion && d.drv == c.drv
  {
  }

  /**
   * A committed LOW edge raises the right limit with a pending dispatch; while
   * moving towards the switch it also stops the driver through its limit flag
   * and drops the pending motion. A committed HIGH edge clears the limit.
   */
  lemma CommittedEdge(c: Ctl, reading: Level, now: u32)
    requires reading == c.currentSwitch && reading != c.lastSwitch && Elapsed(now, c.lastChange) > DEBOUNCE_TIME
    ensures var d := Debounce(c, reading, now);
      && d.lastSwitch == reading
      && (reading == Low ==> d.limit == LimitRight && d.call)
      && (reading == Low && Direction(c) > 0 ==> d.drv.limitActive && !d.callMotion)
      && (reading == Low && Direction(c) <= 0 ==> d.drv == c.drv && d.callMotion == c.callMotion)
      && (reading == High ==> d.limit == NotLimit && d.call == c.call)
  {
  }

  /** A stable switch whose reading, if it changed, changed at or after t0. */
  predicate SettledSince(c: Ctl, t0: nat) {
    c.currentSwitch == c.lastSwitch || t0 <= c.lastChange
  }

  /** Input times that never go back and lie in [lo, lo + DEBOUNCE_TIME]. */
  predicate Burst(inputs: seq<(Level, u32)>, lo: nat) {
    && (forall i :: 0 <= i < |inputs| ==> lo <= inputs[i].1 <= lo + DEBOUNCE_TIME)
    && (forall i, j :: 0 <= i < j < |inputs| ==> inputs[i].1 <= inputs[j].1)
  }

  /**
   * Noise rejection: starting from a stable switch, any sequence of readings
   * taken within one debounce window leaves the stable state as it was.
   */
  lemma {:induction false} BurstRejected(c: Ctl, inputs: seq<(Level, u32)>, t0: nat)
    requires SettledSince(c, t0) && Burst(inputs, t0)
    requires inputs != [] ==> c.currentSwitch == c.lastSwitch || c.lastChange <= inputs[0].1
    ensures Run(c, inputs).lastSwitch == c.lastSwitch
    decreases |inputs|
  {
    if inputs != [] {
      var (r, now) := inputs[0];
      var c1 := Tick(c, r, now);
      DebounceCommit(c, r, now);
      if r == c.currentSwitch && r != c.lastSwitch {
        assert c.lastChange <= now;
        assert Elapsed(now, c.lastChange) == now - c.lastChange;
      }
      assert c1.lastSwitch == c.lastSwitch;
      var rest := inputs[1..];
      assert Burst(rest, t0) by {
        assert forall i :: 0 <= i < |rest| ==> rest[i] == inputs[i + 1];
      }
      if rest != [] {
        assert inputs[1] == rest[0];
      }
      BurstRejected(c1, rest, t0);
    }
  }

  /** Once more than the debounce time has passed since the last change, a different held reading is committed. */
  lemma HeldReadingCommits(c: Ctl, now: u32)
    requires c.currentSwitch != c.lastSwitch && c.lastChange <= now
    requires now - c.lastChange > DEBOUNCE_TIME
    ensures Tick(c, c.currentSwitch, now).lastSwitch == c.currentSwitch
  {
    DebounceCommit(c, c.currentSwitch, now);
  }

  /** The events a tick appends to the callback log. */
  function NewEvents(c: Ctl, c': Ctl): seq<State>
    requires |c.events| <= |c'.events|
  {
    c'.events[|c.events|..]
  }

  lemma TickExtendsEvents(c: Ctl, reading: Level, now: u32)
    ensures var c' := Tick(c, reading, now);
      |c.events| <= |c'.events| && c'.events[..|c.events|] == c.events
  {
  }

  /**
   * What one tick reports: at most one limit event, then at most one
   * MOTION_END, in that order. A limit event needs a pending dispatch (left
   * over, or raised by this tick's committed edge) and a stopped driver, and
   * leaves nothing pending, so it is reported once. MOTION_END needs a motion
   * the controller issued that the driver reports complete; afterwards no
   * motion is pending and the state is NOT_LIMIT again.
   */
  lemma TickEvents(c: Ctl, reading: Level, now: u32)
    requires c.limit != MotionEnd
    ensures var c' := Tick(c, reading, now);
      var d := Debounce(c, reading, now);
      && |c.events| <= |c'.events| && c'.events[..|c.events|] == c.events
      && var added := NewEvents(c, c');
      && |added| <= 2
      && (forall i :: 0 <= i < |added| - 1 ==> added[i] != MotionEnd)
      && (|added| == 2 ==> added[1] == MotionEnd)
      && (added != [] && added[0] != MotionEnd ==> d.call && !Running(c) && !c'.call)
      && (MotionEnd in added ==> c.callMotion && c.drv.motionComplete && !c'.callMotion && c'.limit == NotLimit)
  {
    var d := Debounce(c, reading, now);
    var r := RightCheck(d);
    var l := LeftCheck(r);
    var m := MotionEndCheck(l);
    var c' := Tick(c, reading, now);
    assert c' == TrackDirection(m);
    DebounceEvents(c, reading, now);
    RightCheckEvents(d);
    LeftCheckEvents(r);
    MotionEndEvents(l);
    EventsInOrder(c, d, r, l, m, c');
  }

  /** The shape of a tick's callback log, from what each section may dispatch. */
  lemma EventsInOrder(c: Ctl, d: Ctl, r: Ctl, l: Ctl, m: Ctl, c': Ctl)
    requires d.events == c.events && d.limit != MotionEnd && (d.callMotion ==> c.callMotion)
    requires d.drv.direction == c.drv.direction && r.drv.direction == c.drv.direction
    requires l.drv.motionComplete == c.drv.motionComplete
    requires r.limit == d.limit && r.callMotion == d.callMotion && (r.call ==> d.call)
    requires r.events == d.events || (r.events == d.events + [d.limit] && d.limit == LimitRight && d.call && !Running(d) && !r.call)
    requires l.limit == r.limit || l.limit == LimitLeft || l.limit == NotLimit
    requires (l.callMotion ==> r.callMotion) && (l.call && !r.call ==> Running(r))
    requires l.events == r.events || (l.events == r.events + [r.limit] && r.call && !Running(r) && !l.call && !l.callMotion)
    requires m.call == l.call
    requires m.events == l.events ==> m.limit == l.limit && m.callMotion == l.callMotion
    requires m.events == l.events || (m.events == l.events + [MotionEnd] && l.callMotion && l.drv.motionComplete
                                      && !m.callMotion && m.limit == NotLimit)
    requires c'.events == m.events && c'.call == m.call && c'.callMotion == m.callMotion && c'.limit == m.limit
    ensures && |c.events| <= |c'.events| && c'.events[..|c.events|] == c.events
      && var added := NewEvents(c, c');
      && |added| <= 2
      && (forall i :: 0 <= i < |added| - 1 ==> added[i] != MotionEnd)
      && (|added| == 2 ==> added[1] == MotionEnd)
      && (added != [] && added[0] != MotionEnd ==> d.call && !Running(c) && !c'.call)
      && (MotionEnd in added ==> c.callMotion && c.drv.motionComplete && !c'.callMotion && c'.limit == NotLimit)
  {
    var k := |c.events|;
    assert l.events == c.events || (l.events == c.events + [l.events[k]] && l.events[k] != MotionEnd && d.call && !Running(c) && !l.call);
    if m.events == l.events {
      assert NewEvents(c, c') == l.events[k..];
    } else if l.events == c.events {
      assert NewEvents(c, c') == [MotionEnd];
    } else {
      assert NewEvents(c, c') == [l.events[k], MotionEnd];
    }
  }

  /** The debounce section makes no dispatch, never sets MOTION_END and never raises a pending motion. */
  lemma DebounceEvents(c: Ctl, reading: Level, now: u32)
    requires c.limit != MotionEnd
    ensures var d := Debounce(c, reading, now);
      && d.events == c.events && d.limit != MotionEnd && (d.callMotion ==> c.callMotion)
  {
  }

  /** The right check dispatches LIMIT_RIGHT exactly when it is pending and the driver stopped, at most once. */
  lemma RightCheckEvents(d: Ctl)
    ensures var r := RightCheck(d);
      && r.limit == d.limit && r.callMotion == d.callMotion && (r.call ==> d.call)
      && (r.events == d.events || (r.events == d.events + [d.limit] && d.limit == LimitRight && d.call && !Running(d) && !r.call))
      && (d.limit == LimitRight && d.call && !Running(d) ==> r.events == d.events + [LimitRight])
  {
  }

  /** At the soft limit the left check dispatches exactly when one is pending and the driver stopped, at most once. */
  lemma LeftCheckEvents(r: Ctl)
    ensures var l := LeftCheck(r);
      && (l.limit == r.limit || l.limit == LimitLeft || l.limit == NotLimit)
      && (l.callMotion ==> r.callMotion)
      && (l.call && !r.call ==> Running(r))
      && (l.events == r.events || (l.events == r.events + [r.limit] && r.call && !Running(r) && !l.call && !l.callMotion))
      && (AtLeftLimit(r) && r.call && !Running(r) ==> l.events == r.events + [r.limit])
  {
  }

  /** The motion-end check dispatches MOTION_END when a motion was pending and is complete, and only then. */
  lemma MotionEndEvents(l: Ctl)
    ensures var m := MotionEndCheck(l);
      && m.call == l.call
      && (m.events == l.events ==> m.limit == l.limit && m.callMotion == l.callMotion)
      && (m.events == l.events || (m.events == l.events + [MotionEnd] && l.callMotion && l.drv.motionComplete
                                   && !m.callMotion && m.limit == NotLimit))
      && (l.callMotion && l.drv.motionComplete ==> m.events == l.events + [MotionEnd])
  {
  }

  /** The state is never MOTION_END once a tick returns, so getState never reports it. */
  lemma TickNeverMotionEnd(c: Ctl, reading: Level, now: u32)
    requires c.limit != MotionEnd
    ensures Tick(c, reading, now).limit != MotionEnd
  {
  }

  /**
   * Soft left limit: at or beyond home - maxTravel while moving left, the
   * driver's limit flag is raised and LIMIT_LEFT is pending (cleared only if
   * the motion ends in the same tick); once stopped there, the pending
   * dispatch is made and the motion dropped; moving right from there clears
   * the state.
   */
  lemma LeftLimit(c: Ctl)
    requires AtLeftLimit(c)
    ensures Direction(c) < 0 ==>
      var l := LeftCheck(c); l.limit == LimitLeft && l.call && l.drv.limitActive && l.events == c.events
    ensures !Running(c) && c.call ==>
      var l := LeftCheck(c); l.events == c.events + [c.limit] && !l.call && !l.callMotion
    ensures Direction(c) > 0 ==>
      var l := LeftCheck(c); l.limit == NotLimit && !l.drv.limitActive && l.events == c.events
  {
  }

  /** Away from the soft limit, the left check changes nothing. */
  lemma LeftLimitInactive(c: Ctl)
    requires !AtLeftLimit(c)
    ensures LeftCheck(c) == c
  {
  }

  /**
   * LIMIT_RIGHT is reported only once the driver has stopped: a pending right
   * limit with a running driver stays pending, and backing off from the
   * switch releases the driver's limit flag.
   */
  lemma RightLimit(c: Ctl)
    requires c.limit == LimitRight
    ensures !Running(c) && c.call ==> RightCheck(c).events == c.events + [LimitRight] && !RightCheck(c).call
    ensures Running(c) ==> RightCheck(c).events == c.events && RightCheck(c).call == c.call
    ensures Direction(c) < 0 ==> !RightCheck(c).drv.limitActive
  {
  }

  /** lastDir is the direction of the last tick at which the motor ran. */
  lemma TickTracksDirection(c: Ctl, reading: Level, now: u32)
    ensures Tick(c, reading, now).lastDir == if c.drv.direction != 0 then Direction(c) else c.lastDir
    ensures Tick(c, reading, now).drv.direction == c.drv.direction
  {
  }

  /**
   * The sign convention: with ccwMotor = -1 the controller's positions and
   * directions are the driver's negated; setHome(p) puts the driver at p * ccwMotor,
   * which reads back as p.
   */
  lemma SignConvention(c: Ctl, p: real)
    ensures Position(c) == if c.ccw == 1 then c.drv.position else -c.drv.position
    ensures Direction(c) == if c.ccw == 1 then c.drv.direction else -c.drv.direction
    ensures Running(c) <==> Direction(c) != 0
    ensures Position(c.(drv := Apply(c.drv, CurrentPosition(p * c.ccw as real)))) == p
  {
  }

  // ---------------------------------------------------------------- the class

  /** MotorController; the static `call` of checkLimit is the field `call`. */
  class MotorController {
    var stepper: Driver
    var currentStateSwitch: Level
    var lastStateSwitch: Level
    var lastChange: u32
    var limit: State
    var callMotion: bool
    var call: bool
    var lastDir: int
    var ccwMotor: Sign
    var maxTravel: real
    var homePosition: real
    /** The states the registered callback has been called with, oldest first. */
    var events: seq<State>

    function Snapshot(): Ctl
      reads this
    {
      Ctl(stepper, currentStateSwitch, lastStateSwitch, lastChange, limit, callMotion, call, lastDir,
          ccwMotor, homePosition, maxTravel, events)
    }

    /** getState never reports MOTION_END between calls. */
    ghost predicate Valid()
      reads this
    {
      limit != MotionEnd
    }

    /** The field initialisers, over a driver at rest at position 0. */
    constructor ()
      ensures Valid()
      ensures Snapshot() == Ctl(Driver(0.0, 0, true, false, []), High, High, 0, NotLimit, false, false, 0,
                                -1, 5.0, 20.0, [])
    {
      stepper := Driver(0.0, 0, true, false, []);
      currentStateSwitch, lastStateSwitch := High, High;
      lastChange := 0;
      limit := NotLimit;
      callMotion, call := false, false;
      lastDir := 0;
      ccwMotor := -1;
      maxTravel, homePosition := 20.0, 5.0;
      events := [];
    }

    /** begin: the current pin reading becomes both the raw and the stable switch state. */
    method Begin(reading: Level)
      modifies this
      ensures Snapshot() == old(Snapshot()).(currentSwitch := reading, lastSwitch := reading)
    {
      currentStateSwitch := reading;
      lastStateSwitch := reading;
    }

    /** The driver's own progress between ticks (its background service task), an input here. */
    method DriverProgress(position: real, direction: Dir, motionComplete: bool)
      modifies this
      ensures Snapshot() == old(Snapshot()).(drv := old(stepper).(position := position, direction := direction,
                                                                  motionComplete := motionComplete))
    {
      stepper := stepper.(position := position, direction := direction, motionComplete := motionComplete);
    }

    /** moveRelative: a relative target in the driver's frame; a motion is now pending. */
    method MoveRelative(dist: real)
      modifies this
      ensures Snapshot() == old(Snapshot()).(drv := Apply(old(stepper), TargetRelative(dist * old(ccwMotor) as real)),
                                             callMotion := true)
    {
      stepper := Apply(stepper, TargetRelative(dist * ccwMotor as real));
      callMotion := true;
    }

    /** moveAbsolute: an absolute target in the driver's frame; a motion is now pending. */
    method MoveAbsolute(dist: real)
      modifies this
      ensures Snapshot() == old(Snapshot()).(drv := Apply(old(stepper), TargetAbsolute(dist * old(ccwMotor) as real)),
                                             callMotion := true)
    {
      stepper := Apply(stepper, TargetAbsolute(dist * ccwMotor as real));
      callMotion := true;
    }

    /** setHome: redefines the current position as `position`, without moving. */
    method SetHome(position: real)
      modifies this
      ensures Snapshot() == old(Snapshot()).(drv := Apply(old(stepper), CurrentPosition(position * old(ccwMotor) as real)))
      ensures GetPosition() == position
    {
      stepper := Apply(stepper, CurrentPosition(position * ccwMotor as real));
      SignConvention(old(Snapshot()), position);
    }

    /** goHome: to position 0; a motion is now pending. */
    method GoHome()
      modifies this
      ensures Snapshot() == old(Snapshot()).(drv := Apply(old(stepper), TargetAbsolute(0.0)), callMotion := true)
    {
      stepper := Apply(stepper, TargetAbsolute(0.0));
      callMotion := true;
    }

    function GetPosition(): real
      reads this
    {
      Position(Snapshot())
    }

    predicate IsRunning()
      reads this
    {
      Running(Snapshot())
    }

    function GetDirection(): int
      reads this
    {
      Direction(Snapshot())
    }

    function GetState(): State
      reads this
    {
      limit
    }

    function GetLastDirection(): int
      reads this
    {
      lastDir
    }

    predicate IsMotionEnd()
      reads this
    {
      stepper.motionComplete
    }

    /** emergencyStop: the driver's hard stop; a pending motion stays pending. */
    method EmergencyStop()
      modifies this
      ensures Snapshot() == old(Snapshot()).(drv := Apply(old(stepper), StopImmediately))
    {
      stepper := Apply(stepper, StopImmediately);
    }

    /** stop: a decelerated stop; no motion is pending any more. */
    method Stop()
      modifies this
      ensures Snapshot() == old(Snapshot()).(drv := Apply(old(stepper), StopDecelerating), callMotion := false)
    {
      stepper := Apply(stepper, StopDecelerating);
      callMotion := false;
    }

    /** setSpeed */
    method SetSpeed(value: real)
      modifies this
      ensures Snapshot() == old(Snapshot()).(drv := Apply(old(stepper), Speed(value)))
    {
      stepper := Apply(stepper, Speed(value));
    }

    /** setConfigMotor: the driver's scale and profile, and ccwMotor = -1 exactly when the motor is inverted. */
    method SetConfigMotor(stepsMm: real, speed: real, accDesc: real, invertMotor: bool)
      modifies this
      ensures ccwMotor == if invertMotor then -1 else 1
      ensures Snapshot() == old(Snapshot()).(
        drv := old(stepper).(cmds := old(stepper.cmds) + [StepsPerMillimeter(stepsMm), Speed(speed),
                                                            Acceleration(accDesc), Deceleration(accDesc)]),
        ccw := ccwMotor)
    {
      stepper := Apply(stepper, StepsPerMillimeter(stepsMm));
      stepper := Apply(stepper, Speed(speed));
      stepper := Apply(stepper, Acceleration(accDesc));
      stepper := Apply(stepper, Deceleration(accDesc));
      if invertMotor {
        ccwMotor := -1;
      } else {
        ccwMotor := 1;
      }
    }

    /** setConfigHome: the soft limit sits at homeMm - maxTravelMm. */
    method SetConfigHome(homeMm: real, maxTravelMm: real)
      modifies this
      ensures Snapshot() == old(Snapshot()).(homePosition := homeMm, maxTravel := maxTravelMm)
    {
      homePosition := homeMm;
      maxTravel := maxTravelMm;
    }

    /** seekLimitSwitch: jogging in the controller's positive direction; a motion is now pending. */
    method SeekLimitSwitch()
      modifies this
      ensures Snapshot() == old(Snapshot()).(drv := Apply(old(stepper), StartJogging(ccwMotor)), callMotion := true)
    {
      stepper := Apply(stepper, StartJogging(ccwMotor));
      callMotion := true;
    }

    /** The debounce section of checkLimit. */
    method DebounceSwitch(reading: Level, now: u32)
      modifies this
      ensures Snapshot() == Debounce(old(Snapshot()), reading, now)
    {
      if reading != currentStateSwitch {
        lastChange := now;
        currentStateSwitch := reading;
      }
      if Elapsed(now, lastChange) > DEBOUNCE_TIME {
        if lastStateSwitch != currentStateSwitch {
          lastStateSwitch := currentStateSwitch;
          if currentStateSwitch == Low {
            if GetDirection() > 0 {
              stepper := Apply(stepper, LimitSwitchActive);
              callMotion := false;
            }
            limit := LimitRight;
            call := true;
          } else {
            limit := NotLimit;
          }
        }
      }
    }

    /** The right-limit dispatch of checkLimit. */
    method CheckRight()
      modifies this
      ensures Snapshot() == RightCheck(old(Snapshot()))
    {
      if limit == LimitRight && !IsRunning() && call {
        events := events + [limit];  // dispach()
        call := false;
      } else if limit == LimitRight && GetDirection() < 0 {
        stepper := Apply(stepper, ClearLimitSwitchActive);
      }
    }

    /** The soft left-limit section of checkLimit. */
    method CheckLeft()
      modifies this
      ensures Snapshot() == LeftCheck(old(Snapshot()))
    {
      var pos := GetPosition();
      var isLimitLeft := pos <= homePosition - maxTravel;
      if isLimitLeft && GetDirection() < 0 {
        stepper := Apply(stepper, LimitSwitchActive);
        limit := LimitLeft;
        call := true;
      } else if isLimitLeft && !IsRunning() && call {
        callMotion := false;
        events := events + [limit];  // dispach()
        call := false;
      } else if isLimitLeft && GetDirection() > 0 {
        stepper := Apply(stepper, ClearLimitSwitchActive);
        limit := NotLimit;
      }
    }

    /** The motion-end section of checkLimit. */
    method CheckMotionEnd()
      modifies this
      ensures Snapshot() == MotionEndCheck(old(Snapshot()))
    {
      if callMotion && stepper.motionComplete {
        limit := MotionEnd;
        callMotion := false;
        events := events + [limit];  // dispach()
        limit := NotLimit;
      }
    }

    /** checkLimit, given the pin reading and millis(). */
    method CheckLimit(reading: Level, now: u32)
      requires Valid()
      modifies this
      ensures Valid()
      ensures Snapshot() == Tick(old(Snapshot()), reading, now)
    {
      ghost var c0 := Snapshot();
      DebounceSwitch(reading, now);
      CheckRight();
      CheckLeft();
      CheckMotionEnd();
      if IsRunning() {
        lastDir := GetDirection();
      }
      TickNeverMotionEnd(c0, reading, now);
    }
  }
}

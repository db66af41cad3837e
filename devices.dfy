/**
 * The simulated field devices of the trainer outstation: a latching simple device,
 * a breaker, a slow motor-driven switch with a double-bit status, and a setpoint
 * controller that publishes a noisy analog value around an adjustable base value.
 * Device callbacks are the datatypes Action and AnalogAction; Fire and the two
 * Operate methods carry out what an output decided, touching only the fields the
 * named device and its status point own.
 *
 * The slow device's position is kept in tenths of its travel (0 = open, 10 = closed),
 * and the background threads are modelled one loop iteration at a time: Step and
 * RunMotion for the motion thread, Tick and Run for the setpoint controller thread.
 */
module Devices {
  import opened Dnp3
  import opened Measurements
  import opened Controls

  /** The text user interface, seen as the number of redraw events posted to it. */
  class Screen {
    var redraws: nat

    constructor()
      ensures redraws == 0
    {
      redraws := 0;
    }

    method PostEvent()
      modifies this`redraws
      ensures redraws == old(redraws) + 1
    {
      redraws := redraws + 1;
    }
  }

  function ScreenSet(screen: Screen?): set<Screen>
  {
    if screen == null then {} else {screen}
  }

  /** Asks the screen, if one is registered, to redraw. */
  method ForceRedraw(screen: Screen?)
    modifies ScreenSet(screen)`redraws
    ensures screen != null ==> screen.redraws == old(screen.redraws) + 1
  {
    if screen != null {
      screen.PostEvent();
    }
  }

  /** The device callbacks binary outputs can fire. */
  datatype Action =
    | TripBreaker(breaker: Breaker)
    | CloseBreaker(breaker: Breaker)
    | TripSlowDevice(device: SlowDevice)
    | CloseSlowDevice(device: SlowDevice)

  /** The device callback an analog output forwards its value to. */
  datatype AnalogAction = SetSetpoint(controller: SetpointController)

  /** A device whose status is latched directly by its control output. */
  class SimpleDevice {
    const name: string
    var status: Binary?
    var control: BinaryOutput?<Action>
    var screen: Screen?

    constructor(name: string)
      ensures this.name == name && status == null && control == null && screen == null
    {
      this.name := name;
      status := null;
      control := null;
      screen := null;
    }

    constructor Default()
      ensures name == "Simple Device" && status == null && control == null && screen == null
    {
      name := "Simple Device";
      status := null;
      control := null;
      screen := null;
    }

    method RegisterScreen(s: Screen?)
      modifies this`screen
      ensures screen == s
    {
      screen := s;
    }

    method AssignInputPoint(input: Binary)
      modifies this`status, input`name
      ensures status == input && input.name == Sanitized(name + "_status")
    {
      status := input;
      status.SetName(name + "_status");
    }

    /** A latch output on the status point, creating a detached status point if none was assigned. */
    method CreateControlSignal() returns (output: BinaryOutput<Action>)
      modifies this`status, this`control
      ensures old(status) != null ==> status == old(status)
      ensures old(status) == null ==>
        status != null && fresh(status) && status.value == false && status.index == None
      ensures fresh(output) && control == output
      ensures output.decoder == LatchOutput(status, false)
      ensures output.name == Sanitized(name + "_control") && output.index == None
    {
      if status == null {
        status := new Binary();
      }
      output := new BinaryOutput(LatchOutput(status, false));
      control := output;
      output.SetName(name + "_control");
    }
  }

  /** A breaker: tripping writes false to its status point, closing writes true. */
  class Breaker {
    const name: string
    var status: Binary?
    var control: TwoSignalControl?<Action>
    var screen: Screen?

    constructor(name: string, model: TwoSignalControlModel)
      ensures this.name == name && status == null && screen == null
      ensures Valid() && fresh(control) && control.controlModel == model
      ensures fresh(control.Outputs())
      ensures forall o :: o in control.Outputs() ==> o.index == None
      ensures model == Activation ==>
        control.outputOne.name == Sanitized(name + "_trip") && control.outputTwo.name == Sanitized(name + "_close")
      ensures model == ComplementaryTwoOutput ==> control.outputOne.name == Sanitized(name + "_control")
    {
      this.name := name;
      status := null;
      screen := null;
      new;
      control := new TwoSignalControl(model, TripBreaker(this), CloseBreaker(this));
      control.SetPointNames(name);
    }

    /** The control wires this breaker's own trip and close. */
    ghost predicate Valid()
      reads this`control
    {
      control != null && control.Valid()
      && control.tripAction == TripBreaker(this) && control.closeAction == CloseBreaker(this)
    }

    method RegisterScreen(s: Screen?)
      modifies this`screen
      ensures screen == s
    {
      screen := s;
    }

    function StatusPoints(): set<Binary>
      reads this`status
    {
      if status == null then {} else {status}
    }

    function StatusSinks(): set<Outstation>
      reads this`status, StatusPoints()
    {
      if status == null then {} else status.Sink()
    }

    method Trip()
      modifies StatusPoints()`value, StatusSinks()`applied
      ensures BreakerWritten(this, false)
    {
      if status != null {
        status.Write(false);
      }
    }

    method Close()
      modifies StatusPoints()`value, StatusSinks()`applied
      ensures BreakerWritten(this, true)
    {
      if status != null {
        status.Write(true);
      }
    }

    method AssignInputPoint(input: Binary)
      modifies this`status, input`name
      ensures status == input && input.name == Sanitized(name + "_status")
    {
      status := input;
      status.SetName(name + "_status");
    }

    /** The outputs of the breaker's control; each fires only this breaker's trip or close. */
    function CreateControlSignal(): (r: seq<BinaryOutput<Action>>)
      reads this`control
      requires Valid()
      ensures |r| == if control.controlModel == Activation then 2
                     else if control.controlModel == ComplementaryTwoOutput then 1 else 0
      ensures control.controlModel == Activation ==>
        r[0].decoder == ActivationOutput(TripBreaker(this), false) && r[1].decoder == ActivationOutput(CloseBreaker(this), false)
      ensures control.controlModel == ComplementaryTwoOutput ==>
        r[0].decoder == TwoOutput(TripBreaker(this), CloseBreaker(this), false)
      ensures forall i :: 0 <= i < |r| ==> ActionsOf(r[i].decoder) <= {TripBreaker(this), CloseBreaker(this)}
      ensures forall i :: 0 <= i < |r| ==>
        (r[i].decoder.ActivationOutput? || r[i].decoder.TwoOutput?) && !r[i].decoder.requireSelect
      ensures forall i :: 0 <= i < |r| ==> r[i] in control.Outputs()
      ensures forall i, j :: 0 <= i < j < |r| ==> r[i] != r[j]
    {
      control.GetOutputs()
    }
  }

  /** The breaker's status point, if it has one, holds `v` and published it. */
  twostate predicate BreakerWritten(b: Breaker, v: bool)
    reads b, b.StatusPoints(), b.StatusSinks()
  {
    && old(b.status) == b.status
    && (b.status != null ==>
          && old(b.status.outstation) == b.status.outstation && old(b.status.index) == b.status.index
          && b.status.value == v && Emitted(b.status.outstation, b.status.index, BinaryValue(v)))
  }

  /** Direction of travel of a slow device. */
  datatype Direction = Opening | Closing

  /** The slow device's motion thread: none, or one travelling in a direction. */
  datatype Motion = Idle | Running(direction: Direction)

  /** Position stored for a requested position, in tenths: below 1 snaps to 0, above 9 to 10. */
  function Snapped(pos: int): (r: int)
    ensures 0 <= r <= 10
    ensures 1 <= pos <= 9 ==> r == pos
  {
    if pos < 1 then 0 else if pos > 9 then 10 else pos
  }

  /** The double-bit state that reports a requested position. */
  function TriState(pos: int): (d: DoubleBitState)
    ensures d == DeterminedOff <==> Snapped(pos) == 0
    ensures d == DeterminedOn <==> Snapped(pos) == 10
    ensures d == Intermediate <==> 0 < Snapped(pos) < 10
  {
    if pos < 1 then DeterminedOff else if pos > 9 then DeterminedOn else Intermediate
  }

  /** The state in which a command in direction `dir` is ignored. */
  function EndState(dir: Direction): DoubleBitState
  {
    match dir
    case Opening => DeterminedOff
    case Closing => DeterminedOn
  }

  /** The motion loop keeps going while the position has not reached the end of travel. */
  predicate CanMove(dir: Direction, p: int)
  {
    match dir
    case Opening => p > 0
    case Closing => p < 10
  }

  /** One tenth of travel in direction `dir`, clamped to the end of travel. */
  function NextPosition(dir: Direction, p: int): int
  {
    match dir
    case Opening => if p - 1 < 0 then 0 else p - 1
    case Closing => if p + 1 > 10 then 10 else p + 1
  }

  /** Position after `n` iterations of the motion loop started at `p`. */
  function Travel(dir: Direction, p: int, n: nat): int
    decreases n
  {
    if n == 0 || !CanMove(dir, p) then p else Travel(dir, NextPosition(dir, p), n - 1)
  }

  /** Steps until the end of travel. */
  function Distance(dir: Direction, p: int): nat
  {
    match dir
    case Opening => if p > 0 then p else 0
    case Closing => if p < 10 then 10 - p else 0
  }

  function Min(a: int, b: int): int { if a < b then a else b }
  function Max(a: int, b: int): int { if a < b then b else a }

  /** Closing advances one tenth per step up to fully closed; opening likewise down to open. */
  lemma {:induction false} TravelClosedForm(dir: Direction, p: int, n: nat)
    requires 0 <= p <= 10
    ensures dir == Closing ==> Travel(dir, p, n) == Min(10, p + n)
    ensures dir == Opening ==> Travel(dir, p, n) == Max(0, p - n)
    decreases n
  {
    if n != 0 && CanMove(dir, p) {
      TravelClosedForm(dir, NextPosition(dir, p), n - 1);
    }
  }

  /** Travel never leaves the range of positions. */
  lemma TravelInRange(dir: Direction, p: int, n: nat)
    requires 0 <= p <= 10
    ensures 0 <= Travel(dir, p, n) <= 10
  {
    TravelClosedForm(dir, p, n);
  }

  /** The end of travel is reached after exactly Distance steps and not before. */
  lemma TravelReachesEnd(dir: Direction, p: int, n: nat)
    requires 0 <= p <= 10
    ensures CanMove(dir, Travel(dir, p, n)) <==> n < Distance(dir, p)
  {
    TravelClosedForm(dir, p, n);
  }

  /** Once a trip has taken a step, the status never reads DETERMINED_ON for that motion. */
  lemma TripNeverReportsClosed(p: int, n: nat)
    requires 0 <= p <= 10 && n >= 1
    ensures TriState(Travel(Opening, p, n)) != DeterminedOn
  {
    TravelClosedForm(Opening, p, n);
  }

  /** A full close from open reports DETERMINED_OFF, then INTERMEDIATE for nine steps, then DETERMINED_ON. */
  lemma CloseFromOpenReports(n: nat)
    ensures n == 0 ==> TriState(Travel(Closing, 0, n)) == DeterminedOff
    ensures 1 <= n <= 9 ==> TriState(Travel(Closing, 0, n)) == Intermediate
    ensures n >= 10 ==> TriState(Travel(Closing, 0, n)) == DeterminedOn
  {
    TravelClosedForm(Closing, 0, n);
  }

  /** The state one iteration of the motion loop writes from `p` with status `s`: none at the end of travel or when the tri-state stays the same. */
  function StepWrites(dir: Direction, p: int, s: DoubleBitState): seq<DoubleBitState>
  {
    if CanMove(dir, p) && TriState(NextPosition(dir, p)) != s then [TriState(NextPosition(dir, p))] else []
  }

  /** The status after `n` iterations of the motion loop started at `p` with status `s`. */
  function MotionStatus(dir: Direction, p: int, s: DoubleBitState, n: nat): DoubleBitState
    decreases n
  {
    if n == 0 then s
    else if CanMove(dir, Travel(dir, p, n - 1)) then TriState(NextPosition(dir, Travel(dir, p, n - 1)))
    else MotionStatus(dir, p, s, n - 1)
  }

  /** The states written, in order, by `n` iterations of the motion loop started at `p` with status `s`. */
  function MotionWrites(dir: Direction, p: int, s: DoubleBitState, n: nat): seq<DoubleBitState>
    decreases n
  {
    if n == 0 then []
    else MotionWrites(dir, p, s, n - 1) + StepWrites(dir, Travel(dir, p, n - 1), MotionStatus(dir, p, s, n - 1))
  }

  /** The updates a double-bit point at `index` publishes for the writes `ds`. */
  function StatusEmissions(index: Option<u16>, ds: seq<DoubleBitState>): seq<Update>
    decreases |ds|
  {
    if ds == [] then [] else Emission(index, DoubleBitValue(ds[0])) + StatusEmissions(index, ds[1..])
  }

  lemma {:induction false} StatusEmissionsAppend(index: Option<u16>, a: seq<DoubleBitState>, b: seq<DoubleBitState>)
    ensures StatusEmissions(index, a + b) == StatusEmissions(index, a) + StatusEmissions(index, b)
    decreases |a|
  {
    if a == [] {
      assert a + b == b;
    } else {
      assert (a + b)[1..] == a[1..] + b;
      StatusEmissionsAppend(index, a[1..], b);
    }
  }

  /** The outstation `os`, if there is one, received exactly the updates of a point at `index` for the writes `ds`. */
  twostate predicate Wrote(os: Outstation?, index: Option<u16>, ds: seq<DoubleBitState>)
    reads os
  {
    os != null ==> os.applied == old(os.applied) + StatusEmissions(index, ds)
  }

  /** One more iteration of the loop moves one tenth exactly when the end of travel is not reached. */
  lemma TravelStep(dir: Direction, p: int, n: nat)
    requires 0 <= p <= 10
    ensures Travel(dir, p, n + 1) == if CanMove(dir, Travel(dir, p, n)) then NextPosition(dir, Travel(dir, p, n)) else Travel(dir, p, n)
  {
    TravelClosedForm(dir, p, n);
    TravelClosedForm(dir, p, n + 1);
  }

  /** Once the end of travel is reached, further iterations write nothing and keep the status. */
  lemma {:induction false} MotionSettled(dir: Direction, p: int, s: DoubleBitState, i: nat, n: nat)
    requires 0 <= p <= 10 && i <= n && !CanMove(dir, Travel(dir, p, i))
    ensures Travel(dir, p, n) == Travel(dir, p, i)
    ensures MotionWrites(dir, p, s, n) == MotionWrites(dir, p, s, i)
    ensures MotionStatus(dir, p, s, n) == MotionStatus(dir, p, s, i)
    decreases n - i
  {
    if i < n {
      MotionSettled(dir, p, s, i, n - 1);
      TravelStep(dir, p, n - 1);
    }
  }

  /** Once the motion has moved, the status reports the tri-state of the position reached. */
  lemma {:induction false} MotionStatusReports(dir: Direction, p: int, s: DoubleBitState, n: nat)
    requires 0 <= p <= 10 && n >= 1 && CanMove(dir, p)
    ensures MotionStatus(dir, p, s, n) == TriState(Travel(dir, p, n))
    decreases n
  {
    TravelStep(dir, p, n - 1);
    if n > 1 && !CanMove(dir, Travel(dir, p, n - 1)) {
      MotionStatusReports(dir, p, s, n - 1);
    }
  }

  /** From inside the travel range, a motion writes nothing until it reaches its end, and then that end's state once. */
  lemma {:induction false} IntermediateMotionWrites(dir: Direction, p: int, n: nat)
    requires 1 <= p <= 9
    ensures MotionWrites(dir, p, Intermediate, n) == if n < Distance(dir, p) then [] else [EndState(dir)]
    ensures MotionStatus(dir, p, Intermediate, n) == if n < Distance(dir, p) then Intermediate else EndState(dir)
    decreases n
  {
    if n > 0 {
      IntermediateMotionWrites(dir, p, n - 1);
      TravelClosedForm(dir, p, n - 1);
    }
  }

  /** A full close from open publishes INTERMEDIATE once and then DETERMINED_ON once. */
  lemma FullCloseWrites(n: nat)
    ensures MotionWrites(Closing, 0, DeterminedOff, n) == if n == 0 then [] else if n < 10 then [Intermediate] else [Intermediate, DeterminedOn]
  {
    if n > 0 {
      MotionWritesFromStart(Closing, 0, DeterminedOff, n);
      IntermediateMotionWrites(Closing, 1, n - 1);
    }
  }

  /** A full trip from closed publishes INTERMEDIATE once and then DETERMINED_OFF once. */
  lemma FullTripWrites(n: nat)
    ensures MotionWrites(Opening, 10, DeterminedOn, n) == if n == 0 then [] else if n < 10 then [Intermediate] else [Intermediate, DeterminedOff]
  {
    if n > 0 {
      MotionWritesFromStart(Opening, 10, DeterminedOn, n);
      IntermediateMotionWrites(Opening, 9, n - 1);
    }
  }

  /** The writes of a motion are those of its first iteration followed by those of the motion from the position it reached. */
  lemma {:induction false} MotionWritesFromStart(dir: Direction, p: int, s: DoubleBitState, n: nat)
    requires 0 <= p <= 10 && n >= 1 && CanMove(dir, p)
    ensures MotionWrites(dir, p, s, n) == StepWrites(dir, p, s) + MotionWrites(dir, NextPosition(dir, p), TriState(NextPosition(dir, p)), n - 1)
    ensures MotionStatus(dir, p, s, n) == MotionStatus(dir, NextPosition(dir, p), TriState(NextPosition(dir, p)), n - 1)
    decreases n
  {
    var q := NextPosition(dir, p);
    if n > 1 {
      MotionWritesFromStart(dir, p, s, n - 1);
      assert Travel(dir, p, n - 1) == Travel(dir, q, n - 2);
    }
  }

  /** A switch that travels for a while before its double-bit status settles. */
  class SlowDevice {
    const name: string
    const runtimeMs: u32
    var status: DoubleBit?
    var control: TwoSignalControl?<Action>
    var screen: Screen?
    var position: int
    var motion: Motion

    constructor(name: string, runtimeMs: u32, model: TwoSignalControlModel)
      ensures this.name == name && this.runtimeMs == runtimeMs
      ensures status == null && screen == null && position == 0 && motion == Idle
      ensures Valid() && fresh(control) && control.controlModel == model
      ensures fresh(control.Outputs())
      ensures forall o :: o in control.Outputs() ==> o.index == None
      ensures model == Activation ==>
        control.outputOne.name == Sanitized(name + "_trip") && control.outputTwo.name == Sanitized(name + "_close")
      ensures model == ComplementaryTwoOutput ==> control.outputOne.name == Sanitized(name + "_control")
    {
      this.name := name;
      this.runtimeMs := runtimeMs;
      status := null;
      screen := null;
      position := 0;
      motion := Idle;
      new;
      control := new TwoSignalControl(model, TripSlowDevice(this), CloseSlowDevice(this));
      control.SetPointNames(name);
    }

    /** The control wires this switch's own trip and close. */
    ghost predicate Valid()
      reads this`control
    {
      control != null && control.Valid()
      && control.tripAction == TripSlowDevice(this) && control.closeAction == CloseSlowDevice(this)
    }

    method RegisterScreen(s: Screen?)
      modifies this`screen
      ensures screen == s
    {
      screen := s;
    }

    /** Ends the current motion thread, if any; this is also what destruction does. */
    method StopMoving()
      modifies this`motion
      ensures motion == Idle
    {
      motion := Idle;
    }

    /** Stores the snapped position and writes the status only when its state changes. */
    method SetPosition(pos: int)
      requires status != null
      modifies this`position, status`value, status.Sink()`applied
      ensures position == Snapped(pos) && status.Read() == TriState(pos)
      ensures old(status.Read()) == TriState(pos) ==>
        status.value == old(status.value) && (status.outstation != null ==> status.outstation.applied == old(status.outstation.applied))
      ensures old(status.Read()) != TriState(pos) ==> Emitted(status.outstation, status.index, DoubleBitValue(TriState(pos)))
    {
      var newStatus: DoubleBitState;
      if pos < 1 {
        position := 0;
        newStatus := DeterminedOff;
      } else if pos > 9 {
        position := 10;
        newStatus := DeterminedOn;
      } else {
        position := pos;
        newStatus := Intermediate;
      }
      if status.Read() != newStatus {
        status.Write(newStatus);
      }
    }

    /** Replaces any motion by a new one opening the switch. */
    method DoTrip()
      modifies this`motion
      ensures motion == Running(Opening)
    {
      StopMoving();
      motion := Running(Opening);
    }

    /** Replaces any motion by a new one closing the switch. */
    method DoClose()
      modifies this`motion
      ensures motion == Running(Closing)
    {
      StopMoving();
      motion := Running(Closing);
    }

    method Trip()
      requires status != null
      modifies this`motion
      ensures SlowCommanded(this, Opening)
    {
      if status.Read() != DeterminedOff {
        DoTrip();
      }
    }

    method Close()
      requires status != null
      modifies this`motion
      ensures SlowCommanded(this, Closing)
    {
      if status.Read() != DeterminedOn {
        DoClose();
      }
    }

    /**
     * One iteration of the motion thread: move a tenth, publish the tri-state if it changed and
     * redraw, or finish at the end of travel without writing anything.
     */
    method Step()
      requires status != null && motion.Running?
      modifies this`position, this`motion, status`value, status.Sink()`applied, ScreenSet(screen)`redraws
      ensures Wrote(status.outstation, status.index, StepWrites(old(motion).direction, old(position), old(status.Read())))
      ensures CanMove(old(motion).direction, old(position)) ==>
        && motion == old(motion)
        && position == Snapped(NextPosition(motion.direction, old(position)))
        && status.Read() == TriState(NextPosition(motion.direction, old(position)))
        && (old(status.Read()) == status.Read() ==> status.value == old(status.value))
        && (screen != null ==> screen.redraws == old(screen.redraws) + 1)
      ensures !CanMove(old(motion).direction, old(position)) ==>
        && motion == Idle && position == old(position) && status.value == old(status.value)
        && (screen != null ==> screen.redraws == old(screen.redraws))
    {
      var dir := motion.direction;
      if CanMove(dir, position) {
        SetPosition(NextPosition(dir, position));
        ForceRedraw(screen);
      } else {
        motion := Idle;
      }
    }

    /**
     * Runs the motion thread for up to `steps` iterations: the position follows Travel, the status
     * publishes exactly MotionWrites, and the screen is redrawn once per tenth moved.
     */
    method RunMotion(steps: nat)
      requires status != null && 0 <= position <= 10
      modifies this`position, this`motion, status`value, status.Sink()`applied, ScreenSet(screen)`redraws
      ensures old(motion) == Idle ==>
        && motion == Idle && position == old(position) && status.value == old(status.value)
        && Wrote(status.outstation, status.index, []) && (screen != null ==> screen.redraws == old(screen.redraws))
      ensures old(motion).Running? ==>
        && position == Travel(old(motion).direction, old(position), steps)
        && (motion == Idle <==> steps > Distance(old(motion).direction, old(position)))
        && (motion != Idle ==> motion == old(motion))
        && status.Read() == MotionStatus(old(motion).direction, old(position), old(status.Read()), steps)
        && Wrote(status.outstation, status.index, MotionWrites(old(motion).direction, old(position), old(status.Read()), steps))
        && (screen != null ==> screen.redraws == old(screen.redraws) + Min(steps, Distance(old(motion).direction, old(position))))
      ensures old(motion).Running? && steps >= 1 && CanMove(old(motion).direction, old(position)) ==>
        status.Read() == TriState(position)
    {
      ghost var running, dir, p0, s0 := motion.Running?, if motion.Running? then motion.direction else Opening, position, status.Read();
      ghost var log := if status.outstation != null then status.outstation.applied else [];
      ghost var redraws := if screen != null then screen.redraws else 0;
      var i := 0;
      while i < steps && motion.Running?
        invariant 0 <= i <= steps && 0 <= position <= 10
        invariant !running ==> motion == Idle && position == p0 && status.value == old(status.value)
        invariant running ==>
          && position == Travel(dir, p0, i)
          && (motion == Idle <==> i > Distance(dir, p0))
          && (motion != Idle ==> motion == Running(dir))
          && status.Read() == MotionStatus(dir, p0, s0, i)
        invariant status.outstation != null ==>
          status.outstation.applied == log + StatusEmissions(status.index, if running then MotionWrites(dir, p0, s0, i) else [])
        invariant screen != null ==> screen.redraws == redraws + if running then Min(i, Distance(dir, p0)) else 0
      {
        ghost var before, step := MotionWrites(dir, p0, s0, i), StepWrites(dir, position, status.Read());
        StatusEmissionsAppend(status.index, before, step);
        Advance(dir, p0, s0, i);
        assert MotionWrites(dir, p0, s0, i + 1) == before + step;
        assert status.outstation != null ==>
          status.outstation.applied == log + (StatusEmissions(status.index, before) + StatusEmissions(status.index, step));
        i := i + 1;
      }
      if running && i < steps {
        TravelClosedForm(dir, p0, i);
        MotionSettled(dir, p0, s0, i, steps);
      }
      if running && steps >= 1 && CanMove(dir, p0) {
        MotionStatusReports(dir, p0, s0, steps);
      }
    }

    /** One iteration of the motion loop, carrying the motion's account from `i` to `i + 1` iterations. */
    method Advance(ghost dir: Direction, ghost p0: int, ghost s0: DoubleBitState, ghost i: nat)
      requires status != null && 0 <= p0 <= 10 && motion == Running(dir) && i <= Distance(dir, p0)
      requires position == Travel(dir, p0, i) && status.Read() == MotionStatus(dir, p0, s0, i)
      modifies this`position, this`motion, status`value, status.Sink()`applied, ScreenSet(screen)`redraws
      ensures position == Travel(dir, p0, i + 1) && 0 <= position <= 10
      ensures motion == if i < Distance(dir, p0) then old(motion) else Idle
      ensures status.Read() == MotionStatus(dir, p0, s0, i + 1)
      ensures Wrote(status.outstation, status.index, StepWrites(dir, old(position), old(status.Read())))
      ensures screen != null ==> screen.redraws == old(screen.redraws) + if i < Distance(dir, p0) then 1 else 0
    {
      TravelClosedForm(dir, p0, i);
      TravelClosedForm(dir, p0, i + 1);
      Step();
    }

    method AssignInputPoint(input: DoubleBit)
      modifies this`status, input`name
      ensures status == input && input.name == Sanitized(name + "_status")
    {
      status := input;
      status.SetName(name + "_status");
    }

    /** The outputs of the switch's control; each fires only this switch's trip or close. */
    function CreateControlSignal(): (r: seq<BinaryOutput<Action>>)
      reads this`control
      requires Valid()
      ensures |r| == if control.controlModel == Activation then 2
                     else if control.controlModel == ComplementaryTwoOutput then 1 else 0
      ensures control.controlModel == Activation ==>
        r[0].decoder == ActivationOutput(TripSlowDevice(this), false) && r[1].decoder == ActivationOutput(CloseSlowDevice(this), false)
      ensures control.controlModel == ComplementaryTwoOutput ==>
        r[0].decoder == TwoOutput(TripSlowDevice(this), CloseSlowDevice(this), false)
      ensures forall i :: 0 <= i < |r| ==> ActionsOf(r[i].decoder) <= {TripSlowDevice(this), CloseSlowDevice(this)}
      ensures forall i :: 0 <= i < |r| ==>
        (r[i].decoder.ActivationOutput? || r[i].decoder.TwoOutput?) && !r[i].decoder.requireSelect
      ensures forall i :: 0 <= i < |r| ==> r[i] in control.Outputs()
      ensures forall i, j :: 0 <= i < j < |r| ==> r[i] != r[j]
    {
      control.GetOutputs()
    }
  }

  /** A command in direction `dir` is ignored at that end of travel and otherwise starts that motion. */
  twostate predicate SlowCommanded(d: SlowDevice, dir: Direction)
    reads d, d.status
  {
    && old(d.status) == d.status
    && (d.status != null ==>
          if old(d.status.Read()) == EndState(dir) then d.motion == old(d.motion) else d.motion == Running(dir))
  }

  /** The updates the setpoint thread publishes for the noise values `jitters`. */
  function NoiseUpdates(index: Option<u16>, base: real, jitters: seq<real>): seq<Update>
    decreases |jitters|
  {
    if jitters == [] then [] else Emission(index, AnalogValue(base + jitters[0])) + NoiseUpdates(index, base, jitters[1..])
  }

  predicate WithinVariance(jitters: seq<real>, variance: real)
  {
    forall i :: 0 <= i < |jitters| ==> -variance <= jitters[i] <= variance
  }

  /** Every value the setpoint thread publishes lies within `variance` of the base value. */
  lemma {:induction false} NoiseUpdatesBounded(index: Option<u16>, base: real, jitters: seq<real>, variance: real)
    requires WithinVariance(jitters, variance)
    ensures |NoiseUpdates(index, base, jitters)| == if index.Some? then |jitters| else 0
    ensures forall u :: u in NoiseUpdates(index, base, jitters) ==>
      u.value.AnalogValue? && base - variance <= u.value.a <= base + variance && u.flags == OnlineFlags
    decreases |jitters|
  {
    if jitters != [] {
      NoiseUpdatesBounded(index, base, jitters[1..], variance);
    }
  }

  /** For an indexed point, the i-th tick publishes the base value plus the i-th jitter. */
  lemma {:induction false} NoiseUpdatesAt(idx: u16, base: real, jitters: seq<real>)
    ensures |NoiseUpdates(Some(idx), base, jitters)| == |jitters|
    ensures forall i :: 0 <= i < |jitters| ==>
      NoiseUpdates(Some(idx), base, jitters)[i] == Update(idx, AnalogValue(base + jitters[i]), OnlineFlags)
    decreases |jitters|
  {
    if jitters != [] {
      NoiseUpdatesAt(idx, base, jitters[1..]);
      forall i | 0 < i < |jitters|
        ensures NoiseUpdates(Some(idx), base, jitters)[i] == Update(idx, AnalogValue(base + jitters[i]), OnlineFlags)
      {
        assert jitters[1..][i - 1] == jitters[i];
      }
    }
  }

  /**
   * Any two values the setpoint thread publishes around one base differ by at most twice the
   * variance, the deadband AssignInputPoint gives the point: noise alone stays within it.
   */
  lemma NoiseWithinDeadband(idx: u16, base: real, jitters: seq<real>, variance: real)
    requires WithinVariance(jitters, variance)
    ensures var u := NoiseUpdates(Some(idx), base, jitters);
      forall i, k :: 0 <= i < |u| && 0 <= k < |u| ==>
        u[i].value.AnalogValue? && u[k].value.AnalogValue?
        && -(variance * 2.0) <= u[i].value.a - u[k].value.a <= variance * 2.0
  {
    NoiseUpdatesAt(idx, base, jitters);
  }

  /** A device that publishes an analog value scattered around a base value a control can set. */
  class SetpointController {
    const name: string
    const variance: real
    var baseValue: real
    var running: bool
    var status: Analog?
    var control: AnalogOutput?<AnalogAction>
    var screen: Screen?

    constructor(name: string, setpoint: real, variance: real)
      ensures this.name == name && this.variance == variance && baseValue == setpoint && running
      ensures status == null && control == null && screen == null
    {
      this.name := name;
      this.variance := variance;
      baseValue := setpoint;
      running := true;
      status := null;
      control := null;
      screen := null;
    }

    method RegisterScreen(s: Screen?)
      modifies this`screen
      ensures screen == s
    {
      screen := s;
    }

    /** Stops the publishing thread; this is also what destruction does. */
    method Stop()
      modifies this`running
      ensures !running
    {
      running := false;
    }

    method Set(value: real)
      modifies this`baseValue
      ensures baseValue == value
    {
      baseValue := value;
    }

    /** One iteration of the publishing thread, with `jitter` drawn uniformly from [-variance, variance]. */
    method Tick(jitter: real)
      requires running && status != null && -variance <= jitter <= variance
      modifies status`value, status.Sink()`applied, ScreenSet(screen)`redraws
      ensures status.value == baseValue + jitter
      ensures Emitted(status.outstation, status.index, AnalogValue(baseValue + jitter))
    {
      status.Write(baseValue + jitter);
      ForceRedraw(screen);
    }

    /** Runs the publishing thread for one iteration per noise value. */
    method Run(jitters: seq<real>)
      requires running && status != null && WithinVariance(jitters, variance)
      modifies status`value, status.Sink()`applied, ScreenSet(screen)`redraws
      ensures jitters != [] ==> status.value == baseValue + jitters[|jitters| - 1]
      ensures jitters == [] ==> status.value == old(status.value)
      ensures status.outstation != null ==>
        status.outstation.applied == old(status.outstation.applied) + NoiseUpdates(status.index, baseValue, jitters)
    {
      var i := 0;
      while i < |jitters|
        invariant 0 <= i <= |jitters|
        invariant i > 0 ==> status.value == baseValue + jitters[i - 1]
        invariant i == 0 ==> status.value == old(status.value)
        invariant status.outstation != null ==>
          status.outstation.applied == old(status.outstation.applied) + NoiseUpdates(status.index, baseValue, jitters[..i])
      {
        NoiseUpdatesAppend(status.index, baseValue, jitters[..i], jitters[i]);
        assert jitters[..i + 1] == jitters[..i] + [jitters[i]];
        Tick(jitters[i]);
        i := i + 1;
      }
      assert jitters[..i] == jitters;
    }

    /** The input's deadband becomes twice the variance, so noise alone never exceeds it. */
    method AssignInputPoint(input: Analog)
      modifies this`status, input`deadband, input`name
      ensures status == input && input.deadband == variance * 2.0
      ensures input.name == Sanitized(name + "_status")
    {
      status := input;
      status.SetDeadband(variance * 2.0);
      status.SetName(name + "_status");
    }

    /** An analog output that forwards its value to Set, without demanding a select. */
    method CreateControlSignal() returns (output: AnalogOutput<AnalogAction>)
      modifies this`control
      ensures fresh(output) && control == output
      ensures output.action == SetSetpoint(this) && !output.requireSelect
      ensures output.name == Sanitized(name + "_control") && output.index == None
    {
      output := new AnalogOutput(SetSetpoint(this), false);
      control := output;
      output.SetName(name + "_control");
    }
  }

  lemma {:induction false} NoiseUpdatesAppend(index: Option<u16>, base: real, jitters: seq<real>, j: real)
    ensures NoiseUpdates(index, base, jitters + [j]) == NoiseUpdates(index, base, jitters) + Emission(index, AnalogValue(base + j))
    decreases |jitters|
  {
    if jitters == [] {
      assert [j][1..] == [];
    } else {
      assert (jitters + [j])[1..] == jitters[1..] + [j];
      NoiseUpdatesAppend(index, base, jitters[1..], j);
    }
  }

  /** The breakers whose status an action writes. */
  function ActionBreakers(a: Action): set<Breaker>
  {
    if a.TripBreaker? || a.CloseBreaker? then {a.breaker} else {}
  }

  /** The slow devices an action commands. */
  function ActionDevices(a: Action): set<SlowDevice>
  {
    if a.TripSlowDevice? || a.CloseSlowDevice? then {a.device} else {}
  }

  function ActionPoints(a: Action): set<Binary>
    reads ActionBreakers(a)
  {
    if a.TripBreaker? || a.CloseBreaker? then a.breaker.StatusPoints() else {}
  }

  function ActionSinks(a: Action): set<Outstation>
    reads ActionBreakers(a), ActionPoints(a)
  {
    if a.TripBreaker? || a.CloseBreaker? then a.breaker.StatusSinks() else {}
  }

  function ActionStatuses(a: Action): set<DoubleBit>
    reads ActionDevices(a)
  {
    if (a.TripSlowDevice? || a.CloseSlowDevice?) && a.device.status != null then {a.device.status} else {}
  }

  /** A slow device can only be commanded once its status point is assigned. */
  predicate ActionReady(a: Action)
    reads ActionDevices(a)`status
  {
    (a.TripSlowDevice? || a.CloseSlowDevice?) ==> a.device.status != null
  }

  /** What firing `a` did to its device. */
  twostate predicate Fired(a: Action)
    reads ActionBreakers(a), ActionPoints(a), ActionSinks(a), ActionDevices(a), ActionStatuses(a)
  {
    match a
    case TripBreaker(b) => BreakerWritten(b, false)
    case CloseBreaker(b) => BreakerWritten(b, true)
    case TripSlowDevice(d) => SlowCommanded(d, Opening)
    case CloseSlowDevice(d) => SlowCommanded(d, Closing)
  }

  /** Invokes a device callback. */
  method Fire(a: Action)
    requires ActionReady(a)
    modifies ActionPoints(a)`value, ActionSinks(a)`applied, ActionDevices(a)`motion
    ensures Fired(a)
  {
    match a
    case TripBreaker(b) => b.Trip();
    case CloseBreaker(b) => b.Close();
    case TripSlowDevice(d) => d.Trip();
    case CloseSlowDevice(d) => d.Close();
  }

  function DecoderBreakers(d: Decoder<Action>): set<Breaker>
  {
    match d
    case PlainOutput => {}
    case LatchOutput(_, _) => {}
    case ActivationOutput(a, _) => ActionBreakers(a)
    case TwoOutput(t, c, _) => ActionBreakers(t) + ActionBreakers(c)
  }

  function DecoderDevices(d: Decoder<Action>): set<SlowDevice>
  {
    match d
    case PlainOutput => {}
    case LatchOutput(_, _) => {}
    case ActivationOutput(a, _) => ActionDevices(a)
    case TwoOutput(t, c, _) => ActionDevices(t) + ActionDevices(c)
  }

  /** The binary points an output may write. */
  function DecoderPoints(d: Decoder<Action>): set<Binary>
    reads DecoderBreakers(d)
  {
    match d
    case PlainOutput => {}
    case LatchOutput(p, _) => {p}
    case ActivationOutput(a, _) => ActionPoints(a)
    case TwoOutput(t, c, _) => ActionPoints(t) + ActionPoints(c)
  }

  /** The outstations an output's writes may publish to. */
  function DecoderSinks(d: Decoder<Action>): set<Outstation>
    reads DecoderBreakers(d), DecoderPoints(d)
  {
    match d
    case PlainOutput => {}
    case LatchOutput(p, _) => p.Sink()
    case ActivationOutput(a, _) => ActionSinks(a)
    case TwoOutput(t, c, _) => ActionSinks(t) + ActionSinks(c)
  }

  function DecoderStatuses(d: Decoder<Action>): set<DoubleBit>
    reads DecoderDevices(d)
  {
    match d
    case PlainOutput => {}
    case LatchOutput(_, _) => {}
    case ActivationOutput(a, _) => ActionStatuses(a)
    case TwoOutput(t, c, _) => ActionStatuses(t) + ActionStatuses(c)
  }

  predicate DecoderReady(d: Decoder<Action>)
    reads DecoderDevices(d)`status
  {
    forall a :: a in ActionsOf(d) ==> ActionReady(a)
  }

  /** Carrying out `e`, decided by the output kind `d`, did exactly this. */
  twostate predicate Performed(d: Decoder<Action>, e: Effect<Action>, handler: UpdateHandler)
    reads DecoderBreakers(d), DecoderPoints(d), DecoderSinks(d), DecoderDevices(d), DecoderStatuses(d), handler
  {
    match e
    case NoEffect =>
      && handler.updates == old(handler.updates)
      && old(DecoderPoints(d)) == DecoderPoints(d) && old(DecoderSinks(d)) == DecoderSinks(d)
      && unchanged(DecoderPoints(d), DecoderSinks(d), DecoderDevices(d))
    case SetPoint(v) =>
      && d.LatchOutput?
      && d.point.value == v
      && old(d.point.outstation) == d.point.outstation && old(d.point.index) == d.point.index
      && Emitted(d.point.outstation, d.point.index, BinaryValue(v))
      && LatchReported(d.point, v, handler)
    case Fire(a) =>
      && handler.updates == old(handler.updates)
      && a in ActionsOf(d)
      && Fired(a)
  }

  /** A binary output's answer to a CROB, together with what it did. */
  method OperateOutput(output: BinaryOutput<Action>, crob: Crob, handler: UpdateHandler, opType: OperateType)
    returns (status: CommandStatus)
    requires DecoderReady(output.decoder)
    modifies DecoderPoints(output.decoder)`value, DecoderSinks(output.decoder)`applied
    modifies DecoderDevices(output.decoder)`motion, handler`updates
    ensures status == Decide(output.decoder, crob, opType).status
    ensures Performed(output.decoder, Decide(output.decoder, crob, opType).effect, handler)
  {
    var decision := Decide(output.decoder, crob, opType);
    match decision.effect {
      case NoEffect =>
      case SetPoint(v) =>
        ApplySetPoint(output.decoder.point, v, handler);
      case Fire(a) =>
        Fire(a);
    }
    status := decision.status;
  }

  /** An analog output's answer to a 64-bit float command, together with what it did. */
  method OperateAnalogOutput(output: AnalogOutput<AnalogAction>, value: real, opType: OperateType)
    returns (status: CommandStatus)
    modifies output.action.controller`baseValue
    ensures status == DecideAnalog(output.action, value, opType, output.requireSelect).status
    ensures status == Success ==> output.action.controller.baseValue == value
    ensures status != Success ==> output.action.controller.baseValue == old(output.action.controller.baseValue)
  {
    var decision := DecideAnalog(output.action, value, opType, output.requireSelect);
    if decision.effect.Forward? {
      decision.effect.action.controller.Set(decision.effect.value);
    }
    status := decision.status;
  }
}

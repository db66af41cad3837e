/**
 * The trainer's binary and analog outputs.  Each binary output kind decides, from
 * the incoming control relay output block and the way the request arrived, a
 * command status and at most one effect: set the controlled point (latch output)
 * or fire one device action (activation and two-output controls).  Actions are
 * the device callbacks of the trainer; here they are an opaque type parameter `A`
 * that the device layer instantiates and carries out.
 */
module Controls {
  import opened Dnp3
  import opened Measurements

  /** How a breaker-like device is wired to binary outputs. */
  datatype TwoSignalControlModel = Activation | ComplementaryTwoOutput | Undefined

  function ModelToType(m: TwoSignalControlModel): (b: u8)
    ensures ModelFromType(b) == m
  {
    match m
    case Activation => 0
    case ComplementaryTwoOutput => 1
    case Undefined => 127
  }

  /** Byte decoding; every byte but 0 and 1 is Undefined. */
  function ModelFromType(b: u8): (m: TwoSignalControlModel)
    ensures m == Activation <==> b == 0
    ensures m == ComplementaryTwoOutput <==> b == 1
    ensures m == TwoSignalControlModel.Undefined <==> b > 1
  {
    if b == 0 then Activation
    else if b == 1 then ComplementaryTwoOutput
    else TwoSignalControlModel.Undefined
  }

  function ModelToString(m: TwoSignalControlModel): (s: string)
    ensures ModelFromString(s) == m
  {
    match m
    case Activation => "ACTIVATION"
    case ComplementaryTwoOutput => "COMPLEMENTARY_TWO_OUTPUT"
    case Undefined => "UNDEFINED"
  }

  /** The display name; display names are not accepted back by ModelFromString. */
  function ModelToHumanString(m: TwoSignalControlModel): (s: string)
    ensures ModelFromString(s) == TwoSignalControlModel.Undefined
  {
    match m
    case Activation => "Activation Model"
    case ComplementaryTwoOutput => "Complementary Two-Output Model"
    case Undefined => "Undefined"
  }

  /** Distinct models have distinct display names. */
  lemma ModelToHumanStringInjective(a: TwoSignalControlModel, b: TwoSignalControlModel)
    ensures ModelToHumanString(a) == ModelToHumanString(b) ==> a == b
  {
  }

  /** Parsing of a model name; every string but the two model names is Undefined. */
  function ModelFromString(s: string): (m: TwoSignalControlModel)
    ensures m == Activation <==> s == "ACTIVATION"
    ensures m == ComplementaryTwoOutput <==> s == "COMPLEMENTARY_TWO_OUTPUT"
  {
    if s == "ACTIVATION" then Activation
    else if s == "COMPLEMENTARY_TWO_OUTPUT" then ComplementaryTwoOutput
    else TwoSignalControlModel.Undefined
  }

  /** The kinds of binary output and what each one controls. */
  datatype Decoder<A> =
    | PlainOutput
    | LatchOutput(point: Binary, requireSelect: bool)
    | ActivationOutput(action: A, requireSelect: bool)
    | TwoOutput(tripAction: A, closeAction: A, requireSelect: bool)

  /** What carrying out a binary command does. */
  datatype Effect<A> = NoEffect | SetPoint(value: bool) | Fire(action: A)

  /** The status a binary output answers with and what it does. */
  datatype Decision<A> = Decision(status: CommandStatus, effect: Effect<A>)

  /** An output that demands select-before-operate accepts no other way of operating. */
  predicate SelectSatisfied(requireSelect: bool, opType: OperateType)
  {
    !requireSelect || opType == SelectBeforeOperate
  }

  /** The NUL/NUL block, which every output kind acknowledges without doing anything. */
  predicate IsNullCrob(crob: Crob)
  {
    crob.tcc == TripCloseCode.Nul && crob.opType == OperationType.Nul
  }

  /** Latch output: NUL/LATCH_ON sets the point, NUL/LATCH_OFF clears it. */
  function LatchDecision<A>(crob: Crob, opType: OperateType, requireSelect: bool): (r: Decision<A>)
    ensures !SelectSatisfied(requireSelect, opType) ==> r == Decision(NoSelect, NoEffect)
    ensures SelectSatisfied(requireSelect, opType) ==>
      (r.status == Success <==>
        crob.tcc == TripCloseCode.Nul
        && (crob.opType == OperationType.Nul || crob.opType == LatchOn || crob.opType == LatchOff))
    ensures SelectSatisfied(requireSelect, opType) ==> r.status == Success || r.status == NotSupported
    ensures r.effect.SetPoint? <==>
      SelectSatisfied(requireSelect, opType) && crob.tcc == TripCloseCode.Nul
      && (crob.opType == LatchOn || crob.opType == LatchOff)
    ensures r.effect.SetPoint? ==> (r.effect.value <==> crob.opType == LatchOn)
    ensures !r.effect.Fire?
  {
    if !SelectSatisfied(requireSelect, opType) then Decision(NoSelect, NoEffect)
    else if IsNullCrob(crob) then Decision(Success, NoEffect)
    else if crob.tcc == TripCloseCode.Nul && crob.opType == LatchOn then Decision(Success, SetPoint(true))
    else if crob.tcc == TripCloseCode.Nul && crob.opType == LatchOff then Decision(Success, SetPoint(false))
    else Decision(NotSupported, NoEffect)
  }

  /** Activation output: PULSE_ON with any trip/close code fires the action. */
  function ActivationDecision<A>(action: A, crob: Crob, opType: OperateType, requireSelect: bool): (r: Decision<A>)
    ensures !SelectSatisfied(requireSelect, opType) ==> r == Decision(NoSelect, NoEffect)
    ensures SelectSatisfied(requireSelect, opType) ==>
      (r.status == Success <==> IsNullCrob(crob) || crob.opType == PulseOn)
    ensures SelectSatisfied(requireSelect, opType) ==> r.status in {Success, NotSupported}
    ensures r.effect == Fire(action) <==> SelectSatisfied(requireSelect, opType) && crob.opType == PulseOn
    ensures r.effect == NoEffect || r.effect == Fire(action)
  {
    if !SelectSatisfied(requireSelect, opType) then Decision(NoSelect, NoEffect)
    else if IsNullCrob(crob) then Decision(Success, NoEffect)
    else if crob.opType == PulseOn then Decision(Success, Fire(action))
    else Decision(NotSupported, NoEffect)
  }

  /** Two-output control: TRIP/PULSE_ON fires the trip action, CLOSE/PULSE_ON the close action. */
  function TwoOutputDecision<A>(tripAction: A, closeAction: A, crob: Crob, opType: OperateType,
                                requireSelect: bool): (r: Decision<A>)
    ensures !SelectSatisfied(requireSelect, opType) ==> r == Decision(NoSelect, NoEffect)
    ensures SelectSatisfied(requireSelect, opType) ==>
      (r.status == Success <==>
        IsNullCrob(crob) || (crob.opType == PulseOn && crob.tcc in {TripCloseCode.Nul, Trip, Close}))
    ensures SelectSatisfied(requireSelect, opType) ==> r.status in {Success, NotSupported}
    ensures r.effect.Fire? <==>
      SelectSatisfied(requireSelect, opType) && crob.opType == PulseOn && crob.tcc in {Trip, Close}
    ensures r.effect.Fire? ==> r.effect.action == if crob.tcc == Trip then tripAction else closeAction
    ensures !r.effect.SetPoint?
  {
    if !SelectSatisfied(requireSelect, opType) then Decision(NoSelect, NoEffect)
    else if IsNullCrob(crob) || (crob.tcc == TripCloseCode.Nul && crob.opType == PulseOn) then
      Decision(Success, NoEffect)
    else if crob.tcc == Trip && crob.opType == PulseOn then Decision(Success, Fire(tripAction))
    else if crob.tcc == Close && crob.opType == PulseOn then Decision(Success, Fire(closeAction))
    else Decision(NotSupported, NoEffect)
  }

  /** The actions an output can fire. */
  function ActionsOf<A>(d: Decoder<A>): set<A>
  {
    match d
    case PlainOutput => {}
    case LatchOutput(_, _) => {}
    case ActivationOutput(a, _) => {a}
    case TwoOutput(t, c, _) => {t, c}
  }

  /** The answer of any binary output to a CROB, with the properties all kinds share. */
  function Decide<A>(d: Decoder<A>, crob: Crob, opType: OperateType): (r: Decision<A>)
    ensures d.PlainOutput? ==> r == Decision(NotSupported, NoEffect)
    ensures !d.PlainOutput? && !SelectSatisfied(d.requireSelect, opType) ==> r == Decision(NoSelect, NoEffect)
    ensures !d.PlainOutput? && SelectSatisfied(d.requireSelect, opType) && IsNullCrob(crob) ==>
      r == Decision(Success, NoEffect)
    ensures r.status in {Success, NoSelect, NotSupported}
    ensures r.effect != NoEffect ==> r.status == Success
    ensures r.effect.SetPoint? ==> d.LatchOutput?
    ensures r.effect.Fire? ==> r.effect.action in ActionsOf(d)
  {
    match d
    case PlainOutput => Decision(NotSupported, NoEffect)
    case LatchOutput(_, rs) => LatchDecision(crob, opType, rs)
    case ActivationOutput(a, rs) => ActivationDecision(a, crob, opType, rs)
    case TwoOutput(t, c, rs) => TwoOutputDecision(t, c, crob, opType, rs)
  }

  /** The effect of an analog output command. */
  datatype AnalogEffect<A> = NoAnalogEffect | Forward(action: A, value: real)

  datatype AnalogDecision<A> = AnalogDecision(status: CommandStatus, effect: AnalogEffect<A>)

  /** Analog output: the 64-bit float value is handed to the action unless a select is missing. */
  function DecideAnalog<A>(action: A, value: real, opType: OperateType, requireSelect: bool): (r: AnalogDecision<A>)
    ensures r.status == NoSelect <==> !SelectSatisfied(requireSelect, opType)
    ensures r.status == Success <==> SelectSatisfied(requireSelect, opType)
    ensures r.effect == Forward(action, value) <==> r.status == Success
    ensures r.effect == NoAnalogEffect <==> r.status == NoSelect
  {
    if !SelectSatisfied(requireSelect, opType) then AnalogDecision(NoSelect, NoAnalogEffect)
    else AnalogDecision(Success, Forward(action, value))
  }

  /** The handler received the update a latch output reports after writing `v`. */
  twostate predicate LatchReported(point: Binary, v: bool, handler: UpdateHandler)
    reads point`index, handler`updates
  {
    handler.updates == old(handler.updates) + Emission(point.index, BinaryValue(v))
  }

  /** A latch output's effect: write the controlled point, then report it to the handler. */
  method ApplySetPoint(point: Binary, v: bool, handler: UpdateHandler)
    modifies point`value, point.Sink()`applied, handler`updates
    ensures point.value == v
    ensures Emitted(point.outstation, point.index, BinaryValue(v))
    ensures LatchReported(point, v, handler)
  {
    point.Write(v);
    if point.index.Some? {
      handler.Update(Update(point.index.value, BinaryValue(point.Read()), OnlineFlags));
    }
  }

  /** A binary output: a name and index in the I/O table, and what kind of output it is. */
  class BinaryOutput<A> {
    var name: string
    var index: Option<u16>
    const decoder: Decoder<A>

    constructor(decoder: Decoder<A>)
      ensures this.decoder == decoder && name == "" && index == None
    {
      this.decoder := decoder;
      name := "";
      index := None;
    }

    method SetName(input: string)
      modifies this`name
      ensures name == Sanitized(input)
    {
      name := SanitizeName(input);
    }

    method SetIndex(idx: u16)
      modifies this`index
      ensures index == Some(idx)
    {
      index := Some(idx);
    }
  }

  /** An analog output: a name and index, the action it forwards to, and its select policy. */
  class AnalogOutput<A> {
    var name: string
    var index: Option<u16>
    const action: A
    const requireSelect: bool

    constructor(action: A, requireSelect: bool)
      ensures this.action == action && this.requireSelect == requireSelect
      ensures name == "" && index == None
    {
      this.action := action;
      this.requireSelect := requireSelect;
      name := "";
      index := None;
    }

    method SetName(input: string)
      modifies this`name
      ensures name == Sanitized(input)
    {
      name := SanitizeName(input);
    }

    method SetIndex(idx: u16)
      modifies this`index
      ensures index == Some(idx)
    {
      index := Some(idx);
    }
  }

  /** A pair of device actions wired to binary outputs as the control model says. */
  class TwoSignalControl<A> {
    const controlModel: TwoSignalControlModel
    const outputOne: BinaryOutput?<A>
    const outputTwo: BinaryOutput?<A>
    ghost const tripAction: A
    ghost const closeAction: A

    /**
     * Activation: two activation outputs, trip then close.  Complementary two-output:
     * one two-output control.  Undefined: no outputs.  No output demands a select.
     */
    ghost predicate Valid()
    {
      match controlModel
      case Activation =>
        && outputOne != null && outputTwo != null && outputOne != outputTwo
        && outputOne.decoder == ActivationOutput(tripAction, false)
        && outputTwo.decoder == ActivationOutput(closeAction, false)
      case ComplementaryTwoOutput =>
        && outputOne != null && outputTwo == null
        && outputOne.decoder == TwoOutput(tripAction, closeAction, false)
      case Undefined =>
        outputOne == null && outputTwo == null
    }

    constructor(model: TwoSignalControlModel, tripAction: A, closeAction: A)
      ensures Valid()
      ensures controlModel == model && this.tripAction == tripAction && this.closeAction == closeAction
      ensures outputOne != null ==> fresh(outputOne) && outputOne.name == "" && outputOne.index == None
      ensures outputTwo != null ==> fresh(outputTwo) && outputTwo.name == "" && outputTwo.index == None
    {
      controlModel := model;
      this.tripAction := tripAction;
      this.closeAction := closeAction;
      match model
      case Activation =>
        outputOne := new BinaryOutput(ActivationOutput(tripAction, false));
        outputTwo := new BinaryOutput(ActivationOutput(closeAction, false));
      case ComplementaryTwoOutput =>
        outputOne := new BinaryOutput(TwoOutput(tripAction, closeAction, false));
        outputTwo := null;
      case Undefined =>
        outputOne := null;
        outputTwo := null;
    }

    /** The outputs this control owns. */
    function Outputs(): set<BinaryOutput<A>>
    {
      (if outputOne != null then {outputOne} else {}) + (if outputTwo != null then {outputTwo} else {})
    }

    /** The outputs to register, in order, with the kind of each. */
    function GetOutputs(): (r: seq<BinaryOutput<A>>)
      requires Valid()
      ensures controlModel == Activation ==>
        |r| == 2 && r[0] != r[1]
        && r[0].decoder == ActivationOutput(tripAction, false)
        && r[1].decoder == ActivationOutput(closeAction, false)
      ensures controlModel == ComplementaryTwoOutput ==>
        |r| == 1 && r[0].decoder == TwoOutput(tripAction, closeAction, false)
      ensures controlModel == TwoSignalControlModel.Undefined ==> r == []
      ensures Outputs() == set i | 0 <= i < |r| :: r[i]
    {
      match controlModel
      case Activation => [outputOne, outputTwo]
      case ComplementaryTwoOutput => [outputOne]
      case Undefined => []
    }

    /** Names the outputs after the device: `_trip`/`_close`, or `_control`. */
    method SetPointNames(name: string)
      requires Valid()
      modifies Outputs()`name
      ensures controlModel == Activation ==>
        outputOne.name == Sanitized(name + "_trip") && outputTwo.name == Sanitized(name + "_close")
      ensures controlModel == ComplementaryTwoOutput ==> outputOne.name == Sanitized(name + "_control")
    {
      match controlModel
      case Activation =>
        outputOne.SetName(name + "_trip");
        outputTwo.SetName(name + "_close");
      case ComplementaryTwoOutput =>
        outputOne.SetName(name + "_control");
      case Undefined =>
    }
  }
}

/**
 * The parts of the opendnp3 library (IEEE 1815, DNP3) that the trainer outstation
 * and the command-line master use: fixed-width integers, the enumerations of the
 * control relay output block (object group 12 variation 1), command statuses,
 * point values, and the three library objects the trainer talks to.  The library
 * objects are modelled only as far as the trainer observes them: an outstation
 * records the measurement updates applied to it, an update handler records the
 * updates a control hands it, and a master records the requests it is asked to send.
 */
module Dnp3 {

  newtype u8 = x: int | 0 <= x < 0x100
  newtype u16 = x: int | 0 <= x < 0x1_0000
  newtype u32 = x: int | 0 <= x < 0x1_0000_0000
  newtype i32 = x: int | -0x8000_0000 <= x < 0x8000_0000

  datatype Option<T> = None | Some(value: T)

  /** The conversion of a C++ `int` to `uint16_t`: reduction modulo 2^16. */
  function ToU16(i: int): (r: u16)
    ensures r as int % 0x1_0000 == i % 0x1_0000
    ensures 0 <= i < 0x1_0000 ==> r as int == i
  {
    (i % 0x1_0000) as u16
  }

  /**
   * The index a container of `size` elements gives its last element: the size is
   * narrowed to 16 bits before one is subtracted, and the (possibly negative)
   * difference is narrowed again.
   */
  function LastIndex(size: nat): (r: u16)
    requires size >= 1
    ensures r == ToU16(size - 1)
  {
    ToU16(ToU16(size) as int - 1)
  }

  /** Operation type field of a control relay output block. */
  datatype OperationType = Nul | PulseOn | PulseOff | LatchOn | LatchOff | Undefined

  /** Trip/close code field of a control relay output block. */
  datatype TripCloseCode = Nul | Close | Trip | Reserved

  /** The two-bit wire value of a trip/close code. */
  function TripCloseCodeToType(t: TripCloseCode): (b: u8)
    ensures b <= 3
  {
    match t
    case Nul => 0
    case Close => 1
    case Trip => 2
    case Reserved => 3
  }

  /** How an operate request reached the outstation. */
  datatype OperateType = SelectBeforeOperate | DirectOperate | DirectOperateNoAck

  /** The command statuses the trainer produces. */
  datatype CommandStatus = Success | NoSelect | OutOfRange | NotSupported

  /** Control relay output block (object group 12 variation 1). */
  datatype Crob = Crob(opType: OperationType, tcc: TripCloseCode, clear: bool,
                       count: u8, onTimeMs: u32, offTimeMs: u32)

  /** The on and off times the library's CROB constructor uses when none are given. */
  const DefaultOnTimeMs: u32 := 100
  const DefaultOffTimeMs: u32 := 100

  /** The library's four-argument CROB constructor. */
  function MakeCrob(opType: OperationType, tcc: TripCloseCode, clear: bool, count: u8): (c: Crob)
    ensures c.opType == opType && c.tcc == tcc && c.clear == clear && c.count == count
    ensures c.onTimeMs == DefaultOnTimeMs && c.offTimeMs == DefaultOffTimeMs
  {
    Crob(opType, tcc, clear, count, DefaultOnTimeMs, DefaultOffTimeMs)
  }

  /** State of a double-bit binary input. */
  datatype DoubleBitState = Intermediate | DeterminedOff | DeterminedOn | Indeterminate

  /** Wire encoding of a double-bit state. */
  function DoubleBitToType(d: DoubleBitState): (b: u8)
    ensures b <= 3
    ensures DoubleBitFromType(b) == d
  {
    match d
    case Intermediate => 0
    case DeterminedOff => 1
    case DeterminedOn => 2
    case Indeterminate => 3
  }

  /** Decoding of a double-bit byte; every byte outside 0..2 decodes to Indeterminate. */
  function DoubleBitFromType(b: u8): (d: DoubleBitState)
    ensures d == Intermediate <==> b == 0
    ensures d == DeterminedOff <==> b == 1
    ensures d == DeterminedOn <==> b == 2
    ensures d == Indeterminate <==> b > 2
  {
    if b == 0 then Intermediate
    else if b == 1 then DeterminedOff
    else if b == 2 then DeterminedOn
    else Indeterminate
  }

  /** Event class of a point. */
  datatype PointClass = Class0 | Class1 | Class2 | Class3

  /** Bit mask of a point class. */
  function PointClassToType(c: PointClass): (m: u8)
    ensures m == 1 || m == 2 || m == 4 || m == 8
  {
    match c
    case Class0 => 1
    case Class1 => 2
    case Class2 => 4
    case Class3 => 8
  }

  /** An (object group, variation) pair. */
  datatype GroupVariation = GroupVariation(group: u8, variation: u8)

  /** The quality flags the trainer attaches to every update: ONLINE. */
  const OnlineFlags: u8 := 0x01

  /** The value carried by a measurement update. */
  datatype PointValue = BinaryValue(b: bool) | DoubleBitValue(d: DoubleBitState) | AnalogValue(a: real)

  /** One measurement update for the point at `index`; the time stamp is not modelled. */
  datatype Update = Update(index: u16, value: PointValue, flags: u8)

  /** The library's outstation, seen as the log of update batches applied to it. */
  class Outstation {
    var applied: seq<Update>

    constructor()
      ensures applied == []
    {
      applied := [];
    }

    method Apply(updates: seq<Update>)
      modifies this`applied
      ensures applied == old(applied) + updates
    {
      applied := applied + updates;
    }
  }

  /** The update handler a control receives with each operate request. */
  class UpdateHandler {
    var updates: seq<Update>

    constructor()
      ensures updates == []
    {
      updates := [];
    }

    method Update(u: Update)
      modifies this`updates
      ensures updates == old(updates) + [u]
    {
      updates := updates + [u];
    }
  }

  /** A command paired with the index of the point it addresses. */
  datatype Indexed<T> = Indexed(command: T, index: u16)

  /** The four analog output command objects (group 41 variations 1 to 4). */
  datatype AnalogCommandKind = Int16 | Int32 | Float32 | Double64

  /** A set of commands sent in one request. */
  datatype CommandSet =
    | CrobSet(crobs: seq<Indexed<Crob>>)
    | AnalogSet(kind: AnalogCommandKind, values: seq<Indexed<real>>)

  /** An object header of a read or of a function request. */
  datatype Header = ClassHeader(pointClass: PointClass) | EmptyHeader | MaskHeader(mask: u8)

  /** The application-layer function codes the tools send without a command set. */
  datatype FunctionCode = DisableUnsolicited | EnableUnsolicited

  /** A request handed to the library's master. */
  datatype MasterCall =
    | DirectOperateCall(commands: CommandSet)
    | SelectAndOperateCall(commands: CommandSet)
    | ScanRangeCall(id: GroupVariation, start: u16, stop: u16)
    | ScanAllObjectsCall(id: GroupVariation)
    | PerformFunctionCall(name: string, code: FunctionCode, headers: seq<Header>)

  /** The two ways a master sends control commands. */
  datatype CommandMode = ViaSelectAndOperate | ViaDirectOperate

  /** The request that sends `commands` in the given way. */
  function ControlCall(mode: CommandMode, commands: CommandSet): (c: MasterCall)
    ensures c.DirectOperateCall? <==> mode == ViaDirectOperate
    ensures c.SelectAndOperateCall? <==> mode == ViaSelectAndOperate
    ensures (c.DirectOperateCall? || c.SelectAndOperateCall?) && c.commands == commands
  {
    match mode
    case ViaSelectAndOperate => SelectAndOperateCall(commands)
    case ViaDirectOperate => DirectOperateCall(commands)
  }

  /**
   * The request the master's single-command operate overloads send: a command set
   * holding the one CROB at `index`.
   */
  function SingleCrobCall(mode: CommandMode, crob: Crob, index: u16): MasterCall
  {
    ControlCall(mode, CrobSet([Indexed(crob, index)]))
  }

  /** The library's master, seen as the log of requests handed to it. */
  class Master {
    var calls: seq<MasterCall>

    constructor()
      ensures calls == []
    {
      calls := [];
    }

    method Send(c: MasterCall)
      modifies this`calls
      ensures calls == old(calls) + [c]
    {
      calls := calls + [c];
    }
  }
}

/**
 * The command-line master's actions: the parsing of its textual options into
 * library enumerations, and the requests each action hands to the library's master
 * (operate, read, set analog outputs, disable and enable unsolicited responses).
 * The master is modelled as the log of requests it receives.
 */
module Actions {
  import opened Dnp3

  /** How `operate` sends its commands. */
  datatype OperateMode = DirectOperate | SelectBeforeOperate | Undefined

  const DirectOperateNames: set<string> := {"DIRECT_OPERATE", "DO"}
  const SelectBeforeOperateNames: set<string> := {"SELECT_BEFORE_OPERATE", "SELECT_OPERATE", "SBO"}

  /** Parses an operate mode; every spelling the tool does not know is Undefined. */
  function OperateModeFromString(arg: string): (m: OperateMode)
    ensures m == OperateMode.DirectOperate <==> arg in DirectOperateNames
    ensures m == OperateMode.SelectBeforeOperate <==> arg in SelectBeforeOperateNames
    ensures m == OperateMode.Undefined <==> arg !in DirectOperateNames + SelectBeforeOperateNames
  {
    if arg == "DIRECT_OPERATE" || arg == "DO" then OperateMode.DirectOperate
    else if arg == "SELECT_BEFORE_OPERATE" || arg == "SELECT_OPERATE" || arg == "SBO" then OperateMode.SelectBeforeOperate
    else OperateMode.Undefined
  }

  /** The way a mode sends commands; an undefined mode sends none. */
  function ModeOf(mode: OperateMode): (r: Option<CommandMode>)
    ensures r == None <==> mode == OperateMode.Undefined
    ensures r == Some(ViaDirectOperate) <==> mode == OperateMode.DirectOperate
  {
    match mode
    case DirectOperate => Some(ViaDirectOperate)
    case SelectBeforeOperate => Some(ViaSelectAndOperate)
    case Undefined => None
  }

  /** The analog output command type chosen on the command line. */
  datatype AnalogOutputType = Int16 | Int32 | Float32 | Double64 | Undefined

  /** Parses an analog output type; every other spelling is Undefined. */
  function AnalogOutputTypeFromString(arg: string): (t: AnalogOutputType)
    ensures t == AnalogOutputType.Int16 <==> arg == "INT16"
    ensures t == AnalogOutputType.Int32 <==> arg == "INT32"
    ensures t == AnalogOutputType.Float32 <==> arg == "FLOAT32"
    ensures t == AnalogOutputType.Double64 <==> arg == "DOUBLE64"
    ensures t == AnalogOutputType.Undefined <==> arg !in {"INT16", "INT32", "FLOAT32", "DOUBLE64"}
  {
    if arg == "INT16" then AnalogOutputType.Int16
    else if arg == "INT32" then AnalogOutputType.Int32
    else if arg == "FLOAT32" then AnalogOutputType.Float32
    else if arg == "DOUBLE64" then AnalogOutputType.Double64
    else AnalogOutputType.Undefined
  }

  /** The command object an output type is sent as: an undefined type falls back to Double64. */
  function CommandKind(t: AnalogOutputType): (k: AnalogCommandKind)
    ensures t == AnalogOutputType.Undefined ==> k == AnalogCommandKind.Double64
    ensures t == AnalogOutputType.Int16 <==> k == AnalogCommandKind.Int16
    ensures t == AnalogOutputType.Int32 <==> k == AnalogCommandKind.Int32
    ensures t == AnalogOutputType.Float32 <==> k == AnalogCommandKind.Float32
  {
    match t
    case Int16 => AnalogCommandKind.Int16
    case Int32 => AnalogCommandKind.Int32
    case Float32 => AnalogCommandKind.Float32
    case _ => AnalogCommandKind.Double64
  }

  /** The CROB options of the `operate` command, as text and numbers. */
  datatype CrobSettings = CrobSettings(opType: string, tripCode: string, onTimeMs: u32,
                                       offTimeMs: u32, count: u8, clear: bool)
  {
    /**
     * The CROB these settings describe.  The library's parsers of operation types and
     * trip/close codes are parameters.
     */
    function Create(parseOp: string -> OperationType, parseCode: string -> TripCloseCode): (c: Crob)
      ensures c.opType == parseOp(opType) && c.tcc == parseCode(tripCode)
      ensures c.clear == clear && c.count == count
      ensures c.onTimeMs == onTimeMs && c.offTimeMs == offTimeMs
    {
      Crob(parseOp(opType), parseCode(tripCode), clear, count, onTimeMs, offTimeMs)
    }
  }

  /** The settings used for every option not given. */
  const DefaultCrobSettings := CrobSettings("PULSE_ON", "NUL", 100, 100, 1, false)

  /**
   * With parsers that read "PULSE_ON" and "NUL" as the library does, the default
   * settings give the pulse-on CROB the library's four-argument constructor builds.
   */
  lemma DefaultCrobIsLibraryPulseOn(parseOp: string -> OperationType, parseCode: string -> TripCloseCode)
    requires parseOp("PULSE_ON") == PulseOn && parseCode("NUL") == TripCloseCode.Nul
    ensures DefaultCrobSettings.Create(parseOp, parseCode) == MakeCrob(PulseOn, TripCloseCode.Nul, false, 1)
  {
  }

  /**
   * The 8-bit argument `1 << i` becomes when it is passed as a class mask: the
   * power of two for i < 8 and zero above, once the bit is shifted out.
   */
  function ClassMask(i: u8): (m: u8)
    ensures i < 8 ==> m as int == Pow2(i as nat)
    ensures i >= 8 ==> m == 0
  {
    Pow2Table();
    if i < 8 then [1, 2, 4, 8, 16, 32, 64, 128][i] else 0
  }

  function Pow2(n: nat): nat
  {
    if n == 0 then 1 else 2 * Pow2(n - 1)
  }

  lemma Pow2Table()
    ensures forall k :: 0 <= k < 8 ==> Pow2(k) == [1, 2, 4, 8, 16, 32, 64, 128][k]
  {
    assert Pow2(0) == 1 && Pow2(1) == 2 && Pow2(2) == 4 && Pow2(3) == 8;
    assert Pow2(4) == 16 && Pow2(5) == 32 && Pow2(6) == 64 && Pow2(7) == 128;
  }

  /**
   * The header a class mask stands for: one of the four class headers when the mask is
   * a class's own bit, otherwise a header carrying the bare mask.
   */
  function HeaderOfMask(m: u8): (h: Header)
    ensures h.ClassHeader? <==> m in {1, 2, 4, 8}
    ensures h.ClassHeader? ==> PointClassToType(h.pointClass) == m
    ensures !h.ClassHeader? ==> h == MaskHeader(m)
  {
    if m == 1 then ClassHeader(Class0)
    else if m == 2 then ClassHeader(Class1)
    else if m == 4 then ClassHeader(Class2)
    else if m == 8 then ClassHeader(Class3)
    else MaskHeader(m)
  }

  /** Class numbers 0 to 3 name the four point classes; any other number names none. */
  lemma ClassNumbersNameClasses(i: u8)
    ensures i < 4 ==> HeaderOfMask(ClassMask(i)) == ClassHeader([Class0, Class1, Class2, Class3][i])
    ensures i >= 4 ==> !HeaderOfMask(ClassMask(i)).ClassHeader?
  {
  }

  /** The headers a list of class numbers describes, one per number, in order. */
  function ClassHeaders(classes: seq<u8>): (v: seq<Header>)
    ensures |v| == |classes|
    ensures forall k :: 0 <= k < |classes| ==> v[k] == HeaderOfMask(ClassMask(classes[k]))
  {
    seq(|classes|, k requires 0 <= k < |classes| => HeaderOfMask(ClassMask(classes[k])))
  }

  /** Appends to `v0` one header per class number, in input order. */
  method ParseClasses(classes: seq<u8>, v0: seq<Header>) returns (v: seq<Header>)
    ensures v == v0 + ClassHeaders(classes)
  {
    v := v0;
    for i := 0 to |classes|
      invariant v == v0 + ClassHeaders(classes[..i])
    {
      assert ClassHeaders(classes[..i + 1]) == ClassHeaders(classes[..i]) + [HeaderOfMask(ClassMask(classes[i]))];
      v := v + [HeaderOfMask(ClassMask(classes[i]))];
    }
    assert classes[..|classes|] == classes;
  }

  /** One copy of the CROB per index, in index order. */
  function IndexedCopies(crob: Crob, indices: seq<u16>): (r: seq<Indexed<Crob>>)
    ensures |r| == |indices|
    ensures forall k :: 0 <= k < |indices| ==> r[k] == Indexed(crob, indices[k])
  {
    seq(|indices|, k requires 0 <= k < |indices| => Indexed(crob, indices[k]))
  }

  /** Builds the command set of `operate`. */
  method CrobCommands(crob: Crob, indices: seq<u16>) returns (commands: CommandSet)
    ensures commands == CrobSet(IndexedCopies(crob, indices))
  {
    var crobs: seq<Indexed<Crob>> := [];
    for i := 0 to |indices|
      invariant crobs == IndexedCopies(crob, indices[..i])
    {
      crobs := crobs + [Indexed(crob, indices[i])];
    }
    assert indices[..|indices|] == indices;
    commands := CrobSet(crobs);
  }

  /**
   * Sends the CROB to every index in one request, directly or by select-and-operate;
   * an undefined mode sends nothing.
   */
  method Operate(master: Master, crob: Crob, indices: seq<u16>, mode: OperateMode)
    modifies master`calls
    ensures master.calls == old(master.calls) +
      (match ModeOf(mode)
       case None => []
       case Some(m) => [ControlCall(m, CrobSet(IndexedCopies(crob, indices)))])
  {
    var commands := CrobCommands(crob, indices);
    if mode == OperateMode.DirectOperate {
      master.Send(DirectOperateCall(commands));
    } else if mode == OperateMode.SelectBeforeOperate {
      master.Send(SelectAndOperateCall(commands));
    }
  }

  /** The i-th value at the i-th index. */
  function Paired(indices: seq<u16>, values: seq<real>): (r: seq<Indexed<real>>)
    requires |indices| == |values|
    ensures |r| == |indices|
    ensures forall k :: 0 <= k < |indices| ==> r[k] == Indexed(values[k], indices[k])
  {
    seq(|indices|, k requires 0 <= k < |indices| => Indexed(values[k], indices[k]))
  }

  /** Builds the command set of `set_analog_outputs` for one command kind. */
  method AnalogCommands(indices: seq<u16>, values: seq<real>, kind: AnalogCommandKind)
    returns (commands: CommandSet)
    requires |indices| == |values|
    ensures commands == AnalogSet(kind, Paired(indices, values))
  {
    var pairs: seq<Indexed<real>> := [];
    for i := 0 to |indices|
      invariant pairs == Paired(indices[..i], values[..i])
    {
      pairs := pairs + [Indexed(values[i], indices[i])];
    }
    assert indices[..|indices|] == indices && values[..|values|] == values;
    commands := AnalogSet(kind, pairs);
  }

  /**
   * Sets analog outputs by select-and-operate, pairing values with indices; lists of
   * different lengths send nothing.
   */
  method SetAnalogOutputs(master: Master, indices: seq<u16>, values: seq<real>, outputType: AnalogOutputType)
    modifies master`calls
    ensures |indices| != |values| ==> master.calls == old(master.calls)
    ensures |indices| == |values| ==>
      master.calls == old(master.calls) + [SelectAndOperateCall(AnalogSet(CommandKind(outputType), Paired(indices, values)))]
  {
    if |indices| != |values| {
      return;
    }
    var commands := AnalogCommands(indices, values, CommandKind(outputType));
    master.Send(SelectAndOperateCall(commands));
  }

  /**
   * The read request as written: a range scan only when both bounds are positive,
   * otherwise a scan of every object of the group and variation.
   */
  function ReadRequestAsWritten(id: GroupVariation, start: i32, end: i32): (c: MasterCall)
    ensures c.ScanRangeCall? <==> start > 0 && end > 0
    ensures c.ScanRangeCall? ==> c == ScanRangeCall(id, ToU16(start as int), ToU16(end as int))
    ensures !c.ScanRangeCall? ==> c == ScanAllObjectsCall(id)
  {
    if start > 0 && end > 0 then ScanRangeCall(id, ToU16(start as int), ToU16(end as int))
    else ScanAllObjectsCall(id)
  }

  /** As written, a read of indices 0 to 3 scans every object instead. */
  lemma ReadFromZeroScansAll(id: GroupVariation)
    ensures ReadRequestAsWritten(id, 0, 3) == ScanAllObjectsCall(id)
    ensures ReadRequest(id, 0, 3) == ScanRangeCall(id, 0, 3)
  {
  }

  /**
   * The read request as intended: the bounds default to -1 when not given, so a range
   * scan is made exactly when both bounds were given (are not negative).
   */
  function ReadRequest(id: GroupVariation, start: i32, end: i32): (c: MasterCall)
    ensures c.ScanRangeCall? <==> start >= 0 && end >= 0
    ensures c.ScanRangeCall? ==> c == ScanRangeCall(id, ToU16(start as int), ToU16(end as int))
    ensures !c.ScanRangeCall? ==> c == ScanAllObjectsCall(id)
  {
    if start >= 0 && end >= 0 then ScanRangeCall(id, ToU16(start as int), ToU16(end as int))
    else ScanAllObjectsCall(id)
  }

  /** The two guards disagree exactly when both bounds are given and one of them is 0. */
  lemma ReadGuardsDifferOnlyAtZero(id: GroupVariation, start: i32, end: i32)
    ensures ReadRequestAsWritten(id, start, end) != ReadRequest(id, start, end)
        <==> start >= 0 && end >= 0 && (start == 0 || end == 0)
  {
  }

  /** A given range within 16 bits is scanned exactly. */
  lemma ReadRequestKeepsRange(id: GroupVariation, start: i32, end: i32)
    requires 0 <= start < 0x1_0000 && 0 <= end < 0x1_0000
    ensures ReadRequest(id, start, end) == ScanRangeCall(id, start as int as u16, end as int as u16)
  {
  }

  /** Reads a group and variation, over the given range when both bounds are given. */
  method Read(master: Master, group: u8, variation: u8, start: i32, end: i32)
    modifies master`calls
    ensures master.calls == old(master.calls) + [ReadRequest(GroupVariation(group, variation), start, end)]
  {
    if start >= 0 && end >= 0 {
      master.Send(ScanRangeCall(GroupVariation(group, variation), ToU16(start as int), ToU16(end as int)));
    } else {
      master.Send(ScanAllObjectsCall(GroupVariation(group, variation)));
    }
  }

  /** Asks the outstation to stop unsolicited responses for the given classes. */
  method DisableUnsolicitedMessages(master: Master, classes: seq<u8>)
    modifies master`calls
    ensures master.calls == old(master.calls) +
      [PerformFunctionCall("disable unsolicited", DisableUnsolicited, ClassHeaders(classes))]
  {
    var v := ParseClasses(classes, []);
    assert v == ClassHeaders(classes);
    master.Send(PerformFunctionCall("disable unsolicited", DisableUnsolicited, v));
  }

  /** Asks the outstation to send unsolicited responses for the given classes. */
  method EnableUnsolicitedMessages(master: Master, classes: seq<u8>)
    modifies master`calls
    ensures master.calls == old(master.calls) +
      [PerformFunctionCall("enable unsolicited", EnableUnsolicited, ClassHeaders(classes))]
  {
    var v := ParseClasses(classes, []);
    assert v == ClassHeaders(classes);
    master.Send(PerformFunctionCall("enable unsolicited", EnableUnsolicited, v));
  }
}

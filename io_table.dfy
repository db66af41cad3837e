/**
 * The outstation's I/O table: the ordered lists of binary, double-bit and analog
 * inputs and of binary and analog outputs.  Registering a point appends it and gives
 * it its position as its 16-bit index; the table builds the outstation database from
 * the inputs, attaches every input to the outstation, creates devices together with
 * their points, and answers select and operate requests by index.
 */
module IoTable {
  import opened Dnp3
  import opened Measurements
  import opened Controls
  import opened Devices

  /** The outstation database: one configuration per input index, by input type. */
  datatype DatabaseConfig = DatabaseConfig(binaryInput: map<u16, PointConfig>,
                                           doubleBinary: map<u16, PointConfig>,
                                           analogInput: map<u16, AnalogConfig>)

  /**
   * The updates that rewriting each binary input publishes, in order: its value at its
   * own index (nothing for a point without an index).
   */
  function BinarySnapshot(points: seq<Binary>): seq<Update>
    reads points`index, points`value
  {
    if |points| == 0 then []
    else BinarySnapshot(points[..|points| - 1])
         + Emission(points[|points| - 1].index, BinaryValue(points[|points| - 1].value))
  }

  function DoubleBitSnapshot(points: seq<DoubleBit>): seq<Update>
    reads points`index, points`value
  {
    if |points| == 0 then []
    else DoubleBitSnapshot(points[..|points| - 1])
         + Emission(points[|points| - 1].index, DoubleBitValue(points[|points| - 1].Read()))
  }

  function AnalogSnapshot(points: seq<Analog>): seq<Update>
    reads points`index, points`value
  {
    if |points| == 0 then []
    else AnalogSnapshot(points[..|points| - 1])
         + Emission(points[|points| - 1].index, AnalogValue(points[|points| - 1].value))
  }

  /** Points that carry their position (modulo 2^16) as their index. */
  ghost predicate BinaryIndexed(points: seq<Binary>)
    reads points`index
  {
    forall k :: 0 <= k < |points| ==> points[k].index == Some(ToU16(k))
  }

  ghost predicate DoubleBitIndexed(points: seq<DoubleBit>)
    reads points`index
  {
    forall k :: 0 <= k < |points| ==> points[k].index == Some(ToU16(k))
  }

  ghost predicate AnalogIndexed(points: seq<Analog>)
    reads points`index
  {
    forall k :: 0 <= k < |points| ==> points[k].index == Some(ToU16(k))
  }

  /**
   * Up to 65536 registered binary inputs carry pairwise distinct indices, and every
   * index below their number is taken.
   */
  lemma BinaryIndicesDense(points: seq<Binary>)
    requires BinaryIndexed(points) && |points| <= 0x1_0000
    ensures forall i, j :: 0 <= i < j < |points| ==> points[i].index != points[j].index
    ensures forall n: u16 :: (n as int) < |points| ==> points[n].index == Some(n)
  {
  }

  /** For registered binary inputs the snapshot is one update per position, in position order. */
  lemma {:induction false} BinarySnapshotOfIndexed(points: seq<Binary>)
    requires BinaryIndexed(points)
    ensures |BinarySnapshot(points)| == |points|
    ensures forall k :: 0 <= k < |points| ==>
      BinarySnapshot(points)[k] == Update(ToU16(k), BinaryValue(points[k].value), OnlineFlags)
  {
    if |points| > 0 {
      BinarySnapshotOfIndexed(points[..|points| - 1]);
    }
  }

  lemma {:induction false} DoubleBitSnapshotOfIndexed(points: seq<DoubleBit>)
    requires DoubleBitIndexed(points)
    ensures |DoubleBitSnapshot(points)| == |points|
    ensures forall k :: 0 <= k < |points| ==>
      DoubleBitSnapshot(points)[k] == Update(ToU16(k), DoubleBitValue(points[k].Read()), OnlineFlags)
  {
    if |points| > 0 {
      DoubleBitSnapshotOfIndexed(points[..|points| - 1]);
    }
  }

  lemma {:induction false} AnalogSnapshotOfIndexed(points: seq<Analog>)
    requires AnalogIndexed(points)
    ensures |AnalogSnapshot(points)| == |points|
    ensures forall k :: 0 <= k < |points| ==>
      AnalogSnapshot(points)[k] == Update(ToU16(k), AnalogValue(points[k].value), OnlineFlags)
  {
    if |points| > 0 {
      AnalogSnapshotOfIndexed(points[..|points| - 1]);
    }
  }

  class IOTable {
    var binaryInputs: seq<Binary>
    var doubleBitInputs: seq<DoubleBit>
    var analogInputs: seq<Analog>
    var binaryOutputs: seq<BinaryOutput<Action>>
    var analogOutputs: seq<AnalogOutput<AnalogAction>>
    /** The slow devices the table created. */
    ghost var devices: set<SlowDevice>

    constructor()
      ensures binaryInputs == [] && doubleBitInputs == [] && analogInputs == []
      ensures binaryOutputs == [] && analogOutputs == []
      ensures Valid() && Indexed()
    {
      binaryInputs := [];
      doubleBitInputs := [];
      analogInputs := [];
      binaryOutputs := [];
      analogOutputs := [];
      devices := {};
    }

    ghost predicate BinaryOutputsIndexed()
      reads this`binaryOutputs, binaryOutputs`index
    {
      forall k :: 0 <= k < |binaryOutputs| ==> binaryOutputs[k].index == Some(ToU16(k))
    }

    ghost predicate AnalogOutputsIndexed()
      reads this`analogOutputs, analogOutputs`index
    {
      forall k :: 0 <= k < |analogOutputs| ==> analogOutputs[k].index == Some(ToU16(k))
    }

    /** Every point and output sits at the index of its position in its list. */
    ghost predicate Indexed()
      reads this`binaryInputs, binaryInputs`index, this`doubleBitInputs, doubleBitInputs`index
      reads this`analogInputs, analogInputs`index, this`binaryOutputs, binaryOutputs`index
      reads this`analogOutputs, analogOutputs`index
    {
      && BinaryIndexed(binaryInputs) && DoubleBitIndexed(doubleBitInputs) && AnalogIndexed(analogInputs)
      && BinaryOutputsIndexed() && AnalogOutputsIndexed()
    }

    /** `outputs` are pairwise distinct and none of them is in `existing`. */
    static ghost predicate NewOutputs(outputs: seq<BinaryOutput<Action>>, existing: seq<BinaryOutput<Action>>)
    {
      && (forall i, j :: 0 <= i < j < |outputs| ==> outputs[i] != outputs[j])
      && (forall i :: 0 <= i < |outputs| ==> outputs[i] !in existing)
    }

    /**
     * Every slow device a binary output commands is one of `devices`, and each of those
     * has its status point: the table's factories assign a device's input before
     * creating its outputs, and operating a slow device reads its status.
     */
    ghost predicate Valid()
      reads this`binaryOutputs, this`devices, devices`status
    {
      && (forall k :: 0 <= k < |binaryOutputs| ==> DecoderDevices(binaryOutputs[k].decoder) <= devices)
      && (forall d :: d in devices ==> d.status != null)
    }

    /** Every output of a valid table can be operated. */
    lemma ReadyAt(k: int)
      requires Valid() && 0 <= k < |binaryOutputs|
      ensures DecoderReady(binaryOutputs[k].decoder)
    {
      var d := binaryOutputs[k].decoder;
      forall a | a in ActionsOf(d)
        ensures ActionReady(a)
      {
        assert ActionDevices(a) <= DecoderDevices(d);
      }
    }

    method RegisterBinaryInput(input: Binary)
      modifies this`binaryInputs, input`index
      ensures binaryInputs == old(binaryInputs) + [input] && input.index == Some(ToU16(|old(binaryInputs)|))
      ensures old(BinaryIndexed(binaryInputs)) && input !in old(binaryInputs) ==> BinaryIndexed(binaryInputs)
    {
      binaryInputs := binaryInputs + [input];
      input.SetIndex(LastIndex(|binaryInputs|));
    }

    method RegisterDoubleBitInput(input: DoubleBit)
      modifies this`doubleBitInputs, input`index
      ensures doubleBitInputs == old(doubleBitInputs) + [input] && input.index == Some(ToU16(|old(doubleBitInputs)|))
      ensures old(DoubleBitIndexed(doubleBitInputs)) && input !in old(doubleBitInputs) ==>
        DoubleBitIndexed(doubleBitInputs)
    {
      doubleBitInputs := doubleBitInputs + [input];
      input.SetIndex(LastIndex(|doubleBitInputs|));
    }

    method RegisterAnalogInput(input: Analog)
      modifies this`analogInputs, input`index
      ensures analogInputs == old(analogInputs) + [input] && input.index == Some(ToU16(|old(analogInputs)|))
      ensures old(AnalogIndexed(analogInputs)) && input !in old(analogInputs) ==> AnalogIndexed(analogInputs)
    {
      analogInputs := analogInputs + [input];
      input.SetIndex(LastIndex(|analogInputs|));
    }

    method RegisterBinaryOutput(output: BinaryOutput<Action>)
      modifies this`binaryOutputs, output`index
      ensures binaryOutputs == old(binaryOutputs) + [output] && output.index == Some(ToU16(|old(binaryOutputs)|))
      ensures old(BinaryOutputsIndexed()) && output !in old(binaryOutputs) ==> BinaryOutputsIndexed()
      ensures old(Valid()) && DecoderDevices(output.decoder) <= devices ==> Valid()
    {
      binaryOutputs := binaryOutputs + [output];
      output.SetIndex(LastIndex(|binaryOutputs|));
    }

    method RegisterAnalogOutput(output: AnalogOutput<AnalogAction>)
      modifies this`analogOutputs, output`index
      ensures analogOutputs == old(analogOutputs) + [output] && output.index == Some(ToU16(|old(analogOutputs)|))
      ensures old(AnalogOutputsIndexed()) && output !in old(analogOutputs) ==> AnalogOutputsIndexed()
    {
      analogOutputs := analogOutputs + [output];
      output.SetIndex(LastIndex(|analogOutputs|));
    }

    /** Registers `outputs` in order, as the breaker and slow-device factories do. */
    method RegisterBinaryOutputs(outputs: seq<BinaryOutput<Action>>)
      requires Valid()
      requires forall i :: 0 <= i < |outputs| ==> DecoderDevices(outputs[i].decoder) <= devices
      modifies this`binaryOutputs, outputs`index
      ensures binaryOutputs == old(binaryOutputs) + outputs
      ensures Valid()
      ensures NewOutputs(outputs, old(binaryOutputs)) ==>
        && (forall k :: |old(binaryOutputs)| <= k < |binaryOutputs| ==> binaryOutputs[k].index == Some(ToU16(k)))
        && (old(BinaryOutputsIndexed()) ==> BinaryOutputsIndexed())
    {
      ghost var isNew := NewOutputs(outputs, binaryOutputs);
      var i := 0;
      while i < |outputs|
        invariant 0 <= i <= |outputs|
        invariant binaryOutputs == old(binaryOutputs) + outputs[..i]
        invariant Valid()
        invariant isNew ==> forall k :: |old(binaryOutputs)| <= k < |binaryOutputs| ==>
          binaryOutputs[k].index == Some(ToU16(k))
        invariant isNew ==> forall k :: 0 <= k < |old(binaryOutputs)| ==>
          binaryOutputs[k].index == old(binaryOutputs[k].index)
      {
        RegisterBinaryOutput(outputs[i]);
        assert outputs[..i + 1] == outputs[..i] + [outputs[i]];
        i := i + 1;
      }
      assert outputs[..i] == outputs;
    }

    /** One database entry per input index, configured as the input registered there. */
    method ConfigureDatabase() returns (config: DatabaseConfig)
      ensures forall idx: u16 :: idx in config.binaryInput <==> (idx as int) < |binaryInputs|
      ensures forall idx: u16 :: (idx as int) < |binaryInputs| ==>
        config.binaryInput[idx] == binaryInputs[idx].Config()
      ensures forall idx: u16 :: idx in config.doubleBinary <==> (idx as int) < |doubleBitInputs|
      ensures forall idx: u16 :: (idx as int) < |doubleBitInputs| ==>
        config.doubleBinary[idx] == doubleBitInputs[idx].Config()
      ensures forall idx: u16 :: idx in config.analogInput <==> (idx as int) < |analogInputs|
      ensures forall idx: u16 :: (idx as int) < |analogInputs| ==>
        config.analogInput[idx] == analogInputs[idx].Config()
    {
      var binary: map<u16, PointConfig> := map[];
      var i := 0;
      while i < |binaryInputs|
        invariant 0 <= i <= |binaryInputs|
        invariant forall idx: u16 :: idx in binary <==> (idx as int) < Min(i, 0x1_0000)
        invariant forall idx: u16 :: idx in binary ==> binary[idx] == binaryInputs[idx].Config()
      {
        var idx := ToU16(i);
        binary := binary[idx := binaryInputs[idx].Config()];
        i := i + 1;
      }
      var doubleBinary: map<u16, PointConfig> := map[];
      i := 0;
      while i < |doubleBitInputs|
        invariant 0 <= i <= |doubleBitInputs|
        invariant forall idx: u16 :: idx in doubleBinary <==> (idx as int) < Min(i, 0x1_0000)
        invariant forall idx: u16 :: idx in doubleBinary ==> doubleBinary[idx] == doubleBitInputs[idx].Config()
      {
        var idx := ToU16(i);
        doubleBinary := doubleBinary[idx := doubleBitInputs[idx].Config()];
        i := i + 1;
      }
      var analog: map<u16, AnalogConfig> := map[];
      i := 0;
      while i < |analogInputs|
        invariant 0 <= i <= |analogInputs|
        invariant forall idx: u16 :: idx in analog <==> (idx as int) < Min(i, 0x1_0000)
        invariant forall idx: u16 :: idx in analog ==> analog[idx] == analogInputs[idx].Config()
      {
        var idx := ToU16(i);
        analog := analog[idx := analogInputs[idx].Config()];
        i := i + 1;
      }
      config := DatabaseConfig(binary, doubleBinary, analog);
    }

    /**
     * Attaches every input to `os` and rewrites its current value, so the outstation
     * receives the inputs' values, binary inputs first, then double-bit, then analog.
     */
    method RegisterOutstation(os: Outstation)
      modifies binaryInputs`outstation, binaryInputs`value
      modifies doubleBitInputs`outstation, doubleBitInputs`value
      modifies analogInputs`outstation, analogInputs`value, os`applied
      ensures os.applied == old(os.applied) + old(BinarySnapshot(binaryInputs))
                            + old(DoubleBitSnapshot(doubleBitInputs)) + old(AnalogSnapshot(analogInputs))
    {
      ghost var doubleBits := DoubleBitSnapshot(doubleBitInputs);
      ghost var analogs := AnalogSnapshot(analogInputs);
      AttachBinaryInputs(os);
      assert DoubleBitSnapshot(doubleBitInputs) == doubleBits;
      assert AnalogSnapshot(analogInputs) == analogs;
      AttachDoubleBitInputs(os);
      assert AnalogSnapshot(analogInputs) == analogs;
      AttachAnalogInputs(os);
    }

    method AttachBinaryInputs(os: Outstation)
      modifies binaryInputs`outstation, binaryInputs`value, os`applied
      ensures forall k :: 0 <= k < |binaryInputs| ==>
        binaryInputs[k].outstation == os && binaryInputs[k].value == old(binaryInputs[k].value)
      ensures os.applied == old(os.applied) + old(BinarySnapshot(binaryInputs))
    {
      var i := 0;
      while i < |binaryInputs|
        invariant 0 <= i <= |binaryInputs|
        invariant forall k :: 0 <= k < i ==> binaryInputs[k].outstation == os
        invariant forall k :: 0 <= k < |binaryInputs| ==> binaryInputs[k].value == old(binaryInputs[k].value)
        invariant forall k :: 0 <= k < |binaryInputs| ==> binaryInputs[k].index == old(binaryInputs[k].index)
        invariant os.applied == old(os.applied) + old(BinarySnapshot(binaryInputs[..i]))
      {
        var input := binaryInputs[i];
        input.RegisterOutstation(os);
        input.Write(input.Read());
        assert binaryInputs[..i + 1][..i] == binaryInputs[..i];
        i := i + 1;
      }
      assert binaryInputs[..i] == binaryInputs;
    }

    method AttachDoubleBitInputs(os: Outstation)
      modifies doubleBitInputs`outstation, doubleBitInputs`value, os`applied
      ensures forall k :: 0 <= k < |doubleBitInputs| ==>
        doubleBitInputs[k].outstation == os && doubleBitInputs[k].Read() == old(doubleBitInputs[k].Read())
      ensures os.applied == old(os.applied) + old(DoubleBitSnapshot(doubleBitInputs))
    {
      var i := 0;
      while i < |doubleBitInputs|
        invariant 0 <= i <= |doubleBitInputs|
        invariant forall k :: 0 <= k < i ==> doubleBitInputs[k].outstation == os
        invariant forall k :: 0 <= k < |doubleBitInputs| ==> doubleBitInputs[k].Read() == old(doubleBitInputs[k].Read())
        invariant forall k :: 0 <= k < |doubleBitInputs| ==> doubleBitInputs[k].index == old(doubleBitInputs[k].index)
        invariant os.applied == old(os.applied) + old(DoubleBitSnapshot(doubleBitInputs[..i]))
      {
        var input := doubleBitInputs[i];
        input.RegisterOutstation(os);
        input.Write(input.Read());
        assert doubleBitInputs[..i + 1][..i] == doubleBitInputs[..i];
        i := i + 1;
      }
      assert doubleBitInputs[..i] == doubleBitInputs;
    }

    method AttachAnalogInputs(os: Outstation)
      modifies analogInputs`outstation, analogInputs`value, os`applied
      ensures forall k :: 0 <= k < |analogInputs| ==>
        analogInputs[k].outstation == os && analogInputs[k].value == old(analogInputs[k].value)
      ensures os.applied == old(os.applied) + old(AnalogSnapshot(analogInputs))
    {
      var i := 0;
      while i < |analogInputs|
        invariant 0 <= i <= |analogInputs|
        invariant forall k :: 0 <= k < i ==> analogInputs[k].outstation == os
        invariant forall k :: 0 <= k < |analogInputs| ==> analogInputs[k].value == old(analogInputs[k].value)
        invariant forall k :: 0 <= k < |analogInputs| ==> analogInputs[k].index == old(analogInputs[k].index)
        invariant os.applied == old(os.applied) + old(AnalogSnapshot(analogInputs[..i]))
      {
        var input := analogInputs[i];
        input.RegisterOutstation(os);
        input.Write(input.Read());
        assert analogInputs[..i + 1][..i] == analogInputs[..i];
        i := i + 1;
      }
      assert analogInputs[..i] == analogInputs;
    }

    /** The output kind a CROB at `index` reaches; an index out of range reaches nothing. */
    function OutputDecoder(index: u16): Decoder<Action>
      reads this`binaryOutputs
    {
      if (index as int) < |binaryOutputs| then binaryOutputs[index].decoder else PlainOutput
    }

    /** Select of a CROB: only the index is checked. */
    function SelectCrob(crob: Crob, index: u16): (r: CommandStatus)
      reads this`binaryOutputs
      ensures r == OutOfRange <==> (index as int) >= |binaryOutputs|
      ensures r == Success <==> (index as int) < |binaryOutputs|
    {
      if (index as int) >= |binaryOutputs| then OutOfRange else Success
    }

    /** Operate of a CROB: out of range, or exactly what the output at `index` answers and does. */
    method OperateCrob(crob: Crob, index: u16, handler: UpdateHandler, opType: OperateType)
      returns (status: CommandStatus)
      requires Valid()
      modifies DecoderPoints(OutputDecoder(index))`value, DecoderSinks(OutputDecoder(index))`applied
      modifies DecoderDevices(OutputDecoder(index))`motion, handler`updates
      ensures Valid()
      ensures (index as int) >= |binaryOutputs| ==> status == OutOfRange && handler.updates == old(handler.updates)
      ensures (index as int) < |binaryOutputs| ==>
        && status == Decide(binaryOutputs[index].decoder, crob, opType).status
        && Performed(binaryOutputs[index].decoder, Decide(binaryOutputs[index].decoder, crob, opType).effect, handler)
    {
      if (index as int) >= |binaryOutputs| {
        return OutOfRange;
      }
      ReadyAt(index as int);
      status := OperateOutput(binaryOutputs[index], crob, handler, opType);
    }

    /** Select of an analog command: only 64-bit float commands are supported, checked by index. */
    function SelectAnalog(kind: AnalogCommandKind, index: u16): (r: CommandStatus)
      reads this`analogOutputs
      ensures kind != Double64 ==> r == NotSupported
      ensures kind == Double64 ==> (r == OutOfRange <==> (index as int) >= |analogOutputs|)
      ensures kind == Double64 ==> (r == Success <==> (index as int) < |analogOutputs|)
    {
      if kind != Double64 then NotSupported
      else if (index as int) >= |analogOutputs| then OutOfRange
      else Success
    }

    /** The setpoint controller an analog command at `index` reaches. */
    function AnalogTarget(index: u16): set<SetpointController>
      reads this`analogOutputs
    {
      if (index as int) < |analogOutputs| then {analogOutputs[index].action.controller} else {}
    }

    /** Operate of an analog command: unsupported kind, out of range, or what the analog output does. */
    method OperateAnalog(kind: AnalogCommandKind, value: real, index: u16, opType: OperateType)
      returns (status: CommandStatus)
      modifies AnalogTarget(index)`baseValue
      ensures kind != Double64 ==> status == NotSupported
      ensures kind == Double64 && (index as int) >= |analogOutputs| ==> status == OutOfRange
      ensures kind == Double64 && (index as int) < |analogOutputs| ==>
        && status == DecideAnalog(analogOutputs[index].action, value, opType, analogOutputs[index].requireSelect).status
        && (status == Success ==> analogOutputs[index].action.controller.baseValue == value)
      ensures !(kind == Double64 && (index as int) < |analogOutputs| && status == Success) ==>
        forall c :: c in AnalogTarget(index) ==> c.baseValue == old(c.baseValue)
    {
      if kind != Double64 {
        return NotSupported;
      }
      if (index as int) >= |analogOutputs| {
        return OutOfRange;
      }
      status := OperateAnalogOutput(analogOutputs[index], value, opType);
    }

    /** A latching device: one binary input for its status, one latch output controlling it. */
    method CreateSimpleDevice(name: string) returns (device: SimpleDevice)
      requires Valid()
      modifies this`binaryInputs, this`binaryOutputs
      ensures Valid() && fresh(device) && device.status != null && device.control != null
      ensures fresh(device.status) && fresh(device.control)
      ensures binaryInputs == old(binaryInputs) + [device.status]
      ensures binaryOutputs == old(binaryOutputs) + [device.control]
      ensures device.name == name && device.status.name == Sanitized(name + "_status")
      ensures device.control.decoder == LatchOutput(device.status, false)
      ensures device.control.name == Sanitized(name + "_control")
      ensures device.status.index == Some(ToU16(|old(binaryInputs)|))
      ensures device.control.index == Some(ToU16(|old(binaryOutputs)|))
    {
      var input := new Binary();
      RegisterBinaryInput(input);
      device := new SimpleDevice(name);
      device.AssignInputPoint(input);
      var control := device.CreateControlSignal();
      RegisterBinaryOutput(control);
    }

    /** A breaker: one binary input for its status, then the outputs of its control model. */
    method CreateBreaker(name: string, model: TwoSignalControlModel) returns (breaker: Breaker)
      requires Valid()
      modifies this`binaryInputs, this`binaryOutputs
      ensures Valid() && fresh(breaker) && breaker.Valid() && breaker.status != null && fresh(breaker.status)
      ensures breaker.control.controlModel == model
      ensures binaryInputs == old(binaryInputs) + [breaker.status]
      ensures binaryOutputs == old(binaryOutputs) + breaker.CreateControlSignal()
      ensures breaker.name == name && breaker.status.name == Sanitized(name + "_status")
      ensures breaker.status.index == Some(ToU16(|old(binaryInputs)|))
      ensures forall k :: |old(binaryOutputs)| <= k < |binaryOutputs| ==> binaryOutputs[k].index == Some(ToU16(k))
    {
      var input := new Binary();
      RegisterBinaryInput(input);
      breaker := new Breaker(name, model);
      breaker.AssignInputPoint(input);
      var outputs := breaker.CreateControlSignal();
      assert forall i :: 0 <= i < |outputs| ==> DecoderDevices(outputs[i].decoder) == {};
      RegisterBinaryOutputs(outputs);
    }

    /** A slow switch: one double-bit input for its status, then the outputs of its control model. */
    method CreateSlowDevice(name: string, runtimeMs: u32, model: TwoSignalControlModel)
      returns (device: SlowDevice)
      requires Valid()
      modifies this`doubleBitInputs, this`binaryOutputs, this`devices
      ensures Valid() && fresh(device) && device.Valid() && device.status != null && fresh(device.status)
      ensures device.control.controlModel == model && device.position == 0 && device.motion == Idle
      ensures doubleBitInputs == old(doubleBitInputs) + [device.status]
      ensures binaryOutputs == old(binaryOutputs) + device.CreateControlSignal()
      ensures device.name == name && device.runtimeMs == runtimeMs
      ensures device.status.name == Sanitized(name + "_status") && device.status.Read() == DeterminedOff
      ensures device.status.index == Some(ToU16(|old(doubleBitInputs)|))
      ensures forall k :: |old(binaryOutputs)| <= k < |binaryOutputs| ==> binaryOutputs[k].index == Some(ToU16(k))
    {
      var input := new DoubleBit();
      RegisterDoubleBitInput(input);
      device := new SlowDevice(name, runtimeMs, model);
      device.AssignInputPoint(input);
      AddSlowDeviceOutputs(device);
    }

    /** Records `device` as one of the table's slow devices and registers its control's outputs. */
    method AddSlowDeviceOutputs(device: SlowDevice)
      requires Valid() && device.Valid() && device.status != null
      requires NewOutputs(device.CreateControlSignal(), binaryOutputs)
      modifies this`binaryOutputs, this`devices, device.control.Outputs()`index
      ensures Valid() && devices == old(devices) + {device}
      ensures binaryOutputs == old(binaryOutputs) + device.CreateControlSignal()
      ensures forall k :: |old(binaryOutputs)| <= k < |binaryOutputs| ==> binaryOutputs[k].index == Some(ToU16(k))
      ensures old(BinaryOutputsIndexed()) ==> BinaryOutputsIndexed()
    {
      devices := devices + {device};
      var outputs := device.CreateControlSignal();
      forall i | 0 <= i < |outputs|
        ensures DecoderDevices(outputs[i].decoder) <= devices
      {
        assert ActionsOf(outputs[i].decoder) <= {TripSlowDevice(device), CloseSlowDevice(device)};
      }
      RegisterBinaryOutputs(outputs);
    }

    /** A setpoint controller: one analog input, and an analog output unless it is read-only. */
    method CreateSetpointController(name: string, setpoint: real, variance: real, readOnly: bool)
      returns (device: SetpointController)
      requires Valid()
      modifies this`analogInputs, this`analogOutputs
      ensures Valid() && fresh(device) && device.status != null && fresh(device.status)
      ensures device.baseValue == setpoint && device.variance == variance && device.running
      ensures analogInputs == old(analogInputs) + [device.status]
      ensures readOnly ==> analogOutputs == old(analogOutputs) && device.control == null
      ensures !readOnly ==>
        && device.control != null && fresh(device.control)
        && analogOutputs == old(analogOutputs) + [device.control]
        && device.control.action == SetSetpoint(device) && !device.control.requireSelect
      ensures device.name == name && device.status.name == Sanitized(name + "_status")
      ensures device.status.deadband == variance * 2.0
      ensures device.status.index == Some(ToU16(|old(analogInputs)|))
      ensures !readOnly ==> device.control.index == Some(ToU16(|old(analogOutputs)|))
    {
      var input := new Analog();
      RegisterAnalogInput(input);
      device := new SetpointController(name, setpoint, variance);
      device.AssignInputPoint(input);
      if readOnly {
        return;
      }
      var output := device.CreateControlSignal();
      RegisterAnalogOutput(output);
    }
  }
}

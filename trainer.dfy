/**
 * The trainer outstation's point layout: the devices the program creates at start-up,
 * in order, and the I/O table that results.  Three setpoint controllers (one of them
 * read-only), five latching devices, five breakers with complementary two-output
 * controls, five breakers with activation controls and three slow switches with
 * activation controls.
 */
module Trainer {
  import opened Dnp3
  import opened Controls
  import opened Devices
  import opened IoTable
  import opened Measurements

  /** Decimal text of a natural number, as the standard library's integer formatting gives it. */
  function NumberText(n: nat): (s: string)
    ensures |s| >= 1
    ensures forall i :: 0 <= i < |s| ==> '0' <= s[i] <= '9'
    ensures n < 10 ==> s == [('0' as int + n) as char]
  {
    if n < 10 then [('0' as int + n) as char]
    else NumberText(n / 10) + [('0' as int + n % 10) as char]
  }

  /** Run time of a slow switch from fully open to fully closed. */
  const SwitchRuntimeMs: u32 := 10000

  /** A complementary breaker control: one two-output decoder tripping and closing the same breaker. */
  predicate ComplementaryBreaker(d: Decoder<Action>)
  {
    d.TwoOutput? && d.tripAction.TripBreaker? && d == TwoOutput(d.tripAction, CloseBreaker(d.tripAction.breaker), false)
  }

  /** An activation pair: an output tripping a breaker, then one closing the same breaker. */
  predicate BreakerPair(trip: Decoder<Action>, close: Decoder<Action>)
  {
    && trip.ActivationOutput? && trip.action.TripBreaker? && trip == ActivationOutput(trip.action, false)
    && close == ActivationOutput(CloseBreaker(trip.action.breaker), false)
  }

  /** An activation pair: an output tripping a slow switch, then one closing the same switch. */
  predicate SwitchPair(trip: Decoder<Action>, close: Decoder<Action>)
  {
    && trip.ActivationOutput? && trip.action.TripSlowDevice? && trip == ActivationOutput(trip.action, false)
    && close == ActivationOutput(CloseSlowDevice(trip.action.device), false)
  }

  /**
   * Five latching devices, "Device 0" to "Device 4": one binary input and one latch output
   * on that input each.
   */
  method AddSimpleDevices(table: IOTable) returns (inputs: seq<Binary>, outputs: seq<BinaryOutput<Action>>)
    requires table.Valid()
    modifies table`binaryInputs, table`binaryOutputs
    ensures table.Valid()
    ensures table.binaryInputs == old(table.binaryInputs) + inputs && |inputs| == 5
    ensures forall k :: 0 <= k < |inputs| ==> inputs[k].index == Some(ToU16(|old(table.binaryInputs)| + k))
    ensures forall k :: 0 <= k < |outputs| ==> outputs[k].index == Some(ToU16(|old(table.binaryOutputs)| + k))
    ensures table.binaryOutputs == old(table.binaryOutputs) + outputs && |outputs| == 5
    ensures forall k :: 0 <= k < 5 ==> outputs[k].decoder == LatchOutput(inputs[k], false)
  {
    inputs, outputs := [], [];
    var i := 0;
    while i < 5
      invariant 0 <= i <= 5 && |inputs| == i && |outputs| == i
      invariant table.Valid()
      invariant table.binaryInputs == old(table.binaryInputs) + inputs
      invariant forall k :: 0 <= k < |inputs| ==> inputs[k].index == Some(ToU16(|old(table.binaryInputs)| + k))
      invariant forall k :: 0 <= k < |outputs| ==> outputs[k].index == Some(ToU16(|old(table.binaryOutputs)| + k))
      invariant table.binaryOutputs == old(table.binaryOutputs) + outputs
      invariant forall k :: 0 <= k < i ==> outputs[k].decoder == LatchOutput(inputs[k], false)
    {
      var device := table.CreateSimpleDevice("Device " + NumberText(i));
      inputs, outputs := inputs + [device.status], outputs + [device.control];
      i := i + 1;
    }
  }

  /** Five breakers, "Breaker 0" to "Breaker 4", each with one complementary two-output control. */
  method AddComplementaryBreakers(table: IOTable) returns (inputs: seq<Binary>, outputs: seq<BinaryOutput<Action>>)
    requires table.Valid()
    modifies table`binaryInputs, table`binaryOutputs
    ensures table.Valid()
    ensures table.binaryInputs == old(table.binaryInputs) + inputs && |inputs| == 5
    ensures forall k :: 0 <= k < |inputs| ==> inputs[k].index == Some(ToU16(|old(table.binaryInputs)| + k))
    ensures forall k :: 0 <= k < |outputs| ==> outputs[k].index == Some(ToU16(|old(table.binaryOutputs)| + k))
    ensures table.binaryOutputs == old(table.binaryOutputs) + outputs && |outputs| == 5
    ensures forall k :: 0 <= k < 5 ==> ComplementaryBreaker(outputs[k].decoder)
  {
    inputs, outputs := [], [];
    var i := 0;
    while i < 5
      invariant 0 <= i <= 5 && |outputs| == i
      invariant table.Valid()
      invariant table.binaryInputs == old(table.binaryInputs) + inputs && |inputs| == i
      invariant forall k :: 0 <= k < |inputs| ==> inputs[k].index == Some(ToU16(|old(table.binaryInputs)| + k))
      invariant forall k :: 0 <= k < |outputs| ==> outputs[k].index == Some(ToU16(|old(table.binaryOutputs)| + k))
      invariant table.binaryOutputs == old(table.binaryOutputs) + outputs
      invariant forall k :: 0 <= k < i ==> ComplementaryBreaker(outputs[k].decoder)
    {
      var breaker := table.CreateBreaker("Breaker " + NumberText(i), ComplementaryTwoOutput);
      var added := breaker.CreateControlSignal();
      inputs, outputs := inputs + [breaker.status], outputs + added;
      i := i + 1;
    }
  }

  /** Five breakers, "Breaker 5" to "Breaker 9", each with a trip output then a close output. */
  method AddActivationBreakers(table: IOTable) returns (inputs: seq<Binary>, outputs: seq<BinaryOutput<Action>>)
    requires table.Valid()
    modifies table`binaryInputs, table`binaryOutputs
    ensures table.Valid()
    ensures table.binaryInputs == old(table.binaryInputs) + inputs && |inputs| == 5
    ensures forall k :: 0 <= k < |inputs| ==> inputs[k].index == Some(ToU16(|old(table.binaryInputs)| + k))
    ensures forall k :: 0 <= k < |outputs| ==> outputs[k].index == Some(ToU16(|old(table.binaryOutputs)| + k))
    ensures table.binaryOutputs == old(table.binaryOutputs) + outputs && |outputs| == 10
    ensures forall k :: 0 <= k < |outputs| - 1 && k % 2 == 0 ==> BreakerPair(outputs[k].decoder, outputs[k + 1].decoder)
  {
    inputs, outputs := [], [];
    var i := 0;
    while i < 5
      invariant 0 <= i <= 5 && |outputs| == 2 * i
      invariant table.Valid()
      invariant table.binaryInputs == old(table.binaryInputs) + inputs && |inputs| == i
      invariant forall k :: 0 <= k < |inputs| ==> inputs[k].index == Some(ToU16(|old(table.binaryInputs)| + k))
      invariant forall k :: 0 <= k < |outputs| ==> outputs[k].index == Some(ToU16(|old(table.binaryOutputs)| + k))
      invariant table.binaryOutputs == old(table.binaryOutputs) + outputs
      invariant forall k :: 0 <= k < |outputs| - 1 && k % 2 == 0 ==> BreakerPair(outputs[k].decoder, outputs[k + 1].decoder)
    {
      var breaker := table.CreateBreaker("Breaker " + NumberText(5 + i), Activation);
      var added := breaker.CreateControlSignal();
      forall k | 0 <= k < |outputs + added| - 1 && k % 2 == 0
        ensures BreakerPair((outputs + added)[k].decoder, (outputs + added)[k + 1].decoder)
      {
        if k < |outputs| {
          assert k + 1 < |outputs|;
        } else {
          assert k == |outputs|;
        }
      }
      inputs, outputs := inputs + [breaker.status], outputs + added;
      i := i + 1;
    }
  }

  /** Three slow switches, "Switch 0" to "Switch 2", each with a trip output then a close output. */
  method AddSwitches(table: IOTable) returns (inputs: seq<DoubleBit>, outputs: seq<BinaryOutput<Action>>)
    requires table.Valid()
    modifies table`doubleBitInputs, table`binaryOutputs, table`devices
    ensures table.Valid()
    ensures table.doubleBitInputs == old(table.doubleBitInputs) + inputs && |inputs| == 3
    ensures forall k :: 0 <= k < |inputs| ==> inputs[k].index == Some(ToU16(|old(table.doubleBitInputs)| + k))
    ensures forall k :: 0 <= k < |outputs| ==> outputs[k].index == Some(ToU16(|old(table.binaryOutputs)| + k))
    ensures table.binaryOutputs == old(table.binaryOutputs) + outputs && |outputs| == 6
    ensures forall k :: 0 <= k < |outputs| - 1 && k % 2 == 0 ==> SwitchPair(outputs[k].decoder, outputs[k + 1].decoder)
  {
    inputs, outputs := [], [];
    var i := 0;
    while i < 3
      invariant 0 <= i <= 3 && |outputs| == 2 * i
      invariant table.Valid()
      invariant table.doubleBitInputs == old(table.doubleBitInputs) + inputs && |inputs| == i
      invariant forall k :: 0 <= k < |inputs| ==> inputs[k].index == Some(ToU16(|old(table.doubleBitInputs)| + k))
      invariant forall k :: 0 <= k < |outputs| ==> outputs[k].index == Some(ToU16(|old(table.binaryOutputs)| + k))
      invariant table.binaryOutputs == old(table.binaryOutputs) + outputs
      invariant forall k :: 0 <= k < |outputs| - 1 && k % 2 == 0 ==> SwitchPair(outputs[k].decoder, outputs[k + 1].decoder)
    {
      var device := table.CreateSlowDevice("Switch " + NumberText(i), SwitchRuntimeMs, Activation);
      var added := device.CreateControlSignal();
      forall k | 0 <= k < |outputs + added| - 1 && k % 2 == 0
        ensures SwitchPair((outputs + added)[k].decoder, (outputs + added)[k + 1].decoder)
      {
        if k < |outputs| {
          assert k + 1 < |outputs|;
        } else {
          assert k == |outputs|;
        }
      }
      inputs, outputs := inputs + [device.status], outputs + added;
      i := i + 1;
    }
  }

  /**
   * The three setpoint controllers: temperature (read-only), voltage and frequency, so
   * analog outputs 0 and 1 set the voltage and frequency setpoints.
   */
  method AddSetpointControllers(table: IOTable)
    requires table.Valid() && table.analogInputs == [] && table.analogOutputs == []
    modifies table`analogInputs, table`analogOutputs
    ensures table.Valid()
    ensures |table.analogInputs| == 3 && |table.analogOutputs| == 2
    ensures table.analogOutputs[0].action.controller.name == "Voltage"
    ensures table.analogOutputs[1].action.controller.name == "Frequency"
    ensures forall k :: 0 <= k < 2 ==> !table.analogOutputs[k].requireSelect
    ensures forall k :: 0 <= k < 3 ==> table.analogInputs[k].index == Some(k as u16)
    ensures forall k :: 0 <= k < 2 ==> table.analogOutputs[k].index == Some(k as u16)
  {
    var temperature := table.CreateSetpointController("Temperature", 62.0, 0.5, true);
    var voltage := table.CreateSetpointController("Voltage", 480.0, 0.4, false);
    var frequency := table.CreateSetpointController("Frequency", 60.0, 0.2, false);
  }

  /**
   * The latching devices and the breakers, in creation order: binary outputs 0-4 latch
   * binary inputs 0-4, 5-9 are the complementary breaker controls and 10-19 the activation
   * breaker controls (trip, then close, per breaker); every point and output sits at the
   * index of its position.
   */
  method AddLatchesAndBreakers(table: IOTable)
    requires table.Valid() && table.binaryInputs == [] && table.binaryOutputs == []
    modifies table`binaryInputs, table`binaryOutputs
    ensures table.Valid()
    ensures |table.binaryInputs| == 15 && |table.binaryOutputs| == 20
    ensures forall k :: 0 <= k < 15 ==> table.binaryInputs[k].index == Some(k as u16)
    ensures forall k :: 0 <= k < 20 ==> table.binaryOutputs[k].index == Some(k as u16)
    ensures forall k :: 0 <= k < 5 ==> table.binaryOutputs[k].decoder == LatchOutput(table.binaryInputs[k], false)
    ensures forall k :: 5 <= k < 10 ==> ComplementaryBreaker(table.binaryOutputs[k].decoder)
    ensures forall m :: 0 <= m < 5 ==>
      BreakerPair(table.binaryOutputs[10 + 2 * m].decoder, table.binaryOutputs[11 + 2 * m].decoder)
  {
    var latchInputs, latches := AddSimpleDevices(table);
    ghost var outputs1, inputs1 := table.binaryOutputs, table.binaryInputs;
    assert outputs1 == latches && inputs1 == latchInputs;
    var complementaryInputs, complementary := AddComplementaryBreakers(table);
    ghost var outputs2, inputs2 := table.binaryOutputs, table.binaryInputs;
    assert outputs2 == outputs1 + complementary && inputs2 == inputs1 + complementaryInputs;
    var activationInputs, activation := AddActivationBreakers(table);
    assert table.binaryOutputs == outputs2 + activation && table.binaryInputs == inputs2 + activationInputs;
    forall k | 0 <= k < 15 ensures table.binaryInputs[k].index == Some(k as u16) {
      if k < 5 {
        assert table.binaryInputs[k] == latchInputs[k];
      } else if k < 10 {
        assert table.binaryInputs[k] == complementaryInputs[k - 5];
      } else {
        assert table.binaryInputs[k] == activationInputs[k - 10];
      }
    }
    forall k | 0 <= k < 20 ensures table.binaryOutputs[k].index == Some(k as u16) {
      if k < 5 {
        assert table.binaryOutputs[k] == latches[k];
      } else if k < 10 {
        assert table.binaryOutputs[k] == complementary[k - 5];
      } else {
        assert table.binaryOutputs[k] == activation[k - 10];
      }
    }
    forall m | 0 <= m < 5
      ensures BreakerPair(table.binaryOutputs[10 + 2 * m].decoder, table.binaryOutputs[11 + 2 * m].decoder)
    {
      assert table.binaryOutputs[10 + 2 * m] == activation[2 * m];
      assert table.binaryOutputs[11 + 2 * m] == activation[2 * m + 1];
    }
  }

  /**
   * The binary devices in creation order: the latching devices and the breakers, then three
   * slow switches whose controls are binary outputs 20-25 (trip, then close, per switch).
   */
  method AddBinaryDevices(table: IOTable)
    requires table.Valid() && table.binaryInputs == [] && table.doubleBitInputs == [] && table.binaryOutputs == []
    modifies table`binaryInputs, table`doubleBitInputs, table`binaryOutputs, table`devices
    ensures table.Valid()
    ensures |table.binaryInputs| == 15 && |table.doubleBitInputs| == 3 && |table.binaryOutputs| == 26
    ensures forall k :: 0 <= k < 15 ==> table.binaryInputs[k].index == Some(k as u16)
    ensures forall k :: 0 <= k < 3 ==> table.doubleBitInputs[k].index == Some(k as u16)
    ensures forall k :: 0 <= k < 26 ==> table.binaryOutputs[k].index == Some(k as u16)
    ensures forall k :: 0 <= k < 5 ==> table.binaryOutputs[k].decoder == LatchOutput(table.binaryInputs[k], false)
    ensures forall k :: 5 <= k < 10 ==> ComplementaryBreaker(table.binaryOutputs[k].decoder)
    ensures forall m :: 0 <= m < 5 ==>
      BreakerPair(table.binaryOutputs[10 + 2 * m].decoder, table.binaryOutputs[11 + 2 * m].decoder)
    ensures forall m :: 0 <= m < 3 ==>
      SwitchPair(table.binaryOutputs[20 + 2 * m].decoder, table.binaryOutputs[21 + 2 * m].decoder)
  {
    AddLatchesAndBreakers(table);
    ghost var outputs := table.binaryOutputs;
    var switchInputs, switches := AddSwitches(table);
    assert table.binaryOutputs == outputs + switches && table.doubleBitInputs == switchInputs;
    forall m | 0 <= m < 3
      ensures SwitchPair(table.binaryOutputs[20 + 2 * m].decoder, table.binaryOutputs[21 + 2 * m].decoder)
    {
      assert table.binaryOutputs[20 + 2 * m] == switches[2 * m];
      assert table.binaryOutputs[21 + 2 * m] == switches[2 * m + 1];
    }
  }

  /**
   * The start-up layout: the three setpoint controllers, so analog outputs 0 and 1 set the
   * voltage and frequency setpoints (the temperature controller is read-only), then the
   * binary devices.  Every point and output sits at the index of its position.
   */
  method Layout() returns (table: IOTable)
    ensures fresh(table) && table.Valid()
    ensures |table.binaryInputs| == 15 && |table.doubleBitInputs| == 3 && |table.analogInputs| == 3
    ensures |table.binaryOutputs| == 26 && |table.analogOutputs| == 2
    ensures forall k :: 0 <= k < 15 ==> table.binaryInputs[k].index == Some(k as u16)
    ensures forall k :: 0 <= k < 3 ==> table.doubleBitInputs[k].index == Some(k as u16)
    ensures forall k :: 0 <= k < 3 ==> table.analogInputs[k].index == Some(k as u16)
    ensures forall k :: 0 <= k < 26 ==> table.binaryOutputs[k].index == Some(k as u16)
    ensures forall k :: 0 <= k < 2 ==> table.analogOutputs[k].index == Some(k as u16)
    ensures forall k :: 0 <= k < 5 ==> table.binaryOutputs[k].decoder == LatchOutput(table.binaryInputs[k], false)
    ensures forall k :: 5 <= k < 10 ==> ComplementaryBreaker(table.binaryOutputs[k].decoder)
    ensures forall m :: 0 <= m < 5 ==>
      BreakerPair(table.binaryOutputs[10 + 2 * m].decoder, table.binaryOutputs[11 + 2 * m].decoder)
    ensures forall m :: 0 <= m < 3 ==>
      SwitchPair(table.binaryOutputs[20 + 2 * m].decoder, table.binaryOutputs[21 + 2 * m].decoder)
    ensures table.analogOutputs[0].action.controller.name == "Voltage"
    ensures table.analogOutputs[1].action.controller.name == "Frequency"
    ensures forall k :: 0 <= k < 2 ==> !table.analogOutputs[k].requireSelect
  {
    table := new IOTable();
    AddSetpointControllers(table);
    ghost var analogInputs, analogOutputs := table.analogInputs, table.analogOutputs;
    AddBinaryDevices(table);
    assert table.analogInputs == analogInputs && table.analogOutputs == analogOutputs;
  }
}

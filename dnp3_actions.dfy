/**
 * The scripted master actions: class headers and trip/close codes from numbers, and
 * the loops that send control commands over a stepped range of indices (select
 * before operate, brute-force toggling of output pairs, switching every breaker on
 * or off).  The master is modelled as the log of requests it receives; the pauses
 * between requests are not modelled.
 */
module Dnp3Actions {
  import opened Dnp3

  /** The header for a class number: 0 is static data, 1 to 3 event data; any other number gives an empty header. */
  function GetHeader(c: int): (h: Header)
    ensures 0 <= c <= 3 <==> h.ClassHeader?
    ensures 0 <= c <= 3 ==> h.pointClass == [Class0, Class1, Class2, Class3][c]
    ensures !(0 <= c <= 3) ==> h == EmptyHeader
  {
    if c == 0 then ClassHeader(Class0)
    else if c == 1 then ClassHeader(Class1)
    else if c == 2 then ClassHeader(Class2)
    else if c == 3 then ClassHeader(Class3)
    else EmptyHeader
  }

  /** The trip/close code for a number: 1 closes, 2 trips, every other number is NUL. */
  function GetTripCloseCode(code: u8): (t: TripCloseCode)
    ensures t == Close <==> code == 1
    ensures t == Trip <==> code == 2
    ensures t == TripCloseCode.Nul <==> code != 1 && code != 2
  {
    if code == 1 then Close
    else if code == 2 then Trip
    else TripCloseCode.Nul
  }

  /**
   * Numbering inverts the wire encoding of the three codes the scripts use; the
   * reserved code cannot be chosen and falls back to NUL.
   */
  lemma TripCloseCodeRoundTrip(t: TripCloseCode)
    ensures t != Reserved ==> GetTripCloseCode(TripCloseCodeToType(t)) == t
    ensures t == Reserved ==> GetTripCloseCode(TripCloseCodeToType(t)) == TripCloseCode.Nul
  {
  }

  /** The headers for a list of class numbers, one per number, in order. */
  function ClassHeaders(classes: seq<int>): (v: seq<Header>)
    ensures |v| == |classes|
    ensures forall k :: 0 <= k < |classes| ==> v[k] == GetHeader(classes[k])
  {
    seq(|classes|, k requires 0 <= k < |classes| => GetHeader(classes[k]))
  }

  /** Appends to `v0` exactly one header per class number, in order. */
  method ParseClasses(classes: seq<int>, v0: seq<Header>) returns (v: seq<Header>)
    ensures v == v0 + ClassHeaders(classes)
  {
    v := v0;
    var i := 0;
    while i < |classes|
      invariant 0 <= i <= |classes|
      invariant v == v0 + ClassHeaders(classes[..i])
    {
      assert ClassHeaders(classes[..i + 1]) == ClassHeaders(classes[..i]) + [GetHeader(classes[i])];
      v := v + [GetHeader(classes[i])];
      i := i + 1;
    }
    assert classes[..|classes|] == classes;
  }

  /** Asks the outstation to stop unsolicited responses for the given classes. */
  method DisableUnsolicitedMessagesOnOutstation(master: Master, classes: seq<int>)
    modifies master`calls
    ensures master.calls == old(master.calls) +
      [PerformFunctionCall("disable unsolicited", DisableUnsolicited, ClassHeaders(classes))]
  {
    var v := ParseClasses(classes, []);
    assert v == ClassHeaders(classes);
    master.Send(PerformFunctionCall("disable unsolicited", DisableUnsolicited, v));
  }

  /** Asks the outstation to send unsolicited responses for the given classes. */
  method EnableUnsolicitedMessagesOnOutstation(master: Master, classes: seq<int>)
    modifies master`calls
    ensures master.calls == old(master.calls) +
      [PerformFunctionCall("enable unsolicited", EnableUnsolicited, ClassHeaders(classes))]
  {
    var v := ParseClasses(classes, []);
    assert v == ClassHeaders(classes);
    master.Send(PerformFunctionCall("enable unsolicited", EnableUnsolicited, v));
  }

  /**
   * The indices `for (i = start; i <= end; i += step)` visits.  The loop ends only
   * when the step is positive or the range is empty, which the precondition demands.
   */
  function SteppedRange(start: int, end: int, step: int): seq<int>
    requires step > 0 || start > end
    decreases if start > end then 0 else end - start + 1
  {
    if start > end then [] else [start] + SteppedRange(start + step, end, step)
  }

  /**
   * The visited indices are start, start + step, ... in that order, none past `end`,
   * and the next one would be past `end`: exactly the multiples of the step within range.
   */
  lemma {:induction false} SteppedRangeElements(start: int, end: int, step: int)
    requires step > 0
    ensures var r := SteppedRange(start, end, step);
      (forall k :: 0 <= k < |r| ==> r[k] == start + k * step && r[k] <= end)
      && start + |r| * step > end
    decreases if start > end then 0 else end - start + 1
  {
    if start <= end {
      SteppedRangeElements(start + step, end, step);
      var r := SteppedRange(start, end, step);
      var rest := SteppedRange(start + step, end, step);
      assert r == [start] + rest;
      forall k | 0 <= k < |r|
        ensures r[k] == start + k * step && r[k] <= end
      {
        if k > 0 {
          assert r[k] == rest[k - 1] == start + step + (k - 1) * step;
        }
      }
      assert start + step + |rest| * step == start + |r| * step;
    }
  }

  /** The loop counter after `n` iterations of `i = i + step` from `start`. */
  function Counter(start: int, step: int, n: nat): int
    decreases n
  {
    if n == 0 then start else Counter(start, step, n - 1) + step
  }

  /**
   * As written, the command line passes `--step` to the stepped loops unchecked: with a step
   * of zero or less and a non-empty range the counter never passes `end`, so the loop never ends.
   */
  lemma {:induction false} UncheckedStepNeverEnds(start: int, end: int, step: int, n: nat)
    requires step <= 0 && start <= end
    ensures Counter(start, step, n) <= end
    decreases n
  {
    if n > 0 {
      UncheckedStepNeverEnds(start, end, step, n - 1);
    }
  }

  /** The `--step` option as the stepped loops need it: accepted only when positive. */
  function CheckedStep(step: int): (r: Option<int>)
    ensures r.Some? <==> step > 0
    ensures r.Some? ==> r.value == step
  {
    if step > 0 then Some(step) else None
  }

  /** The counter after `n` iterations is `start + n * step`. */
  lemma {:induction false} CounterClosedForm(start: int, step: int, n: nat)
    ensures Counter(start, step, n) == start + n * step
    decreases n
  {
    if n > 0 {
      CounterClosedForm(start, step, n - 1);
    }
  }

  /**
   * With a checked step the loop ends: the counter stays within the range for exactly the
   * iterations of the stepped range and has passed `end` after the last of them.
   */
  lemma CheckedStepLoopEnds(start: int, end: int, step: int)
    requires CheckedStep(step).Some?
    ensures var n := |SteppedRange(start, end, step)|;
      Counter(start, step, n) > end && forall k :: 0 <= k < n ==> Counter(start, step, k) <= end
  {
    var r := SteppedRange(start, end, step);
    SteppedRangeElements(start, end, step);
    CounterClosedForm(start, step, |r|);
    forall k | 0 <= k < |r|
      ensures Counter(start, step, k) <= end
    {
      CounterClosedForm(start, step, k);
      assert r[k] == start + k * step;
    }
  }

  /** How the brute-force and toggle actions send, by operate type: 0 select-and-operate, 1 direct; others send nothing. */
  function OperateTypeMode(operateType: u8): (r: Option<CommandMode>)
    ensures r == Some(ViaSelectAndOperate) <==> operateType == 0
    ensures r == Some(ViaDirectOperate) <==> operateType == 1
    ensures r == None <==> operateType > 1
  {
    if operateType == 0 then Some(ViaSelectAndOperate)
    else if operateType == 1 then Some(ViaDirectOperate)
    else None
  }

  /**
   * One single-CROB request per index, in order, each index narrowed to 16 bits; no
   * request at all without a way to send.
   */
  function CrobCalls(mode: Option<CommandMode>, crob: Crob, indices: seq<int>): (r: seq<MasterCall>)
    ensures mode.None? ==> r == []
    ensures mode.Some? ==> |r| == |indices|
    ensures mode.Some? ==> forall k :: 0 <= k < |indices| ==>
      r[k] == SingleCrobCall(mode.value, crob, ToU16(indices[k]))
  {
    match mode
    case None => []
    case Some(m) => seq(|indices|, k requires 0 <= k < |indices| => SingleCrobCall(m, crob, ToU16(indices[k])))
  }

  /** Sends the same CROB to every index of the stepped range. */
  method SendEach(master: Master, mode: Option<CommandMode>, crob: Crob, start: int, end: int, step: int)
    requires step > 0 || start > end
    modifies master`calls
    ensures master.calls == old(master.calls) + CrobCalls(mode, crob, SteppedRange(start, end, step))
  {
    var i := start;
    ghost var done: seq<int> := [];
    while i <= end
      invariant step > 0 || i > end
      invariant done + SteppedRange(i, end, step) == SteppedRange(start, end, step)
      invariant master.calls == old(master.calls) + CrobCalls(mode, crob, done)
      decreases end - i
    {
      if mode.Some? {
        master.Send(SingleCrobCall(mode.value, crob, ToU16(i)));
      }
      assert CrobCalls(mode, crob, done + [i]) == CrobCalls(mode, crob, done) +
        (if mode.Some? then [SingleCrobCall(mode.value, crob, ToU16(i))] else []);
      done := done + [i];
      i := i + step;
    }
  }

  /** Select-before-operate of the same CROB over start, start + step, ... up to end. */
  method Sbo(master: Master, opType: OperationType, tripCode: u8, start: int, end: int, step: int)
    requires step > 0 || start > end
    modifies master`calls
    ensures master.calls == old(master.calls) +
      CrobCalls(Some(ViaSelectAndOperate), MakeCrob(opType, GetTripCloseCode(tripCode), false, 1),
                SteppedRange(start, end, step))
  {
    SendEach(master, Some(ViaSelectAndOperate), MakeCrob(opType, GetTripCloseCode(tripCode), false, 1),
             start, end, step);
  }

  /** Switches every breaker in the stepped range on: PULSE_ON with TRIP. */
  method ToggleOnAllBreakers(master: Master, operateType: u8, start: int, end: int, step: int)
    requires step > 0 || start > end
    modifies master`calls
    ensures master.calls == old(master.calls) +
      CrobCalls(OperateTypeMode(operateType), MakeCrob(PulseOn, Trip, false, 1), SteppedRange(start, end, step))
  {
    SendEach(master, OperateTypeMode(operateType), MakeCrob(PulseOn, Trip, false, 1), start, end, step);
  }

  /** Switches every breaker in the stepped range off: PULSE_OFF with CLOSE. */
  method ToggleOffAllBreakers(master: Master, operateType: u8, start: int, end: int, step: int)
    requires step > 0 || start > end
    modifies master`calls
    ensures master.calls == old(master.calls) +
      CrobCalls(OperateTypeMode(operateType), MakeCrob(PulseOff, Close, false, 1), SteppedRange(start, end, step))
  {
    SendEach(master, OperateTypeMode(operateType), MakeCrob(PulseOff, Close, false, 1), start, end, step);
  }

  /**
   * The requests of one brute-force pass: for each j, the `off` CROB to j and then the
   * `on` CROB to j + 1.
   */
  function PairCalls(mode: Option<CommandMode>, off: Crob, on: Crob, js: seq<int>): (r: seq<MasterCall>)
    ensures mode.None? ==> r == []
    ensures mode.Some? ==> |r| == 2 * |js|
  {
    if mode.None? || |js| == 0 then []
    else PairCalls(mode, off, on, js[..|js| - 1])
         + [SingleCrobCall(mode.value, off, ToU16(js[|js| - 1])), SingleCrobCall(mode.value, on, ToU16(js[|js| - 1] + 1))]
  }

  /** The k-th index of a pass receives the `off` CROB, and the output after it the `on` CROB. */
  lemma {:induction false} PairCallsElements(mode: Option<CommandMode>, off: Crob, on: Crob, js: seq<int>)
    ensures mode.Some? ==> forall k :: 0 <= k < |js| ==>
      PairCalls(mode, off, on, js)[2 * k] == SingleCrobCall(mode.value, off, ToU16(js[k]))
      && PairCalls(mode, off, on, js)[2 * k + 1] == SingleCrobCall(mode.value, on, ToU16(js[k] + 1))
    decreases |js|
  {
    if mode.Some? && |js| > 0 {
      var front := js[..|js| - 1];
      PairCallsElements(mode, off, on, front);
      forall k | 0 <= k < |js| - 1
        ensures PairCalls(mode, off, on, js)[2 * k] == SingleCrobCall(mode.value, off, ToU16(js[k]))
        ensures PairCalls(mode, off, on, js)[2 * k + 1] == SingleCrobCall(mode.value, on, ToU16(js[k] + 1))
      {
        assert front[k] == js[k];
      }
    }
  }

  /** Pairing one more index appends its two requests. */
  lemma PairCallsAppend(mode: Option<CommandMode>, off: Crob, on: Crob, js: seq<int>, j: int)
    ensures PairCalls(mode, off, on, js + [j]) == PairCalls(mode, off, on, js) +
      (if mode.Some? then [SingleCrobCall(mode.value, off, ToU16(j)), SingleCrobCall(mode.value, on, ToU16(j + 1))] else [])
  {
    assert (js + [j])[..|js|] == js;
  }

  /** The body of a brute-force pass: the `off` CROB to j, then the `on` CROB to j + 1. */
  method SendPair(master: Master, mode: Option<CommandMode>, off: Crob, on: Crob, j: int)
    modifies master`calls
    ensures master.calls == old(master.calls) +
      (if mode.Some? then [SingleCrobCall(mode.value, off, ToU16(j)), SingleCrobCall(mode.value, on, ToU16(j + 1))] else [])
  {
    if mode.Some? {
      master.Send(SingleCrobCall(mode.value, off, ToU16(j)));
      master.Send(SingleCrobCall(mode.value, on, ToU16(j + 1)));
    }
  }

  /** One pass over j = start, start + 2, ... up to end. */
  method BruteForcePass(master: Master, mode: Option<CommandMode>, off: Crob, on: Crob, start: int, end: int)
    modifies master`calls
    ensures master.calls == old(master.calls) + PairCalls(mode, off, on, SteppedRange(start, end, 2))
  {
    var j := start;
    ghost var done: seq<int> := [];
    while j <= end
      invariant done + SteppedRange(j, end, 2) == SteppedRange(start, end, 2)
      invariant master.calls == old(master.calls) + PairCalls(mode, off, on, done)
      decreases end - j
    {
      SendPair(master, mode, off, on, j);
      PairCallsAppend(mode, off, on, done, j);
      assert SteppedRange(j, end, 2) == [j] + SteppedRange(j + 2, end, 2);
      done := done + [j];
      j := j + 2;
    }
    assert done == done + SteppedRange(j, end, 2);
  }

  /** `n` copies of `s`, one after another. */
  function Repeat(s: seq<MasterCall>, n: nat): (r: seq<MasterCall>)
    ensures |r| == n * |s|
    ensures s == [] ==> r == []
  {
    if n == 0 then [] else Repeat(s, n - 1) + s
  }

  /**
   * Toggles output pairs over the index range `iterations` times: PULSE_OFF with the
   * `tripOff` code to j, then PULSE_ON with the `tripOn` code to j + 1, for j = start,
   * start + 2, ... up to end.  Operate type 0 uses select-and-operate, 1 direct operate,
   * and any other type sends nothing.
   */
  method BruteForceOutstation(master: Master, operateType: u8, start: int, end: int, iterations: int,
                              tripOn: u8, tripOff: u8, onTimeMs: u32, offTimeMs: u32)
    modifies master`calls
    ensures var off := Crob(PulseOff, GetTripCloseCode(tripOff), false, 1, onTimeMs, offTimeMs);
      var on := Crob(PulseOn, GetTripCloseCode(tripOn), false, 1, onTimeMs, offTimeMs);
      master.calls == old(master.calls) +
        Repeat(PairCalls(OperateTypeMode(operateType), off, on, SteppedRange(start, end, 2)),
               if iterations > 0 then iterations else 0)
  {
    var off := Crob(PulseOff, GetTripCloseCode(tripOff), false, 1, onTimeMs, offTimeMs);
    var on := Crob(PulseOn, GetTripCloseCode(tripOn), false, 1, onTimeMs, offTimeMs);
    ghost var pass := PairCalls(OperateTypeMode(operateType), off, on, SteppedRange(start, end, 2));
    var i := 0;
    while i < iterations
      invariant 0 <= i <= (if iterations > 0 then iterations else 0)
      invariant master.calls == old(master.calls) + Repeat(pass, i)
    {
      BruteForcePass(master, OperateTypeMode(operateType), off, on, start, end);
      i := i + 1;
    }
  }

  /** A pass over the single index 0 also reaches output 1, one past the end of the range. */
  lemma BruteForcePassReachesPastEnd(m: CommandMode, off: Crob, on: Crob)
    ensures PairCalls(Some(m), off, on, SteppedRange(0, 0, 2))
         == [SingleCrobCall(m, off, 0), SingleCrobCall(m, on, 1)]
  {
    assert SteppedRange(0, 0, 2) == [0];
  }
}

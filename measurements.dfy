/**
 * The trainer's measurement points: binary, double-bit binary and analog inputs
 * (each with a name, an optional index in the I/O table and an optional outstation
 * it publishes to), and the stand-alone counter.  Writing an indexed, attached point
 * publishes exactly one update carrying the written value with the ONLINE flag.
 */
module Measurements {
  import opened Dnp3

  /** The characters a point name may not contain. */
  predicate IsReservedNameChar(c: char)
  {
    c == ' ' || c == '.' || c == ','
  }

  /** The name a point is stored under: every space, period and comma becomes '_'. */
  function Sanitized(s: string): string
  {
    seq(|s|, i requires 0 <= i < |s| => if IsReservedNameChar(s[i]) then '_' else s[i])
  }

  /** Character-by-character replacement of the reserved characters of a name. */
  method SanitizeName(input: string) returns (name: string)
    ensures name == Sanitized(input)
  {
    name := input;
    var i := 0;
    while i < |name|
      invariant 0 <= i <= |name| == |input|
      invariant forall k :: 0 <= k < i ==> name[k] == Sanitized(input)[k]
      invariant forall k :: i <= k < |name| ==> name[k] == input[k]
    {
      if IsReservedNameChar(name[i]) {
        name := name[i := '_'];
      }
      i := i + 1;
    }
  }

  /** A sanitized name keeps the length and every other character, and has no reserved character. */
  lemma SanitizedShape(s: string)
    ensures |Sanitized(s)| == |s|
    ensures forall i :: 0 <= i < |s| && !IsReservedNameChar(s[i]) ==> Sanitized(s)[i] == s[i]
    ensures forall i :: 0 <= i < |s| && IsReservedNameChar(s[i]) ==> Sanitized(s)[i] == '_'
    ensures forall i :: 0 <= i < |s| ==> !IsReservedNameChar(Sanitized(s)[i])
  {
  }

  /** Sanitizing twice is sanitizing once. */
  lemma SanitizedIdempotent(s: string)
    ensures Sanitized(Sanitized(s)) == Sanitized(s)
  {
  }

  /** Sanitizing works piecewise, so a suffix without reserved characters survives unchanged. */
  lemma SanitizedAppend(a: string, b: string)
    ensures Sanitized(a + b) == Sanitized(a) + Sanitized(b)
    ensures (forall i :: 0 <= i < |b| ==> !IsReservedNameChar(b[i])) ==> Sanitized(a + b) == Sanitized(a) + b
  {
    assert forall i :: 0 <= i < |b| ==> (a + b)[|a| + i] == b[i];
  }

  /** The updates a write publishes: one ONLINE update for an indexed point, none otherwise. */
  function Emission(index: Option<u16>, v: PointValue): seq<Update>
  {
    if index.Some? then [Update(index.value, v, OnlineFlags)] else []
  }

  /** The outstation `os`, if there is one, received exactly the emission of `v` at `index`. */
  twostate predicate Emitted(os: Outstation?, index: Option<u16>, v: PointValue)
    reads os
  {
    os != null ==> os.applied == old(os.applied) + Emission(index, v)
  }

  /** The outstations a point may publish to. */
  function SinkOf(os: Outstation?): set<Outstation>
  {
    if os == null then {} else {os}
  }

  /** Publishes `v` for an attached point at `index`, as every input's Write does. */
  method Publish(os: Outstation?, index: Option<u16>, v: PointValue)
    modifies SinkOf(os)`applied
    ensures Emitted(os, index, v)
  {
    if index.Some? && os != null {
      os.Apply([Update(index.value, v, OnlineFlags)]);
    }
  }

  /** Configuration of a binary, double-bit or counter point in the outstation database. */
  datatype PointConfig = PointConfig(staticVariation: GroupVariation, pointClass: PointClass,
                                     eventVariation: GroupVariation)

  /** Configuration of an analog point in the outstation database. */
  datatype AnalogConfig = AnalogConfig(staticVariation: GroupVariation, pointClass: PointClass,
                                       eventVariation: GroupVariation, deadband: real)

  /** A binary input. */
  class Binary {
    var name: string
    var index: Option<u16>
    var outstation: Outstation?
    var value: bool
    var pointClass: PointClass
    var staticVariation: GroupVariation
    var eventVariation: GroupVariation

    /** A fresh point is unnamed, unindexed, detached, false, class 3, g1v2 static and g2v2 events. */
    constructor()
      ensures name == "" && index == None && outstation == null
      ensures value == false && pointClass == Class3
      ensures staticVariation == GroupVariation(1, 2) && eventVariation == GroupVariation(2, 2)
    {
      name := "";
      index := None;
      outstation := null;
      value := false;
      pointClass := Class3;
      staticVariation := GroupVariation(1, 2);
      eventVariation := GroupVariation(2, 2);
    }

    function Sink(): set<Outstation>
      reads this`outstation
    {
      SinkOf(outstation)
    }

    method SetName(input: string)
      modifies this`name
      ensures name == Sanitized(input)
    {
      name := SanitizeName(input);
    }

    method SetIndex(idx: u16)
      modifies this`index
      ensures index == Some(idx)
    {
      index := Some(idx);
    }

    method RegisterOutstation(os: Outstation)
      modifies this`outstation
      ensures outstation == os
    {
      outstation := os;
    }

    function Read(): bool
      reads this`value
    {
      value
    }

    /** Stores `v` and publishes it if the point is indexed and attached. */
    method Write(v: bool)
      modifies this`value, Sink()`applied
      ensures value == v
      ensures Emitted(outstation, index, BinaryValue(v))
    {
      value := v;
      Publish(outstation, index, BinaryValue(v));
    }

    function Config(): (c: PointConfig)
      reads this`staticVariation, this`pointClass, this`eventVariation
      ensures c.pointClass == pointClass
      ensures c.staticVariation == staticVariation && c.eventVariation == eventVariation
    {
      PointConfig(staticVariation, pointClass, eventVariation)
    }

    method SetClass(c: PointClass)
      modifies this`pointClass
      ensures pointClass == c
    {
      pointClass := c;
    }

    method SetVariation(v: GroupVariation)
      modifies this`staticVariation
      ensures staticVariation == v
    {
      staticVariation := v;
    }

    method SetEventVariation(v: GroupVariation)
      modifies this`eventVariation
      ensures eventVariation == v
    {
      eventVariation := v;
    }

    function StaticGroup(): u8
    {
      1
    }
  }

  /** A double-bit binary input; the state is stored as its one-byte encoding. */
  class DoubleBit {
    var name: string
    var index: Option<u16>
    var outstation: Outstation?
    var value: u8
    var pointClass: PointClass
    var staticVariation: GroupVariation
    var eventVariation: GroupVariation

    /** A fresh point holds the byte 1 (DETERMINED_OFF), class 3, g3v2 static and g4v2 events. */
    constructor()
      ensures name == "" && index == None && outstation == null
      ensures value == 1 && Read() == DeterminedOff && pointClass == Class3
      ensures staticVariation == GroupVariation(3, 2) && eventVariation == GroupVariation(4, 2)
    {
      name := "";
      index := None;
      outstation := null;
      value := 1;
      pointClass := Class3;
      staticVariation := GroupVariation(3, 2);
      eventVariation := GroupVariation(4, 2);
    }

    function Sink(): set<Outstation>
      reads this`outstation
    {
      SinkOf(outstation)
    }

    method SetName(input: string)
      modifies this`name
      ensures name == Sanitized(input)
    {
      name := SanitizeName(input);
    }

    method SetIndex(idx: u16)
      modifies this`index
      ensures index == Some(idx)
    {
      index := Some(idx);
    }

    method RegisterOutstation(os: Outstation)
      modifies this`outstation
      ensures outstation == os
    {
      outstation := os;
    }

    /** The decoded state of the stored byte. */
    function Read(): (d: DoubleBitState)
      reads this`value
      ensures value > 2 <==> d == Indeterminate
      ensures value <= 3 ==> DoubleBitToType(d) == value
    {
      DoubleBitFromType(value)
    }

    /** Stores the encoding of `v`, so that Read() returns `v`, and publishes `v`. */
    method Write(v: DoubleBitState)
      modifies this`value, Sink()`applied
      ensures value == DoubleBitToType(v) && Read() == v
      ensures Emitted(outstation, index, DoubleBitValue(v))
    {
      value := DoubleBitToType(v);
      Publish(outstation, index, DoubleBitValue(v));
    }

    function Config(): (c: PointConfig)
      reads this`staticVariation, this`pointClass, this`eventVariation
      ensures c.pointClass == pointClass
      ensures c.staticVariation == staticVariation && c.eventVariation == eventVariation
    {
      PointConfig(staticVariation, pointClass, eventVariation)
    }

    method SetClass(c: PointClass)
      modifies this`pointClass
      ensures pointClass == c
    {
      pointClass := c;
    }

    method SetVariation(v: GroupVariation)
      modifies this`staticVariation
      ensures staticVariation == v
    {
      staticVariation := v;
    }

    method SetEventVariation(v: GroupVariation)
      modifies this`eventVariation
      ensures eventVariation == v
    {
      eventVariation := v;
    }

    function StaticGroup(): u8
    {
      3
    }
  }

  /** An analog input. */
  class Analog {
    var name: string
    var index: Option<u16>
    var outstation: Outstation?
    var value: real
    var deadband: real
    var pointClass: PointClass
    var staticVariation: GroupVariation
    var eventVariation: GroupVariation

    /** A fresh point holds 100.0 with deadband 0.4, class 3, g30v5 static and g32v7 events. */
    constructor()
      ensures name == "" && index == None && outstation == null
      ensures value == 100.0 && deadband == 0.4 && pointClass == Class3
      ensures staticVariation == GroupVariation(30, 5) && eventVariation == GroupVariation(32, 7)
    {
      name := "";
      index := None;
      outstation := null;
      value := 100.0;
      deadband := 0.4;
      pointClass := Class3;
      staticVariation := GroupVariation(30, 5);
      eventVariation := GroupVariation(32, 7);
    }

    /** A fresh point holding `v`; everything else as in the default constructor. */
    constructor WithValue(v: real)
      ensures name == "" && index == None && outstation == null
      ensures value == v && deadband == 0.4 && pointClass == Class3
      ensures staticVariation == GroupVariation(30, 5) && eventVariation == GroupVariation(32, 7)
    {
      name := "";
      index := None;
      outstation := null;
      value := v;
      deadband := 0.4;
      pointClass := Class3;
      staticVariation := GroupVariation(30, 5);
      eventVariation := GroupVariation(32, 7);
    }

    function Sink(): set<Outstation>
      reads this`outstation
    {
      SinkOf(outstation)
    }

    method SetName(input: string)
      modifies this`name
      ensures name == Sanitized(input)
    {
      name := SanitizeName(input);
    }

    method SetIndex(idx: u16)
      modifies this`index
      ensures index == Some(idx)
    {
      index := Some(idx);
    }

    method RegisterOutstation(os: Outstation)
      modifies this`outstation
      ensures outstation == os
    {
      outstation := os;
    }

    function Read(): real
      reads this`value
    {
      value
    }

    /** Stores `v` and publishes it if the point is indexed and attached. */
    method Write(v: real)
      modifies this`value, Sink()`applied
      ensures value == v
      ensures Emitted(outstation, index, AnalogValue(v))
    {
      value := v;
      Publish(outstation, index, AnalogValue(v));
    }

    function Config(): (c: AnalogConfig)
      reads this`staticVariation, this`pointClass, this`eventVariation, this`deadband
      ensures c.pointClass == pointClass && c.deadband == deadband
      ensures c.staticVariation == staticVariation && c.eventVariation == eventVariation
    {
      AnalogConfig(staticVariation, pointClass, eventVariation, deadband)
    }

    method SetClass(c: PointClass)
      modifies this`pointClass
      ensures pointClass == c
    {
      pointClass := c;
    }

    method SetDeadband(db: real)
      modifies this`deadband
      ensures deadband == db
    {
      deadband := db;
    }

    function StaticGroup(): u8
    {
      30
    }
  }

  /** A counter; it is not a measurement of the I/O table and publishes nothing. */
  class Counter {
    var value: u32
    var pointClass: PointClass
    var staticVariation: GroupVariation
    var eventVariation: GroupVariation

    /** A fresh counter holds 0, class 3, g20v1 static and g22v5 events. */
    constructor()
      ensures value == 0 && pointClass == Class3
      ensures staticVariation == GroupVariation(20, 1) && eventVariation == GroupVariation(22, 5)
    {
      value := 0;
      pointClass := Class3;
      staticVariation := GroupVariation(20, 1);
      eventVariation := GroupVariation(22, 5);
    }

    function Read(): u32
      reads this`value
    {
      value
    }

    method Write(v: u32)
      modifies this`value
      ensures value == v
    {
      value := v;
    }

    function Config(): (c: PointConfig)
      reads this`staticVariation, this`pointClass, this`eventVariation
      ensures c.pointClass == pointClass
      ensures c.staticVariation == staticVariation && c.eventVariation == eventVariation
    {
      PointConfig(staticVariation, pointClass, eventVariation)
    }

    method SetClass(c: PointClass)
      modifies this`pointClass
      ensures pointClass == c
    {
      pointClass := c;
    }

    method SetVariation(v: GroupVariation)
      modifies this`staticVariation
      ensures staticVariation == v
    {
      staticVariation := v;
    }

    method SetEventVariation(v: GroupVariation)
      modifies this`eventVariation
      ensures eventVariation == v
    {
      eventVariation := v;
    }
  }
}

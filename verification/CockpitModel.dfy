/** A cycle of the FSUIPC cockpit: the simulator's memory is copied into one of two buffers, events are
    polled by looking at flags and by comparing the buffers, the front's state is written over it, and the
    buffer is copied back. */
module CockpitModel {
  import opened FlightVarTypes

  const BASE := 0x5600
  const SIZE := 512

  /** The memory from BASE on. */
  type Image = m: seq<byte> | |m| == SIZE witness seq(SIZE, _ => 0)

  datatype Kind =
    // of the flight control unit
    | SpeedButton | GuidanceButton | AltitudeButton | SwitchPressed | KnobPressed | KnobPulled
    | SpeedValue | MachValue | HeadingValue | TrackValue | AltitudeValue | VerticalSpeedValue | FpaValue
    // of the EFIS control panel
    | FdButton | IlsButton | McpSwitch | BaroModeSelected | BaroFormatSelected
    | NdModeSelected | NdRangeSelected | NdNav1Selected | NdNav2Selected

  /** Where events come from: a byte that is set to report one, or a value of `size` bytes that reports
      its changes. */
  datatype Source =
    | Flag(at: word, kind: Kind, value: dword)
    | Watch(at: word, size: nat, kind: Kind)

  datatype Event = Event(source: Source, value: dword)

  const FLIGHT_CONTROL_UNIT: seq<Source> := [
    Flag(0x5620, SpeedButton, 0), Flag(0x5621, GuidanceButton, 0), Flag(0x5622, AltitudeButton, 0),
    Flag(0x5608, SwitchPressed, 0), Flag(0x560B, SwitchPressed, 1), Flag(0x560C, SwitchPressed, 2),
    Flag(0x560D, SwitchPressed, 3), Flag(0x5609, SwitchPressed, 4), Flag(0x560A, SwitchPressed, 5),
    Flag(0x5627, KnobPressed, 0), Flag(0x5628, KnobPulled, 0), Flag(0x5629, KnobPressed, 1),
    Flag(0x562A, KnobPulled, 1), Flag(0x562B, KnobPressed, 2), Flag(0x562C, KnobPulled, 2),
    Flag(0x562D, KnobPressed, 3), Flag(0x562E, KnobPulled, 3),
    Watch(0x5638, 4, SpeedValue), Watch(0x563C, 4, MachValue), Watch(0x5640, 4, HeadingValue),
    Watch(0x5644, 4, TrackValue), Watch(0x5648, 4, AltitudeValue), Watch(0x564C, 4, VerticalSpeedValue),
    Watch(0x5654, 4, FpaValue)]

  const EFIS_CONTROL_PANEL: seq<Source> := [
    Flag(0x5601, FdButton, 0), Flag(0x5602, IlsButton, 0),
    Flag(0x5603, McpSwitch, 0), Flag(0x5604, McpSwitch, 1), Flag(0x5605, McpSwitch, 2),
    Flag(0x5606, McpSwitch, 3), Flag(0x5607, McpSwitch, 4),
    Flag(0x561A, BaroFormatSelected, 0), Flag(0x561B, BaroFormatSelected, 1),
    Flag(0x561D, BaroModeSelected, 0), Flag(0x561E, BaroModeSelected, 1),
    Watch(0x561F, 1, BaroModeSelected), Watch(0x5623, 1, NdModeSelected), Watch(0x5624, 1, NdRangeSelected),
    Watch(0x5625, 1, NdNav1Selected), Watch(0x5626, 1, NdNav2Selected)]

  /** The bytes of the front's state, in the order in which they are written. */
  datatype Front = Front(
    speedUnits: byte, guidanceMode: byte, altitudeUnits: byte,
    loc: byte, athr: byte, expe: byte, appr: byte, ap1: byte, ap2: byte,
    speedMode: byte, lateralMode: byte, verticalMode: byte,
    speed: dword, mach: dword, heading: dword, track: dword, altitude: dword, verticalSpeed: dword, fpa: dword,
    baroMode: byte, baroFormat: byte, ils: byte,
    constraint: byte, waypoint: byte, vord: byte, ndb: byte, airport: byte,
    ndMode: byte, ndRange: byte, ndNav1: byte, ndNav2: byte)

  datatype Setter = Setter(at: word, bytes: seq<byte>)

  function Setters(f: Front): seq<Setter> {
    [Setter(0x562F, [f.speedUnits]), Setter(0x5630, [f.guidanceMode]), Setter(0x5631, [f.altitudeUnits]),
     Setter(0x5614, [f.loc]), Setter(0x5617, [f.athr]), Setter(0x5618, [f.expe]),
     Setter(0x5619, [f.appr]), Setter(0x5615, [f.ap1]), Setter(0x5616, [f.ap2]),
     Setter(0x5632, [f.speedMode]), Setter(0x5633, [f.lateralMode]), Setter(0x5634, [f.verticalMode]),
     Setter(0x5638, Little(f.speed)), Setter(0x563C, Little(f.mach)), Setter(0x5640, Little(f.heading)),
     Setter(0x5644, Little(f.track)), Setter(0x5648, Little(f.altitude)), Setter(0x564C, Little(f.verticalSpeed)),
     Setter(0x5650, Little(f.fpa)),
     Setter(0x561F, [f.baroMode]), Setter(0x561C, [f.baroFormat]), Setter(0x560E, [f.ils]),
     Setter(0x560F, [f.constraint]), Setter(0x5610, [f.waypoint]), Setter(0x5611, [f.vord]),
     Setter(0x5612, [f.ndb]), Setter(0x5613, [f.airport]),
     Setter(0x5623, [f.ndMode]), Setter(0x5624, [f.ndRange]), Setter(0x5625, [f.ndNav1]), Setter(0x5626, [f.ndNav2])]
  }

  // ----- polling

  function Size(s: Source): nat {
    if s.Flag? then 1 else s.size
  }

  predicate InImage(at: int, size: nat) {
    BASE <= at && at + size <= BASE + SIZE
  }

  predicate Placed(s: Source) {
    InImage(s.at, Size(s)) && (s.Watch? ==> s.size == 1 || s.size == 4)
  }

  function Slice(m: Image, at: int, size: nat): seq<byte>
    requires InImage(at, size)
  {
    m[at - BASE..at - BASE + size]
  }

  function Number(bytes: seq<byte>): nat {
    if bytes == [] then 0 else bytes[0] + 0x100 * Number(bytes[1..])
  }

  function Overwrite(m: Image, at: int, bytes: seq<byte>): Image
    requires InImage(at, |bytes|)
  {
    m[..at - BASE] + bytes + m[at - BASE + |bytes|..]
  }

  /** A source has something to report, given the current image and the other one. */
  predicate Reports(s: Source, m: Image, other: Image)
    requires Placed(s)
  {
    if s.Flag? then m[s.at - BASE] != 0 else Slice(m, s.at, s.size) != Slice(other, s.at, s.size)
  }

  function EventOf(s: Source, m: Image): Event
    requires Placed(s)
  {
    Event(s, if s.Flag? then s.value else Number(Slice(m, s.at, s.size)) % 0x1_0000_0000)
  }

  /** A flag that was reported is cleared. */
  function Cleared(s: Source, m: Image, other: Image): Image
    requires Placed(s)
  {
    if s.Flag? && Reports(s, m, other) then Overwrite(m, s.at, [0]) else m
  }

  ghost predicate AllPlaced(table: seq<Source>) {
    forall i :: 0 <= i < |table| ==> Placed(table[i])
  }

  /** The events of a table of sources, and the image with the reported flags cleared. */
  ghost function Poll(table: seq<Source>, m: Image, other: Image): (seq<Event>, Image)
    requires AllPlaced(table)
    decreases |table|
  {
    if table == [] then ([], m)
    else
      var s := table[0];
      var (events, after) := Poll(table[1..], Cleared(s, m, other), other);
      ((if Reports(s, m, other) then [EventOf(s, m)] else []) + events, after)
  }

  ghost predicate AllInImage(setters: seq<Setter>) {
    forall i :: 0 <= i < |setters| ==> InImage(setters[i].at, |setters[i].bytes|)
  }

  ghost function Apply(setters: seq<Setter>, m: Image): Image
    requires AllInImage(setters)
    decreases |setters|
  {
    if setters == [] then m else Apply(setters[1..], Overwrite(m, setters[0].at, setters[0].bytes))
  }

  // ----- the cycle

  /** `memory` is the simulator's; `current` was filled last and `other` before it. Before the first cycle
      there are no buffers. */
  datatype Cockpit = Cockpit(memory: Image, current: Image, other: Image, started: bool)

  const SYNC_FLAG := 0x5600

  const TABLE := FLIGHT_CONTROL_UNIT + EFIS_CONTROL_PANEL

  lemma TableIsPlaced()
    ensures AllPlaced(TABLE)
  {
  }

  lemma SettersAreInImage(f: Front)
    ensures AllInImage(Setters(f))
  {
  }

  function SyncDown(c: Cockpit): Cockpit {
    Cockpit(c.memory, c.memory, if c.started then c.current else c.memory, true)
  }

  /** A whole cycle, while nobody else writes the memory: the events and the new state. */
  ghost function Cycle(c: Cockpit, f: Front): (seq<Event>, Cockpit) {
    TableIsPlaced();
    SettersAreInImage(f);
    var d := SyncDown(c);
    var (events, polled) := Poll(TABLE, d.current, d.other);
    var synced := Overwrite(Apply(Setters(f), polled), SYNC_FLAG, [1]);
    (events, Cockpit(synced, synced, d.other, true))
  }

  /** Other programs write the memory, or a cycle is run. */
  datatype Label = External(memory: Image) | Map(front: Front)

  ghost function Run(m: Image, labels: seq<Label>): (seq<Event>, Cockpit)
    decreases |labels|
  {
    if labels == [] then ([], Cockpit(m, m, m, false))
    else
      var (events, c) := Run(m, labels[..|labels| - 1]);
      match labels[|labels| - 1]
      case External(memory) => (events, c.(memory := memory))
      case Map(f) => var (new_, d) := Cycle(c, f); (events + new_, d)
  }

  // ----- what polling does

  predicate Apart(s: Source, t: Source) {
    s.at + Size(s) <= t.at || t.at + Size(t) <= s.at
  }

  /** No source is listed twice and no other source looks at the byte of a flag. */
  ghost predicate TableApart(table: seq<Source>) {
    forall i, j :: 0 <= i < j < |table| ==>
      table[i] != table[j] && (table[i].Flag? || table[j].Flag? ==> Apart(table[i], table[j]))
  }

  /** Where in the table the flag of a byte is, or -1. */
  function FlagIndex(at: int): int {
    if 0x5620 <= at <= 0x5622 then at - 0x5620
    else if at == 0x5608 then 3
    else if 0x560B <= at <= 0x560D then at - 0x560B + 4
    else if 0x5609 <= at <= 0x560A then at - 0x5609 + 7
    else if 0x5627 <= at <= 0x562E then at - 0x5627 + 9
    else if 0x5601 <= at <= 0x5607 then at - 0x5601 + 24
    else if 0x561A <= at <= 0x561B then at - 0x561A + 31
    else if 0x561D <= at <= 0x561E then at - 0x561D + 33
    else -1
  }

  /** Where in the table the value at an address is, or -1. */
  function WatchIndex(at: int): int {
    if 0x5638 <= at <= 0x564C then (at - 0x5638) / 4 + 17
    else if at == 0x5654 then 23
    else if at == 0x561F then 35
    else if 0x5623 <= at <= 0x5626 then at - 0x5623 + 36
    else -1
  }

  lemma TableIndexed(i: nat)
    requires i < |TABLE|
    ensures var s := TABLE[i];
            if s.Flag? then FlagIndex(s.at) == i
            else WatchIndex(s.at) == i && forall b :: s.at <= b < s.at + s.size ==> FlagIndex(b) == -1
  {
  }

  lemma TableIsApart()
    ensures TableApart(TABLE)
  {
    hide TABLE, FlagIndex, WatchIndex;
    forall i, j | 0 <= i < j < |TABLE|
      ensures TABLE[i] != TABLE[j] && (TABLE[i].Flag? || TABLE[j].Flag? ==> Apart(TABLE[i], TABLE[j]))
    {
      TableIndexed(i);
      TableIndexed(j);
    }
  }

  /** The front never writes the byte of a flag, and neither is the byte of the sync mark one. */
  lemma SettersSpareFlags(f: Front, k: nat)
    requires k < |Setters(f)|
    ensures var s := Setters(f)[k]; forall b :: s.at <= b < s.at + |s.bytes| ==> FlagIndex(b) == -1
    ensures FlagIndex(SYNC_FLAG) == -1
  {
  }
}

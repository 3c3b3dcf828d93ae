/** What a cycle reports and what it shows, told in the bytes of the simulator's memory. */
module CockpitBytes {
  import opened FlightVarTypes
  import opened CockpitModel
  import opened CockpitRuns

  // ----- what events say

  /** The event is what the k-th source of the table reports. */
  predicate IsFrom(e: Event, table: seq<Source>, k: int, m: Image, other: Image) {
    && 0 <= k < |table| && Placed(table[k])
    && e == EventOf(table[k], m) && Reports(table[k], m, other)
  }

  ghost predicate Reported(e: Event, table: seq<Source>, m: Image, other: Image) {
    exists k :: IsFrom(e, table, k, m, other)
  }

  /** Every event is what some source of the table reports. */
  ghost predicate FromTable(events: seq<Event>, table: seq<Source>, m: Image, other: Image) {
    forall i :: 0 <= i < |events| ==> Reported(events[i], table, m, other)
  }

  /** The events come in the order of their sources in the table. */
  ghost predicate InTableOrder(events: seq<Event>, table: seq<Source>) {
    forall i, j, k, l ::
      (&& 0 <= i < j < |events| && 0 <= k < |table| && 0 <= l < |table|
       && events[i].source == table[k] && events[j].source == table[l]) ==> k < l
  }

  ghost predicate SourcesIn(events: seq<Event>, table: seq<Source>) {
    forall i :: 0 <= i < |events| ==> events[i].source in table
  }

  lemma Joined(head: seq<Event>, tail: seq<Event>, table: seq<Source>, m: Image, other: Image)
    requires FromTable(head, table, m, other) && FromTable(tail, table, m, other)
    ensures FromTable(head + tail, table, m, other)
  {
  }

  /** What later sources report after the first was cleared they report anyway. */
  lemma Later(tail: seq<Event>, table: seq<Source>, m: Image, other: Image)
    requires AllPlaced(table) && TableApart(table) && table != []
    requires FromTable(tail, table[1..], Cleared(table[0], m, other), other)
    ensures FromTable(tail, table, m, other)
  {
    var rest, m' := table[1..], Cleared(table[0], m, other);
    ClearedForAll(table, m, other);
    hide Reports, Cleared, EventOf, TableApart;
    forall i | 0 <= i < |tail| ensures Reported(tail[i], table, m, other) {
      var k :| IsFrom(tail[i], rest, k, m', other);
      assert rest[k] == table[k + 1];
      assert IsFrom(tail[i], table, k + 1, m, other);
    }
  }

  lemma FirstReports(table: seq<Source>, m: Image, other: Image)
    requires table != [] && Placed(table[0])
    ensures FromTable(if Reports(table[0], m, other) then [EventOf(table[0], m)] else [], table, m, other)
  {
    assert Reports(table[0], m, other) ==> IsFrom(EventOf(table[0], m), table, 0, m, other);
  }

  lemma {:induction false} PollFromTable(table: seq<Source>, m: Image, other: Image)
    requires AllPlaced(table) && TableApart(table)
    ensures FromTable(Poll(table, m, other).0, table, m, other)
    decreases |table|
  {
    hide Reports, Cleared, EventOf, TableApart, IsFrom;
    if table != [] {
      var m' := Cleared(table[0], m, other);
      TailApart(table);
      PollFromTable(table[1..], m', other);
      var tail := Poll(table[1..], m', other).0;
      Later(tail, table, m, other);
      FirstReports(table, m, other);
      Joined(if Reports(table[0], m, other) then [EventOf(table[0], m)] else [], tail, table, m, other);
    }
  }

  lemma {:induction false} PollInOrder(table: seq<Source>, m: Image, other: Image)
    requires AllPlaced(table) && TableApart(table)
    ensures InTableOrder(Poll(table, m, other).0, table) && SourcesIn(Poll(table, m, other).0, table)
    decreases |table|
  {
    hide Reports, Cleared, EventOf, TableApart, InTableOrder;
    if table == [] {
      assert InTableOrder([], table) by { NoEvents(table); }
    } else {
      var s, rest := table[0], table[1..];
      var m' := Cleared(s, m, other);
      TailApart(table);
      PollInOrder(rest, m', other);
      SourceOf(s, m);
      var tail := Poll(rest, m', other).0;
      assert table == [s] + rest;
      Shifted(tail, table);
      if Reports(s, m, other) {
        Prefixed(EventOf(s, m), tail, table);
      } else {
        assert [] + tail == tail;
      }
    }
  }

  lemma NoEvents(table: seq<Source>)
    ensures InTableOrder([], table)
  {
  }

  lemma Shifted(tail: seq<Event>, table: seq<Source>)
    requires table != [] && InTableOrder(tail, table[1..]) && SourcesIn(tail, table[1..]) && table[0] !in table[1..]
    ensures InTableOrder(tail, table)
  {
    forall i, j, k, l | 0 <= i < j < |tail| && 0 <= k < |table| && 0 <= l < |table|
                        && tail[i].source == table[k] && tail[j].source == table[l]
      ensures k < l
    {
      assert k > 0 && l > 0;
      assert table[1..][k - 1] == table[k] && table[1..][l - 1] == table[l];
    }
  }

  lemma Prefixed(head: Event, tail: seq<Event>, table: seq<Source>)
    requires table != [] && head.source == table[0] && table[0] !in table[1..]
    requires InTableOrder(tail, table) && SourcesIn(tail, table[1..])
    ensures InTableOrder([head] + tail, table) && SourcesIn([head] + tail, table)
  {
    var all := [head] + tail;
    forall i, j, k, l | 0 <= i < j < |all| && 0 <= k < |table| && 0 <= l < |table|
                        && all[i].source == table[k] && all[j].source == table[l]
      ensures k < l
    {
      assert all[j] == tail[j - 1];
      if i == 0 {
      } else {
        assert all[i] == tail[i - 1];
      }
    }
  }

  lemma TailApart(table: seq<Source>)
    requires table != [] && TableApart(table)
    ensures TableApart(table[1..]) && table[0] !in table[1..]
  {
    assert forall i, j :: 0 <= i < j < |table[1..]| ==> table[1..][i] == table[i + 1] && table[1..][j] == table[j + 1];
  }

  lemma SourceOf(s: Source, m: Image)
    requires Placed(s)
    ensures EventOf(s, m).source == s
  {
  }

  /** Clearing the first flag changes nothing for the other sources. */
  lemma ClearedForAll(table: seq<Source>, m: Image, other: Image)
    requires AllPlaced(table) && TableApart(table) && table != []
    ensures forall k :: 0 < k < |table| ==>
              && EventOf(table[k], Cleared(table[0], m, other)) == EventOf(table[k], m)
              && Reports(table[k], Cleared(table[0], m, other), other) == Reports(table[k], m, other)
  {
    hide Reports, Cleared, EventOf;
    forall k | 0 < k < |table|
      ensures EventOf(table[k], Cleared(table[0], m, other)) == EventOf(table[k], m)
      ensures Reports(table[k], Cleared(table[0], m, other), other) == Reports(table[k], m, other)
    {
      ClearedElsewhere(table[0], table[k], m, other);
    }
  }

  lemma CycleFromTable(c: Cockpit, f: Front)
    ensures AllPlaced(TABLE)
    ensures FromTable(Cycle(c, f).0, TABLE, c.memory, SyncDown(c).other)
    ensures InTableOrder(Cycle(c, f).0, TABLE)
  {
    TableIsPlaced();
    TableIsApart();
    SettersAreInImage(f);
    hide TABLE, Poll, Apply, Setters, FromTable, InTableOrder, SourcesIn, TableApart;
    PollFromTable(TABLE, c.memory, SyncDown(c).other);
    PollInOrder(TABLE, c.memory, SyncDown(c).other);
  }

  lemma WhereFrom(events: seq<Event>, table: seq<Source>, m: Image, other: Image, i: nat) returns (k: nat)
    requires FromTable(events, table, m, other) && i < |events|
    ensures IsFrom(events[i], table, k, m, other)
  {
    k :| IsFrom(events[i], table, k, m, other);
  }

  /** The bytes of a number, lowest first. */
  lemma NumberOfFour(b: seq<byte>)
    requires |b| == 4
    ensures Number(b) == b[0] as int + 0x100 * b[1] as int + 0x1_0000 * b[2] as int + 0x100_0000 * b[3] as int
  {
    assert b[1..][1..] == b[2..] && b[2..][1..] == b[3..] && b[3..][1..] == [];
    assert Number(b[3..]) == b[3] as int + 0x100 * Number([]);
    assert Number(b[2..]) == b[2] as int + 0x100 * Number(b[3..]);
    assert Number(b[1..]) == b[1] as int + 0x100 * Number(b[2..]);
  }

  lemma NumberOfOne(b: seq<byte>)
    requires |b| == 1
    ensures Number(b) == b[0] as int
  {
    assert b[1..] == [];
  }

  /** What every event of a cycle says: that of a flag, which is set, the value listed for it; that of a
      watched byte the byte in the memory; that of four bytes the number they make, lowest first. */
  lemma EventsSayWhatIsThere(c: Cockpit, f: Front, i: nat)
    requires i < |Cycle(c, f).0|
    ensures var e := Cycle(c, f).0[i];
            var s, m, a := e.source, c.memory, e.source.at - BASE;
            && s in TABLE && Placed(s)
            && match s
               case Flag(_, _, value) => e.value == value && m[a] != 0
               case Watch(_, size, _) =>
                 if size == 1 then e.value == m[a] as int
                 else
                   e.value == m[a] as int + 0x100 * m[a + 1] as int + 0x1_0000 * m[a + 2] as int
                              + 0x100_0000 * m[a + 3] as int
  {
    CycleFromTable(c, f);
    hide TABLE, Cycle;
    var k := WhereFrom(Cycle(c, f).0, TABLE, c.memory, SyncDown(c).other, i);
    EventSays(TABLE[k], c.memory, SyncDown(c).other);
  }

  lemma EventSays(s: Source, m: Image, other: Image)
    requires Placed(s) && Reports(s, m, other)
    ensures var e, a := EventOf(s, m), s.at - BASE;
            && e.source == s
            && match s
               case Flag(_, _, value) => e.value == value && m[a] != 0
               case Watch(_, size, _) =>
                 if size == 1 then e.value == m[a] as int
                 else
                   e.value == m[a] as int + 0x100 * m[a + 1] as int + 0x1_0000 * m[a + 2] as int
                              + 0x100_0000 * m[a + 3] as int
  {
    if s.Watch? {
      if s.size == 1 {
        NumberOfOne(Slice(m, s.at, 1));
      } else {
        NumberOfFour(Slice(m, s.at, 4));
      }
    }
  }

  /** Events come in the order of the panels' sources. */
  lemma EventsInOrder(c: Cockpit, f: Front, i: nat, j: nat, k: nat, l: nat)
    requires i < j < |Cycle(c, f).0| && k < |TABLE| && l < |TABLE|
    requires Cycle(c, f).0[i].source == TABLE[k] && Cycle(c, f).0[j].source == TABLE[l]
    ensures k < l
  {
    CycleFromTable(c, f);
    hide TABLE, Cycle;
  }

  // ----- where everything is

  /** Which addresses are polled for what: these are the places of the flight control unit's sources, */
  lemma FlightControlUnitIs(i: nat)
    requires i < |FLIGHT_CONTROL_UNIT|
    ensures |FLIGHT_CONTROL_UNIT| == 24
    ensures var s := FLIGHT_CONTROL_UNIT[i];
            match s.kind
            case SpeedButton => s == Flag(0x5620, SpeedButton, 0)
            case GuidanceButton => s == Flag(0x5621, GuidanceButton, 0)
            case AltitudeButton => s == Flag(0x5622, AltitudeButton, 0)
            case SwitchPressed =>
              s.Flag? && s.value < 6 && s.at == [0x5608, 0x560B, 0x560C, 0x560D, 0x5609, 0x560A][s.value]
            case KnobPressed => s.Flag? && s.value < 4 && s.at == 0x5627 + 2 * s.value
            case KnobPulled => s.Flag? && s.value < 4 && s.at == 0x5628 + 2 * s.value
            case SpeedValue => s == Watch(0x5638, 4, SpeedValue)
            case MachValue => s == Watch(0x563C, 4, MachValue)
            case HeadingValue => s == Watch(0x5640, 4, HeadingValue)
            case TrackValue => s == Watch(0x5644, 4, TrackValue)
            case AltitudeValue => s == Watch(0x5648, 4, AltitudeValue)
            case VerticalSpeedValue => s == Watch(0x564C, 4, VerticalSpeedValue)
            case FpaValue => s == Watch(0x5654, 4, FpaValue)
            case _ => false
  {
  }

  /** and these those of the EFIS control panel's. */
  lemma EfisControlPanelIs(i: nat)
    requires i < |EFIS_CONTROL_PANEL|
    ensures |EFIS_CONTROL_PANEL| == 16
    ensures var s := EFIS_CONTROL_PANEL[i];
            match s.kind
            case FdButton => s == Flag(0x5601, FdButton, 0)
            case IlsButton => s == Flag(0x5602, IlsButton, 0)
            case McpSwitch => s.Flag? && s.value < 5 && s.at == 0x5603 + s.value
            case BaroFormatSelected => s.Flag? && s.value < 2 && s.at == 0x561A + s.value
            case BaroModeSelected =>
              s == Watch(0x561F, 1, BaroModeSelected) || (s.Flag? && s.value < 2 && s.at == 0x561D + s.value)
            case NdModeSelected => s == Watch(0x5623, 1, NdModeSelected)
            case NdRangeSelected => s == Watch(0x5624, 1, NdRangeSelected)
            case NdNav1Selected => s == Watch(0x5625, 1, NdNav1Selected)
            case NdNav2Selected => s == Watch(0x5626, 1, NdNav2Selected)
            case _ => false
  {
  }

  /** No source is polled twice. */
  lemma SourcesDiffer(i: nat, j: nat)
    requires i < j < |TABLE|
    ensures TABLE == FLIGHT_CONTROL_UNIT + EFIS_CONTROL_PANEL && TABLE[i] != TABLE[j]
  {
    TableIsApart();
    hide FLIGHT_CONTROL_UNIT, EFIS_CONTROL_PANEL;
  }

  // ----- what the front shows

  /** The bytes of the front's state, lowest first, between some addresses. */
  predicate DwordIs(m: Image, at: nat, d: dword)
    requires BASE <= at && at + 4 <= BASE + SIZE
  {
    var a := at - BASE;
    d == m[a] as int + 0x100 * m[a + 1] as int + 0x1_0000 * m[a + 2] as int + 0x100_0000 * m[a + 3] as int
  }

  lemma SliceIs(m: Image, at: nat, d: dword)
    requires InImage(at, 4) && Slice(m, at, 4) == Little(d)
    ensures DwordIs(m, at, d)
  {
    LittleSums(d);
    assert forall i :: 0 <= i < 4 ==> m[at - BASE + i] == Slice(m, at, 4)[i];
    hide Little;
  }

  lemma ByteShown(c: Cockpit, f: Front, k: nat, at: word, b: byte)
    requires k < |Setters(f)| && Setters(f)[k] == Setter(at, [b])
    ensures InImage(at, 1) && Cycle(c, f).1.memory[at - BASE] == b
  {
    FrontIsShown(c, f, k);
    hide Setters, Cycle;
    assert Slice(Cycle(c, f).1.memory, at, 1)[0] == b;
  }

  lemma DwordShown(c: Cockpit, f: Front, k: nat, at: word, d: dword)
    requires k < |Setters(f)| && Setters(f)[k] == Setter(at, Little(d))
    ensures InImage(at, 4) && DwordIs(Cycle(c, f).1.memory, at, d)
  {
    FrontIsShown(c, f, k);
    hide Setters, Cycle, DwordIs;
    SliceIs(Cycle(c, f).1.memory, at, d);
  }

  /** After a cycle the memory shows the whole state of the front, each part at its own address, and the mark
      of the cycle. */
  lemma FrontAtAddresses(c: Cockpit, f: Front)
    ensures var m: seq<byte> := Cycle(c, f).1.memory;
            && m[0x00] == 1
            && m[0x2F] == f.speedUnits && m[0x30] == f.guidanceMode && m[0x31] == f.altitudeUnits
            && m[0x14] == f.loc && m[0x17] == f.athr && m[0x18] == f.expe && m[0x19] == f.appr
            && m[0x15] == f.ap1 && m[0x16] == f.ap2
            && m[0x32] == f.speedMode && m[0x33] == f.lateralMode && m[0x34] == f.verticalMode
            && m[0x1F] == f.baroMode && m[0x1C] == f.baroFormat && m[0x0E] == f.ils
            && m[0x0F] == f.constraint && m[0x10] == f.waypoint && m[0x11] == f.vord
            && m[0x12] == f.ndb && m[0x13] == f.airport
            && m[0x23] == f.ndMode && m[0x24] == f.ndRange && m[0x25] == f.ndNav1 && m[0x26] == f.ndNav2
    ensures var m := Cycle(c, f).1.memory;
            && DwordIs(m, 0x5638, f.speed) && DwordIs(m, 0x563C, f.mach) && DwordIs(m, 0x5640, f.heading)
            && DwordIs(m, 0x5644, f.track) && DwordIs(m, 0x5648, f.altitude)
            && DwordIs(m, 0x564C, f.verticalSpeed) && DwordIs(m, 0x5650, f.fpa)
  {
    hide Cycle, DwordIs, Little;
    MarkShown(c, f);
    FlightControlUnitShown(c, f);
    EfisControlPanelShown(c, f);
    DwordsShown(c, f);
  }

  lemma UnitSetters(f: Front)
    ensures var s := Setters(f);
            && |s| == 31
            && s[0] == Setter(0x562F, [f.speedUnits])
            && s[1] == Setter(0x5630, [f.guidanceMode])
            && s[2] == Setter(0x5631, [f.altitudeUnits])
  {
    hide Little;
  }

  lemma ButtonSetters(f: Front)
    ensures var s := Setters(f);
            && |s| == 31
            && s[3] == Setter(0x5614, [f.loc])
            && s[4] == Setter(0x5617, [f.athr])
            && s[5] == Setter(0x5618, [f.expe])
  {
    hide Little;
  }

  lemma PilotSetters(f: Front)
    ensures var s := Setters(f);
            && |s| == 31
            && s[6] == Setter(0x5619, [f.appr])
            && s[7] == Setter(0x5615, [f.ap1])
            && s[8] == Setter(0x5616, [f.ap2])
  {
    hide Little;
  }

  lemma ModeSetters(f: Front)
    ensures var s := Setters(f);
            && |s| == 31
            && s[9] == Setter(0x5632, [f.speedMode])
            && s[10] == Setter(0x5633, [f.lateralMode])
            && s[11] == Setter(0x5634, [f.verticalMode])
  {
    hide Little;
  }

  lemma SpeedSetters(f: Front)
    ensures var s := Setters(f);
            && |s| == 31
            && s[12] == Setter(0x5638, Little(f.speed))
            && s[13] == Setter(0x563C, Little(f.mach))
            && s[14] == Setter(0x5640, Little(f.heading))
            && s[15] == Setter(0x5644, Little(f.track))
  {
    hide Little;
  }

  lemma AltitudeSetters(f: Front)
    ensures var s := Setters(f);
            && |s| == 31
            && s[16] == Setter(0x5648, Little(f.altitude))
            && s[17] == Setter(0x564C, Little(f.verticalSpeed))
            && s[18] == Setter(0x5650, Little(f.fpa))
  {
    hide Little;
  }

  lemma EfisControlPanelSetters(f: Front)
    ensures var s := Setters(f);
            && |s| == 31
            && s[19] == Setter(0x561F, [f.baroMode])
            && s[20] == Setter(0x561C, [f.baroFormat])
            && s[21] == Setter(0x560E, [f.ils])
            && s[22] == Setter(0x560F, [f.constraint])
            && s[23] == Setter(0x5610, [f.waypoint])
            && s[24] == Setter(0x5611, [f.vord])
            && s[25] == Setter(0x5612, [f.ndb])
            && s[26] == Setter(0x5613, [f.airport])
            && s[27] == Setter(0x5623, [f.ndMode])
            && s[28] == Setter(0x5624, [f.ndRange])
            && s[29] == Setter(0x5625, [f.ndNav1])
            && s[30] == Setter(0x5626, [f.ndNav2])
  {
    hide Little;
  }

  lemma MarkShown(c: Cockpit, f: Front)
    ensures Cycle(c, f).1.memory[0] == 1
  {
    TableIsPlaced();
    SettersAreInImage(f);
    hide Poll, Apply, TABLE, Setters;
  }

  lemma FlightControlUnitShown(c: Cockpit, f: Front)
    ensures var m: seq<byte> := Cycle(c, f).1.memory;
            && m[0x2F] == f.speedUnits && m[0x30] == f.guidanceMode && m[0x31] == f.altitudeUnits
            && m[0x14] == f.loc && m[0x17] == f.athr && m[0x18] == f.expe && m[0x19] == f.appr
            && m[0x15] == f.ap1 && m[0x16] == f.ap2
            && m[0x32] == f.speedMode && m[0x33] == f.lateralMode && m[0x34] == f.verticalMode
  {
    hide Cycle, Little, Setters;
    UnitSetters(f);
    ButtonSetters(f);
    PilotSetters(f);
    ModeSetters(f);
    ByteShown(c, f, 0, 0x562F, f.speedUnits);
    ByteShown(c, f, 1, 0x5630, f.guidanceMode);
    ByteShown(c, f, 2, 0x5631, f.altitudeUnits);
    ByteShown(c, f, 3, 0x5614, f.loc);
    ByteShown(c, f, 4, 0x5617, f.athr);
    ByteShown(c, f, 5, 0x5618, f.expe);
    ByteShown(c, f, 6, 0x5619, f.appr);
    ByteShown(c, f, 7, 0x5615, f.ap1);
    ByteShown(c, f, 8, 0x5616, f.ap2);
    ByteShown(c, f, 9, 0x5632, f.speedMode);
    ByteShown(c, f, 10, 0x5633, f.lateralMode);
    ByteShown(c, f, 11, 0x5634, f.verticalMode);
  }

  lemma EfisControlPanelShown(c: Cockpit, f: Front)
    ensures var m: seq<byte> := Cycle(c, f).1.memory;
            && m[0x1F] == f.baroMode && m[0x1C] == f.baroFormat && m[0x0E] == f.ils
            && m[0x0F] == f.constraint && m[0x10] == f.waypoint && m[0x11] == f.vord
            && m[0x12] == f.ndb && m[0x13] == f.airport
            && m[0x23] == f.ndMode && m[0x24] == f.ndRange && m[0x25] == f.ndNav1 && m[0x26] == f.ndNav2
  {
    hide Cycle, Little, Setters;
    EfisControlPanelSetters(f);
    ByteShown(c, f, 19, 0x561F, f.baroMode);
    ByteShown(c, f, 20, 0x561C, f.baroFormat);
    ByteShown(c, f, 21, 0x560E, f.ils);
    ByteShown(c, f, 22, 0x560F, f.constraint);
    ByteShown(c, f, 23, 0x5610, f.waypoint);
    ByteShown(c, f, 24, 0x5611, f.vord);
    ByteShown(c, f, 25, 0x5612, f.ndb);
    ByteShown(c, f, 26, 0x5613, f.airport);
    ByteShown(c, f, 27, 0x5623, f.ndMode);
    ByteShown(c, f, 28, 0x5624, f.ndRange);
    ByteShown(c, f, 29, 0x5625, f.ndNav1);
    ByteShown(c, f, 30, 0x5626, f.ndNav2);
  }

  lemma DwordsShown(c: Cockpit, f: Front)
    ensures var m := Cycle(c, f).1.memory;
            && DwordIs(m, 0x5638, f.speed) && DwordIs(m, 0x563C, f.mach) && DwordIs(m, 0x5640, f.heading)
            && DwordIs(m, 0x5644, f.track) && DwordIs(m, 0x5648, f.altitude)
            && DwordIs(m, 0x564C, f.verticalSpeed) && DwordIs(m, 0x5650, f.fpa)
  {
    hide Cycle, DwordIs, Little, Setters;
    SpeedSetters(f);
    AltitudeSetters(f);
    DwordShown(c, f, 12, 0x5638, f.speed);
    DwordShown(c, f, 13, 0x563C, f.mach);
    DwordShown(c, f, 14, 0x5640, f.heading);
    DwordShown(c, f, 15, 0x5644, f.track);
    DwordShown(c, f, 16, 0x5648, f.altitude);
    DwordShown(c, f, 17, 0x564C, f.verticalSpeed);
    DwordShown(c, f, 18, 0x5650, f.fpa);
  }
}

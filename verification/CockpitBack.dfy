/** The FSUIPC back of the cockpit at work on its buffers: bytes in arrays, an index that tells which of two
    buffers is the current one, and copies from and to the simulator's memory. */
module CockpitBack {
  import opened FlightVarTypes
  import opened CockpitModel
  import opened CockpitRuns

  /** The simulator's memory. */
  class Simulator {
    const data: array<byte>

    constructor ()
      ensures data.Length == 0xffff && fresh(data)
    {
      data := new byte[0xffff](_ => 0);
    }

    ghost function Contents(): Image
      reads this, data
      requires data.Length == 0xffff
    {
      data[BASE..BASE + SIZE]
    }

    method Store(at: nat, bytes: seq<byte>)
      requires at + |bytes| <= data.Length
      modifies data
      ensures data[..] == old(data[..at]) + bytes + old(data[at + |bytes|..])
    {
      forall i | 0 <= i < |bytes| {
        data[at + i] := bytes[i];
      }
    }
  }

  /** A buffer of bytes; what leaves it is refused. */
  class LinearBuffer {
    const data: array<byte>

    constructor (capacity: nat)
      ensures data.Length == capacity && fresh(data) && data[..] == seq(capacity, _ => 0)
    {
      data := new byte[capacity](_ => 0);
    }

    method Read(offset: nat, length: nat) returns (r: Option<seq<byte>>)
      ensures r == if offset + length <= data.Length then Some(data[offset..offset + length]) else None
    {
      if offset + length > data.Length {
        return None;
      }
      r := Some(data[offset..offset + length]);
    }

    method Write(offset: nat, bytes: seq<byte>) returns (ok: bool)
      modifies data
      ensures ok == (offset + |bytes| <= data.Length)
      ensures data[..] == if ok then old(data[..offset]) + bytes + old(data[offset + |bytes|..]) else old(data[..])
    {
      if offset + |bytes| > data.Length {
        return false;
      }
      forall i | 0 <= i < |bytes| {
        data[offset + i] := bytes[i];
      }
      return true;
    }
  }

  /** A buffer whose first byte has the offset `shift`. */
  class ShiftedBuffer {
    const backed: LinearBuffer
    const shift: nat

    constructor (backed: LinearBuffer, shift: nat)
      ensures this.backed == backed && this.shift == shift
    {
      this.backed, this.shift := backed, shift;
    }

    predicate InBounds(offset: nat, length: nat) {
      shift <= offset && offset - shift + length <= backed.data.Length
    }

    /** The check of this buffer adds in 32 bits. What it lets through by wrapping around is refused by the
        buffer behind, which does not. */
    method CheckBounds(offset: nat, length: nat) returns (ok: bool)
      ensures InBounds(offset, length) ==> ok
      ensures ok ==> shift <= offset
    {
      ok := shift <= offset && (offset - shift + length) % 0x1_0000_0000 <= backed.data.Length;
    }

    method Read(offset: nat, length: nat) returns (r: Option<seq<byte>>)
      ensures r == if InBounds(offset, length) then Some(backed.data[offset - shift..offset - shift + length]) else None
    {
      var ok := CheckBounds(offset, length);
      if !ok {
        return None;
      }
      r := backed.Read(offset - shift, length);
    }

    method Write(offset: nat, bytes: seq<byte>) returns (ok: bool)
      modifies backed.data
      ensures ok == InBounds(offset, |bytes|)
      ensures backed.data[..] ==
              if ok then old(backed.data[..offset - shift]) + bytes + old(backed.data[offset - shift + |bytes|..])
              else old(backed.data[..])
    {
      ok := CheckBounds(offset, |bytes|);
      if !ok {
        return;
      }
      ok := backed.Write(offset - shift, bytes);
    }
  }

  /** Two buffers, one of them current. */
  class DoubleBuffer {
    const first: ShiftedBuffer
    const second: ShiftedBuffer
    var current: bv1

    predicate Valid() {
      && first.backed.data != second.backed.data
      && first.backed.data.Length == SIZE && second.backed.data.Length == SIZE
      && first.shift == BASE && second.shift == BASE
    }

    ghost function Current(): Image
      requires Valid()
      reads this, first.backed.data, second.backed.data
    {
      if current == 0 then first.backed.data[..] else second.backed.data[..]
    }

    ghost function Other(): Image
      requires Valid()
      reads this, first.backed.data, second.backed.data
    {
      if current == 0 then second.backed.data[..] else first.backed.data[..]
    }

    constructor ()
      ensures Valid() && fresh(first.backed.data) && fresh(second.backed.data)
    {
      var a := new LinearBuffer(SIZE);
      var b := new LinearBuffer(SIZE);
      first := new ShiftedBuffer(a, BASE);
      second := new ShiftedBuffer(b, BASE);
      current := 0;
    }

    method Swap()
      requires Valid()
      modifies this`current
      ensures Current() == old(Other()) && Other() == old(Current())
    {
      current := current ^ 1;
    }

    method Read(offset: nat, length: nat) returns (r: Option<seq<byte>>)
      requires Valid()
      ensures r == if InImage(offset, length) then Some(Slice(Current(), offset, length)) else None
    {
      if current == 0 {
        r := first.Read(offset, length);
      } else {
        r := second.Read(offset, length);
      }
    }

    method Write(offset: nat, bytes: seq<byte>) returns (ok: bool)
      requires Valid()
      modifies if current == 0 then first.backed.data else second.backed.data
      ensures ok == InImage(offset, |bytes|) && Other() == old(Other())
      ensures Current() == if ok then Overwrite(old(Current()), offset, bytes) else old(Current())
    {
      if current == 0 {
        ok := first.Write(offset, bytes);
      } else {
        ok := second.Write(offset, bytes);
      }
    }

    method IsModified(offset: nat, length: nat) returns (r: Option<bool>)
      requires Valid()
      ensures r == if InImage(offset, length)
                   then Some(Slice(Current(), offset, length) != Slice(Other(), offset, length))
                   else None
    {
      var a := first.Read(offset, length);
      var b := second.Read(offset, length);
      if a.None? || b.None? {
        return None;
      }
      return Some(a.value != b.value);
    }
  }

  /** A little-endian number. */
  method ToNumber(bytes: seq<byte>) returns (n: nat)
    ensures n == Number(bytes)
  {
    n := 0;
    var i := |bytes|;
    while i > 0
      invariant 0 <= i <= |bytes| && n == Number(bytes[i..])
    {
      i := i - 1;
      n := bytes[i] + 0x100 * n;
      assert bytes[i..][1..] == bytes[i + 1..];
    }
    assert bytes[0..] == bytes;
  }

  class Back {
    const simulator: Simulator
    const buffer: DoubleBuffer
    var started: bool

    ghost predicate Valid()
      reads this
    {
      && buffer.Valid() && simulator.data.Length == 0xffff
      && simulator.data !in {buffer.first.backed.data, buffer.second.backed.data}
    }

    ghost function State(): Cockpit
      requires Valid()
      reads this, simulator, simulator.data, buffer, buffer.first.backed.data, buffer.second.backed.data
    {
      Cockpit(simulator.Contents(), buffer.Current(), buffer.Other(), started)
    }

    constructor (simulator: Simulator)
      requires simulator.data.Length == 0xffff
      ensures Valid() && this.simulator == simulator && !started
      ensures fresh(buffer) && fresh(buffer.first.backed.data) && fresh(buffer.second.backed.data)
    {
      this.simulator := simulator;
      buffer := new DoubleBuffer();
      started := false;
    }

    /** Copies the simulator's memory into the current buffer. */
    method CopyDown()
      requires Valid()
      modifies if buffer.current == 0 then buffer.first.backed.data else buffer.second.backed.data
      ensures buffer.Current() == simulator.Contents() && buffer.Other() == old(buffer.Other())
    {
      var ok := buffer.Write(BASE, simulator.data[BASE..BASE + SIZE]);
    }

    method SyncDown()
      requires Valid()
      modifies this`started, buffer`current, buffer.first.backed.data, buffer.second.backed.data
      ensures State() == CockpitModel.SyncDown(old(State()))
    {
      if !started {
        started := true;
        CopyDown();
      }
      buffer.Swap();
      CopyDown();
    }

    /** Marks the buffer as synchronized and copies it to the simulator, in chunks. */
    method SyncUp()
      requires Valid() && started
      modifies simulator.data, buffer.first.backed.data, buffer.second.backed.data
      ensures var image := Overwrite(old(buffer.Current()), SYNC_FLAG, [1]);
              State() == Cockpit(image, image, old(buffer.Other()), true)
    {
      var _ := buffer.Write(SYNC_FLAG, [1]);
      ghost var image := buffer.Current();
      var at, length := BASE, SIZE;
      while length > 0
        invariant 0 <= length <= SIZE && at == BASE + SIZE - length
        invariant simulator.data[BASE..at] == image[..at - BASE]
        invariant buffer.Current() == image && buffer.Other() == old(buffer.Other())
      {
        var l := if length > 1024 then 1024 else length;
        var chunk := buffer.Read(at, l);
        simulator.Store(at, chunk.value);
        at, length := at + l, length - l;
      }
      assert image[..SIZE] == image;
    }

    /** Polls the sources of one panel. */
    method PollEvents(table: seq<Source>) returns (events: seq<Event>)
      requires Valid() && AllPlaced(table)
      modifies buffer.first.backed.data, buffer.second.backed.data
      ensures (events, buffer.Current()) == Poll(table, old(buffer.Current()), buffer.Other())
      ensures buffer.Other() == old(buffer.Other())
    {
      hide Reports, Cleared, EventOf;
      events := [];
      ghost var m, other := buffer.Current(), buffer.Other();
      assert table[0..] == table && [] + Poll(table, m, other).0 == Poll(table, m, other).0;
      var i := 0;
      while i < |table|
        invariant 0 <= i <= |table| && buffer.Other() == other
        invariant AllPlaced(table[i..])
        invariant var (left, after) := Poll(table[i..], buffer.Current(), other);
                  Poll(table, m, other) == (events + left, after)
      {
        assert table[i..][0] == table[i] && table[i..][1..] == table[i + 1..];
        var event := PollOne(table[i]);
        ghost var left := Poll(table[i + 1..], buffer.Current(), other).0;
        assert events + (event + left) == events + event + left;
        events := events + event;
        i := i + 1;
      }
      assert events + [] == events;
    }

    method PollOne(s: Source) returns (event: seq<Event>)
      requires Valid() && Placed(s)
      modifies buffer.first.backed.data, buffer.second.backed.data
      ensures event == if Reports(s, old(buffer.Current()), buffer.Other())
                       then [EventOf(s, old(buffer.Current()))]
                       else []
      ensures buffer.Current() == Cleared(s, old(buffer.Current()), buffer.Other())
      ensures buffer.Other() == old(buffer.Other())
    {
      event := [];
      match s
      case Flag(at, kind, value) =>
        var pushed := buffer.Read(at, 1);
        if pushed.value[0] != 0 {
          event := [Event(s, value)];
          var _ := buffer.Write(at, [0]);
        }
      case Watch(at, size, kind) =>
        var modified := buffer.IsModified(at, size);
        if modified.value {
          var bytes := buffer.Read(at, size);
          var n := ToNumber(bytes.value);
          event := [Event(s, n % 0x1_0000_0000)];
        }
    }

    /** Writes the front's state. */
    method MapUp(f: Front)
      requires Valid()
      modifies buffer.first.backed.data, buffer.second.backed.data
      ensures AllInImage(Setters(f)) && buffer.Current() == Apply(Setters(f), old(buffer.Current()))
      ensures buffer.Other() == old(buffer.Other())
    {
      hide Setters, Overwrite;
      SettersAreInImage(f);
      var setters := Setters(f);
      ghost var m := buffer.Current();
      var i := 0;
      while i < |setters|
        invariant 0 <= i <= |setters| && buffer.Other() == old(buffer.Other()) && AllInImage(setters[i..])
        invariant Apply(setters[i..], buffer.Current()) == Apply(setters, m)
      {
        assert setters[i..][0] == setters[i] && setters[i..][1..] == setters[i + 1..];
        var _ := buffer.Write(setters[i].at, setters[i].bytes);
        i := i + 1;
      }
    }

    /** A cycle with a front whose state, once the events have taken effect, is `f`. */
    method Map(f: Front) returns (events: seq<Event>)
      requires Valid()
      modifies this`started, simulator.data, buffer`current, buffer.first.backed.data, buffer.second.backed.data
      ensures (events, State()) == Cycle(old(State()), f)
    {
      hide Poll, Apply, Setters, FLIGHT_CONTROL_UNIT, EFIS_CONTROL_PANEL, Overwrite;
      SyncDown();
      PanelsArePlaced();
      TableIsPlaced();
      ghost var d := State();
      var fcu := PollEvents(FLIGHT_CONTROL_UNIT);
      var efis := PollEvents(EFIS_CONTROL_PANEL);
      PollSplit(FLIGHT_CONTROL_UNIT, EFIS_CONTROL_PANEL, d.current, d.other);
      MapUp(f);
      SyncUp();
      events := fcu + efis;
    }
  }

  lemma PanelsArePlaced()
    ensures AllPlaced(FLIGHT_CONTROL_UNIT) && AllPlaced(EFIS_CONTROL_PANEL)
  {
  }
}

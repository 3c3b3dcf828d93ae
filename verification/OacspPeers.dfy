/** The two ends of the OACSP protocol at work: a device that prints commands and polls events, and the
    gateway that keeps the table of observers. */
module OacspPeers {
  import opened FlightVarTypes
  import opened OacspCommands
  import opened OacspEvents
  import Numerals

  // ----- the device

  class SerialProtocol {
    var sent: string
    var polled: DeviceEvent

    constructor ()
      ensures sent == [] && polled == NoEvent
    {
      sent, polled := [], NoEvent;
    }

    method Print(s: string)
      modifies this`sent
      ensures sent == old(sent) + s
    {
      sent := sent + s;
    }

    method WriteLVar(name: string, value: int)
      modifies this`sent
      ensures sent == old(sent) + Line(Command.WriteLVar(name, value))
    {
      hide Numerals.Decimal;
      ghost var was := sent;
      Print("WRITE_LVAR ");
      Print(name);
      Print(" ");
      Print(Numerals.Decimal(value));
      Print("\n");
      assert "WRITE_LVAR " == "WRITE_LVAR" + " ";
      Chained(was, "WRITE_LVAR" + " ", [], name, Numerals.Decimal(value));
      assert [] + name == name;
      assert [] + (name + " " + (Numerals.Decimal(value) + "\n")) == name + " " + (Numerals.Decimal(value) + "\n");
    }

    method PrintOffset(offset: word, len: OffsetLength)
      modifies this`sent
      ensures sent == old(sent) + (Hex(offset) + ":" + Code(len))
    {
      hide Hex;
      Print(Hex(offset));
      Print(":");
      Print(Code(len));
    }

    method WriteOffset(offset: word, len: OffsetLength, value: int)
      modifies this`sent
      ensures sent == old(sent) + Line(Command.WriteOffset(offset, Code(len), value))
    {
      hide Numerals.Decimal, Hex, Code;
      ghost var was := sent;
      Print("WRITE_OFFSET ");
      PrintOffset(offset, len);
      Print(" ");
      Print(Numerals.Decimal(value));
      Print("\n");
      assert "WRITE_OFFSET " == "WRITE_OFFSET" + " ";
      var h, c, d := Hex(offset), Code(len), Numerals.Decimal(value);
      Chained(was, "WRITE_OFFSET" + " ", h + ":", c, d);
    }

    method ObserveLVar(name: string)
      modifies this`sent
      ensures sent == old(sent) + Line(Command.ObserveLVar(name))
    {
      Print("OBS_LVAR ");
      Print(name);
      Print("\n");
      assert "OBS_LVAR " == "OBS_LVAR" + " ";
    }

    method ObserveOffset(offset: word, len: OffsetLength)
      modifies this`sent
      ensures sent == old(sent) + Line(Command.ObserveOffset(offset, Code(len)))
    {
      hide Hex, Code;
      Print("OBS_OFFSET ");
      PrintOffset(offset, len);
      Print("\n");
      assert "OBS_OFFSET " == "OBS_OFFSET" + " ";
      var h, c := Hex(offset), Code(len);
      assert h + ":" + c + "\n" == h + ":" + (c + "\n");
    }

    /** A line that is no event forgets the last event; an event that cannot be split leaves it in place. */
    method PollEvent(input: string) returns (r: Option<DeviceEvent>)
      modifies this`polled
      ensures r == ParseEvent(input)
      ensures polled == match r
                        case Some(e) => e
                        case None =>
                          var line := ReadLine(input, LINE_LIMIT);
                          if LVAR <= line || OFFSET_KEYWORD <= line then old(polled) else NoEvent
    {
      var line := ReadLine(input, LINE_LIMIT);
      if line != [] {
        if LVAR <= line {
          r := ParseLVar(line);
          polled := if r.Some? then r.value else polled;
          return;
        } else if OFFSET_KEYWORD <= line {
          r := ParseOffset(line);
          polled := if r.Some? then r.value else polled;
          return;
        }
      }
      polled := NoEvent;
      return None;
    }
  }

  lemma Chained(was: string, k: string, h: string, c: string, d: string)
    ensures was + k + (h + c) + " " + d + "\n" == was + (k + (h + (c + " " + (d + "\n"))))
  {
    var rest := d + "\n";
    assert was + k + (h + c) + " " + d + "\n" == was + k + (h + c) + " " + rest;
    assert was + k + (h + c) + " " + rest == was + k + (h + (c + " " + rest));
  }

  // ----- the gateway

  type Handle = nat

  datatype Key = Name(name: string) | At(address: nat)

  type Observers = map<Key, seq<Handle>>

  /** The table of observers holds its own methods too, under their names. */
  predicate IsMethod(key: Key) {
    key == Name("insert") || key == Name("foreach")
  }

  function ObserversOf(t: Observers, key: Key): seq<Handle> {
    if key in t then t[key] else []
  }

  function Observe(t: Observers, key: Key, handle: Handle): Observers {
    if IsMethod(key) then t else t[key := ObserversOf(t, key) + [handle]]
  }

  datatype Written = Written(handle: Handle, text: string)

  function Notices(t: Observers, key: Key, text: string): seq<Written> {
    seq(|ObserversOf(t, key)|, i requires 0 <= i < |ObserversOf(t, key)| => Written(ObserversOf(t, key)[i], text))
  }

  class Gateway {
    var observers: Observers
    var written: seq<Written>

    /** No observers are kept under the name of a method. */
    ghost predicate Valid()
      reads this
    {
      forall key :: key in observers ==> !IsMethod(key)
    }

    constructor ()
      ensures Valid() && observers == map[] && written == []
    {
      observers, written := map[], [];
    }

    /** Fails when a method is found where the list of observers should be. */
    method Insert(key: Key, handle: Handle) returns (ok: bool)
      requires Valid()
      modifies this`observers
      ensures Valid() && ok == !IsMethod(key) && observers == Observe(old(observers), key, handle)
    {
      if IsMethod(key) {
        return false;
      }
      var list := if key in observers then observers[key] else [];
      list := list + [handle];
      observers := observers[key := list];
      return true;
    }

    /** Writes a line to every observer, in the order in which they were inserted. */
    method ForEach(key: Key, text: string)
      requires Valid()
      modifies this`written
      ensures written == old(written) + Notices(observers, key, text)
    {
      var list := if key in observers then observers[key] else [];
      var i := 0;
      while i < |list|
        invariant 0 <= i <= |list| && written == old(written) + Notices(observers, key, text)[..i]
      {
        written := written + [Written(list[i], text)];
        i := i + 1;
      }
    }

    method OnLVarModified(name: string, value: int)
      requires Valid()
      modifies this`written
      ensures written == old(written) + Notices(observers, Name(name), LVarLine(name, value) + "\n")
    {
      ForEach(Name(name), LVarLine(name, value) + "\n");
    }

    method OnOffsetModified(address: nat, value: int)
      requires Valid()
      modifies this`written
      ensures written == old(written) + Notices(observers, At(address), OffsetLine(address, value) + "\n")
    {
      ForEach(At(address), OffsetLine(address, value) + "\n");
    }

    /** A line from a device. Writes to the simulation are left to the caller. */
    method OnDataReceived(handle: Handle, data: string) returns (r: Option<Command>)
      requires Valid()
      modifies this`observers
      ensures Valid() && r == ParseCommand(data)
      ensures observers == match r
                           case Some(ObserveLVar(name)) => Observe(old(observers), Name(name), handle)
                           case Some(ObserveOffset(offset, _)) => Observe(old(observers), At(offset), handle)
                           case _ => old(observers)
    {
      hide ParseCommand;
      r := ParseCommand(data);
      match r
      case Some(ObserveLVar(name)) => var _ := Insert(Name(name), handle);
      case Some(ObserveOffset(offset, _)) => var _ := Insert(At(offset), handle);
      case _ =>
    }
  }

  // ----- from the observation to the event

  /** A command to observe a variable is always understood. Whoever sent it is entered, and all observers
      hear of a change of that variable and its value, if and only if its name is not one of the table's
      methods, is not too long, and does not contain the keyword. */
  lemma ObserverHears(t: Observers, handle: Handle, name: string, value: int)
    requires IsName(name) && IsLong(value)
    ensures ParseCommand(Line(ObserveLVar(name))) == Some(ObserveLVar(name))
    ensures var told := Notices(Observe(t, Name(name), handle), Name(name), LVarLine(name, value) + "\n");
            (&& |told| == |ObserversOf(t, Name(name))| + 1 && told[|told| - 1].handle == handle
             && forall i :: 0 <= i < |told| ==> ParseEvent(told[i].text) == Some(LVarUpdate(name, value)))
            <==> !IsMethod(Name(name)) && |name| <= NAME_LIMIT && !Occurs(LVAR, name)
  {
    hide ParseEvent, ParseCommand, LVarLine, Line, Occurs;
    ParseUndoesLine(ObserveLVar(name));
    LVarEventExactly(name, value, []);
    assert LVarLine(name, value) + "\n" + [] == LVarLine(name, value) + "\n";
  }

  /** The same for offsets, which every device hears of. */
  lemma OffsetObserverHears(t: Observers, handle: Handle, address: word, len: OffsetLength, value: int)
    requires IsLong(value)
    ensures ParseCommand(Line(ObserveOffset(address, Code(len)))) == Some(ObserveOffset(address, Code(len)))
    ensures var told := Notices(Observe(t, At(address), handle), At(address), OffsetLine(address, value) + "\n");
            && |told| == |ObserversOf(t, At(address))| + 1 && told[|told| - 1].handle == handle
            && forall i :: 0 <= i < |told| ==> ParseEvent(told[i].text) == Some(OffsetUpdate(address, value))
  {
    ParseUndoesLine(ObserveOffset(address, Code(len)));
    OffsetEvent(address, value, []);
    assert OffsetLine(address, value) + "\n" + [] == OffsetLine(address, value) + "\n";
    hide ParseEvent, ParseCommand, OffsetLine, Line;
  }
}

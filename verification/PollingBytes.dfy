/** What polling does, told in the bytes of the simulator's memory and in the calls of the handlers. */
module PollingBytes {
  import opened FlightVarTypes
  import opened OffsetMemory
  import opened PollingModel

  // ----- values

  /** The value in the memory at an offset, lowest byte first. */
  predicate Shows(m: Memory, o: Cell, v: Value) {
    var a := o.address;
    match o.width
    case OneByte => v == ByteValue(m[a])
    case TwoBytes => v == WordValue(m[a] as int + 0x100 * m[a + 1] as int)
    case FourBytes =>
      v == DwordValue(m[a] as int + 0x100 * m[a + 1] as int + 0x1_0000 * m[a + 2] as int + 0x100_0000 * m[a + 3] as int)
  }

  /** What is told of an offset is what its bytes show. */
  lemma ValueOfBytes(m: Memory, o: Cell)
    ensures var v, a := ToValue(o.width, Read(m, o)), o.address;
            match o.width
            case OneByte => v == ByteValue(m[a])
            case TwoBytes => v == WordValue(m[a] as int + 0x100 * m[a + 1] as int)
            case FourBytes =>
              v == DwordValue(m[a] as int + 0x100 * m[a + 1] as int + 0x1_0000 * m[a + 2] as int
                              + 0x100_0000 * m[a + 3] as int)
  {
  }

  /** Replica agreement in bytes: after a check every live subscription was last told the byte, the word or
      the double word that the memory holds at its address, lowest byte first. */
  lemma ReplicaInBytes(m: Memory, events: seq<Event>, order: seq<Cell>, o: Cell, i: int, id: SubsId)
    requires IsOrder(order, Run(m, events).observed)
    requires ListedAt(Run(m, events + [Check(order)]).handlers, o, i, id)
    ensures var t := Run(m, events + [Check(order)]);
            var now, a, last := t.memory, o.address, Last(t.calls, id);
            match o.width
            case OneByte => last == Some(ByteValue(now[a]))
            case TwoBytes => last == Some(WordValue(now[a] as int + 0x100 * now[a + 1] as int))
            case FourBytes =>
              last == Some(DwordValue(now[a] as int + 0x100 * now[a + 1] as int + 0x1_0000 * now[a + 2] as int
                                      + 0x100_0000 * now[a + 3] as int))
  {
    hide Run, Last, ToValue, Read;
    ReplicaAgreement(m, events, order);
    ValueOfBytes(Run(m, events + [Check(order)]).memory, o);
  }

  /** What a write leaves in the memory: the low bytes of the value, the lowest first, and nothing else
      changed. */
  lemma WriteBytes(m: Memory, o: Cell, v: dword)
    ensures var w, a := Write(m, o, v), o.address;
            && w[a] == v % 0x100
            && (!o.width.OneByte? ==> w[a + 1] == v / 0x100 % 0x100)
            && (o.width.FourBytes? ==> w[a + 2] == v / 0x1_0000 % 0x100 && w[a + 3] == v / 0x100_0000)
            && forall k :: 0 <= k < MEMORY_SIZE && !(a <= k < a + Size(o.width)) ==> w[k] == m[k]
  {
    LowByte(v);
    LowHigh(v);
    assert High(v) / 0x100 == v / 0x100_0000;
  }

  lemma LowHigh(v: dword)
    ensures Low(v) / 0x100 == v / 0x100 % 0x100
  {
    assert v == v / 0x1_0000 * 0x1_0000 + Low(v);
    assert Low(v) == Low(v) / 0x100 * 0x100 + Low(v) % 0x100;
    assert v / 0x100 == v / 0x1_0000 * 0x100 + Low(v) / 0x100;
  }

  // ----- calls

  /** A notice for every subscription, in order. */
  lemma NoticesAre(subs: seq<Sub>, value: Value)
    ensures |Notices(subs, value)| == |subs|
    ensures forall i :: 0 <= i < |subs| ==> Notices(subs, value)[i] == Delivery(subs[i], value)
  {
  }

  /** The offset has been subscribed to since the last check. */
  ghost predicate SubscribedSince(m: Memory, events: seq<Event>, o: Cell)
    decreases |events|
  {
    events != [] &&
      var front := events[..|events| - 1];
      match events[|events| - 1]
      case Check(order) => !IsOrder(order, Run(m, front).observed) && SubscribedSince(m, front, o)
      case Subscription(parsed, _, _) => parsed == Some(o) || SubscribedSince(m, front, o)
      case _ => SubscribedSince(m, front, o)
  }

  lemma {:induction false} PendingExactly(m: Memory, events: seq<Event>, o: Cell)
    ensures o in Run(m, events).pending <==> SubscribedSince(m, events, o)
    decreases |events|
  {
    hide Read, Write, VisitAll, OffsetOf;
    if events != [] {
      var front := events[..|events| - 1];
      PendingExactly(m, front, o);
    }
  }

  /** Values that an offset of the width can have. */
  ghost predicate InRange(values: map<Cell, dword>) {
    forall o :: o in values ==> values[o] < Range(o.width)
  }

  lemma {:induction false} VisitAllInRange(s: Poller, order: seq<Cell>)
    requires InRange(s.values)
    ensures InRange(VisitAll(s, order).values)
    decreases |order|
  {
    hide Due, ToValue;
    if order != [] {
      VisitAllInRange(Visit(s, order[0]), order[1..]);
    }
  }

  lemma {:induction false} ValuesInRange(m: Memory, events: seq<Event>)
    ensures InRange(Run(m, events).values)
    decreases |events|
  {
    hide Write, VisitAll, OffsetOf, Read;
    if events != [] {
      var front := events[..|events| - 1];
      ValuesInRange(m, front);
      match events[|events| - 1]
      case Check(order) => VisitAllInRange(Run(m, front), order);
      case _ =>
    }
  }

  /** Different values are told as different ones. */
  lemma ValuesDiffer(w: Width, v: dword, v': dword)
    requires v < Range(w) && v' < Range(w) && ToValue(w, v) == ToValue(w, v')
    ensures v == v'
  {
  }

  /** Exactly when a check calls: the handler of a live subscription is called once if its offset was
      subscribed to since the check before, or if what the memory shows now is not what it was told last;
      otherwise it is not called. */
  lemma NewsExactly(m: Memory, events: seq<Event>, order: seq<Cell>, o: Cell, i: int, id: SubsId)
    requires var s := Run(m, events); IsOrder(order, s.observed) && ListedAt(s.handlers, o, i, id)
    ensures var s, t := Run(m, events), Run(m, events + [Check(order)]);
            var told := Last(s.calls, id);
            CallsTo(t.calls, id) == CallsTo(s.calls, id) +
            if SubscribedSince(m, events, o) || told.None? || !Shows(s.memory, o, told.value) then 1 else 0
  {
    hide Run, Last, ToValue, Read, CallsTo, SubscribedSince, Shows, Range, Told;
    var s := Run(m, events);
    OneCallPerNews(m, events, order, o, i, id);
    PendingExactly(m, events, o);
    EveryRunOk(m, events);
    ValuesInRange(m, events);
    ToldOne(s, o, i, id);
    if o !in s.pending {
      ShowsExactly(s.memory, o, s.values[o]);
    }
  }

  lemma ToldOne(s: Poller, o: Cell, i: int, id: SubsId)
    requires Ok(s) && ListedAt(s.handlers, o, i, id)
    ensures o in s.values
    ensures o !in s.pending ==> Last(s.calls, id) == Some(ToValue(o.width, s.values[o]))
  {
    hide Last, ToValue;
  }

  lemma ShowsExactly(m: Memory, o: Cell, v: dword)
    requires v < Range(o.width)
    ensures Shows(m, o, ToValue(o.width, v)) <==> v == Read(m, o)
  {
    hide Read, ToValue, Range;
    ValueOfBytes(m, o);
    if Shows(m, o, ToValue(o.width, v)) {
      ValuesDiffer(o.width, v, Read(m, o));
    }
  }

  // ----- operations

  /** A subscription to an offset is given an id of its own and is the last of its offset; one to anything
      else fails. */
  lemma SubscribeTells(s: Poller, parsed: Option<Cell>, v: VarId, handler: Handler)
    ensures var (t, id) := Subscribe(s, parsed, v, handler);
            match parsed
            case None => id == None && t == s
            case Some(o) =>
              && id == Some(s.next) && t.next == s.next + 1
              && o in t.handlers && t.handlers[o] == SubsFor(s.handlers, o) + [Sub(s.next, v, handler)]
              && (forall p :: p != o && p in t.handlers ==> p in s.handlers && t.handlers[p] == s.handlers[p])
              && (forall p :: p in s.handlers ==> p in t.handlers)
              && t.memory == s.memory && t.calls == s.calls
  {
  }

  /** Unsubscribing removes one subscription and leaves all others as they are, or fails if there is none
      with the id. */
  lemma UnsubscribeTells(m: Memory, events: seq<Event>, id: SubsId)
    ensures var s := Run(m, events);
            var (t, ok) := Unsubscribe(s, id);
            && (ok <==> exists o, i :: ListedAt(s.handlers, o, i, id))
            && (!ok ==> t == s)
            && (forall o, i :: !ListedAt(t.handlers, o, i, id))
            && forall o, sub: Sub :: sub.id != id ==> (sub in SubsFor(t.handlers, o) <==> sub in SubsFor(s.handlers, o))
  {
    hide Run, Read, Write;
    var s := Run(m, events);
    var (t, ok) := Unsubscribe(s, id);
    if ok {
      forall o, sub: Sub | sub.id != id ensures sub in SubsFor(t.handlers, o) <==> sub in SubsFor(s.handlers, o) {
        WithoutKeeps(SubsFor(s.handlers, o), id, sub);
      }
      forall o, i ensures !ListedAt(t.handlers, o, i, id) {
        if o in t.handlers && 0 <= i < |t.handlers[o]| && t.handlers[o][i].id == id {
          WithoutHasNot(s.handlers[o], id, i);
          assert false;
        }
      }
    }
  }

  lemma {:induction false} WithoutKeeps(subs: seq<Sub>, id: SubsId, sub: Sub)
    requires sub.id != id
    ensures sub in Without(subs, id) <==> sub in subs
  {
    if subs != [] {
      WithoutKeeps(subs[1..], id, sub);
      assert subs == [subs[0]] + subs[1..];
    }
  }

  lemma {:induction false} WithoutHasNot(subs: seq<Sub>, id: SubsId, i: int)
    ensures 0 <= i < |Without(subs, id)| ==> Without(subs, id)[i].id != id
  {
    if subs != [] {
      WithoutHasNot(subs[1..], id, if subs[0].id == id then i else i - 1);
    }
  }

  /** Writing through a subscription writes the bytes at its offset, or fails if there is none with the id. */
  lemma UpdateTells(m: Memory, events: seq<Event>, o: Cell, i: int, id: SubsId, v: dword)
    requires ListedAt(Run(m, events).handlers, o, i, id)
    ensures var s := Run(m, events);
            var (t, ok) := Update(s, id, v);
            && ok && t == s.(memory := t.memory)
            && var w, a := t.memory, o.address;
              && w[a] == v % 0x100
              && (!o.width.OneByte? ==> w[a + 1] == v / 0x100 % 0x100)
              && (o.width.FourBytes? ==> w[a + 2] == v / 0x1_0000 % 0x100 && w[a + 3] == v / 0x100_0000)
              && forall k :: 0 <= k < MEMORY_SIZE && !(a <= k < a + Size(o.width)) ==> w[k] == s.memory[k]
  {
    hide Run, Read, Write, Told, Last;
    EveryRunOk(m, events);
    var s := Run(m, events);
    assert OffsetOf(s.handlers, id) == Some(o);
    WriteBytes(s.memory, o, v);
  }
}

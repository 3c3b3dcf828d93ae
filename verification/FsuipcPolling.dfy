/** The polling cache at work: an adapter over a byte buffer, the database of offsets, the observer and
    the operations that keep them together, proved against the functions of PollingModel. */
module FsuipcPolling {
  import opened FlightVarTypes
  import opened OffsetMemory
  import opened PollingModel

  class ValuedOffset {
    const offset: Cell
    var value: dword

    constructor (offset: Cell)
      ensures this.offset == offset && value == 0
    {
      this.offset, value := offset, 0;
    }
  }

  function WriteEach(m: Memory, writes: seq<(Cell, dword)>): Memory
    decreases |writes|
  {
    if writes == [] then m
    else Write(WriteEach(m, writes[..|writes| - 1]), writes[|writes| - 1].0, writes[|writes| - 1].1)
  }

  /** Requests are queued; processing them serves the writes before the reads. */
  class Adapter {
    const buffer: array<byte>
    var readQueue: seq<ValuedOffset>
    var writeQueue: seq<(Cell, dword)>

    ghost predicate Valid()
      reads this
    {
      buffer.Length == MEMORY_SIZE
    }

    ghost function Contents(): Memory
      reads this, buffer
      requires Valid()
    {
      buffer[..]
    }

    constructor ()
      ensures Valid() && fresh(buffer) && readQueue == [] && writeQueue == []
    {
      buffer := new byte[MEMORY_SIZE](_ => 0);
      readQueue, writeQueue := [], [];
    }

    method RequestRead(v: ValuedOffset)
      modifies this`readQueue
      ensures readQueue == old(readQueue) + [v]
    {
      readQueue := readQueue + [v];
    }

    method RequestWrite(o: Cell, v: dword)
      modifies this`writeQueue
      ensures writeQueue == old(writeQueue) + [(o, v)]
    {
      writeQueue := writeQueue + [(o, v)];
    }

    /** The bytes are added up, a wider value falling through to the cases of the narrower ones. */
    method ReadValue(o: Cell) returns (v: dword)
      requires Valid()
      ensures v == Read(Contents(), o)
    {
      var a, sum := o.address, 0;
      if o.width.FourBytes? {
        sum := sum + buffer[a + 3] as int * 0x100_0000;
        sum := sum + buffer[a + 2] as int * 0x1_0000;
      }
      if !o.width.OneByte? {
        sum := sum + buffer[a + 1] as int * 0x100;
      }
      sum := sum + buffer[a];
      v := sum;
    }

    method WriteValue(o: Cell, v: dword)
      requires Valid()
      modifies buffer
      ensures Contents() == Write(old(Contents()), o, v)
    {
      var a := o.address;
      if o.width.FourBytes? {
        buffer[a + 3] := High(v) / 0x100;
        buffer[a + 2] := High(v) % 0x100;
      }
      if !o.width.OneByte? {
        buffer[a + 1] := Low(v) / 0x100;
      }
      buffer[a] := Low(v) % 0x100;
    }

    method Process()
      requires Valid()
      modifies this`readQueue, this`writeQueue, buffer, readQueue
      ensures Valid() && readQueue == [] && writeQueue == []
      ensures Contents() == WriteEach(old(Contents()), old(writeQueue))
      ensures forall r :: r in old(readQueue) ==> r.value == Read(Contents(), r.offset)
    {
      hide Read, Write;
      ProcessWrites();
      ProcessReads();
    }

    method ProcessWrites()
      requires Valid()
      modifies this`writeQueue, buffer
      ensures writeQueue == [] && Contents() == WriteEach(old(Contents()), old(writeQueue))
    {
      hide Write;
      var i := 0;
      while i < |writeQueue|
        invariant 0 <= i <= |writeQueue| && writeQueue == old(writeQueue)
        invariant Contents() == WriteEach(old(Contents()), writeQueue[..i])
      {
        WriteValue(writeQueue[i].0, writeQueue[i].1);
        assert writeQueue[..i + 1][..i] == writeQueue[..i];
        i := i + 1;
      }
      assert writeQueue[..i] == writeQueue;
      writeQueue := [];
    }

    method ProcessReads()
      requires Valid()
      modifies this`readQueue, readQueue
      ensures readQueue == [] && forall r :: r in old(readQueue) ==> r.value == Read(Contents(), r.offset)
    {
      hide Read;
      var i := 0;
      while i < |readQueue|
        invariant 0 <= i <= |readQueue| && readQueue == old(readQueue)
        invariant forall r :: r in readQueue[..i] ==> r.value == Read(Contents(), r.offset)
      {
        var v := ReadValue(readQueue[i].offset);
        readQueue[i].value := v;
        assert readQueue[..i + 1] == readQueue[..i] + [readQueue[i]];
        i := i + 1;
      }
      assert readQueue[..i] == readQueue;
      readQueue := [];
    }

    /** Reads the values of some offsets in one process call. */
    method Query(offsets: seq<Cell>) returns (values: seq<dword>)
      requires Valid() && readQueue == [] && writeQueue == []
      modifies this`readQueue, this`writeQueue, buffer
      ensures Valid() && readQueue == [] && writeQueue == [] && Contents() == old(Contents())
      ensures |values| == |offsets| && forall i :: 0 <= i < |offsets| ==> values[i] == Read(Contents(), offsets[i])
    {
      hide Read, Write;
      values := [];
      if offsets == [] {
        return;
      }
      var i := 0;
      while i < |offsets|
        invariant 0 <= i <= |offsets| == |offsets| && |readQueue| == i && writeQueue == []
        invariant forall j :: 0 <= j < i ==> fresh(readQueue[j]) && readQueue[j].offset == offsets[j]
        invariant Contents() == old(Contents())
      {
        var v := new ValuedOffset(offsets[i]);
        RequestRead(v);
        i := i + 1;
      }
      var queued := readQueue;
      assert forall r :: r in readQueue ==> fresh(r);
      Process();
      i := 0;
      while i < |offsets|
        invariant 0 <= i <= |offsets| && |values| == i
        invariant forall j :: 0 <= j < i ==> values[j] == Read(Contents(), offsets[j])
      {
        assert queued[i] in queued;
        values := values + [queued[i].value];
        i := i + 1;
      }
    }
  }

  // ----- the database of offsets

  /** The handlers when the lists of `todo` still hold the id that is being removed. */
  function Partly(h: Handlers, todo: set<Cell>, id: SubsId): Handlers {
    map o | o in h && (o in todo || Without(h[o], id) != []) :: if o in todo then h[o] else Without(h[o], id)
  }

  lemma Untouched(known: seq<Cell>, h: Handlers, id: SubsId)
    ensures Partly(h, h.Keys, id) == h && Drop(known, Emptied(h, id) - h.Keys) == known
  {
    DropNone(known);
    assert Emptied(h, id) - h.Keys == {};
  }

  lemma AllTouched(h: Handlers, id: SubsId)
    ensures Partly(h, {}, id) == RemoveSub(h, id)
  {
  }

  lemma OneListLess(known: seq<Cell>, h: Handlers, todo: set<Cell>, o: Cell, id: SubsId)
    requires todo <= h.Keys && o in todo
    ensures var p, rest := Partly(h, todo, id), Without(h[o], id);
            && o in p && p[o] == h[o]
            && Partly(h, todo - {o}, id) == if rest == [] then p[o := rest] - {o} else p[o := rest]
    ensures var gone := Emptied(h, id);
            Drop(known, gone - (todo - {o})) ==
            if Without(h[o], id) == [] then Drop(Drop(known, gone - todo), {o}) else Drop(known, gone - todo)
  {
    var gone := Emptied(h, id);
    hide Without;
    if Without(h[o], id) == [] {
      DropMore(known, gone - todo, o);
      assert gone - todo + {o} == gone - (todo - {o});
    } else {
      assert gone - todo == gone - (todo - {o});
    }
  }

  class OffsetDb {
    var known: seq<Cell>
    var handlers: Handlers
    var next: SubsId

    constructor ()
      ensures known == [] && handlers == map[] && next == 1
    {
      known, handlers, next := [], map[], 1;
    }

    method InsertKnown(o: Cell)
      modifies this`known
      ensures known == PollingModel.InsertKnown(old(known), o)
    {
      if o !in known {
        known := known + [o];
      }
    }

    method CreateSubscription(parsed: Option<Cell>, v: VarId, handler: Handler) returns (r: Option<SubsId>)
      modifies this
      ensures match parsed
              case None => r == None && known == old(known) && handlers == old(handlers) && next == old(next)
              case Some(o) =>
                && r == Some(old(next)) && next == old(next) + 1
                && known == PollingModel.InsertKnown(old(known), o)
                && handlers == old(handlers)[o := SubsFor(old(handlers), o) + [Sub(old(next), v, handler)]]
    {
      if parsed.None? {
        return None;
      }
      var o := parsed.value;
      InsertKnown(o);
      if o !in handlers {
        handlers := handlers[o := []];
      }
      handlers := handlers[o := handlers[o] + [Sub(next, v, handler)]];
      r, next := Some(next), next + 1;
    }

    /** Looks through the lists, in whatever order the table yields them. */
    method GetOffset(id: SubsId) returns (r: Option<Cell>)
      requires IdsOk(handlers, next)
      ensures r == OffsetOf(handlers, id)
    {
      var todo := handlers.Keys;
      while todo != {}
        invariant todo <= handlers.Keys
        invariant forall o, i :: o in handlers && o !in todo ==> !ListedAt(handlers, o, i, id)
        decreases |todo|
      {
        var o :| o in todo;
        var i := 0;
        while i < |handlers[o]|
          invariant 0 <= i <= |handlers[o]|
          invariant forall j :: 0 <= j < i ==> handlers[o][j].id != id
        {
          if handlers[o][i].id == id {
            assert ListedAt(handlers, o, i, id);
            return Some(o);
          }
          i := i + 1;
        }
        todo := todo - {o};
      }
      return None;
    }

    method RemoveFrom(o: Cell, id: SubsId) returns (n: nat)
      requires o in handlers
      modifies this`handlers
      ensures handlers == old(handlers)[o := Without(old(handlers)[o], id)] && n == |handlers[o]|
    {
      var list := handlers[o];
      var i, kept := 0, [];
      while i < |list|
        invariant 0 <= i <= |list| && handlers == old(handlers)
        invariant Without(list, id) == kept + Without(list[i..], id)
      {
        if list[i].id != id {
          kept := kept + [list[i]];
        }
        i := i + 1;
      }
      assert kept + [] == kept;
      handlers := handlers[o := kept];
      n := |kept|;
    }

    /** Removes the id from every list, and every offset whose list is left empty. */
    method RemoveSubscription(id: SubsId)
      modifies this`known, this`handlers
      ensures known == Drop(old(known), Emptied(old(handlers), id)) && handlers == RemoveSub(old(handlers), id)
    {
      hide Partly, Emptied, RemoveSub, Drop;
      ghost var was, h := known, handlers;
      var todo := handlers.Keys;
      Untouched(was, h, id);
      while todo != {}
        invariant todo <= h.Keys
        invariant known == Drop(was, Emptied(h, id) - todo) && handlers == Partly(h, todo, id)
        decreases |todo|
      {
        var o :| o in todo;
        OneListLess(was, h, todo, o, id);
        var n := RemoveFrom(o, id);
        if n == 0 {
          RemoveKnown(o);
          handlers := handlers - {o};
        }
        todo := todo - {o};
      }
      assert Emptied(h, id) - {} == Emptied(h, id);
      AllTouched(h, id);
    }

    method RemoveKnown(o: Cell)
      modifies this`known
      ensures known == Drop(old(known), {o})
    {
      var i, kept := 0, [];
      while i < |known|
        invariant 0 <= i <= |known| && known == old(known) && Drop(known, {o}) == kept + Drop(known[i..], {o})
      {
        if known[i] != o {
          kept := kept + [known[i]];
        }
        i := i + 1;
      }
      known := kept;
    }
  }

  lemma {:induction false} DropNone(known: seq<Cell>)
    ensures Drop(known, {}) == known
  {
    if known != [] {
      DropNone(known[1..]);
    }
  }

  lemma {:induction false} DropMore(known: seq<Cell>, gone: set<Cell>, o: Cell)
    ensures Drop(Drop(known, gone), {o}) == Drop(known, gone + {o})
  {
    if known != [] {
      DropMore(known[1..], gone, o);
    }
  }

  /** The subscription made last is found under its own offset. */
  lemma NewestIsFound(s: Poller, parsed: Option<Cell>, v: VarId, handler: Handler)
    requires PollingModel.Ok(s)
    ensures parsed.Some? ==> OffsetOf(PollingModel.Subscribe(s, parsed, v, handler).0.handlers, s.next) == parsed
  {
    SubscribeKeepsOk(s, parsed, v, handler);
    if parsed.Some? {
      var t := PollingModel.Subscribe(s, parsed, v, handler).0;
      assert ListedAt(t.handlers, parsed.value, |SubsFor(s.handlers, parsed.value)|, s.next);
    }
  }

  // ----- the observer

  class UpdateObserver {
    const adapter: Adapter
    var offsets: set<Cell>
    var pending: set<Cell>
    var values: map<Cell, dword>

    constructor (adapter: Adapter)
      ensures this.adapter == adapter && offsets == {} && pending == {} && values == map[]
    {
      this.adapter := adapter;
      offsets, pending, values := {}, {}, map[];
    }

    ghost predicate Idle()
      reads this, adapter
    {
      adapter.Valid() && adapter.readQueue == [] && adapter.writeQueue == []
    }

    method StartObserving(o: Cell)
      requires Idle()
      modifies this, adapter, adapter.buffer
      ensures Idle() && adapter.Contents() == old(adapter.Contents())
      ensures offsets == old(offsets) + {o} && pending == old(pending) + {o}
      ensures values == old(values)[o := Read(adapter.Contents(), o)]
    {
      hide Read;
      offsets, pending := offsets + {o}, pending + {o};
      var seen := adapter.Query([o]);
      values := values[o := seen[0]];
    }

    method StopObserving(o: Cell)
      modifies this`offsets
      ensures offsets == old(offsets) - {o}
    {
      offsets := offsets - {o};
    }

    /** Whether the value of an offset must be reported. */
    method Evaluate(o: Cell, v: dword) returns (news: bool)
      modifies this`values
      ensures news == (o in pending || o !in old(values) || old(values)[o] != v)
      ensures values == if news then old(values)[o := v] else old(values)
    {
      news := o in pending || o !in values || values[o] != v;
      if news {
        values := values[o := v];
      }
    }

    /** The observed offsets in whatever order the set yields them, with their values. */
    method QueryAll() returns (order: seq<Cell>, seen: seq<dword>)
      requires Idle()
      modifies adapter, adapter.buffer
      ensures Idle() && adapter.Contents() == old(adapter.Contents())
      ensures IsOrder(order, offsets)
      ensures |seen| == |order| && forall i :: 0 <= i < |order| ==> seen[i] == Read(adapter.Contents(), order[i])
    {
      hide Read;
      order := [];
      var left := offsets;
      while left != {}
        invariant left <= offsets && IsOrder(order, offsets - left)
        decreases |left|
      {
        var o :| o in left;
        order, left := order + [o], left - {o};
      }
      seen := adapter.Query(order);
    }
  }

  /** Subscriptions to offsets. */
  class FlightVars {
    const db: OffsetDb
    const observer: UpdateObserver
    const adapter: Adapter
    var calls: seq<Delivery>

    ghost predicate Valid()
      reads this, db, observer, adapter, adapter.buffer
    {
      observer.adapter == adapter && observer.Idle() && PollingModel.Ok(State())
    }

    ghost function State(): Poller
      reads this, db, observer, adapter, adapter.buffer
      requires adapter.Valid()
    {
      Poller(db.known, db.handlers, observer.offsets, observer.pending, observer.values, adapter.Contents(), db.next,
             calls)
    }

    constructor ()
      ensures Valid() && State() == Start(adapter.Contents())
      ensures fresh(db) && fresh(observer) && fresh(adapter) && fresh(adapter.buffer)
    {
      db := new OffsetDb();
      var a := new Adapter();
      adapter := a;
      observer := new UpdateObserver(a);
      calls := [];
      new;
      assert PollingModel.Run(State().memory, []) == State();
      EveryRunOk(State().memory, []);
    }

    method Subscribe(parsed: Option<Cell>, v: VarId, handler: Handler) returns (r: Option<SubsId>)
      requires Valid()
      modifies db, observer, adapter, adapter.buffer
      ensures Valid() && (State(), r) == PollingModel.Subscribe(old(State()), parsed, v, handler)
    {
      hide Told, IdsOk, Read, NoRepeats;
      SubscribeKeepsOk(State(), parsed, v, handler);
      NewestIsFound(State(), parsed, v, handler);
      r := db.CreateSubscription(parsed, v, handler);
      if r.Some? {
        var offset := db.GetOffset(r.value);
        observer.StartObserving(offset.value);
      }
    }

    method Unsubscribe(id: SubsId) returns (ok: bool)
      requires Valid()
      modifies db, observer`offsets
      ensures Valid() && (State(), ok) == PollingModel.Unsubscribe(old(State()), id)
    {
      hide Told, IdsOk, Drop, Emptied, RemoveSub;
      UnsubscribeKeepsOk(State(), id);
      var found := db.GetOffset(id);
      if found.None? {
        return false;
      }
      db.RemoveSubscription(id);
      if found.value !in db.known {
        observer.StopObserving(found.value);
      }
      return true;
    }

    method Update(id: SubsId, v: dword) returns (ok: bool)
      requires Valid()
      modifies adapter, adapter.buffer
      ensures Valid() && (State(), ok) == PollingModel.Update(old(State()), id, v)
    {
      hide Told, IdsOk, Write;
      var found := db.GetOffset(id);
      if found.None? {
        return false;
      }
      adapter.RequestWrite(found.value, v);
      adapter.Process();
      assert adapter.Contents() == WriteEach(old(adapter.Contents()), [(found.value, v)]);
      assert [(found.value, v)][..0] == [];
      return true;
    }

    /** Calls the handlers of an offset. */
    method OnOffsetUpdate(o: Cell, v: dword)
      requires o in db.handlers
      modifies this`calls
      ensures calls == old(calls) + Notices(db.handlers[o], ToValue(o.width, v))
    {
      hide ToValue;
      var subs := db.handlers[o];
      var i := 0;
      while i < |subs|
        invariant 0 <= i <= |subs| && calls == old(calls) + Notices(subs, ToValue(o.width, v))[..i]
      {
        calls := calls + [Delivery(subs[i], ToValue(o.width, v))];
        i := i + 1;
      }
    }

    method CheckForUpdates() returns (ghost order: seq<Cell>)
      requires Valid()
      modifies this`calls, observer, adapter, adapter.buffer
      ensures IsOrder(order, old(observer.offsets))
      ensures Valid() && State() == PollingModel.CheckForUpdates(old(State()), order)
    {
      hide Read, ToValue, Notices, Told, IdsOk;
      var offsets, seen := observer.QueryAll();
      CheckKeepsOk(State(), offsets);
      ghost var was := State();
      var i := 0;
      while i < |offsets|
        invariant 0 <= i <= |offsets| && observer.Idle()
        invariant State() == was.(values := observer.values, calls := calls)
        invariant VisitAll(State(), offsets[i..]) == VisitAll(was, offsets)
      {
        var o := offsets[i];
        assert o in db.handlers;
        assert offsets[i..][0] == o && offsets[i..][1..] == offsets[i + 1..];
        var news := observer.Evaluate(o, seen[i]);
        if news {
          OnOffsetUpdate(o, seen[i]);
        }
        i := i + 1;
      }
      observer.pending := {};
      order := offsets;
    }
  }
}

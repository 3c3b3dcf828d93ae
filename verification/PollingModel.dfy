/** The FSUIPC side of FlightVars: subscriptions to offsets whose memory is polled. The operations as
    functions, and what every run keeps. FsuipcPolling.dfy proves the classes against them. */
module PollingModel {
  import opened FlightVarTypes
  import opened OffsetMemory

  type Handler = nat

  datatype Sub = Sub(id: SubsId, v: VarId, handler: Handler)

  /** A handler called for a subscription. */
  datatype Delivery = Delivery(sub: Sub, value: Value)

  type Handlers = map<Cell, seq<Sub>>

  /** `known` and `handlers` are the database; `observed`, `pending` (offsets still to be reported for the
      first time) and `values` (those seen last) the observer. */
  datatype Poller = Poller(
    known: seq<Cell>,
    handlers: Handlers,
    observed: set<Cell>,
    pending: set<Cell>,
    values: map<Cell, dword>,
    memory: Memory,
    next: SubsId,
    calls: seq<Delivery>)

  function Start(m: Memory): Poller {
    Poller([], map[], {}, {}, map[], m, 1, [])
  }

  function ToValue(w: Width, v: dword): Value {
    match w
    case OneByte => ByteValue(v % 0x100)
    case TwoBytes => WordValue(v % 0x1_0000)
    case FourBytes => DwordValue(v)
  }

  predicate ListedAt(h: Handlers, o: Cell, i: int, id: SubsId) {
    o in h && 0 <= i < |h[o]| && h[o][i].id == id
  }

  ghost function OffsetOf(h: Handlers, id: SubsId): (found: Option<Cell>)
    ensures found.Some? ==> exists i :: ListedAt(h, found.value, i, id)
    ensures found.None? ==> forall o, i :: !ListedAt(h, o, i, id)
  {
    if exists o, i :: ListedAt(h, o, i, id) then
      var o, i :| ListedAt(h, o, i, id);
      Some(o)
    else
      None
  }

  // ----- the operations

  function SubsFor(h: Handlers, o: Cell): seq<Sub> {
    if o in h then h[o] else []
  }

  function InsertKnown(known: seq<Cell>, o: Cell): seq<Cell> {
    if o in known then known else known + [o]
  }

  /** `parsed` is the offset the variable's name stands for, if it stands for one. */
  function Subscribe(s: Poller, parsed: Option<Cell>, v: VarId, handler: Handler): (Poller, Option<SubsId>) {
    match parsed
    case None => (s, None)
    case Some(o) =>
      (s.(known := InsertKnown(s.known, o),
          handlers := s.handlers[o := SubsFor(s.handlers, o) + [Sub(s.next, v, handler)]],
          next := s.next + 1,
          observed := s.observed + {o},
          pending := s.pending + {o},
          values := s.values[o := Read(s.memory, o)]),
       Some(s.next))
  }

  function Without(subs: seq<Sub>, id: SubsId): seq<Sub> {
    if subs == [] then []
    else if subs[0].id == id then Without(subs[1..], id)
    else [subs[0]] + Without(subs[1..], id)
  }

  /** The offsets left without a subscription once id is gone. */
  function Emptied(h: Handlers, id: SubsId): set<Cell> {
    set o | o in h && Without(h[o], id) == []
  }

  function Drop(known: seq<Cell>, gone: set<Cell>): seq<Cell> {
    if known == [] then []
    else if known[0] in gone then Drop(known[1..], gone)
    else [known[0]] + Drop(known[1..], gone)
  }

  function RemoveSub(h: Handlers, id: SubsId): Handlers {
    map o | o in h && Without(h[o], id) != [] :: Without(h[o], id)
  }

  ghost function Unsubscribe(s: Poller, id: SubsId): (Poller, bool) {
    match OffsetOf(s.handlers, id)
    case None => (s, false)
    case Some(o) =>
      var known := Drop(s.known, Emptied(s.handlers, id));
      (s.(known := known,
          handlers := RemoveSub(s.handlers, id),
          observed := if o in known then s.observed else s.observed - {o}),
       true)
  }

  ghost function Update(s: Poller, id: SubsId, v: dword): (Poller, bool) {
    match OffsetOf(s.handlers, id)
    case None => (s, false)
    case Some(o) => (s.(memory := Write(s.memory, o, v)), true)
  }

  function Notices(subs: seq<Sub>, value: Value): seq<Delivery> {
    seq(|subs|, i requires 0 <= i < |subs| => Delivery(subs[i], value))
  }

  /** An offset has news to report: it never reported, or its value is not the one seen last. */
  predicate Due(s: Poller, o: Cell) {
    o in s.pending || o !in s.values || s.values[o] != Read(s.memory, o)
  }

  /** The value of one observed offset is compared with the one seen last. */
  function Visit(s: Poller, o: Cell): Poller {
    var v := Read(s.memory, o);
    if Due(s, o) then
      s.(values := s.values[o := v], calls := s.calls + Notices(SubsFor(s.handlers, o), ToValue(o.width, v)))
    else
      s
  }

  function VisitAll(s: Poller, order: seq<Cell>): Poller
    decreases |order|
  {
    if order == [] then s else VisitAll(Visit(s, order[0]), order[1..])
  }

  ghost predicate NoRepeats(order: seq<Cell>) {
    forall i, j :: 0 <= i < j < |order| ==> order[i] != order[j]
  }

  /** The set of observed offsets is visited in an order of its own. */
  ghost predicate IsOrder(order: seq<Cell>, offsets: set<Cell>) {
    NoRepeats(order) && forall o :: o in order <==> o in offsets
  }

  function CheckForUpdates(s: Poller, order: seq<Cell>): Poller {
    VisitAll(s, order).(pending := {})
  }

  datatype Event =
    | Subscription(parsed: Option<Cell>, v: VarId, handler: Handler)
    | Unsubscription(id: SubsId)
    | Writing(id: SubsId, value: dword)
    | Simulation(memory: Memory)
    | Check(order: seq<Cell>)

  ghost function Next(s: Poller, e: Event): Poller {
    match e
    case Subscription(parsed, v, handler) => Subscribe(s, parsed, v, handler).0
    case Unsubscription(id) => Unsubscribe(s, id).0
    case Writing(id, value) => Update(s, id, value).0
    case Simulation(m) => s.(memory := m)
    case Check(order) => if IsOrder(order, s.observed) then CheckForUpdates(s, order) else s
  }

  ghost function Run(m: Memory, events: seq<Event>): Poller
    decreases |events|
  {
    if events == [] then Start(m)
    else Next(Run(m, events[..|events| - 1]), events[|events| - 1])
  }

  // ----- what every run keeps

  ghost predicate IdsOk(h: Handlers, next: SubsId) {
    && (forall o, i, id: SubsId :: ListedAt(h, o, i, id) ==> id < next)
    && (forall o, p, i, j, id: SubsId :: ListedAt(h, o, i, id) && ListedAt(h, p, j, id) ==> o == p && i == j)
  }

  /** The database and the observer agree: the known offsets, each listed once, are those observed and
      those with handlers; no list of handlers is empty; every id is in one list only; and every observed
      offset has a value. */
  ghost predicate Agree(s: Poller) {
    && NoRepeats(s.known)
    && (forall o :: o in s.known <==> o in s.handlers)
    && s.observed == s.handlers.Keys
    && (forall o :: o in s.handlers ==> s.handlers[o] != [])
    && IdsOk(s.handlers, s.next)
    && s.observed <= s.values.Keys
  }

  /** The value delivered last to a subscription. */
  function Last(calls: seq<Delivery>, id: SubsId): Option<Value>
    decreases |calls|
  {
    if calls == [] then None
    else if calls[|calls| - 1].sub.id == id then Some(calls[|calls| - 1].value)
    else Last(calls[..|calls| - 1], id)
  }

  /** How many times the handler of a subscription was called. */
  function CallsTo(calls: seq<Delivery>, id: SubsId): nat
    decreases |calls|
  {
    if calls == [] then 0
    else CallsTo(calls[..|calls| - 1], id) + if calls[|calls| - 1].sub.id == id then 1 else 0
  }

  /** Every subscription was told the value seen last, unless its offset is still to be reported. */
  ghost predicate Told(h: Handlers, pending: set<Cell>, values: map<Cell, dword>, calls: seq<Delivery>) {
    forall o, i, id :: ListedAt(h, o, i, id) && o !in pending ==>
      o in values && Last(calls, id) == Some(ToValue(o.width, values[o]))
  }

  ghost predicate Ok(s: Poller) {
    Agree(s) && Told(s.handlers, s.pending, s.values, s.calls)
  }

  lemma {:induction false} LastOfNotices(calls: seq<Delivery>, subs: seq<Sub>, value: Value, id: SubsId)
    ensures Last(calls + Notices(subs, value), id) ==
            if exists i :: 0 <= i < |subs| && subs[i].id == id then Some(value) else Last(calls, id)
    decreases |subs|
  {
    if subs == [] {
      assert calls + Notices(subs, value) == calls;
    } else {
      var n := |subs| - 1;
      var all := calls + Notices(subs, value);
      assert all[..|all| - 1] == calls + Notices(subs[..n], value);
      LastOfNotices(calls, subs[..n], value, id);
      assert forall i :: 0 <= i < n ==> subs[..n][i] == subs[i];
    }
  }

  lemma {:induction false} CallsInNotices(calls: seq<Delivery>, subs: seq<Sub>, value: Value, id: SubsId)
    requires forall i, j :: 0 <= i < j < |subs| ==> subs[i].id != subs[j].id
    ensures CallsTo(calls + Notices(subs, value), id) ==
            CallsTo(calls, id) + if exists i :: 0 <= i < |subs| && subs[i].id == id then 1 else 0
    decreases |subs|
  {
    if subs == [] {
      assert calls + Notices(subs, value) == calls;
    } else {
      var n := |subs| - 1;
      var all := calls + Notices(subs, value);
      assert all[..|all| - 1] == calls + Notices(subs[..n], value);
      CallsInNotices(calls, subs[..n], value, id);
      assert forall i :: 0 <= i < n ==> subs[..n][i] == subs[i];
    }
  }

  lemma SubscribeKeepsOk(s: Poller, parsed: Option<Cell>, v: VarId, handler: Handler)
    requires Ok(s)
    ensures Ok(Subscribe(s, parsed, v, handler).0)
  {
    hide Last, Read;
    if parsed.Some? {
      var o := parsed.value;
      var t := Subscribe(s, parsed, v, handler).0;
      forall p, i, id | ListedAt(t.handlers, p, i, id)
        ensures (p == o && i == |SubsFor(s.handlers, o)| && id == s.next) || ListedAt(s.handlers, p, i, id)
      {
      }
    }
  }

  lemma {:induction false} WithoutAbsent(subs: seq<Sub>, id: SubsId)
    requires forall i :: 0 <= i < |subs| ==> subs[i].id != id
    ensures Without(subs, id) == subs
  {
    if subs != [] {
      WithoutAbsent(subs[1..], id);
    }
  }

  lemma {:induction false} WithoutAt(subs: seq<Sub>, k: nat)
    requires k < |subs| && forall i, j :: 0 <= i < j < |subs| ==> subs[i].id != subs[j].id
    ensures Without(subs, subs[k].id) == subs[..k] + subs[k + 1..]
  {
    if k == 0 {
      WithoutAbsent(subs[1..], subs[0].id);
    } else {
      WithoutAt(subs[1..], k - 1);
      assert subs[..k] + subs[k + 1..] == [subs[0]] + (subs[1..][..k - 1] + subs[1..][k..]);
    }
  }

  /** The list that loses an id, and those that do not have it. */
  lemma WithoutOf(h: Handlers, next: SubsId, o: Cell, k: nat, id: SubsId)
    requires IdsOk(h, next) && ListedAt(h, o, k, id)
    ensures Without(h[o], id) == h[o][..k] + h[o][k + 1..]
    ensures forall p :: p in h && p != o ==> Without(h[p], id) == h[p]
  {
    forall i, j | 0 <= i < j < |h[o]| ensures h[o][i].id != h[o][j].id {
      assert ListedAt(h, o, i, h[o][i].id) && ListedAt(h, o, j, h[o][j].id);
    }
    WithoutAt(h[o], k);
    forall p | p in h && p != o ensures Without(h[p], id) == h[p] {
      forall i | 0 <= i < |h[p]| ensures h[p][i].id != id {
        assert ListedAt(h, p, i, h[p][i].id);
      }
      WithoutAbsent(h[p], id);
    }
  }

  /** Only the offset of the id can lose its handlers. */
  lemma RemoveSubOf(h: Handlers, next: SubsId, o: Cell, k: nat, id: SubsId)
    requires IdsOk(h, next) && ListedAt(h, o, k, id) && forall p :: p in h ==> h[p] != []
    ensures var rest := h[o][..k] + h[o][k + 1..];
            RemoveSub(h, id) == if rest == [] then h - {o} else h[o := rest]
    ensures Emptied(h, id) == if |h[o]| == 1 then {o} else {}
  {
    WithoutOf(h, next, o, k, id);
    hide Without;
    var rest := h[o][..k] + h[o][k + 1..];
    assert RemoveSub(h, id).Keys == if rest == [] then h.Keys - {o} else h.Keys;
  }

  lemma {:induction false} DropKeeps(known: seq<Cell>, gone: set<Cell>)
    requires NoRepeats(known)
    ensures NoRepeats(Drop(known, gone))
    ensures forall o :: o in Drop(known, gone) <==> o in known && o !in gone
  {
    if known != [] {
      DropKeeps(known[1..], gone);
      assert known == [known[0]] + known[1..];
    }
  }

  lemma UnsubscribeKeepsOk(s: Poller, id: SubsId)
    requires Ok(s)
    ensures Ok(Unsubscribe(s, id).0)
  {
    hide Last, ToValue, RemoveSub, Drop, Emptied, IdsOk, Told;
    match OffsetOf(s.handlers, id)
    case None =>
    case Some(o) =>
      var k :| ListedAt(s.handlers, o, k, id);
      RemoveSubOf(s.handlers, s.next, o, k, id);
      DropKeeps(s.known, Emptied(s.handlers, id));
      ShorterLists(s, o, k, id, Unsubscribe(s, id).0.handlers);
  }

  lemma ShorterLists(s: Poller, o: Cell, k: nat, id: SubsId, h: Handlers)
    requires Ok(s) && ListedAt(s.handlers, o, k, id)
    requires var rest := s.handlers[o][..k] + s.handlers[o][k + 1..];
             h == if rest == [] then s.handlers - {o} else s.handlers[o := rest]
    ensures IdsOk(h, s.next) && Told(h, s.pending, s.values, s.calls)
  {
    hide Last, ToValue;
    forall p, i, x | ListedAt(h, p, i, x) ensures ListedAt(s.handlers, p, if p == o && i >= k then i + 1 else i, x) {
    }
  }

  /** What visiting the observed offsets has done for a subscription to one of them. */
  ghost predicate VisitedOne(s: Poller, t: Poller, o: Cell, id: SubsId, left: bool) {
    if left then
      Last(t.calls, id) == Last(s.calls, id) && CallsTo(t.calls, id) == CallsTo(s.calls, id)
    else
      && o in t.values && t.values[o] == Read(s.memory, o)
      && Last(t.calls, id) == Some(ToValue(o.width, Read(s.memory, o)))
      && CallsTo(t.calls, id) == CallsTo(s.calls, id) + if Due(s, o) then 1 else 0
  }

  /** What has been done when the offsets of `left` are still to be visited. */
  ghost predicate Visited(s: Poller, t: Poller, left: set<Cell>) {
    && t == s.(values := t.values, calls := t.calls)
    && (forall o :: o in s.values ==> o in t.values)
    && (forall o :: o in left && o in s.values ==> t.values[o] == s.values[o])
    && (forall o: Cell, i, id :: ListedAt(s.handlers, o, i, id) ==> VisitedOne(s, t, o, id, o in left))
  }

  lemma VisitStep(s: Poller, t: Poller, o: Cell, left: set<Cell>)
    requires Ok(s) && Visited(s, t, left) && o in left && o in s.handlers
    ensures Visited(s, Visit(t, o), left - {o})
  {
    hide Read, Last, CallsTo, Notices, ToValue;
    forall p: Cell, i, id | ListedAt(s.handlers, p, i, id)
      ensures VisitedOne(s, Visit(t, o), p, id, p in left - {o})
    {
      VisitNews(s, t, o, left, p, i, id);
    }
  }

  lemma VisitNews(s: Poller, t: Poller, o: Cell, left: set<Cell>, p: Cell, i: int, id: SubsId)
    requires Ok(s) && Visited(s, t, left) && o in left && o in s.handlers && ListedAt(s.handlers, p, i, id)
    ensures VisitedOne(s, Visit(t, o), p, id, p in left - {o})
  {
    hide Read, Last, CallsTo, Notices, ToValue;
    var v, subs := Read(s.memory, o), s.handlers[o];
    assert t.values[o] == s.values[o];
    assert VisitedOne(s, t, p, id, p in left);
    assert forall j :: 0 <= j < |subs| ==> ListedAt(s.handlers, o, j, subs[j].id);
    LastOfNotices(t.calls, subs, ToValue(o.width, v), id);
    CallsInNotices(t.calls, subs, ToValue(o.width, v), id);
  }

  lemma {:induction false} VisitAllStep(s: Poller, t: Poller, order: seq<Cell>)
    requires Ok(s) && NoRepeats(order) && (forall o :: o in order ==> o in s.handlers)
    requires Visited(s, t, set o | o in order)
    ensures Visited(s, VisitAll(t, order), {})
    decreases |order|
  {
    hide Ok, Visited, Visit;
    if order == [] {
      assert (set o | o in order) == {};
    } else {
      var left := set o | o in order;
      VisitStep(s, t, order[0], left);
      assert order == [order[0]] + order[1..];
      assert left - {order[0]} == set o | o in order[1..];
      VisitAllStep(s, Visit(t, order[0]), order[1..]);
    }
  }

  lemma StartVisiting(s: Poller, order: seq<Cell>)
    requires Ok(s) && IsOrder(order, s.observed)
    ensures Visited(s, s, set o | o in order)
  {
  }

  lemma CheckKeepsOk(s: Poller, order: seq<Cell>)
    requires Ok(s) && IsOrder(order, s.observed)
    ensures Ok(CheckForUpdates(s, order))
    ensures Visited(s, VisitAll(s, order), {})
  {
    StartVisiting(s, order);
    VisitAllStep(s, s, order);
    hide Last, Read, ToValue, VisitAll;
  }

  lemma NextKeepsOk(s: Poller, e: Event)
    requires Ok(s)
    ensures Ok(Next(s, e))
  {
    hide Read, Write, CheckForUpdates, Subscribe, Unsubscribe, Last, ToValue;
    match e
    case Subscription(parsed, v, handler) => SubscribeKeepsOk(s, parsed, v, handler);
    case Unsubscription(id) => UnsubscribeKeepsOk(s, id);
    case Writing(_, _) =>
    case Simulation(_) =>
    case Check(order) =>
      if IsOrder(order, s.observed) {
        CheckKeepsOk(s, order);
      }
  }

  lemma {:induction false} EveryRunOk(m: Memory, events: seq<Event>)
    ensures Ok(Run(m, events))
    decreases |events|
  {
    if events != [] {
      hide Next, Ok;
      EveryRunOk(m, events[..|events| - 1]);
      NextKeepsOk(Run(m, events[..|events| - 1]), events[|events| - 1]);
    }
  }

  // ----- what follows

  lemma RunOn(m: Memory, events: seq<Event>, e: Event)
    ensures Run(m, events + [e]) == Next(Run(m, events), e)
  {
    assert (events + [e])[..|events|] == events;
  }

  /** Replica agreement: whatever was subscribed, unsubscribed, written and changed before, after a check
      every live subscription was last told the value its offset has in memory. */
  lemma ReplicaAgreement(m: Memory, events: seq<Event>, order: seq<Cell>)
    requires IsOrder(order, Run(m, events).observed)
    ensures var t := Run(m, events + [Check(order)]);
            forall o, i, id: SubsId :: ListedAt(t.handlers, o, i, id) ==>
              Last(t.calls, id) == Some(ToValue(o.width, Read(t.memory, o)))
  {
    hide Last, Read, ToValue, VisitAll, Ok, CallsTo;
    EveryRunOk(m, events);
    RunOn(m, events, Check(order));
    CheckKeepsOk(Run(m, events), order);
    var s, t := Run(m, events), Run(m, events + [Check(order)]);
    forall o, i, id: SubsId | ListedAt(t.handlers, o, i, id)
      ensures Last(t.calls, id) == Some(ToValue(o.width, Read(t.memory, o)))
    {
      assert VisitedOne(s, VisitAll(s, order), o, id, false);
    }
  }

  /** A check calls the handler of a subscription once if its offset has news, and otherwise not. */
  lemma OneCallPerNews(m: Memory, events: seq<Event>, order: seq<Cell>, o: Cell, i: int, id: SubsId)
    requires var s := Run(m, events); IsOrder(order, s.observed) && ListedAt(s.handlers, o, i, id)
    ensures var s, t := Run(m, events), Run(m, events + [Check(order)]);
            CallsTo(t.calls, id) == CallsTo(s.calls, id) + if Due(s, o) then 1 else 0
  {
    hide Last, Read, ToValue, VisitAll, Ok, CallsTo, Due;
    EveryRunOk(m, events);
    RunOn(m, events, Check(order));
    CheckKeepsOk(Run(m, events), order);
    assert VisitedOne(Run(m, events), VisitAll(Run(m, events), order), o, id, false);
  }

  /** At every point the database and the observer agree, so that no look-up ever fails. */
  lemma ObserverAgreesWithDatabase(m: Memory, events: seq<Event>)
    ensures Agree(Run(m, events))
  {
    EveryRunOk(m, events);
  }

  /** A value written through a subscription comes back at the next check, cut to the width of the offset. */
  lemma {:induction false} WrittenIsTold(m: Memory, events: seq<Event>, id: SubsId, value: dword,
                                         order: seq<Cell>, o: Cell, i: int)
    requires var s := Run(m, events); IsOrder(order, s.observed) && ListedAt(s.handlers, o, i, id)
    ensures var t := Run(m, events + [Writing(id, value)] + [Check(order)]);
            Last(t.calls, id) == Some(ToValue(o.width, value % Range(o.width)))
  {
    hide Last, Read, Write, ToValue, Range, Run;
    var s := Run(m, events);
    EveryRunOk(m, events);
    RunOn(m, events, Writing(id, value));
    var w := Run(m, events + [Writing(id, value)]);
    assert OffsetOf(s.handlers, id) == Some(o);
    assert w == s.(memory := Write(s.memory, o, value));
    ReadBack(s.memory, o, value);
    RunOn(m, events + [Writing(id, value)], Check(order));
    ReplicaAgreement(m, events + [Writing(id, value)], order);
    EveryRunOk(m, events + [Writing(id, value)]);
    CheckKeepsOk(w, order);
    assert ListedAt(CheckForUpdates(w, order).handlers, o, i, id);
  }
}

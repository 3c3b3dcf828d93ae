/** What every run of a session keeps, whatever its client sends. */
module ServerRuns {
  import opened FlightVarTypes
  import opened OutputBuffers
  import opened ServerModel

  predicate Grants(msg: Message, m: SubsId) {
    msg.SubscriptionReply? && msg.status == Subscribed && msg.id == m
  }

  predicate Releases(msg: Message, m: SubsId) {
    msg.UnsubscriptionReply? && msg.status == Unsubscribed && msg.id == m
  }

  /** The state after a run and every message that was to be written to the session's connection: those
      of them that fit the output buffer are on the wire. */
  function Run(events: seq<Event>): (Server, seq<Message>)
    decreases |events|
  {
    if events == [] then (START, [])
    else
      var (s, wire) := Run(events[..|events| - 1]);
      var (t, out) := Next(s, events[|events| - 1]);
      (t, wire + out)
  }

  /** The subscriptions that have been granted and not released. */
  function Held(wire: seq<Message>): set<SubsId>
    decreases |wire|
  {
    if wire == [] then {}
    else
      var msg, before := wire[|wire| - 1], Held(wire[..|wire| - 1]);
      if msg.SubscriptionReply? && msg.status == Subscribed then before + {msg.id}
      else if msg.UnsubscriptionReply? && msg.status == Unsubscribed then before - {msg.id}
      else before
  }

  ghost predicate Injective(mapper: map<VarId, SubsId>) {
    forall v, w :: v in mapper && w in mapper && mapper[v] == mapper[w] ==> v == w
  }

  ghost predicate SessionOk(s: Server) {
    && Injective(s.mapper)
    && (forall m :: m in s.live ==> m < s.next)
    && (forall v :: v in s.mapper ==> s.mapper[v] < s.next)
    && s.mapper.Values <= s.live
    && (!Alive(s) ==> s.mapper == map[])
  }

  /** Every update is for a subscription that was granted before it and not released before it. */
  ghost predicate Ordered(wire: seq<Message>) {
    forall j :: 0 <= j < |wire| && wire[j].VarUpdate? ==>
      && (exists i :: 0 <= i < j && Grants(wire[i], wire[j].id))
      && (forall i :: 0 <= i < j ==> !Releases(wire[i], wire[j].id))
  }

  ghost predicate GrantedOnce(said: seq<Message>) {
    forall i, j, m: SubsId ::
      0 <= i < |said| && 0 <= j < |said| && Grants(said[i], m) && Grants(said[j], m) ==> i == j
  }

  /** What is known of these messages: ids come from the delegate's counter and are granted once, those
      in `ids` have been granted and not released, and the updates are in order. */
  ghost predicate WireOk(wire: seq<Message>, ids: set<SubsId>, next: SubsId) {
    && (forall i, m: SubsId :: 0 <= i < |wire| && (Grants(wire[i], m) || Releases(wire[i], m)) ==> m < next)
    && GrantedOnce(wire)
    && (forall m :: m in ids ==> exists i :: 0 <= i < |wire| && Grants(wire[i], m))
    && (forall m, i :: m in ids && 0 <= i < |wire| ==> !Releases(wire[i], m))
    && Ordered(wire)
  }

  lemma {:induction false} Extend(wire: seq<Message>, msg: Message, ids: set<SubsId>, next: SubsId,
                                  ids': set<SubsId>, next': SubsId)
    requires WireOk(wire, ids, next) && next <= next'
    requires forall m: SubsId :: Grants(msg, m) || Releases(msg, m) ==> m < next'
    requires forall m: SubsId :: Grants(msg, m) ==> next <= m
    requires forall m :: m in ids' ==> !Releases(msg, m) && (m in ids || Grants(msg, m))
    requires msg.VarUpdate? ==> msg.id in ids
    ensures WireOk(wire + [msg], ids', next')
  {
    var longer := wire + [msg];
    forall m | m in ids' ensures exists i :: 0 <= i < |longer| && Grants(longer[i], m) {
      if m in ids {
        var i :| 0 <= i < |wire| && Grants(wire[i], m);
        assert Grants(longer[i], m);
      } else {
        assert Grants(longer[|wire|], m);
      }
    }
    forall j | 0 <= j < |longer| && longer[j].VarUpdate?
      ensures (exists i :: 0 <= i < j && Grants(longer[i], longer[j].id))
      ensures forall i :: 0 <= i < j ==> !Releases(longer[i], longer[j].id)
    {
      assert j < |wire| ==> longer[j] == wire[j];
      var i :| 0 <= i < |wire| && i < j && Grants(wire[i], longer[j].id);
      assert longer[i] == wire[i];
    }
  }

  lemma Widen(wire: seq<Message>, ids: set<SubsId>, next: SubsId, ids': set<SubsId>, next': SubsId)
    requires WireOk(wire, ids, next) && ids' <= ids && next <= next'
    ensures WireOk(wire, ids', next')
  {
  }

  lemma HeldAppend(wire: seq<Message>, msg: Message)
    ensures Held(wire + [msg]) == if msg.SubscriptionReply? && msg.status == Subscribed then Held(wire) + {msg.id}
                                  else if msg.UnsubscriptionReply? && msg.status == Unsubscribed
                                  then Held(wire) - {msg.id}
                                  else Held(wire)
  {
    assert (wire + [msg])[..|wire|] == wire;
  }

  lemma UnregisterKeeps(mapper: map<VarId, SubsId>, m: SubsId)
    ensures Unregister(mapper, m).Values == mapper.Values - {m}
  {
    forall x | x in mapper.Values - {m} ensures x in Unregister(mapper, m).Values {
      var v :| v in mapper && mapper[v] == x;
      assert Unregister(mapper, m)[v] == x;
    }
  }

  lemma RegisterAdds(mapper: map<VarId, SubsId>, v: VarId, m: SubsId)
    requires v !in mapper
    ensures mapper[v := m].Values == mapper.Values + {m}
  {
    forall x | x in mapper.Values + {m} ensures x in mapper[v := m].Values {
      if x in mapper.Values {
        var w :| w in mapper && mapper[w] == x;
        assert mapper[v := m][w] == x;
      } else {
        assert mapper[v := m][v] == x;
      }
    }
  }

  /** While the session lives, what the client holds is exactly what the session has registered. */
  ghost predicate RunOk(s: Server, wire: seq<Message>) {
    && SessionOk(s)
    && WireOk(wire, s.mapper.Values, s.next)
    && (if Alive(s) then Held(wire) == s.mapper.Values else Held(wire) * s.live == {})
  }

  lemma SubscriptionKeepsOk(s: Server, wire: seq<Message>, v: VarId, known: bool)
    requires RunOk(s, wire) && s.open
    ensures var (t, reply) := OnSubscription(s, v, known); RunOk(t, wire + [reply])
  {
    hide Held, Ordered;
    var (t, reply) := OnSubscription(s, v, known);
    HeldAppend(wire, reply);
    if v !in s.mapper && known {
      RegisterAdds(s.mapper, v, s.next);
    }
    Extend(wire, reply, s.mapper.Values, s.next, t.mapper.Values, t.next);
  }

  lemma UnsubscriptionKeepsOk(s: Server, wire: seq<Message>, m: SubsId)
    requires RunOk(s, wire) && s.open
    ensures var (t, reply) := OnUnsubscription(s, m); RunOk(t, wire + [reply])
  {
    hide Held, Ordered;
    var (t, reply) := OnUnsubscription(s, m);
    HeldAppend(wire, reply);
    UnregisterKeeps(s.mapper, m);
    Extend(wire, reply, s.mapper.Values, s.next, t.mapper.Values, t.next);
  }

  /** A session that stopped reading dies, or lives on for its posted updates. */
  lemma ReleaseKeepsOk(s: Server, wire: seq<Message>)
    requires WireOk(wire, s.mapper.Values, s.next) && Injective(s.mapper) && Held(wire) == s.mapper.Values
    requires s.mapper.Values <= s.live && (forall m :: m in s.live ==> m < s.next)
             && (forall v :: v in s.mapper ==> s.mapper[v] < s.next)
    ensures RunOk(Release(s), wire)
  {
    hide Held, Ordered;
    if !Alive(s) {
      Widen(wire, s.mapper.Values, s.next, {}, s.next);
      assert Release(s).mapper.Values == {};
    }
  }

  lemma RequestKeepsOk(s: Server, wire: seq<Message>, msg: Message, known: bool)
    requires RunOk(s, wire) && s.open
    ensures var (t, out) := OnRequest(s, msg, known); RunOk(t, wire + out)
  {
    hide Held, WireOk, OnSubscription, OnUnsubscription;
    assert wire + [] == wire;
    match msg
    case SubscriptionRequest(v) =>
      SubscriptionKeepsOk(s, wire, v, known);
    case UnsubscriptionRequest(m) =>
      UnsubscriptionKeepsOk(s, wire, m);
    case VarUpdate(_, _) =>
    case _ =>
      HangupKeepsOk(s, wire);
  }

  lemma HangupKeepsOk(s: Server, wire: seq<Message>)
    requires RunOk(s, wire)
    ensures RunOk(OnHangup(s), wire)
  {
    hide Held, WireOk;
    if Alive(s) {
      ReleaseKeepsOk(s.(open := false), wire);
    } else {
      assert OnHangup(s) == s.(live := s.live - {});
    }
  }

  lemma StepKeepsOk(s: Server, wire: seq<Message>, e: Event)
    requires RunOk(s, wire)
    ensures var (t, out) := Next(s, e); RunOk(t, wire + out)
  {
    assert wire + [] == wire;
    match e
    case Request(msg, known) =>
      if s.open {
        RequestKeepsOk(s, wire, msg, known);
      }
    case Hangup =>
      HangupKeepsOk(s, wire);
    case Raise(_, _) =>
    case Send =>
      if s.posted != [] {
        var t := s.(posted := s.posted[1..]);
        if s.posted[0].v in s.mapper {
          var msg := VarUpdate(s.mapper[s.posted[0].v], s.posted[0].value);
          HeldAppend(wire, msg);
          Extend(wire, msg, s.mapper.Values, s.next, s.mapper.Values, s.next);
          ReleaseKeepsOk(t, wire + [msg]);
        } else {
          ReleaseKeepsOk(t, wire);
        }
      }
    case OtherSubscribes =>
      HeldBelow(wire, s.next);
      Widen(wire, s.mapper.Values, s.next, s.mapper.Values, s.next + 1);
    case OtherUnsubscribes(_) =>
  }

  lemma {:induction false} HeldBelow(wire: seq<Message>, next: SubsId)
    requires forall i, m: SubsId :: 0 <= i < |wire| && Grants(wire[i], m) ==> m < next
    ensures forall m :: m in Held(wire) ==> m < next
    decreases |wire|
  {
    if wire != [] {
      var front := wire[..|wire| - 1];
      HeldBelow(front, next);
      assert wire == front + [wire[|wire| - 1]];
      HeldAppend(front, wire[|wire| - 1]);
      var last := wire[|wire| - 1];
      assert last.SubscriptionReply? && last.status == Subscribed ==> Grants(last, last.id);
    }
  }

  lemma {:induction false} EveryRunOk(events: seq<Event>)
    ensures RunOk(Run(events).0, Run(events).1)
    decreases |events|
  {
    if events == [] {
      assert START.mapper.Values == {};
    } else {
      var front := events[..|events| - 1];
      EveryRunOk(front);
      StepKeepsOk(Run(front).0, Run(front).1, events[|events| - 1]);
    }
  }

  // ----- what follows for the wire

  lemma OrderedAppend(wire: seq<Message>, msg: Message)
    ensures Ordered(wire + [msg]) <==>
            Ordered(wire) && (msg.VarUpdate? ==>
              && (exists i :: 0 <= i < |wire| && Grants(wire[i], msg.id))
              && (forall i :: 0 <= i < |wire| ==> !Releases(wire[i], msg.id)))
  {
    var longer := wire + [msg];
    assert forall i :: 0 <= i < |wire| ==> longer[i] == wire[i];
    if Ordered(longer) {
      forall j | 0 <= j < |wire| && wire[j].VarUpdate?
        ensures (exists i :: 0 <= i < j && Grants(wire[i], wire[j].id))
        ensures forall i :: 0 <= i < j ==> !Releases(wire[i], wire[j].id)
      {
        assert longer[j] == wire[j];
        var i :| 0 <= i < j && Grants(longer[i], longer[j].id);
        assert Grants(wire[i], wire[j].id);
      }
      assert longer[|wire|] == msg;
    }
  }

  /** The grant behind every update fits the output buffer. */
  ghost predicate GrantsFit(said: seq<Message>) {
    forall i, j ::
      0 <= i < |said| && 0 <= j < |said| && said[j].VarUpdate? && Grants(said[i], said[j].id) ==> Fits(said[i])
  }

  lemma GrantsFitAppend(front: seq<Message>, msg: Message)
    requires Ordered(front + [msg]) && GrantedOnce(front + [msg])
    ensures Ordered(front) && GrantedOnce(front)
    ensures GrantsFit(front + [msg]) <==>
            && GrantsFit(front)
            && (msg.VarUpdate? ==>
                  exists i :: 0 <= i < |front| && Grants(front[i], msg.id) && Fits(front[i]))
  {
    hide Fits;
    var said := front + [msg];
    OrderedAppend(front, msg);
    assert said[|front|] == msg && forall i :: 0 <= i < |front| ==> said[i] == front[i];
    assert forall i, m: SubsId :: 0 <= i < |front| && Grants(front[i], m) ==> Grants(said[i], m);
    forall j | 0 <= j < |front| && front[j].VarUpdate? ensures !Grants(msg, front[j].id) {
      var i :| 0 <= i < j && Grants(front[i], front[j].id);
      assert Grants(said[i], front[j].id);
    }
  }

  lemma WrittenKeeps(said: seq<Message>, m: SubsId)
    ensures (exists i :: 0 <= i < |Written(said)| && Grants(Written(said)[i], m)) <==>
            (exists i :: 0 <= i < |said| && Grants(said[i], m) && Fits(said[i]))
    ensures (forall i :: 0 <= i < |said| ==> !Releases(said[i], m)) ==>
            forall i :: 0 <= i < |Written(said)| ==> !Releases(Written(said)[i], m)
  {
    hide Fits, Written;
    forall msg: Message ensures msg in Written(said) <==> msg in said && Fits(msg) {
      WrittenFits(said, msg);
    }
    assert forall i :: 0 <= i < |said| ==> said[i] in said;
    assert forall i :: 0 <= i < |Written(said)| ==> Written(said)[i] in Written(said);
  }

  lemma {:induction false} OrderedExactly(said: seq<Message>)
    requires Ordered(said) && GrantedOnce(said)
    ensures Ordered(Written(said)) <==> GrantsFit(said)
    decreases |said|
  {
    hide Fits, Written, GrantedOnce;
    if said == [] {
      WrittenNothing();
    } else {
      var front, msg := said[..|said| - 1], said[|said| - 1];
      assert said == front + [msg];
      OrderedAppend(front, msg);
      GrantsFitAppend(front, msg);
      OrderedExactly(front);
      WrittenAppend(front, msg);
      if msg.VarUpdate? {
        ShortMessagesFit(msg.id, msg.value);
        WrittenKeeps(front, msg.id);
        OrderedAppend(Written(front), msg);
      } else if Fits(msg) {
        OrderedAppend(Written(front), msg);
      }
    }
  }

  /** On the wire of a session, whatever its client sends and however late posted updates leave, no
      update for an id comes after the reply that released it; and every update comes after the reply
      that granted its id exactly if all those replies fit the output buffer. */
  lemma WireOrder(events: seq<Event>)
    ensures Ordered(Run(events).1)
    ensures Ordered(Written(Run(events).1)) <==> GrantsFit(Run(events).1)
  {
    EveryRunOk(events);
    OrderedExactly(Run(events).1);
  }

  /** A session is registered for exactly the ids it has granted and not released while it lives, and
      once it is dead, for whatever reason, the delegate keeps none of them. */
  lemma NothingLeaks(events: seq<Event>)
    ensures var (s, said) := Run(events);
            if Alive(s) then Held(said) == s.mapper.Values && Held(said) <= s.live else Held(said) * s.live == {}
  {
    EveryRunOk(events);
  }
}

/** What a session says, told from its events alone: which value every update carries, under which id, and
    how unsubscriptions are answered. */
module SessionUpdates {
  import opened FlightVarTypes
  import Numerals
  import opened ServerModel
  import opened ServerRuns

  /** The changes raised while the session lived that no Send has dealt with yet, the oldest first. */
  function Waiting(events: seq<Event>): seq<Posted>
    decreases |events|
  {
    if events == [] then []
    else
      var before := Waiting(events[..|events| - 1]);
      match events[|events| - 1]
      case Raise(v, value) => if Alive(Run(events[..|events| - 1]).0) then before + [Posted(v, value)] else before
      case Send => if before == [] then [] else before[1..]
      case _ => before
  }

  lemma {:induction false} WaitingArePosted(events: seq<Event>)
    ensures Run(events).0.posted == Waiting(events)
    decreases |events|
  {
    hide AlreadyText, NoVarText, NoSubscriptionText, UnknownText;
    if events != [] {
      WaitingArePosted(events[..|events| - 1]);
    }
  }

  lemma RunOn(events: seq<Event>, e: Event)
    ensures var (s, said) := Run(events);
            Run(events + [e]) == (Next(s, e).0, said + Next(s, e).1)
  {
    assert (events + [e])[..|events|] == events;
  }

  /** Send deals with the oldest change raised: the update it says has the value raised, under the id the
      variable has, and there is none if the variable has no id. */
  lemma SendSaysWhatWasRaised(events: seq<Event>)
    requires Waiting(events) != []
    ensures var (s, said) := Run(events);
            var Posted(v, value) := Waiting(events)[0];
            Run(events + [Send]).1 == if v in s.mapper then said + [VarUpdate(s.mapper[v], value)] else said
  {
    WaitingArePosted(events);
    RunOn(events, Send);
    assert Run(events).1 + [] == Run(events).1;
  }

  /** Nothing else says an update. */
  lemma OnlySendUpdates(events: seq<Event>, e: Event)
    requires e != Send || Waiting(events) == []
    ensures var before, after := Run(events).1, Run(events + [e]).1;
            before <= after && forall i :: |before| <= i < |after| ==> !after[i].VarUpdate?
  {
    hide AlreadyText, NoVarText, NoSubscriptionText, UnknownText, Run;
    WaitingArePosted(events);
    RunOn(events, e);
  }

  // ----- which variables have which ids

  /** The session has said that v has id m, and not that m is gone. */
  ghost predicate Holds(said: seq<Message>, v: VarId, m: SubsId) {
    && (exists i :: 0 <= i < |said| && Grants(said[i], m) && said[i].v == v)
    && (forall i :: 0 <= i < |said| ==> !Releases(said[i], m))
  }

  lemma HoldsAppend(said: seq<Message>, msg: Message, v: VarId, m: SubsId)
    ensures Holds(said + [msg], v, m) <==>
            && (Holds(said, v, m)
                || (Grants(msg, m) && msg.v == v && forall i :: 0 <= i < |said| ==> !Releases(said[i], m)))
            && !Releases(msg, m)
  {
    var longer := said + [msg];
    assert longer[|said|] == msg && forall i :: 0 <= i < |said| ==> longer[i] == said[i];
  }

  /** While a session lives its table holds what it has said. */
  ghost predicate TableOk(s: Server, said: seq<Message>) {
    Alive(s) ==> forall v, m :: v in s.mapper && s.mapper[v] == m <==> Holds(said, v, m)
  }

  lemma SubscriptionKeepsTable(s: Server, said: seq<Message>, v: VarId, known: bool)
    requires TableOk(s, said) && RunOk(s, said) && s.open
    ensures var (t, reply) := OnSubscription(s, v, known); TableOk(t, said + [reply])
  {
    hide Held, Ordered, GrantedOnce, AlreadyText, NoVarText, Holds;
    var (t, reply) := OnSubscription(s, v, known);
    forall w, m ensures w in t.mapper && t.mapper[w] == m <==> Holds(said + [reply], w, m) {
      HoldsAppend(said, reply, w, m);
      FreshIsNotHeld(s, said, w);
      assert Grants(reply, m) ==> m == s.next;
    }
  }

  lemma FreshIsNotHeld(s: Server, said: seq<Message>, v: VarId)
    requires RunOk(s, said)
    ensures !Holds(said, v, s.next) && forall i :: 0 <= i < |said| ==> !Releases(said[i], s.next)
  {
    hide Held, Ordered, GrantedOnce;
  }

  lemma UnsubscriptionKeepsTable(s: Server, said: seq<Message>, m: SubsId)
    requires TableOk(s, said) && RunOk(s, said) && s.open
    ensures var (t, reply) := OnUnsubscription(s, m); TableOk(t, said + [reply])
  {
    hide RunOk, NoSubscriptionText, UnknownText, Holds;
    var (t, reply) := OnUnsubscription(s, m);
    forall w, n ensures w in t.mapper && t.mapper[w] == n <==> Holds(said + [reply], w, n) {
      HoldsAppend(said, reply, w, n);
      assert w in s.mapper && s.mapper[w] == n <==> Holds(said, w, n);
    }
  }

  lemma UpdateKeepsHolds(said: seq<Message>, msg: Message)
    requires msg.VarUpdate?
    ensures forall v, m :: Holds(said + [msg], v, m) <==> Holds(said, v, m)
  {
    forall v, m ensures Holds(said + [msg], v, m) <==> Holds(said, v, m) {
      HoldsAppend(said, msg, v, m);
    }
  }

  lemma StepKeepsTable(s: Server, said: seq<Message>, e: Event)
    requires TableOk(s, said) && RunOk(s, said)
    ensures var (t, out) := Next(s, e); TableOk(t, said + out)
  {
    hide RunOk, Holds, OnSubscription, OnUnsubscription;
    assert said + [] == said;
    match e
    case Request(msg, known) =>
      if s.open {
        match msg {
          case SubscriptionRequest(v) => SubscriptionKeepsTable(s, said, v, known);
          case UnsubscriptionRequest(m) => UnsubscriptionKeepsTable(s, said, m);
          case _ =>
        }
      }
    case Send =>
      if s.posted != [] && s.posted[0].v in s.mapper {
        UpdateKeepsHolds(said, VarUpdate(s.mapper[s.posted[0].v], s.posted[0].value));
      }
    case _ =>
  }

  /** In every run, while the session lives, v has id m if and only if the session has granted m for v and
      not released it. */
  lemma {:induction false} IdsAreGranted(events: seq<Event>)
    ensures TableOk(Run(events).0, Run(events).1)
    decreases |events|
  {
    hide TableOk, RunOk, Next;
    if events == [] {
      assert TableOk(START, []) by { EmptyTable(); }
    } else {
      var front := events[..|events| - 1];
      IdsAreGranted(front);
      EveryRunOk(front);
      StepKeepsTable(Run(front).0, Run(front).1, events[|events| - 1]);
    }
  }

  lemma EmptyTable()
    ensures TableOk(START, [])
  {
  }

  /** An unsubscription is answered for its id: unsubscribed if the session was granted the id and has not
      released it, no such subscription if the delegate does not know it, and unknown otherwise. */
  lemma UnsubscriptionsAnswered(events: seq<Event>, m: SubsId, known: bool)
    requires Run(events).0.open
    ensures var (s, said) := Run(events);
            var (t, after) := Run(events + [Request(UnsubscriptionRequest(m), known)]);
            && |after| == |said| + 1 && after[..|said|] == said
            && after[|said|].UnsubscriptionReply? && after[|said|].id == m
            && after[|said|].status == (if m in Held(said) then Unsubscribed
                                        else if m in s.live then Unknown else NoSuchSubscription)
            && after[|said|].cause == (
                 if m in Held(said) then []
                 else if m in s.live then Ascii("Server error while unsubscribing from " + Numerals.Decimal(m))
                 else Ascii("No such subscription with ID " + Numerals.Decimal(m)))
            && t.live == s.live - {m}
  {
    hide Held, WireOk, Ascii, Numerals.Decimal, Run;
    EveryRunOk(events);
    RunOn(events, Request(UnsubscriptionRequest(m), known));
  }

  /** A subscription is answered for its variable: already subscribed if the session has an id for it, and
      otherwise as the delegate says, with a new id if it knows the variable. */
  lemma SubscriptionsAnswered(events: seq<Event>, v: VarId, known: bool)
    requires Run(events).0.open
    ensures var (s, said) := Run(events);
            var (t, after) := Run(events + [Request(SubscriptionRequest(v), known)]);
            && |after| == |said| + 1 && after[..|said|] == said
            && after[|said|].SubscriptionReply? && after[|said|].v == v
            && after[|said|].status == (if exists m :: Holds(said, v, m) then VarAlreadySubscribed
                                        else if known then Subscribed else NoSuchVar)
            && (if after[|said|].status == Subscribed
                then after[|said|].id !in s.live && t.live == s.live + {after[|said|].id} && after[|said|].cause == []
                else t.live == s.live && after[|said|].id == 0)
            && (after[|said|].status == VarAlreadySubscribed ==>
                  after[|said|].cause == Ascii("Variable already subscribed"))
            && (after[|said|].status == NoSuchVar ==>
                  after[|said|].cause == Ascii("No such variable defined in FlightVars module; missing plugin?"))
  {
    hide Held, WireOk, Ascii, Run, Holds;
    EveryRunOk(events);
    IdsAreGranted(events);
    RunOn(events, Request(SubscriptionRequest(v), known));
    var (s, said) := Run(events);
    assert v in s.mapper ==> Holds(said, v, s.mapper[v]);
  }
}

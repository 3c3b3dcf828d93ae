/** What follows when the delegate knows some variables and does not know the others, once and for all. Then
    the lengths of the names and what is known decide which requests are answered and when the protocol
    fails. */
module ProtocolAnswers {
  import opened FlightVarTypes
  import C = ClientModel
  import CR = ClientRuns
  import CO = ClientOutcomes
  import S = ServerModel
  import SR = ServerRuns
  import opened OutputBuffers
  import opened Protocol
  import opened ProtocolInvariant
  import opened ProtocolSteps
  import opened ProtocolRuns

  type Knowledge = VarId -> bool

  predicate Agrees(s: System, l: Label, knows: Knowledge) {
    l.Serve? && s.up != [] && s.up[0].SubscriptionRequest? ==> l.known == knows(s.up[0].v)
  }

  /** Every answer of the delegate agrees with what it knows. */
  ghost predicate Consistent(labels: seq<Label>, knows: Knowledge)
    decreases |labels|
  {
    labels != [] ==>
      var front := labels[..|labels| - 1];
      Consistent(front, knows) && Agrees(Run(front), labels[|labels| - 1], knows)
  }

  /** The longest variable for which every reply can be sent, and the longest for which the first can. */
  function LongestRepeated(known: bool): nat {
    if known then LONGEST_REFUSED else LONGEST_REJECTED
  }

  function LongestAnswered(known: bool): nat {
    if known then LONGEST_GRANTED else LONGEST_REJECTED
  }

  // ----- what is said

  /** Only known variables are granted or refused, only others are rejected, and each with its own words. */
  predicate SaidBy(msg: Message, knows: Knowledge) {
    msg.SubscriptionReply? ==>
      if msg.status == NoSuchVar then !knows(msg.v) && msg.cause == S.NoVarText()
      else knows(msg.v) && msg.cause == if msg.status == Subscribed then [] else S.AlreadyText()
  }

  ghost predicate KnownOk(s: System, knows: Knowledge) {
    && (forall v :: v in s.registered ==> knows(v))
    && (forall msg :: msg in s.said ==> SaidBy(msg, knows))
    && (forall msg :: msg in s.down ==> msg in s.said && Fits(msg))
    && (forall v :: s.lost[v] > 0 ==> Length(v) > LongestRepeated(knows(v)))
  }

  lemma TextLengths()
    ensures |S.AlreadyText()| == 27 && |S.NoVarText()| == 62
  {
  }

  /** A reply that is sent is about a variable short enough. */
  lemma HeardIsShort(msg: Message, knows: Knowledge)
    requires SaidBy(msg, knows) && msg.SubscriptionReply? && Fits(msg)
    ensures Length(msg.v) <= LongestAnswered(knows(msg.v))
    ensures msg.status != NoSuchVar && msg.status != Subscribed ==> Length(msg.v) <= LongestRepeated(knows(msg.v))
  {
    hide Fits, S.AlreadyText, S.NoVarText;
    TextLengths();
    SubscriptionReplyFits(msg.status, msg.v, msg.id, msg.cause);
  }

  /** What the session hands over next. */
  lemma NextSays(t: S.Server, e: S.Event, knows: Knowledge)
    requires forall v :: v in t.mapper ==> knows(v)
    requires e.Request? && e.msg.SubscriptionRequest? ==> e.known == knows(e.msg.v)
    ensures var (u, out) := S.Next(t, e);
            && |out| <= 1 && (forall v :: v in u.mapper ==> knows(v))
            && forall msg :: msg in out ==> SaidBy(msg, knows)
  {
    hide S.AlreadyText, S.NoVarText, S.NoSubscriptionText, S.UnknownText;
  }

  /** What is lost of it is about long variables. */
  lemma UnwrittenIsLong(t: S.Server, e: S.Event, knows: Knowledge)
    requires forall v :: v in t.mapper ==> knows(v)
    requires e.Request? && e.msg.SubscriptionRequest? ==> e.known == knows(e.msg.v)
    ensures forall v :: Unwritten(S.Next(t, e).1)[v] > 0 ==> Length(v) > LongestRepeated(knows(v))
  {
    hide Fits, S.Release, S.AlreadyText, S.NoVarText, S.NoSubscriptionText, S.UnknownText;
    if e.Request? && e.msg.SubscriptionRequest? {
      RepliesFit(t, e.msg.v, e.known);
    }
  }

  lemma BackgroundKnown(s: System, e: S.Event, knows: Knowledge)
    requires ServerOk(s.server, s.said, s.registered) && KnownOk(s, knows)
    requires e.Request? && e.msg.SubscriptionRequest? ==> e.known == knows(e.msg.v)
    ensures KnownOk(Background(s, e), knows)
  {
    hide ServerOk, S.Next, Written, Unwritten, Fits, SaidBy, LongestRepeated;
    AliveOrEmpty(s);
    NextSays(s.server, e, knows);
    UnwrittenIsLong(s.server, e, knows);
    MoreIsSaid(s.said, s.down, S.Next(s.server, e).1, knows);
  }

  lemma MoreIsSaid(said: seq<Message>, down: seq<Message>, out: seq<Message>, knows: Knowledge)
    requires forall msg :: msg in said || msg in out ==> SaidBy(msg, knows)
    requires forall msg :: msg in down ==> msg in said && Fits(msg)
    ensures forall msg :: msg in said + out ==> SaidBy(msg, knows)
    ensures forall msg :: msg in down + Written(out) ==> msg in said + out && Fits(msg)
  {
    hide Fits, Written, SaidBy;
    forall msg ensures msg in Written(out) <==> msg in out && Fits(msg) {
      WrittenFits(out, msg);
    }
  }

  /** The table of a session that is dead is empty. */
  lemma AliveOrEmpty(s: System)
    requires ServerOk(s.server, s.said, s.registered)
    ensures forall v :: v in s.server.mapper ==> v in s.registered
  {
    hide SR.WireOk, SR.Held;
  }

  /** A step that is not the session's. */
  lemma QuietKnown(s: System, t: System, knows: Knowledge)
    requires KnownOk(s, knows) && t.registered == s.registered && t.said == s.said
    requires forall msg :: msg in t.down ==> msg in s.down
    requires forall v :: t.lost[v] > s.lost[v] ==> Length(v) > LONGEST_REQUESTED
    ensures KnownOk(t, knows)
  {
    hide SaidBy, Fits;
  }

  lemma StepKnown(s: System, l: Label, knows: Knowledge)
    requires Ok(s) && KnownOk(s, knows) && Agrees(s, l, knows)
    ensures KnownOk(Step(s, l), knows)
  {
    hide Ok, ServerOk, KnownOk, Background, CR.Next, CR.OnMessage, Fits;
    SessionPart(s);
    match l
    case Serve(known) =>
      if s.up != [] && s.server.open {
        TakenKnown(s, s.up[1..], s.cut, knows);
        BackgroundKnown(s.(up := s.up[1..]), S.Request(s.up[0], known), knows);
      }
    case Raise(v, value) => BackgroundKnown(s, S.Raise(v, value), knows);
    case Send => BackgroundKnown(s, S.Send, knows);
    case OtherSubscribes => BackgroundKnown(s, S.OtherSubscribes, knows);
    case OtherUnsubscribes(id) => BackgroundKnown(s, S.OtherUnsubscribes(id), knows);
    case Hangup =>
      TakenKnown(s, [], true, knows);
      BackgroundKnown(s.(up := [], cut := true), S.Hangup, knows);
    case Subscribe(v, handler) =>
      RequestFits(v);
      QuietKnown(s, Step(s, l), knows);
    case _ =>
      QuietKnown(s, Step(s, l), knows);
  }

  lemma TakenKnown(s: System, up: seq<Message>, cut: bool, knows: Knowledge)
    requires KnownOk(s, knows)
    ensures KnownOk(s.(up := up, cut := cut), knows)
  {
    hide SaidBy, Fits;
  }

  lemma {:induction false} EveryRunKnown(labels: seq<Label>, knows: Knowledge)
    requires Consistent(labels, knows)
    ensures KnownOk(Run(labels), knows)
    decreases |labels|
  {
    hide Step, KnownOk;
    if labels == [] {
      assert KnownOk(START, knows) by { StartKnown(knows); }
    } else {
      var front := labels[..|labels| - 1];
      EveryRunKnown(front, knows);
      EveryRunOk(front);
      StepKnown(Run(front), labels[|labels| - 1], knows);
    }
  }

  lemma StartKnown(knows: Knowledge)
    ensures KnownOk(START, knows)
  {
  }

  // ----- when the protocol fails

  lemma ClashIsShort(s: System, knows: Knowledge, v: VarId)
    requires KnownOk(s, knows) && Clash(s.repeated, Written(s.said), v)
    ensures s.repeated[v] > 0 && Length(v) <= LongestRepeated(knows(v))
  {
    hide Written, Fits, Count, SaidBy;
    if Length(v) > LONGEST_REJECTED {
      var i := Counted(Written(s.said), OddRep(v));
      var msg := Written(s.said)[i];
      WrittenFits(s.said, msg);
      HeardIsShort(msg, knows);
    }
  }

  /** Exactly when the protocol fails: once nothing is in flight, a client whose connection did not fail is
      still connected if and only if every variable requested while an earlier request for it was waiting
      is too long for the reply that such a request gets. */
  lemma {:induction false} FailsExactlyWhenRepeated(labels: seq<Label>, knows: Knowledge)
    requires Consistent(labels, knows)
    requires var s := Run(labels); !s.cut && (!s.client.connected || (s.up == [] && s.down == []))
    ensures var s := Run(labels);
            s.client.connected <==> forall v :: s.repeated[v] > 0 ==> Length(v) > LongestRepeated(knows(v))
  {
    EveryRunOk(labels);
    EveryRunKnown(labels, knows);
    hide Run, Consistent, ServerOk, CR.ClientOk, TokensOk, SentOk, RepliesOk, RejectionsOk, LostAreLong, UnsubsOk,
         StatusOk, Order, PoolOk, PromisedOk, Written, Clash, SaidBy, Fits;
    var s := Run(labels);
    if s.client.connected {
      forall v | s.repeated[v] > 0 ensures Length(v) > LongestRepeated(knows(v)) {
        assert Count([], SubReq(v)) + Count([], SubRep(v)) + s.lost[v] == s.repeated[v] + Pending(s.client.subs, v);
      }
    } else {
      var v :| Clash(s.repeated, Written(s.said), v);
      ClashIsShort(s, knows, v);
    }
  }

  // ----- which requests are answered

  predicate Requested(labels: seq<Label>, v: VarId) {
    exists i :: 0 <= i < |labels| && labels[i].Subscribe? && labels[i].v == v
  }

  /** What a message does to the requests waiting for subscriptions. */
  lemma MessagePools(c: C.Client, msg: Message)
    ensures var d := CR.OnMessage(c, msg);
            && (d.connected ==> d.subs == if msg.SubscriptionReply? then c.subs[msg.v := []] else c.subs)
            && (d.subs == c.subs || d.subs == map[] || (msg.SubscriptionReply? && d.subs == c.subs[msg.v := []]))
  {
    hide C.OnSubscriptionReply, C.OnUnsubscriptionReply, C.SubIds, C.UnsubIds;
    match msg
    case SubscriptionReply(st, v, m, _) => ReplyPools(c, st, v, m);
    case UnsubscriptionReply(st, m, _) => UnsubReplyPools(c, st, m);
    case _ =>
  }

  lemma ReplyPools(c: C.Client, st: Status, v: VarId, m: SubsId)
    ensures C.OnSubscriptionReply(c, st, v, m).client.subs == c.subs[v := []]
  {
    hide C.CompleteSubs, C.GrantAll;
    var reqs, popped := C.PendingSubs(c.subs, v), c.(subs := c.subs[v := []]);
    CO.CompleteSubsChanges(popped, reqs, C.NoSuchVariableError(v));
    CO.GrantAllExtends(popped, v, m, reqs);
  }

  lemma UnsubReplyPools(c: C.Client, st: Status, m: SubsId)
    ensures C.OnUnsubscriptionReply(c, st, m).client.subs == c.subs
  {
    hide C.CompleteUnsubs;
    var reqs, popped := C.PendingUnsubs(c.unsubs, m), c.(unsubs := c.unsubs[m := []]);
    CO.CompleteUnsubsChanges(popped, reqs, C.NoSuchSubscriptionError(m));
    CO.CompleteUnsubsChanges(popped, reqs, C.Finished);
  }

  /** What any other callback does to them. */
  ghost predicate CallKeepsPool(c: C.Client, e: CR.Event, d: C.Client) {
    && (d.connected ==> c.connected)
    && if e.Subscribe? && e.v !in c.db then
         d.subs == c.subs[e.v := C.PendingSubs(c.subs, e.v) + [C.SubRequest(c.nextReq, e.v, e.handler)]]
       else d.subs == c.subs || (d.subs == map[] && !d.connected)
  }

  lemma CallPools(c: C.Client, e: CR.Event)
    requires !e.Receive?
    ensures CallKeepsPool(c, e, CR.Next(c, e).0)
  {
    hide C.SubIds, C.UnsubIds, Written, C.AddVirtual, C.PendingSubs, C.OnUnsubscriptionRequested,
         C.OnVariableUpdateRequested;
    match e
    case Unsubscribe(id) => CO.UnsubscribingExtends(c, id);
    case Update(id, value) => CO.UpdatingExtends(c, id, value);
    case _ =>
  }

  /** The next message is a reply about v. */
  predicate RepliesTo(s: System, l: Label, v: VarId) {
    l.Deliver? && s.down != [] && s.down[0].SubscriptionReply? && s.down[0].v == v
  }

  /** A variable begins to be waited for when it is requested, and ceases when a reply about it arrives. */
  lemma StepPools(s: System, l: Label, v: VarId)
    ensures var t := Step(s, l);
            && (t.client.connected ==> s.client.connected)
            && (C.PendingSubs(t.client.subs, v) != [] ==>
                  C.PendingSubs(s.client.subs, v) != [] || (l.Subscribe? && l.v == v))
            && (l.Subscribe? && l.v == v && v !in s.client.db ==> C.PendingSubs(t.client.subs, v) != [])
            && (t.client.connected && C.PendingSubs(s.client.subs, v) != [] && !RepliesTo(s, l, v) ==>
                  C.PendingSubs(t.client.subs, v) != [])
  {
    hide CR.Next, CR.OnMessage, Written, Unwritten, Fits, S.Next;
    match l
    case Subscribe(w, handler) => CallPools(s.client, CR.Subscribe(w, handler));
    case Unsubscribe(id) => CallPools(s.client, CR.Unsubscribe(id));
    case Update(id, value) => CallPools(s.client, CR.Update(id, value));
    case Cut(reset) => CallPools(s.client, if reset then CR.ConnectionReset else CR.ServerClosed);
    case SendFails(_) => CallPools(s.client, CR.SendFailed);
    case Deliver =>
      if s.down != [] {
        MessagePools(s.client, s.down[0]);
      }
    case _ =>
  }

  lemma {:induction false} WaitedIsRequested(labels: seq<Label>, v: VarId)
    requires C.PendingSubs(Run(labels).client.subs, v) != []
    ensures Requested(labels, v)
    decreases |labels|
  {
    hide Step, Requested;
    if labels != [] {
      var front, l := labels[..|labels| - 1], labels[|labels| - 1];
      StepPools(Run(front), l, v);
      if C.PendingSubs(Run(front).client.subs, v) != [] {
        WaitedIsRequested(front, v);
      }
      RequestedOn(front, l, v);
      assert labels == front + [l];
    }
  }

  lemma RequestedOn(labels: seq<Label>, l: Label, v: VarId)
    ensures Requested(labels + [l], v) <==> Requested(labels, v) || (l.Subscribe? && l.v == v)
  {
    var longer := labels + [l];
    assert longer[|labels|] == l && forall i :: 0 <= i < |labels| ==> longer[i] == labels[i];
  }

  /** A variable too long to be granted is not in the client's database. */
  lemma LongIsUnknown(s: System, knows: Knowledge, v: VarId)
    requires Ok(s) && KnownOk(s, knows) && Length(v) > LongestAnswered(knows(v))
    ensures v !in s.client.db
  {
    hide CR.ClientOk, ServerOk, SentOk, RepliesOk, RejectionsOk, LostAreLong, WhileJoined, Written, Clash, Count,
         SaidBy, Fits;
    assert v in s.client.db ==> Tokens(s.client.db, s.up, s.down, v, s.registered[v]) <= Room(v);
  }

  /** A variable too long for its first reply, once requested, is waited for as long as the client is
      connected. */
  lemma {:induction false} LongIsWaitedFor(labels: seq<Label>, knows: Knowledge, v: VarId)
    requires Consistent(labels, knows) && Run(labels).client.connected
    requires Requested(labels, v) && Length(v) > LongestAnswered(knows(v))
    ensures C.PendingSubs(Run(labels).client.subs, v) != []
    decreases |labels|
  {
    hide Step, Ok, Requested, KnownOk, LongestAnswered;
    NothingRequested(v);
    if labels != [] {
      var front, l := labels[..|labels| - 1], labels[|labels| - 1];
      var s := Run(front);
      EveryRunOk(front);
      EveryRunKnown(front, knows);
      StepPools(s, l, v);
      LongIsUnknown(s, knows, v);
      RequestedOn(front, l, v);
      assert labels == front + [l];
      if Requested(front, v) {
        LongIsWaitedFor(front, knows, v);
        NoReplyTo(s, knows, l, v);
      }
    }
  }

  lemma NothingRequested(v: VarId)
    ensures !Requested([], v)
  {
  }

  lemma NoReplyTo(s: System, knows: Knowledge, l: Label, v: VarId)
    requires KnownOk(s, knows) && Length(v) > LongestAnswered(knows(v))
    ensures !RepliesTo(s, l, v)
  {
    hide Fits, SaidBy;
    if RepliesTo(s, l, v) {
      assert s.down[0] in s.down;
      HeardIsShort(s.down[0], knows);
    }
  }

  /** A variable short enough for its first reply is not waited for when nothing is in flight. */
  lemma ShortIsAnswered(s: System, knows: Knowledge, v: VarId)
    requires Ok(s) && KnownOk(s, knows) && Joined(s) && s.up == [] && s.down == []
    requires Length(v) <= LongestAnswered(knows(v))
    ensures C.PendingSubs(s.client.subs, v) == []
  {
    hide CR.ClientOk, ServerOk, TokensOk, SentOk, RepliesOk, RejectionsOk, LostAreLong, Order, StatusOk, UnsubsOk,
         PoolOk, Written, Clash, SaidBy, Fits;
    if knows(v) {
      NeverRejected(s, knows, v);
      assert Count([], SubReq(v)) == 0;
      assert forall m :: Count([], GrantOf(v, m)) == 0 && Behind([], UnsubReq(m), SubReq(v)) == 0;
    } else {
      assert Count([], SubReq(v)) + Count([], SubRep(v)) + s.lost[v] == s.repeated[v] + Pending(s.client.subs, v);
    }
  }

  lemma NeverRejected(s: System, knows: Knowledge, v: VarId)
    requires KnownOk(s, knows) && knows(v)
    ensures Count(s.said, Rejection(v)) == 0
  {
    forall i | 0 <= i < |s.said| ensures !Is(s.said[i], Rejection(v)) {
      assert SaidBy(s.said[i], knows);
    }
    CountNone(s.said, Rejection(v));
  }

  lemma {:induction false} CountNone(q: seq<Message>, t: Tag)
    requires forall i :: 0 <= i < |q| ==> !Is(q[i], t)
    ensures Count(q, t) == 0
  {
    if q != [] {
      CountNone(q[1..], t);
    }
  }

  /** Which requests are answered: when nothing is in flight and the connection has not failed, no promise was
      set twice; a variable is still waited for if and only if some call subscribed to it and it is too
      long for the reply to the first request; and all requests are answered if and only if no such
      variable was requested. */
  lemma {:induction false} EveryRequestIsAnswered(labels: seq<Label>, knows: Knowledge)
    requires Consistent(labels, knows)
    requires var s := Run(labels); Joined(s) && s.up == [] && s.down == []
    ensures var c := Run(labels).client;
            && !c.crashed
            && (forall v :: C.PendingSubs(c.subs, v) != [] <==>
                  Requested(labels, v) && Length(v) > LongestAnswered(knows(v)))
            && (c.promises.Keys == CR.Issued(c.nextReq) <==>
                  forall v :: Requested(labels, v) ==> Length(v) <= LongestAnswered(knows(v)))
  {
    EveryRunOk(labels);
    EveryRunKnown(labels, knows);
    hide Run, Ok, KnownOk, Consistent, Requested, LongestAnswered;
    var s := Run(labels);
    forall v
      ensures C.PendingSubs(s.client.subs, v) != [] <==> Requested(labels, v) && Length(v) > LongestAnswered(knows(v))
    {
      if C.PendingSubs(s.client.subs, v) != [] {
        WaitedIsRequested(labels, v);
        if Length(v) <= LongestAnswered(knows(v)) {
          ShortIsAnswered(s, knows, v);
        }
      } else if Requested(labels, v) && Length(v) > LongestAnswered(knows(v)) {
        LongIsWaitedFor(labels, knows, v);
      }
    }
    AnsweredExactly(s);
  }

  lemma AnsweredExactly(s: System)
    requires Ok(s) && Joined(s) && s.up == [] && s.down == []
    ensures !s.client.crashed
    ensures s.client.promises.Keys == CR.Issued(s.client.nextReq) <==> forall v :: C.PendingSubs(s.client.subs, v) == []
  {
    hide ServerOk, TokensOk, SentOk, RepliesOk, RejectionsOk, LostAreLong, Order, StatusOk, PoolOk, PromisedOk, CR.DbOk,
         Written, Clash;
    Drained(s.client.subs, s.client.unsubs, s.repeated, s.lost);
    if forall v :: C.PendingSubs(s.client.subs, v) == [] {
      EmptyPool(s.client.subs, s.client.unsubs);
    } else {
      var v :| C.PendingSubs(s.client.subs, v) != [];
      StillPooled(s.client, v);
    }
  }

  // ----- a request that is dropped

  /** Two calls for v are granted and refused; before the refusal arrives both subscriptions are given up and
      a third call is made. */
  function ThirdCall(v: VarId, h: C.Handler): seq<Label> {
    TwoCalls(v, h) + [Serve(true)] + [Serve(true)] + [Deliver]
    + [Unsubscribe(1)] + [Unsubscribe(2)] + [Subscribe(v, h)] + [Deliver]
  }

  /** The calls of the API do not take messages from the session. */
  lemma CallOn(labels: seq<Label>, l: Label, e: CR.Event)
    requires match l
             case Subscribe(v, h) => e == CR.Subscribe(v, h)
             case Unsubscribe(id) => e == CR.Unsubscribe(id)
             case _ => false
    ensures var s, t := Run(labels), Run(labels + [l]);
            t.client == CR.Next(s.client, e).0 && t.down == s.down && t.cut == s.cut
  {
    hide CR.Next, Written, Fits;
    RunOn(labels, l);
  }

  lemma DeliverOn(labels: seq<Label>)
    requires Run(labels).down != [] && Run(labels).client.connected
    ensures var s, t := Run(labels), Run(labels + [Deliver]);
            t.client == CR.Next(s.client, CR.Receive(s.down[0])).0 && t.down == s.down[1..] && t.cut == s.cut
  {
    hide CR.OnMessage;
    RunOn(labels, Deliver);
  }

  /** What is on its way to the client when both calls have been served. */
  lemma BothServed(v: VarId, h: C.Handler)
    requires Length(v) <= LONGEST_REFUSED
    ensures var s := Run(TwoCalls(v, h) + [Serve(true)] + [Serve(true)]);
            && s.down == [SubscriptionReply(Subscribed, v, 1, []),
                          SubscriptionReply(VarAlreadySubscribed, v, 0, S.AlreadyText())]
            && !s.cut && s.client == Run(TwoCalls(v, h)).client
  {
    hide Run, Fits, Written, S.AlreadyText, S.NoVarText;
    AfterTwoCalls(v, h);
    RequestFits(v);
    Served(TwoCalls(v, h), v, true);
    Served(TwoCalls(v, h) + [Serve(true)], v, true);
    TextLengths();
    SubscriptionReplyFits(Subscribed, v, 1, []);
    SubscriptionReplyFits(VarAlreadySubscribed, v, 0, S.AlreadyText());
    WrittenOne(SubscriptionReply(Subscribed, v, 1, []));
    WrittenOne(SubscriptionReply(VarAlreadySubscribed, v, 0, S.AlreadyText()));
  }

  /** Up to the last message the client goes through the same callbacks as in ClientOutcomes. */
  lemma SameCallbacks(v: VarId, h: C.Handler)
    requires Length(v) <= LONGEST_REFUSED
    ensures var s := Run(TwoCalls(v, h) + [Serve(true)] + [Serve(true)] + [Deliver]
                         + [Unsubscribe(1)] + [Unsubscribe(2)] + [Subscribe(v, h)]);
            && s.client == CR.Run(CO.GivenUp(v, h, 1) + [CR.Subscribe(v, h)])
            && s.down == [SubscriptionReply(VarAlreadySubscribed, v, 0, S.AlreadyText())] && !s.cut
  {
    hide Run, CR.Run, CR.Next, S.AlreadyText;
    var served := TwoCalls(v, h) + [Serve(true)] + [Serve(true)];
    var granted := served + [Deliver];
    var first, second := granted + [Unsubscribe(1)], granted + [Unsubscribe(1)] + [Unsubscribe(2)];
    var grant := CR.Receive(SubscriptionReply(Subscribed, v, 1, []));
    var asked := [CR.Subscribe(v, h)] + [CR.Subscribe(v, h)];
    BothAsked(v, h);
    BothServed(v, h);
    DeliverOn(served);
    CO.RunOn(asked, grant);
    CallOn(granted, Unsubscribe(1), CR.Unsubscribe(1));
    CO.RunOn(asked + [grant], CR.Unsubscribe(1));
    CallOn(first, Unsubscribe(2), CR.Unsubscribe(2));
    CO.RunOn(asked + [grant] + [CR.Unsubscribe(1)], CR.Unsubscribe(2));
    CallOn(second, Subscribe(v, h), CR.Subscribe(v, h));
    CO.RunOn(CO.GivenUp(v, h, 1), CR.Subscribe(v, h));
  }

  lemma BothAsked(v: VarId, h: C.Handler)
    ensures var c := Run(TwoCalls(v, h)).client;
            c == CR.Run([CR.Subscribe(v, h)] + [CR.Subscribe(v, h)]) && c.connected
  {
    hide Written, Fits;
    var l, e := Subscribe(v, h), CR.Subscribe(v, h);
    CallOn([], l, e);
    CallOn([l], l, e);
    CO.RunOn([], e);
    CO.RunOn([e], e);
    assert [] + [l] == [l] && [] + [e] == [e] && [l] + [l] == TwoCalls(v, h);
    assert Run([]) == START && CR.Run([]) == C.START;
  }

  lemma StillConnected(v: VarId, h: C.Handler)
    ensures CR.Run(CO.GivenUp(v, h, 1) + [CR.Subscribe(v, h)]).connected
  {
    hide CR.Run, Written;
    CO.AfterGivingUp(v, h, 1);
    CO.RunOn(CO.GivenUp(v, h, 1), CR.Subscribe(v, h));
  }

  /** The refusal meets the third request, which is dropped and never answered. */
  lemma ThirdRequestIsDropped(v: VarId, h: C.Handler)
    requires Length(v) <= LONGEST_REFUSED
    ensures var s := Run(ThirdCall(v, h));
            !s.cut && !s.client.connected && 4 in s.client.dropped && 4 !in s.client.promises
  {
    hide Run, CR.Run, CR.Next, S.AlreadyText;
    SameCallbacks(v, h);
    StillConnected(v, h);
    var before := TwoCalls(v, h) + [Serve(true)] + [Serve(true)] + [Deliver]
      + [Unsubscribe(1)] + [Unsubscribe(2)] + [Subscribe(v, h)];
    DeliverOn(before);
    var asked := CO.GivenUp(v, h, 1) + [CR.Subscribe(v, h)];
    var refusal := CR.Receive(SubscriptionReply(VarAlreadySubscribed, v, 0, S.AlreadyText()));
    CO.RunOn(asked, refusal);
    CO.RefusalDropsAnother(v, h, 1, S.AlreadyText(), []);
    assert asked + [refusal] + [] == asked + [refusal];
  }
}

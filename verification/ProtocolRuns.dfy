/** What follows for every run of the client and its session. */
module ProtocolRuns {
  import opened FlightVarTypes
  import C = ClientModel
  import CR = ClientRuns
  import S = ServerModel
  import SR = ServerRuns
  import opened OutputBuffers
  import opened Protocol
  import opened ProtocolInvariant
  import opened ProtocolSteps
  import opened ProtocolDelivery

  lemma StepKeeps(s: System, l: Label)
    requires Ok(s)
    ensures Ok(Step(s, l))
  {
    hide Ok;
    match l
    case Subscribe(v, handler) => SubscribeKeeps(s, v, handler);
    case Unsubscribe(id) => UnsubscribeKeeps(s, id);
    case Update(id, value) => UpdateKeeps(s, id, value);
    case Deliver => DeliverKeeps(s);
    case Serve(known) => ServeKeeps(s, known);
    case Raise(v, value) => BackgroundKeeps(s, S.Raise(v, value));
    case Send => BackgroundKeeps(s, S.Send);
    case OtherSubscribes => BackgroundKeeps(s, S.OtherSubscribes);
    case OtherUnsubscribes(id) => BackgroundKeeps(s, S.OtherUnsubscribes(id));
    case Cut(reset) => CutKeeps(s, reset);
    case Hangup => HangupKeeps(s);
    case SendFails(n) => FailuresKeep(s, n);
    case ReplyFails(n) => FailuresKeep(s, n);
  }

  lemma StartOk()
    ensures Ok(START)
  {
    assert CR.Run([]) == C.START;
    CR.RequestsAreAccounted([]);
    assert SR.Run([]) == (S.START, []);
    SR.EveryRunOk([]);
    WrittenNothing();
    hide CR.ClientOk, SR.RunOk;
  }

  lemma {:induction false} EveryRunOk(labels: seq<Label>)
    ensures Ok(Run(labels))
    decreases |labels|
  {
    hide Ok;
    if labels == [] {
      StartOk();
    } else {
      EveryRunOk(labels[..|labels| - 1]);
      StepKeeps(Run(labels[..|labels| - 1]), labels[|labels| - 1]);
    }
  }

  // ----- tokens

  /** In every run, while the connection has not failed, each registration (v, m) of the session is known in
      exactly one place: a grant of it is on its way to the client, the client's database has v with
      master m, or the unsubscription of m is on its way to the server. The exception are variables so
      long that the reply granting them cannot be sent: those the client never hears of. */
  lemma {:induction false} TokenConservation(labels: seq<Label>, v: VarId, m: SubsId)
    requires var s := Run(labels); Joined(s) && v in s.server.mapper && s.server.mapper[v] == m
    ensures var s := Run(labels);
            Count(s.down, GrantOf(v, m)) + Has(s.client.db, v, m) + Count(s.up, UnsubReq(m))
            == if Length(v) <= LONGEST_GRANTED then 1 else 0
  {
    EveryRunOk(labels);
    hide Count, SR.RunOk, CR.ClientOk, WhileJoined, SentOk, RepliesOk, RejectionsOk, LostAreLong, Written, Clash;
    var s := Run(labels);
    assert Tokens(s.client.db, s.up, s.down, v, m) == Room(v);
  }

  /** The session has v registered as m, and so has the delegate. */
  predicate Current(t: S.Server, v: VarId, m: SubsId) {
    v in t.mapper && t.mapper[v] == m && m in t.live
  }

  /** Neither the session nor the delegate knows anything of m. */
  predicate Gone(t: S.Server, v: VarId, m: SubsId) {
    v !in t.mapper && m !in t.live
  }

  /** In every run, the master of every entry of the client, and every id granted to it by a reply in
      flight, is current as long as the session lives, and gone once it is dead. */
  lemma {:induction false} MastersAreCurrent(labels: seq<Label>, v: VarId)
    ensures var s := Run(labels);
            forall m :: Has(s.client.db, v, m) == 1 || Count(s.down, GrantOf(v, m)) > 0 ==>
              if S.Alive(s.server) then Current(s.server, v, m) else Gone(s.server, v, m)
  {
    EveryRunOk(labels);
    hide Count, CR.ClientOk, WhileJoined, SentOk, RepliesOk, RejectionsOk, LostAreLong, Written, Clash, SR.WireOk,
         SR.Held;
    var s := Run(labels);
    forall m | Has(s.client.db, v, m) == 1 || Count(s.down, GrantOf(v, m)) > 0
      ensures if S.Alive(s.server) then Current(s.server, v, m) else Gone(s.server, v, m)
    {
      assert v in s.registered && s.registered[v] == m;
      assert m in s.registered.Values;
      assert m in s.server.live ==> m in SR.Held(s.said) * s.server.live;
    }
  }

  // ----- the end of the session

  /** In every run, while the session lives it is registered for exactly the ids it granted and did not
      release, and once it is dead the delegate has none of them left. */
  lemma {:induction false} SessionLeavesNothing(labels: seq<Label>)
    ensures var s := Run(labels);
            var held := SR.Held(s.said);
            if S.Alive(s.server) then held == s.server.mapper.Values && held <= s.server.live
            else held * s.server.live == {} && s.server.mapper == map[]
  {
    EveryRunOk(labels);
    hide CR.ClientOk, WhileJoined, TokensOk, SentOk, RepliesOk, RejectionsOk, LostAreLong, Written, Clash, SR.WireOk,
         SR.Held;
  }

  function Sends(n: nat): seq<Label> {
    seq(n, _ => Send)
  }

  lemma StepServer(s: System)
    ensures Step(s, Send).server == S.Next(s.server, S.Send).0
    ensures Step(s, Hangup).server == S.Next(s.server, S.Hangup).0
  {
    hide S.Next, Written, Unwritten;
  }

  lemma SendDrains(t: S.Server)
    requires !t.open && t.posted != []
    ensures var u := S.Next(t, S.Send).0; !u.open && |u.posted| == |t.posted| - 1
  {
  }

  /** A session that lost its connection dies as soon as the updates posted before have been dealt with. */
  lemma {:induction false} HangupEnds(labels: seq<Label>, n: nat)
    requires n <= |Run(labels).server.posted|
    ensures var t := Run(labels + [Hangup] + Sends(n)).server;
            && !t.open && |t.posted| == |Run(labels).server.posted| - n
            && (!S.Alive(t) <==> n == |Run(labels).server.posted|)
  {
    hide Run, Step;
    if n == 0 {
      RunOn(labels, Hangup);
      StepServer(Run(labels));
      assert labels + [Hangup] + Sends(0) == labels + [Hangup];
    } else {
      HangupEnds(labels, n - 1);
      var before := labels + [Hangup] + Sends(n - 1);
      RunOn(before, Send);
      StepServer(Run(before));
      SendDrains(Run(before).server);
      assert before + [Send] == labels + [Hangup] + Sends(n);
    }
  }

  lemma RunOn(labels: seq<Label>, l: Label)
    ensures Run(labels + [l]) == Step(Run(labels), l)
  {
    assert (labels + [l])[..|labels|] == labels;
  }

  // ----- when the protocol fails

  /** The law behind the failures: what is in flight about v and what was lost about it is what was
      repeated for v, plus one while a request for v waits. Only long variables lose anything. */
  lemma {:induction false} TrafficLaw(labels: seq<Label>, v: VarId)
    requires Joined(Run(labels))
    ensures var s := Run(labels);
            Count(s.up, SubReq(v)) + Count(s.down, SubRep(v)) + s.lost[v] == s.repeated[v] + Pending(s.client.subs, v)
    ensures Run(labels).lost[v] > 0 ==> Length(v) > LONGEST_REJECTED
  {
    EveryRunOk(labels);
    hide Count, Order, ServerOk, CR.ClientOk, TokensOk, SentOk, RepliesOk, RejectionsOk, Written, Clash;
  }

  /** If the connection is not lost and no call subscribes to a variable while an earlier call for the
      same variable waits, the client never disconnects, and the session never answers anything but
      granted, rejected and unsubscribed. */
  lemma {:induction false} NoSpuriousFailure(labels: seq<Label>)
    requires var s := Run(labels); !s.cut && s.repeated == multiset{}
    ensures var s := Run(labels);
            && s.client.connected
            && forall i :: 0 <= i < |s.down| ==>
                 && (s.down[i].SubscriptionReply? ==> s.down[i].status == Subscribed || s.down[i].status == NoSuchVar)
                 && (s.down[i].UnsubscriptionReply? ==> s.down[i].status == Unsubscribed)
  {
    EveryRunOk(labels);
    hide ServerOk, CR.ClientOk, TokensOk, SentOk, RejectionsOk, LostAreLong, Conserved, UnsubsOk, Order, PoolOk,
         Count, Written;
    var s := Run(labels);
    forall i | 0 <= i < |s.down|
      ensures s.down[i].SubscriptionReply? ==> s.down[i].status == Subscribed || s.down[i].status == NoSuchVar
      ensures s.down[i].UnsubscriptionReply? ==> s.down[i].status == Unsubscribed
    {
      if s.down[i].SubscriptionReply? && s.down[i].status != Subscribed && s.down[i].status != NoSuchVar {
        Among(s.down, i, OddRep(s.down[i].v));
      } else if s.down[i].UnsubscriptionReply? && s.down[i].status != Unsubscribed {
        Among(s.down, i, OddUnsub(s.down[i].id));
      }
    }
  }

  /** Whatever the delegate answers, once nothing is in flight a client whose connection did not fail is
      still connected if and only if no request for a variable was made while an earlier one for it was
      waiting, except for variables so long that rejecting them cannot be said, as long as none of those
      was refused for being subscribed already. */
  lemma {:induction false} FailsExactlyAfterClash(labels: seq<Label>)
    requires var s := Run(labels); !s.cut && (!s.client.connected || (s.up == [] && s.down == []))
    ensures var s := Run(labels);
            s.client.connected <==>
            forall v :: s.repeated[v] > 0 ==> Length(v) > LONGEST_REJECTED && Count(Written(s.said), OddRep(v)) == 0
  {
    EveryRunOk(labels);
    hide ServerOk, CR.ClientOk, TokensOk, SentOk, RepliesOk, RejectionsOk, UnsubsOk, Order, PoolOk, Written;
    var s := Run(labels);
    if s.client.connected {
      forall v ensures !Clash(s.repeated, Written(s.said), v) {
        assert Count([], SubReq(v)) + Count([], SubRep(v)) + s.lost[v] == s.repeated[v] + Pending(s.client.subs, v);
        assert Count(Written(s.said), OddRep(v)) == Count([], OddRep(v));
      }
    } else {
      assert exists v :: Clash(s.repeated, Written(s.said), v);
    }
  }

  /** A refusal always says the same. */
  ghost predicate RefusalsOk(said: seq<Message>) {
    forall msg :: msg in said && msg.SubscriptionReply? && msg.status != Subscribed && msg.status != NoSuchVar
      ==> msg.cause == S.AlreadyText()
  }

  lemma NextRefuses(t: S.Server, e: S.Event)
    ensures RefusalsOk(S.Next(t, e).1)
  {
    hide S.AlreadyText, S.NoVarText, S.NoSubscriptionText, S.UnknownText, S.Release;
  }

  lemma StepRefuses(s: System, l: Label)
    requires RefusalsOk(s.said)
    ensures RefusalsOk(Step(s, l).said)
  {
    hide S.AlreadyText, S.Next, Written, Unwritten, CR.Next, CR.OnMessage, Fits;
    forall e ensures RefusalsOk(S.Next(s.server, e).1) {
      NextRefuses(s.server, e);
    }
  }

  lemma {:induction false} RefusalsAlike(labels: seq<Label>)
    ensures RefusalsOk(Run(labels).said)
    decreases |labels|
  {
    hide S.AlreadyText, Step, RefusalsOk;
    if labels == [] {
      assert RefusalsOk([]) by { NoRefusals(); }
    } else {
      RefusalsAlike(labels[..|labels| - 1]);
      StepRefuses(Run(labels[..|labels| - 1]), labels[|labels| - 1]);
    }
  }

  lemma NoRefusals()
    ensures RefusalsOk([])
  {
  }

  /** A variable for which a refusal was sent is not longer than a refusal allows. */
  lemma {:induction false} RefusedIsShort(said: seq<Message>, v: VarId)
    requires RefusalsOk(said) && Count(Written(said), OddRep(v)) > 0
    ensures Length(v) <= LONGEST_REFUSED
  {
    hide Fits, Written, S.AlreadyText;
    var i := Counted(Written(said), OddRep(v));
    var msg := Written(said)[i];
    WrittenFits(said, msg);
    SubscriptionReplyFits(msg.status, v, msg.id, msg.cause);
    assert |S.AlreadyText()| == 27 by { AlreadyLength(); }
  }

  lemma AlreadyLength()
    ensures |S.AlreadyText()| == 27
  {
  }

  lemma {:induction false} Counted(q: seq<Message>, t: Tag) returns (i: nat)
    requires Count(q, t) > 0
    ensures i < |q| && Is(q[i], t)
  {
    if Is(q[0], t) {
      i := 0;
    } else {
      i := Counted(q[1..], t);
      i := i + 1;
    }
  }

  /** What the lengths of the variables alone decide: with short ones only, the protocol fails exactly
      when a request is repeated; with very long ones only, it never does. */
  lemma {:induction false} LengthsDecide(labels: seq<Label>)
    requires var s := Run(labels); !s.cut && (!s.client.connected || (s.up == [] && s.down == []))
    ensures var s := Run(labels);
            && ((forall v :: s.repeated[v] > 0 ==> Length(v) <= LONGEST_REJECTED) ==>
                  (s.client.connected <==> forall v :: s.repeated[v] == 0))
            && ((forall v :: s.repeated[v] > 0 ==> Length(v) > LONGEST_REFUSED) ==> s.client.connected)
  {
    hide Run, Count, Written;
    FailsExactlyAfterClash(labels);
    RefusalsAlike(labels);
    var s := Run(labels);
    forall v | Count(Written(s.said), OddRep(v)) > 0 ensures Length(v) <= LONGEST_REFUSED {
      RefusedIsShort(s.said, v);
    }
  }

  // ----- two requests for one variable

  function TwoCalls(v: VarId, h: C.Handler): seq<Label> {
    [Subscribe(v, h), Subscribe(v, h)]
  }

  lemma AfterTwoCalls(v: VarId, h: C.Handler)
    ensures var s, req := Run(TwoCalls(v, h)), SubscriptionRequest(v);
            && s.up == (if Fits(req) then [req, req] else [])
            && s.down == [] && s.said == [] && !s.cut && s.server == S.START && s.repeated == multiset{v}
  {
    hide Fits, Written;
    RunOn([], Subscribe(v, h));
    RunOn([Subscribe(v, h)], Subscribe(v, h));
    assert [] + [Subscribe(v, h)] == [Subscribe(v, h)];
    assert [Subscribe(v, h)] + [Subscribe(v, h)] == TwoCalls(v, h);
    WrittenOne(SubscriptionRequest(v));
  }

  /** What serving a request for v leads to. */
  lemma Served(labels: seq<Label>, v: VarId, known: bool)
    requires var s := Run(labels); s.server.open && s.up != [] && s.up[0] == SubscriptionRequest(v)
    ensures var s, t := Run(labels), Run(labels + [Serve(known)]);
            var (u, reply) := S.OnSubscription(s.server, v, known);
            && t.client == s.client && t.server == u && t.up == s.up[1..] && t.down == s.down + Written([reply])
            && t.said == s.said + [reply] && t.cut == s.cut && t.repeated == s.repeated
  {
    hide Run, Fits, Written, S.OnSubscription;
    RunOn(labels, Serve(known));
  }

  /** The first request is granted and the second refused, as far as they arrive. */
  lemma AfterServing(labels: seq<Label>, v: VarId)
    requires var s, req := Run(labels), SubscriptionRequest(v);
             s.up == (if Fits(req) then [req, req] else []) && s.down == [] && s.said == [] && s.server == S.START
    ensures var s, t := Run(labels), Run(labels + [Serve(true)] + [Serve(true)]);
            && t.up == [] && |t.down| <= 2 && t.cut == s.cut && t.repeated == s.repeated
            && (Count(Written(t.said), OddRep(v)) > 0 <==> Length(v) <= LONGEST_REFUSED)
  {
    hide Fits, Written, Count, S.AlreadyText, S.NoVarText, Run;
    RequestFits(v);
    if Fits(SubscriptionRequest(v)) {
      Served(labels, v, true);
      Served(labels + [Serve(true)], v, true);
      var grant, refusal := SubscriptionReply(Subscribed, v, 1, []),
          SubscriptionReply(VarAlreadySubscribed, v, 0, S.AlreadyText());
      assert Run(labels + [Serve(true)] + [Serve(true)]).said == [grant] + [refusal];
      WrittenOne(grant);
      WrittenOne(refusal);
      RefusalCounts(grant, refusal, v);
    } else {
      Unserved(labels);
      Unserved(labels + [Serve(true)]);
      WrittenNothing();
      OddCounts(SubscriptionRequest(v), SubscriptionReply(Unknown, v, 0, []), v);
    }
  }

  lemma Unserved(labels: seq<Label>)
    requires Run(labels).up == []
    ensures Run(labels + [Serve(true)]) == Run(labels)
  {
    RunOn(labels, Serve(true));
  }

  /** Whether the refusal is on the wire. */
  lemma RefusalCounts(grant: Message, refusal: Message, v: VarId)
    requires !Is(grant, OddRep(v)) && refusal == SubscriptionReply(VarAlreadySubscribed, v, 0, S.AlreadyText())
    ensures Count(Written([grant] + [refusal]), OddRep(v)) > 0 <==> Length(v) <= LONGEST_REFUSED
  {
    hide Fits, Written, Count, S.AlreadyText;
    WrittenOne(grant);
    WrittenAppend([grant], refusal);
    AlreadyLength();
    SubscriptionReplyFits(VarAlreadySubscribed, v, 0, S.AlreadyText());
    OddCounts(grant, refusal, v);
  }

  lemma OddCounts(grant: Message, refusal: Message, v: VarId)
    requires !Is(grant, OddRep(v)) && Is(refusal, OddRep(v))
    ensures Count([], OddRep(v)) == 0 && Count([grant], OddRep(v)) == 0
    ensures Count([refusal], OddRep(v)) == 1 && Count([grant] + [refusal], OddRep(v)) == 1
    ensures [] + [refusal] == [refusal]
  {
    assert Count([grant], OddRep(v)) == One(grant, OddRep(v)) + Count([], OddRep(v));
    CountAppend([grant], refusal, OddRep(v));
    CountAppend([], refusal, OddRep(v));
    assert [] + [refusal] == [refusal];
  }

  lemma AfterDelivery(labels: seq<Label>)
    requires |Run(labels).down| <= 2
    ensures var s, t := Run(labels), Run(labels + [Deliver] + [Deliver]);
            t == s.(client := t.client, down := t.down) && (t.client.connected ==> t.down == [])
  {
    hide CR.OnMessage;
    RunOn(labels, Deliver);
    RunOn(labels + [Deliver], Deliver);
    StaysDisconnected(Run(labels));
    StaysDisconnected(Run(labels + [Deliver]));
  }

  lemma StaysDisconnected(s: System)
    ensures Step(s, Deliver).client.connected ==> s.client.connected
  {
    hide CR.OnMessage;
  }

  /** Two calls for one variable before the first is answered lose the connection, exactly if the refusal
      of the second can be sent. */
  lemma TwoSubscriptionsFail(v: VarId, h: C.Handler)
    ensures var s := Run(TwoCalls(v, h) + [Serve(true)] + [Serve(true)] + [Deliver] + [Deliver]);
            !s.cut && (!s.client.connected <==> Length(v) <= LONGEST_REFUSED)
  {
    hide Run, Count, Written, Fits;
    AfterTwoCalls(v, h);
    AfterServing(TwoCalls(v, h), v);
    var served := TwoCalls(v, h) + [Serve(true)] + [Serve(true)];
    AfterDelivery(served);
    FailsExactlyAfterClash(served + [Deliver] + [Deliver]);
  }

  // ----- requests and their answers

  /** Over a whole run, the client unsubscribes each master subscription at most once. */
  lemma UnsubscribesOnce(labels: seq<Label>, m: SubsId)
    ensures Count(Run(labels).sent, UnsubReq(m)) <= 1
  {
    EveryRunOk(labels);
    hide Count, ServerOk, CR.ClientOk, WhileJoined, TokensOk, RepliesOk, RejectionsOk, LostAreLong, Written, Clash;
  }

  /** Whatever the delegate answers, when nothing is in flight and the connection has not failed: no promise
      was set twice; a variable is still waited for exactly if more of its requests and replies were lost
      than requests were repeated; and every request made so far has been answered exactly if there is no
      such variable. Nothing about a short variable is ever lost. */
  lemma {:induction false} WaitsExactlyForLost(labels: seq<Label>)
    requires var s := Run(labels); Joined(s) && s.up == [] && s.down == []
    ensures var s := Run(labels);
            && !s.client.crashed
            && (forall v :: C.PendingSubs(s.client.subs, v) != [] <==> s.lost[v] > s.repeated[v])
            && (s.client.promises.Keys == CR.Issued(s.client.nextReq) <==> s.lost <= s.repeated)
            && (forall v :: s.lost[v] > 0 ==> Length(v) > LONGEST_REJECTED)
  {
    EveryRunOk(labels);
    hide ServerOk, TokensOk, SentOk, RepliesOk, RejectionsOk, Order, StatusOk, CR.DbOk, Written, Clash;
    var s := Run(labels);
    Drained(s.client.subs, s.client.unsubs, s.repeated, s.lost);
    if s.lost <= s.repeated {
      EmptyPool(s.client.subs, s.client.unsubs);
    } else {
      var v :| s.lost[v] > s.repeated[v];
      StillPooled(s.client, v);
    }
  }

  lemma Drained(subs: SubPool, unsubs: UnsubPool, repeated: multiset<VarId>, lost: multiset<VarId>)
    requires Conserved(subs, [], [], repeated, lost) && UnsubsOk(unsubs, [], [])
    ensures forall v :: C.PendingSubs(subs, v) != [] <==> lost[v] > repeated[v]
    ensures forall m :: C.PendingUnsubs(unsubs, m) == []
  {
    forall v ensures C.PendingSubs(subs, v) != [] <==> lost[v] > repeated[v] {
      assert Count([], SubReq(v)) + Count([], SubRep(v)) + lost[v] == repeated[v] + Pending(subs, v);
    }
    forall m ensures C.PendingUnsubs(unsubs, m) == [] {
      assert |C.PendingUnsubs(unsubs, m)| == Count([], UnsubReq(m)) + Count([], UnsubRep(m)) == 0;
    }
  }

  lemma EmptyPool(subs: SubPool, unsubs: UnsubPool)
    requires forall v :: C.PendingSubs(subs, v) == []
    requires forall m :: C.PendingUnsubs(unsubs, m) == []
    ensures C.SubIds(subs) == {} && C.UnsubIds(unsubs) == {}
  {
    assert forall v :: v in subs ==> subs[v] == C.PendingSubs(subs, v);
    assert forall m :: m in unsubs ==> unsubs[m] == C.PendingUnsubs(unsubs, m);
  }

  lemma StillPooled(c: C.Client, v: VarId)
    requires CR.Accounted(c) && C.PendingSubs(c.subs, v) != []
    ensures c.promises.Keys != CR.Issued(c.nextReq)
  {
    assert c.subs[v][0].id in C.SubIds(c.subs);
  }

  /** The shortest runs in which a request stays without an answer: one request, served, and its reply
      delivered. It is answered exactly if the variable is short enough for what the reply says. */
  lemma OneRequest(v: VarId, h: C.Handler, known: bool)
    ensures var s := Run([Subscribe(v, h)] + [Serve(known)] + [Deliver]);
            && Joined(s) && s.up == [] && s.down == []
            && (0 in s.client.promises <==> Length(v) <= if known then LONGEST_GRANTED else LONGEST_REJECTED)
            && (v in s.server.mapper <==> known && Length(v) <= LONGEST_REQUESTED)
  {
    hide Fits, Written, S.NoVarText, Run, C.CompleteSubs, C.GrantAll;
    AfterOneCall(v, h);
    RequestFits(v);
    var asked := [Subscribe(v, h)];
    var reply := S.OnSubscription(S.START, v, known).1;
    if Fits(SubscriptionRequest(v)) {
      Served(asked, v, known);
    } else {
      RunOn(asked, Serve(known));
    }
    RunOn(asked + [Serve(known)], Deliver);
    RepliesFit(S.START, v, known);
    WrittenOne(reply);
    FirstAnswer(v, h, reply);
  }

  lemma AfterOneCall(v: VarId, h: C.Handler)
    ensures var s, req := Run([Subscribe(v, h)]), SubscriptionRequest(v);
            && s.up == (if Fits(req) then [req] else [])
            && s.down == [] && !s.cut && s.server == S.START && s.client == CR.Next(C.START, CR.Subscribe(v, h)).0
  {
    hide Fits, Written;
    RunOn([], Subscribe(v, h));
    assert [] + [Subscribe(v, h)] == [Subscribe(v, h)];
    WrittenOne(SubscriptionRequest(v));
  }

  lemma FirstAnswer(v: VarId, h: C.Handler, reply: Message)
    requires reply.SubscriptionReply? && reply.v == v && (reply.status == Subscribed || reply.status == NoSuchVar)
    ensures var c := CR.Next(C.START, CR.Subscribe(v, h)).0;
            && 0 !in c.promises && c.connected
            && 0 in CR.OnMessage(c, reply).promises && CR.OnMessage(c, reply).connected
  {
    hide Written;
    var req, c := C.SubRequest(0, v, h), CR.Next(C.START, CR.Subscribe(v, h)).0;
    assert C.PendingSubs(c.subs, v) == [req] && [req][1..] == [];
    var popped := c.(subs := c.subs[v := []]);
    if reply.status == NoSuchVar {
      var d := C.Complete(popped, 0, C.NoSuchVariableError(v));
      assert C.CompleteSubs(popped, [req], C.NoSuchVariableError(v)) ==
             C.CompleteSubs(d, [], C.NoSuchVariableError(v)) == d;
    } else {
      var d := C.Grant(popped.(db := popped.db[v := C.Entry(reply.id, [])]), v, 0, h);
      assert C.GrantAll(popped, v, reply.id, [req]) == C.GrantAll(d, v, reply.id, []) == C.Handled(d, false);
    }
  }

  /** In every run, an update that crossed the unsubscription of its id is reported, but changes nothing else
      and does not disconnect. */
  lemma {:induction false} StaleUpdatesAreHarmless(labels: seq<Label>)
    requires var s := Run(labels);
             && s.client.connected && s.down != [] && s.down[0].VarUpdate?
             && Count(s.sent, UnsubReq(s.down[0].id)) > 0
    ensures var s := Run(labels);
            Run(labels + [Deliver]) == s.(client := s.client.(errors := s.client.errors + 1), down := s.down[1..])
  {
    EveryRunOk(labels);
    RunOn(labels, Deliver);
    hide Run, Count, ServerOk, CR.ClientOk, TokensOk, RepliesOk, RejectionsOk, LostAreLong, WhileJoined, Written, Clash;
    assert !C.MasterDefined(Run(labels).client.db, Run(labels).down[0].id);
  }

  /** An update for an id the client has reaches every virtual subscription of its variable, in the
      order they were made. */
  lemma {:induction false} UpdatesReachAll(labels: seq<Label>, v: VarId, value: Value)
    requires v in Run(labels).client.db
    ensures var c := Run(labels).client;
            CR.OnMessage(c, VarUpdate(c.db[v].master, value))
            == c.(calls := c.calls + C.CallsFor(v, c.db[v].virtuals, value))
  {
    EveryRunOk(labels);
    assert CR.ClientOk(Run(labels).client) by {
      hide *;
      ClientPart(Run(labels));
    }
    hide Run, Ok;
    UpdateReaches(Run(labels).client, v, value);
  }

  lemma UpdateReaches(c: C.Client, v: VarId, value: Value)
    requires CR.ClientOk(c) && v in c.db
    ensures CR.OnMessage(c, VarUpdate(c.db[v].master, value))
            == c.(calls := c.calls + C.CallsFor(v, c.db[v].virtuals, value))
  {
    hide CR.Accounted, C.CallsFor;
  }

  /** Among the messages the session hands over, an update comes after the grant of its id and never after
      its release. On the wire it does so exactly if every such grant fits the output buffer. */
  lemma WireIsOrdered(labels: seq<Label>)
    ensures SR.Ordered(Run(labels).said)
    ensures SR.Ordered(Written(Run(labels).said)) <==> SR.GrantsFit(Run(labels).said)
  {
    EveryRunOk(labels);
    hide TokensOk, SentOk, RepliesOk, RejectionsOk, LostAreLong, WhileJoined, CR.ClientOk, Written, Clash, Fits;
    SR.OrderedExactly(Run(labels).said);
  }
}

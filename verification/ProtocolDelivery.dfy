/** The client handling a message keeps the invariant. */
module ProtocolDelivery {
  import opened FlightVarTypes
  import C = ClientModel
  import CR = ClientRuns
  import CO = ClientOutcomes
  import SR = ServerRuns
  import opened OutputBuffers
  import opened Protocol
  import opened ProtocolInvariant
  import opened ProtocolTraffic
  import opened ProtocolSteps

  // ----- what the client's handlers change

  /** The fields the invariant of the protocol looks at are unchanged but for the database. */
  ghost predicate OnlyGrows(c: C.Client, d: C.Client) {
    && d.subs == c.subs && d.unsubs == c.unsubs && d.dropped == c.dropped && d.connected == c.connected
    && SameMasters(c.db, d.db)
  }

  lemma {:induction false} GrantAllExtends(c: C.Client, v: VarId, m: SubsId, reqs: seq<C.SubRequest>)
    requires v in c.db
    ensures var h := C.GrantAll(c, v, m, reqs); !h.raised && OnlyGrows(c, h.client)
    decreases |reqs|
  {
    if reqs != [] {
      GrantAllExtends(C.Grant(c, v, reqs[0].id, reqs[0].handler), v, m, reqs[1..]);
    }
  }

  lemma GrantAllCreates(c: C.Client, v: VarId, m: SubsId, reqs: seq<C.SubRequest>)
    requires v !in c.db && !C.MasterDefined(c.db, m) && reqs != []
    ensures var h := C.GrantAll(c, v, m, reqs);
            !h.raised && OnlyGrows(c.(db := c.db[v := C.Entry(m, [])]), h.client)
  {
    var d := c.(db := c.db[v := C.Entry(m, [])]);
    GrantAllExtends(C.Grant(d, v, reqs[0].id, reqs[0].handler), v, m, reqs[1..]);
  }

  // ----- the client handles a message

  lemma DeliverKeeps(s: System)
    requires Ok(s)
    ensures Ok(Step(s, Deliver))
  {
    hide Ok, Step, Delivers;
    if s.down != [] && s.client.connected {
      FirstReply(s);
      ClientPart(s);
      Delivering(s);
      var t := Step(s, Deliver);
      match s.down[0]
      case SubscriptionReply(_, _, _, _) => DeliverSubscription(s, t);
      case UnsubscriptionReply(_, _, _) => DeliverUnsubscription(s, t);
      case VarUpdate(_, _) => DeliverUpdate(s, t);
    } else {
      NothingToDeliver(s);
    }
  }

  lemma Delivering(s: System)
    requires CR.ClientOk(s.client) && s.client.connected && s.down != []
    ensures Delivers(s, Step(s, Deliver))
  {
    hide CR.ClientOk, CR.OnMessage;
    CR.MessageKeepsOk(s.client, s.down[0]);
  }

  lemma NothingToDeliver(s: System)
    requires s.down == [] || !s.client.connected
    ensures Step(s, Deliver) == s
  {
  }

  lemma FirstReply(s: System)
    requires Ok(s) && s.down != []
    ensures s.down[0].SubscriptionReply? || s.down[0].UnsubscriptionReply? || s.down[0].VarUpdate?
  {
    hide ServerOk, CR.ClientOk, WhileJoined, TokensOk, SentOk, Count, RejectionsOk, LostAreLong, Written, Clash;
    NoneOf(s.down, NoReply);
  }

  ghost predicate Delivers(s: System, t: System) {
    && s.client.connected && s.down != [] && CR.ClientOk(t.client)
    && t == s.(client := t.client, down := s.down[1..])
    && t.client == CR.OnMessage(s.client, s.down[0])
  }

  lemma ErrorKeepsDb(c: C.Client)
    ensures C.OnError(c, true).db == c.db && !C.OnError(c, true).connected
  {
    hide C.SubIds, C.UnsubIds;
  }

  /** The database stays, and the message is no grant or the client disconnects. */
  lemma DropKeepsAlways(s: System, t: System)
    requires Always(s) && Delivers(s, t) && t.client.db == s.client.db
    requires t.client.connected ==> !(s.down[0].SubscriptionReply? && s.down[0].status == Subscribed)
    requires !t.client.connected && !s.cut ==> exists v :: Clash(s.repeated, Written(s.said), v)
    ensures Always(t)
  {
    hide CR.ClientOk, CR.OnMessage, ServerOk, Count, TokensOk, SentOk, RepliesOk, RejectionsOk, LostAreLong, Written,
         Clash;
    DropKeepsParts(s.registered, s.client.db, s.up, s.down, Joined(s), s.sent, s.server.next, t.client.connected);
  }

  lemma DropKeepsParts(mapper: Mapper, db: C.Db, up: seq<Message>, down: seq<Message>, exact: bool,
                       sent: seq<Message>, next: SubsId, connected: bool)
    requires TokensOk(mapper, db, up, down, exact) && SentOk(sent, db, down, next)
    requires RepliesOk(mapper, down, next) && RejectionsOk(down)
    requires down != [] && (connected ==> !(down[0].SubscriptionReply? && down[0].status == Subscribed))
    ensures TokensOk(mapper, db, up, down[1..], exact && connected)
    ensures SentOk(sent, db, down[1..], next) && RepliesOk(mapper, down[1..], next) && RejectionsOk(down[1..])
  {
    Headed(down);
    hide Count;
    if connected {
      NeutralKeepsTokens(mapper, db, up, down, up, down[1..], exact);
    } else {
      LossKeepsTokens(mapper, db, up, down, exact);
    }
    hide TokensOk;
  }

  lemma DeliverUpdate(s: System, t: System)
    requires Ok(s) && Delivers(s, t) && s.down[0].VarUpdate?
    ensures Ok(t)
  {
    hide Always, C.OnVariableUpdate, Flow, Order, PromisedOk, Written, Clash, CR.ClientOk;
    UpdateChanges(s.client, s.down[0].id, s.down[0].value);
    DropKeepsAlways(s, t);
    if Joined(s) {
      DropFlow(s.client.subs, s.client.unsubs, s.up, s.down, Written(s.said), s.repeated, s.lost);
      DropOrder(s.registered, s.client.subs, s.up, s.down, Written(s.said), s.repeated, s.lost);
      DropPromise(s.registered, s.client.subs, s.up, s.down, s.said);
    }
  }

  lemma UpdateChanges(c: C.Client, m: SubsId, value: Value)
    ensures var d := C.OnVariableUpdate(c, m, value); d == c.(calls := d.calls, errors := d.errors)
  {
  }

  // a reply to an unsubscription

  lemma DeliverUnsubscription(s: System, t: System)
    requires Ok(s) && Delivers(s, t) && s.down[0].UnsubscriptionReply?
    ensures Ok(t)
  {
    hide Always, WhileJoined, C.OnUnsubscriptionReply, C.OnError, Written, Clash, CR.ClientOk;
    var m := s.down[0].id;
    CR.UnsubReplyKeepsDb(s.client, s.down[0].status, m);
    ErrorKeepsDb(C.OnUnsubscriptionReply(s.client, s.down[0].status, m).client);
    if Joined(s) {
      UnsubIsAwaited(s);
      UnsubChanges(s.client, m);
      DropKeepsAlways(s, t);
      UnsubKeepsJoined(s, t);
    } else {
      ClosedIsCut(s);
      DropKeepsAlways(s, t);
    }
  }

  lemma ClosedIsCut(s: System)
    requires Always(s) && s.client.connected && !Joined(s)
    ensures s.cut
  {
    hide CR.ClientOk, ServerOk, TokensOk, SentOk, RepliesOk, RejectionsOk, LostAreLong, Written, Clash;
  }

  lemma UnsubIsAwaited(s: System)
    requires Ok(s) && Joined(s) && s.down != [] && s.down[0].UnsubscriptionReply?
    ensures var m := s.down[0].id;
            && s.down[0].status == Unsubscribed && C.PendingUnsubs(s.client.unsubs, m) != []
            && Count(s.up, UnsubReq(m)) == 0 && Count(s.down, UnsubRep(m)) == 1
  {
    hide CR.ClientOk, ServerOk, SentOk, RejectionsOk, LostAreLong, Order, PromisedOk, Conserved, StatusOk, Written,
         Clash;
    UnsubCounts(s.registered, s.client.db, s.client.unsubs, s.up, s.down, s.server.next);
  }

  lemma UnsubCounts(mapper: Mapper, db: C.Db, unsubs: UnsubPool, up: seq<Message>, down: seq<Message>, next: SubsId)
    requires TokensOk(mapper, db, up, down, true) && RepliesOk(mapper, down, next) && UnsubsOk(unsubs, up, down)
    requires down != [] && down[0].UnsubscriptionReply?
    ensures down[0].status == Unsubscribed && C.PendingUnsubs(unsubs, down[0].id) != []
    ensures Count(up, UnsubReq(down[0].id)) == 0 && Count(down, UnsubRep(down[0].id)) == 1
  {
    Headed(down);
    hide Count;
    var m := down[0].id;
    assert Count(down, UnsubRep(m)) == 1;
    assert Count(down, OddUnsub(m)) == 0;
  }

  lemma UnsubChanges(c: C.Client, m: SubsId)
    requires C.PendingUnsubs(c.unsubs, m) != []
    ensures var h := C.OnUnsubscriptionReply(c, Unsubscribed, m);
            !h.raised && h.client == c.(unsubs := c.unsubs[m := []], promises := h.client.promises,
                                        crashed := h.client.crashed)
  {
    CO.CompleteUnsubsChanges(c.(unsubs := c.unsubs[m := []]), C.PendingUnsubs(c.unsubs, m), C.Finished);
  }

  lemma UnsubKeepsJoined(s: System, t: System)
    requires WhileJoined(s) && s.down != [] && s.down[0].UnsubscriptionReply?
    requires var m := s.down[0].id;
             && Count(s.up, UnsubReq(m)) == 0 && Count(s.down, UnsubRep(m)) == 1
             && t == s.(client := t.client, down := s.down[1..])
             && t.client == s.client.(unsubs := s.client.unsubs[m := []], promises := t.client.promises,
                                      crashed := t.client.crashed)
    ensures WhileJoined(t)
  {
    hide Flow, Order, PromisedOk, Written, Count;
    SettleFlow(s.client.subs, s.client.unsubs, s.up, s.down, Written(s.said), s.repeated, s.lost, s.down[0].id);
    DropOrder(s.registered, s.client.subs, s.up, s.down, Written(s.said), s.repeated, s.lost);
    DropPromise(s.registered, s.client.subs, s.up, s.down, s.said);
  }

  // a reply to a subscription

  lemma DeliverSubscription(s: System, t: System)
    requires Ok(s) && Delivers(s, t) && s.down[0].SubscriptionReply?
    ensures Ok(t)
  {
    hide Ok, CR.ClientOk;
    var msg := s.down[0];
    if C.PendingSubs(s.client.subs, msg.v) == [] || (msg.status != Subscribed && msg.status != NoSuchVar) {
      DeliverUnexpected(s, t);
    } else if msg.status == NoSuchVar {
      DeliverRejection(s, t);
    } else {
      DeliverGrant(s, t);
    }
  }

  /** A reply nobody waits for, or with another status: the client disconnects, which it does only after
      a clash. */
  lemma DeliverUnexpected(s: System, t: System)
    requires Ok(s) && Delivers(s, t) && s.down[0].SubscriptionReply?
    requires var msg := s.down[0];
             C.PendingSubs(s.client.subs, msg.v) == [] || (msg.status != Subscribed && msg.status != NoSuchVar)
    ensures Ok(t)
  {
    hide Always, WhileJoined, C.OnError, Written, Clash, CR.ClientOk;
    var msg := s.down[0];
    ErrorKeepsDb(C.OnSubscriptionReply(s.client, msg.status, msg.v, msg.id).client);
    if Joined(s) {
      ClashAtHead(s);
      assert Clash(s.repeated, Written(s.said), s.down[0].v);
    } else {
      ClosedIsCut(s);
    }
    DropKeepsAlways(s, t);
  }

  lemma ClashAtHead(s: System)
    requires Ok(s) && Joined(s) && s.down != [] && s.down[0].SubscriptionReply?
    requires var msg := s.down[0];
             C.PendingSubs(s.client.subs, msg.v) == [] || (msg.status != Subscribed && msg.status != NoSuchVar)
    ensures Clash(s.repeated, Written(s.said), s.down[0].v)
  {
    hide CR.ClientOk, ServerOk, TokensOk, SentOk, RepliesOk, RejectionsOk, LostAreLong, Written, Clash, Flow, Order,
         PromisedOk;
    UnexpectedMeansClash(s.registered, s.client.subs, s.client.unsubs, s.up, s.down, Written(s.said), s.repeated,
                         s.lost);
  }

  lemma DeliverRejection(s: System, t: System)
    requires Ok(s) && Delivers(s, t) && s.down[0].SubscriptionReply? && s.down[0].status == NoSuchVar
    requires C.PendingSubs(s.client.subs, s.down[0].v) != []
    ensures Ok(t)
  {
    hide Always, WhileJoined, CR.ClientOk, Written, Clash, C.CompleteSubs, C.OnError;
    RejectionChanges(s.client, s.down[0].v, s.down[0].id);
    DropKeepsAlways(s, t);
    if Joined(s) {
      RejectionKeepsJoined(s, t);
    }
  }

  lemma RejectionChanges(c: C.Client, v: VarId, m: SubsId)
    requires C.PendingSubs(c.subs, v) != []
    ensures var h := C.OnSubscriptionReply(c, NoSuchVar, v, m);
            !h.raised && h.client == c.(subs := c.subs[v := []], promises := h.client.promises,
                                        crashed := h.client.crashed)
  {
    CO.CompleteSubsChanges(c.(subs := c.subs[v := []]), C.PendingSubs(c.subs, v), C.NoSuchVariableError(v));
  }

  lemma RejectionKeepsJoined(s: System, t: System)
    requires Ok(s) && Joined(s) && s.down != [] && s.down[0].SubscriptionReply? && s.down[0].status == NoSuchVar
    requires var v := s.down[0].v;
             && C.PendingSubs(s.client.subs, v) != []
             && t == s.(client := t.client, down := s.down[1..])
             && t.client == s.client.(subs := s.client.subs[v := []], promises := t.client.promises,
                                      crashed := t.client.crashed)
    ensures WhileJoined(t)
  {
    hide Always, Flow, Order, PromisedOk, Written, OnlyGranted, NoGrantAhead;
    RejectionIsShort(s);
    AnsweredFlow(s.client.subs, s.client.unsubs, s.up, s.down, Written(s.said), s.repeated, s.lost);
    AnsweredOrder(s.registered, s.client.subs, s.up, s.down, Written(s.said), s.repeated, s.lost, s.down[0].v);
    AnsweredPromise(s.registered, s.client.subs, s.up, s.down, s.said);
  }

  lemma RejectionIsShort(s: System)
    requires Always(s) && s.down != [] && s.down[0].SubscriptionReply? && s.down[0].status == NoSuchVar
    ensures !OnlyGranted(Written(s.said), s.down[0].v)
  {
    hide CR.ClientOk, ServerOk, TokensOk, SentOk, RepliesOk, LostAreLong, Written, Clash;
    assert s.down[0] in s.down;
  }

  lemma DeliverGrant(s: System, t: System)
    requires Ok(s) && Delivers(s, t) && s.down[0].SubscriptionReply? && s.down[0].status == Subscribed
    requires C.PendingSubs(s.client.subs, s.down[0].v) != []
    ensures Ok(t)
  {
    hide Ok, CR.ClientOk, C.GrantAll, Written, Clash;
    var v, m := s.down[0].v, s.down[0].id;
    GrantAtHead(s, v, m);
    GrantAllCreates(s.client.(subs := s.client.subs[v := []]), v, m, C.PendingSubs(s.client.subs, v));
    assert OnlyGrows(s.client.(subs := s.client.subs[v := []], db := s.client.db[v := C.Entry(m, [])]), t.client);
    TakeKeeps(s, t, v, m);
  }

  lemma GrantAtHead(s: System, v: VarId, m: SubsId)
    requires Ok(s) && s.down != [] && Is(s.down[0], GrantOf(v, m))
    ensures v !in s.client.db && !C.MasterDefined(s.client.db, m)
  {
    hide CR.ClientOk, SR.RunOk, TokensOk, SentOk, RepliesOk, RejectionsOk, LostAreLong, Written, Clash, WhileJoined;
    GrantIsNew(s.registered, s.client.db, s.up, s.down, v, m, Joined(s));
  }

  /** What taking a grant changes. */
  ghost predicate Takes(s: System, t: System, v: VarId, m: SubsId) {
    && Delivers(s, t) && Is(s.down[0], GrantOf(v, m)) && v !in s.client.db
    && C.PendingSubs(s.client.subs, v) != []
    && OnlyGrows(s.client.(subs := s.client.subs[v := []], db := s.client.db[v := C.Entry(m, [])]), t.client)
  }

  lemma TakeKeeps(s: System, t: System, v: VarId, m: SubsId)
    requires Ok(s) && Takes(s, t, v, m)
    ensures Ok(t)
  {
    hide CR.ClientOk, CR.OnMessage, ServerOk, Count, TokensOk, SentOk, RepliesOk, RejectionsOk, LostAreLong, Written,
         Clash, WhileJoined;
    TakeKeepsParts(s.registered, s.client.db, s.up, s.down, s.sent, s.server.next, v, m, t.client.db, Joined(s));
    if Joined(s) {
      TakeKeepsJoined(s, t, v, m);
    }
  }

  lemma TakeKeepsJoined(s: System, t: System, v: VarId, m: SubsId)
    requires Takes(s, t, v, m) && WhileJoined(s) && TokensOk(s.registered, s.client.db, s.up, s.down, Joined(s))
    ensures WhileJoined(t)
  {
    hide CR.ClientOk, CR.OnMessage, Count, TokensOk, Written, Flow, Order, PromisedOk, NoGrantAhead;
    LastGrant(s.registered, s.client.db, s.up, s.down, v, m, Joined(s));
    AnsweredFlow(s.client.subs, s.client.unsubs, s.up, s.down, Written(s.said), s.repeated, s.lost);
    AnsweredOrder(s.registered, s.client.subs, s.up, s.down, Written(s.said), s.repeated, s.lost, v);
    AnsweredPromise(s.registered, s.client.subs, s.up, s.down, s.said);
  }

  lemma TakeKeepsParts(mapper: Mapper, db: C.Db, up: seq<Message>, down: seq<Message>, sent: seq<Message>, next: SubsId,
                       v: VarId, m: SubsId, db': C.Db, exact: bool)
    requires TokensOk(mapper, db, up, down, exact) && SentOk(sent, db, down, next)
    requires RepliesOk(mapper, down, next) && RejectionsOk(down)
    requires down != [] && Is(down[0], GrantOf(v, m)) && v !in db && SameMasters(db[v := C.Entry(m, [])], db')
    ensures TokensOk(mapper, db', up, down[1..], exact) && SentOk(sent, db', down[1..], next)
    ensures RepliesOk(mapper, down[1..], next) && RejectionsOk(down[1..])
  {
    TakeKeepsTokens(mapper, db, up, down, v, m, down[1..], exact);
    TakeKeepsSent(sent, db, down, next, v, m);
    TailKeepsReplies(mapper, down, next);
    hide Count, TokensOk, SentOk, RejectionsOk;
    MastersKeepTokens(mapper, db[v := C.Entry(m, [])], db', up, down[1..], sent, next, exact);
  }

  lemma TailKeepsReplies(mapper: Mapper, down: seq<Message>, next: SubsId)
    requires RepliesOk(mapper, down, next) && RejectionsOk(down) && down != []
    ensures RepliesOk(mapper, down[1..], next) && RejectionsOk(down[1..])
  {
    Headed(down);
    hide Count;
  }

  lemma TakeKeepsSent(sent: seq<Message>, db: C.Db, down: seq<Message>, next: SubsId, v: VarId, m: SubsId)
    requires SentOk(sent, db, down, next) && down != [] && Is(down[0], GrantOf(v, m))
    ensures SentOk(sent, db[v := C.Entry(m, [])], down[1..], next)
  {
    Headed(down);
    hide Count;
    assert Count(down, GrantOf(v, m)) > 0;
  }

  // ----- the client's connection is lost

  lemma CutKeeps(s: System, reset: bool)
    requires Ok(s)
    ensures Ok(Step(s, Cut(reset)))
  {
    hide Ok, Step, CR.ClientOk;
    ClientPart(s);
    Cutting(s, reset);
    CutKeepsParts(s, Step(s, Cut(reset)));
  }

  lemma Cutting(s: System, reset: bool)
    requires CR.ClientOk(s.client)
    ensures var t := Step(s, Cut(reset));
            && t == s.(client := t.client, cut := true)
            && CR.ClientOk(t.client) && t.client.db == s.client.db && !t.client.connected
  {
    hide CR.ClientOk, C.OnError;
    CR.StepKeepsOk(s.client, if reset then CR.ConnectionReset else CR.ServerClosed);
    ErrorKeepsDb(s.client);
  }

  lemma CutKeepsParts(s: System, t: System)
    requires Ok(s) && t == s.(client := t.client, cut := true)
    requires CR.ClientOk(t.client) && t.client.db == s.client.db && !t.client.connected
    ensures Ok(t)
  {
    hide Count, ServerOk, TokensOk, SentOk, RepliesOk, RejectionsOk, LostAreLong, WhileJoined, CR.ClientOk, Written,
         Clash;
    FailureKeepsTokens(s.registered, s.client.db, s.up, s.down, Joined(s), s.up, s.down);
  }
}

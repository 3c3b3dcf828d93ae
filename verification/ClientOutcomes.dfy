/** What becomes of the client's requests: an outcome is final, and which requests never get one. */
module ClientOutcomes {
  import opened FlightVarTypes
  import opened OutputBuffers
  import opened ClientModel
  import opened ClientRuns

  /** The requests waiting for a reply. */
  function Pooled(c: Client): set<ReqId> {
    SubIds(c.subs) + UnsubIds(c.unsubs)
  }

  // ----- outcomes are final

  /** Whatever was completed in c has the same outcome in d, and whatever was dropped stays dropped. */
  ghost predicate Extends(c: Client, d: Client) {
    c.dropped <= d.dropped && forall r :: r in c.promises ==> r in d.promises && d.promises[r] == c.promises[r]
  }

  lemma {:induction false} CompleteSubsExtends(c: Client, reqs: seq<SubRequest>, outcome: Outcome)
    ensures Extends(c, CompleteSubs(c, reqs, outcome))
    decreases |reqs|
  {
    if reqs != [] {
      CompleteSubsExtends(Complete(c, reqs[0].id, outcome), reqs[1..], outcome);
    }
  }

  lemma {:induction false} CompleteUnsubsExtends(c: Client, reqs: seq<UnsubRequest>, outcome: Outcome)
    ensures Extends(c, CompleteUnsubs(c, reqs, outcome))
    decreases |reqs|
  {
    if reqs != [] {
      CompleteUnsubsExtends(Complete(c, reqs[0].id, outcome), reqs[1..], outcome);
    }
  }

  lemma GrantExtends(c: Client, v: VarId, r: ReqId, handler: Handler)
    requires v in c.db
    ensures var d := Grant(c, v, r, handler);
            Extends(c, d) && d == c.(db := d.db, nextVirtual := d.nextVirtual, promises := d.promises,
                                     crashed := d.crashed)
  {
    hide AddVirtual;
  }

  lemma {:induction false} GrantAllExtends(c: Client, v: VarId, m: SubsId, reqs: seq<SubRequest>)
    ensures var d := GrantAll(c, v, m, reqs).client;
            && Extends(c, d)
            && d == c.(db := d.db, nextVirtual := d.nextVirtual, promises := d.promises, crashed := d.crashed,
                       dropped := d.dropped)
    decreases |reqs|
  {
    hide Grant, MasterDefined, IdsOfSubs;
    if reqs != [] && (v in c.db || !MasterDefined(c.db, m)) {
      var d := if v in c.db then c else c.(db := c.db[v := Entry(m, [])]);
      GrantExtends(d, v, reqs[0].id, reqs[0].handler);
      GrantAllExtends(Grant(d, v, reqs[0].id, reqs[0].handler), v, m, reqs[1..]);
    }
  }

  lemma SubscriptionReplyExtends(c: Client, st: Status, v: VarId, m: SubsId)
    ensures Extends(c, OnSubscriptionReply(c, st, v, m).client)
  {
    hide CompleteSubs, GrantAll;
    var reqs, popped := PendingSubs(c.subs, v), c.(subs := c.subs[v := []]);
    CompleteSubsExtends(popped, reqs, NoSuchVariableError(v));
    GrantAllExtends(popped, v, m, reqs);
  }

  lemma UnsubscriptionReplyExtends(c: Client, st: Status, m: SubsId)
    ensures Extends(c, OnUnsubscriptionReply(c, st, m).client)
  {
    hide CompleteUnsubs;
    var reqs, popped := PendingUnsubs(c.unsubs, m), c.(unsubs := c.unsubs[m := []]);
    CompleteUnsubsExtends(popped, reqs, NoSuchSubscriptionError(m));
    CompleteUnsubsExtends(popped, reqs, Finished);
  }

  lemma MessageExtends(c: Client, msg: Message)
    ensures Extends(c, OnMessage(c, msg))
  {
    hide OnSubscriptionReply, OnUnsubscriptionReply, PropagateError;
    match msg
    case SubscriptionReply(st, v, m, _) =>
      SubscriptionReplyExtends(c, st, v, m);
      ErrorExtends(OnSubscriptionReply(c, st, v, m).client);
    case UnsubscriptionReply(st, m, _) =>
      UnsubscriptionReplyExtends(c, st, m);
      ErrorExtends(OnUnsubscriptionReply(c, st, m).client);
    case VarUpdate(_, _) =>
    case _ =>
      ErrorExtends(c);
  }

  lemma ErrorExtends(c: Client)
    ensures Extends(c, OnError(c, true)) && Extends(c, OnError(c, false))
  {
    hide SubIds, UnsubIds;
  }

  lemma CompletingExtends(c: Client, r: ReqId, outcome: Outcome)
    ensures Extends(c, Complete(c, r, outcome))
    ensures var d := Complete(c, r, outcome); d == c.(promises := d.promises, crashed := d.crashed)
  {
  }

  lemma SubscribingExtends(c: Client, v: VarId, handler: Handler)
    ensures var d := OnSubscriptionRequested(c, v, handler).0;
            && Extends(c, d) && d.connected == c.connected && d.nextReq == c.nextReq + 1
            && d.dropped == c.dropped
  {
    hide AddVirtual, PendingSubs, Written, Complete;
    var taken := c.(nextReq := c.nextReq + 1);
    if v in c.db {
      CompletingExtends(taken.(db := AddVirtual(c.db, v, Virtual(c.nextVirtual, handler)),
                               nextVirtual := c.nextVirtual + 1),
                        c.nextReq, Granted(c.nextVirtual));
    }
  }

  lemma UnsubscribingExtends(c: Client, id: SubsId)
    ensures var d := OnUnsubscriptionRequested(c, id).0;
            && Extends(c, d) && d.connected == c.connected && d.nextReq == c.nextReq + 1
            && d.dropped == c.dropped && d.subs == c.subs
  {
    hide OwnerOf, RemoveVirtual, PendingUnsubs, Complete;
    var taken := c.(nextReq := c.nextReq + 1);
    match OwnerOf(c.db, id)
    case None => CompletingExtends(taken, c.nextReq, NoSuchSubscriptionError(id));
    case Some(v) => CompletingExtends(taken.(db := RemoveVirtual(c.db, v, id)), c.nextReq, Finished);
  }

  lemma UpdatingExtends(c: Client, id: SubsId, value: Value)
    ensures var d := OnVariableUpdateRequested(c, id, value).0;
            && Extends(c, d) && d.connected == c.connected && d.nextReq == c.nextReq + 1
            && d.dropped == c.dropped && d.subs == c.subs && Pooled(d) == Pooled(c)
  {
    hide OwnerOf, Complete, SubIds, UnsubIds;
    var taken := c.(nextReq := c.nextReq + 1);
    CompletingExtends(taken, c.nextReq, NoSuchSubscriptionError(id));
    CompletingExtends(taken, c.nextReq, Finished);
  }

  /** No callback changes an outcome. */
  lemma OutcomesAreFinal(c: Client, e: Event)
    ensures Extends(c, Next(c, e).0)
  {
    hide OnMessage, OnError, OnSubscriptionRequested, OnUnsubscriptionRequested, OnVariableUpdateRequested;
    ErrorExtends(c);
    match e
    case Subscribe(v, handler) => SubscribingExtends(c, v, handler);
    case Unsubscribe(id) => UnsubscribingExtends(c, id);
    case Update(id, value) => UpdatingExtends(c, id, value);
    case Receive(msg) => MessageExtends(c, msg);
    case _ =>
  }

  // ----- how the connection is lost

  lemma {:induction false} CompleteSubsChanges(c: Client, reqs: seq<SubRequest>, outcome: Outcome)
    ensures var d := CompleteSubs(c, reqs, outcome); d == c.(promises := d.promises, crashed := d.crashed)
    decreases |reqs|
  {
    if reqs != [] {
      CompleteSubsChanges(Complete(c, reqs[0].id, outcome), reqs[1..], outcome);
    }
  }

  lemma {:induction false} CompleteUnsubsChanges(c: Client, reqs: seq<UnsubRequest>, outcome: Outcome)
    ensures var d := CompleteUnsubs(c, reqs, outcome); d == c.(promises := d.promises, crashed := d.crashed)
    decreases |reqs|
  {
    if reqs != [] {
      CompleteUnsubsChanges(Complete(c, reqs[0].id, outcome), reqs[1..], outcome);
    }
  }

  /** The handlers of replies do not disconnect by themselves, but an error they raise does. */
  lemma SubscriptionReplyKeepsConnected(c: Client, st: Status, v: VarId, m: SubsId)
    ensures var d := OnSubscriptionReply(c, st, v, m).client; d.connected == c.connected && d.nextReq == c.nextReq
  {
    hide CompleteSubs, GrantAll;
    var reqs, popped := PendingSubs(c.subs, v), c.(subs := c.subs[v := []]);
    CompleteSubsChanges(popped, reqs, NoSuchVariableError(v));
    GrantAllExtends(popped, v, m, reqs);
  }

  lemma UnsubscriptionReplyKeepsConnected(c: Client, st: Status, m: SubsId)
    ensures var d := OnUnsubscriptionReply(c, st, m).client; d.connected == c.connected && d.nextReq == c.nextReq
  {
    hide CompleteUnsubs;
    var reqs, popped := PendingUnsubs(c.unsubs, m), c.(unsubs := c.unsubs[m := []]);
    CompleteUnsubsChanges(popped, reqs, NoSuchSubscriptionError(m));
    CompleteUnsubsChanges(popped, reqs, Finished);
  }

  lemma LossEmptiesPool(c: Client, e: Event)
    requires c.connected && !Next(c, e).0.connected && e != ServerClosed
    ensures var d := Next(c, e).0; d.subs == map[] && d.unsubs == map[] && d.nextReq == c.nextReq
  {
    hide OnMessage, SubIds, UnsubIds, OnSubscriptionRequested, OnUnsubscriptionRequested, OnVariableUpdateRequested;
    match e
    case Subscribe(v, handler) => SubscribingExtends(c, v, handler);
    case Unsubscribe(id) => UnsubscribingExtends(c, id);
    case Update(id, value) => UpdatingExtends(c, id, value);
    case Receive(msg) => MessageEmptiesPool(c, msg);
    case _ =>
  }

  lemma MessageEmptiesPool(c: Client, msg: Message)
    requires c.connected && !OnMessage(c, msg).connected
    ensures var d := OnMessage(c, msg); d.subs == map[] && d.unsubs == map[] && d.nextReq == c.nextReq
  {
    hide OnSubscriptionReply, OnUnsubscriptionReply, SubIds, UnsubIds;
    match msg
    case SubscriptionReply(st, v, m, _) => SubscriptionReplyKeepsConnected(c, st, v, m);
    case UnsubscriptionReply(st, m, _) => UnsubscriptionReplyKeepsConnected(c, st, m);
    case _ =>
  }

  // ----- which replies drop requests

  /** The client is about to take requests from the pool and raise an error: on a reply to waiting
      subscriptions that neither rejects them nor grants an id the database has room for, and on a reply to
      waiting unsubscriptions that says anything but how they ended. */
  ghost predicate Drops(c: Client, e: Event) {
    && e.Receive? && c.connected
    && match e.msg
       case SubscriptionReply(st, v, m, _) =>
         PendingSubs(c.subs, v) != [] && st != NoSuchVar && (st == Subscribed ==> v !in c.db && MasterDefined(c.db, m))
       case UnsubscriptionReply(st, m, _) =>
         PendingUnsubs(c.unsubs, m) != [] && st != NoSuchSubscription && st != Unsubscribed
       case _ => false
  }

  lemma {:induction false} GrantAllDropsNone(c: Client, v: VarId, m: SubsId, reqs: seq<SubRequest>)
    requires v in c.db
    ensures GrantAll(c, v, m, reqs).client.dropped == c.dropped
    decreases |reqs|
  {
    hide MasterDefined, IdsOfSubs;
    if reqs != [] {
      GrantAllDropsNone(Grant(c, v, reqs[0].id, reqs[0].handler), v, m, reqs[1..]);
    }
  }

  /** The first of some waiting requests is pooled, and not among those dropped. */
  lemma PooledIsNotDropped(c: Client)
    requires Accounted(c)
    ensures forall v :: PendingSubs(c.subs, v) != [] ==> PendingSubs(c.subs, v)[0].id !in c.dropped
    ensures forall m :: PendingUnsubs(c.unsubs, m) != [] ==> PendingUnsubs(c.unsubs, m)[0].id !in c.dropped
  {
    forall v | PendingSubs(c.subs, v) != [] ensures PendingSubs(c.subs, v)[0].id in SubIds(c.subs) {
    }
    forall m | PendingUnsubs(c.unsubs, m) != [] ensures PendingUnsubs(c.unsubs, m)[0].id in UnsubIds(c.unsubs) {
    }
    hide UniqueSubs, UniqueUnsubs, SubIds, UnsubIds, PendingSubs, PendingUnsubs;
  }

  lemma SubscriptionReplyDrops(c: Client, st: Status, v: VarId, m: SubsId)
    requires Accounted(c)
    ensures OnSubscriptionReply(c, st, v, m).client.dropped != c.dropped <==>
            PendingSubs(c.subs, v) != [] && st != NoSuchVar
                && (st == Subscribed ==> v !in c.db && MasterDefined(c.db, m))
  {
    hide Accounted, CompleteSubs, MasterDefined;
    var reqs, popped := PendingSubs(c.subs, v), c.(subs := c.subs[v := []]);
    PooledIsNotDropped(c);
    CompleteSubsChanges(popped, reqs, NoSuchVariableError(v));
    if reqs != [] {
      assert reqs[0].id in IdsOfSubs(reqs);
      if v in c.db {
        GrantAllDropsNone(popped, v, m, reqs);
      } else if !MasterDefined(c.db, m) {
        var d := popped.(db := popped.db[v := Entry(m, [])]);
        GrantAllDropsNone(Grant(d, v, reqs[0].id, reqs[0].handler), v, m, reqs[1..]);
      }
    }
  }

  lemma UnsubscriptionReplyDrops(c: Client, st: Status, m: SubsId)
    requires Accounted(c)
    ensures OnUnsubscriptionReply(c, st, m).client.dropped != c.dropped <==>
            PendingUnsubs(c.unsubs, m) != [] && st != NoSuchSubscription && st != Unsubscribed
  {
    hide Accounted, CompleteUnsubs;
    var reqs, popped := PendingUnsubs(c.unsubs, m), c.(unsubs := c.unsubs[m := []]);
    PooledIsNotDropped(c);
    CompleteUnsubsChanges(popped, reqs, NoSuchSubscriptionError(m));
    CompleteUnsubsChanges(popped, reqs, Finished);
    if reqs != [] {
      assert reqs[0].id in IdsOfUnsubs(reqs);
    }
  }

  lemma ErrorsDropNothing(c: Client)
    ensures OnError(c, true).dropped == c.dropped && OnError(c, false).dropped == c.dropped
  {
    hide SubIds, UnsubIds;
  }

  lemma MessageDrops(c: Client, msg: Message)
    requires Accounted(c) && c.connected
    ensures OnMessage(c, msg).dropped != c.dropped <==> Drops(c, Receive(msg))
  {
    hide Accounted, OnSubscriptionReply, OnUnsubscriptionReply, OnError, MasterDefined, PendingSubs, PendingUnsubs;
    match msg
    case SubscriptionReply(st, v, m, _) =>
      SubscriptionReplyDrops(c, st, v, m);
      ErrorsDropNothing(OnSubscriptionReply(c, st, v, m).client);
    case UnsubscriptionReply(st, m, _) =>
      UnsubscriptionReplyDrops(c, st, m);
      ErrorsDropNothing(OnUnsubscriptionReply(c, st, m).client);
    case _ =>
      ErrorsDropNothing(c);
  }

  /** In every run, a callback drops requests if and only if the state before says so. */
  lemma DropsExactly(events: seq<Event>, e: Event)
    ensures Next(Run(events), e).0.dropped != Run(events).dropped <==> Drops(Run(events), e)
  {
    RequestsAreAccounted(events);
    hide Accounted, OnMessage, OnError, OnSubscriptionRequested, OnUnsubscriptionRequested, OnVariableUpdateRequested;
    var c := Run(events);
    ErrorsDropNothing(c);
    match e
    case Subscribe(v, handler) => SubscribingExtends(c, v, handler);
    case Unsubscribe(id) => UnsubscribingExtends(c, id);
    case Update(id, value) => UpdatingExtends(c, id, value);
    case Receive(msg) =>
      if c.connected {
        MessageDrops(c, msg);
      }
    case _ =>
  }

  // ----- which losses settle all requests

  /** A step that empties the pool completes or drops all that was in it. */
  lemma Emptied(c: Client, d: Client)
    requires Accounted(c) && Accounted(d) && Extends(c, d) && d.nextReq == c.nextReq && Pooled(d) == {}
    ensures Pooled(c) <= d.promises.Keys <==> d.dropped == c.dropped
  {
    hide UniqueSubs, UniqueUnsubs, Issued, SubIds, UnsubIds;
    forall r | r in Pooled(c) ensures r in d.promises || r in d.dropped {
      assert r in Issued(c.nextReq);
    }
    forall r | r in d.dropped - c.dropped ensures r in Pooled(c) {
      assert r in Issued(c.nextReq);
    }
  }

  /** When a connection is lost, every request that waited is settled if and only if the loss was not an
      orderly end of the stream, or nothing waited, and it was not due to a reply that drops requests. */
  lemma {:induction false} LossSettlesExactly(events: seq<Event>, e: Event)
    requires Run(events).connected && !Next(Run(events), e).0.connected
    ensures var c := Run(events);
            Pooled(c) <= Next(c, e).0.promises.Keys <==>
            (e != ServerClosed || Pooled(c) == {}) && !Drops(c, e)
  {
    RequestsAreAccounted(events);
    var c := Run(events);
    var d := Next(c, e).0;
    StepKeepsOk(c, e);
    OutcomesAreFinal(c, e);
    DropsExactly(events, e);
    hide Next, Divided;
    if e != ServerClosed {
      LossEmptiesPool(c, e);
      assert Pooled(d) == {};
      Emptied(c, d);
    } else {
      Waits(c);
    }
  }

  /** What waits is not settled. */
  lemma Waits(c: Client)
    requires Accounted(c)
    ensures Pooled(c) !! c.promises.Keys && Pooled(c) !! c.dropped
    ensures forall r: ReqId :: r < c.nextReq ==> r in Pooled(c) || r in c.promises || r in c.dropped
  {
    assert forall r: ReqId :: r < c.nextReq ==> r in Issued(c.nextReq);
  }

  // ----- afterwards

  lemma PooledStays(c: Client, e: Event, r: ReqId)
    requires !c.connected && r in Pooled(c)
    ensures r in Pooled(Next(c, e).0)
  {
    hide OnMessage, OnSubscriptionRequested, OnUnsubscriptionRequested, OnVariableUpdateRequested, SubIds, UnsubIds;
    match e
    case Subscribe(v, handler) => SubscribingKeepsPooled(c, v, handler);
    case Unsubscribe(id) => UnsubscribingKeepsPooled(c, id);
    case Update(id, value) => UpdatingExtends(c, id, value);
    case _ =>
  }

  lemma SubscribingKeepsPooled(c: Client, v: VarId, handler: Handler)
    ensures Pooled(c) <= Pooled(OnSubscriptionRequested(c, v, handler).0)
  {
    hide AddVirtual, Written, UnsubIds;
    var d := OnSubscriptionRequested(c, v, handler).0;
    forall r | r in SubIds(c.subs) ensures r in SubIds(d.subs) {
      var w, i :| w in c.subs && 0 <= i < |c.subs[w]| && c.subs[w][i].id == r;
      assert d.subs[w][i].id == r;
    }
  }

  lemma UnsubscribingKeepsPooled(c: Client, id: SubsId)
    ensures Pooled(c) <= Pooled(OnUnsubscriptionRequested(c, id).0)
  {
    hide OwnerOf, RemoveVirtual, SubIds, Complete;
    UnsubscribingExtends(c, id);
    var d := OnUnsubscriptionRequested(c, id).0;
    UnsubscribingPools(c, id);
    forall r | r in UnsubIds(c.unsubs) ensures r in UnsubIds(d.unsubs) {
      var m, i :| m in c.unsubs && 0 <= i < |c.unsubs[m]| && c.unsubs[m][i].id == r;
      assert d.unsubs[m][i].id == r;
    }
  }

  lemma UnsubscribingPools(c: Client, id: SubsId)
    ensures var d := OnUnsubscriptionRequested(c, id).0;
            forall m :: m in c.unsubs ==> m in d.unsubs && c.unsubs[m] <= d.unsubs[m]
  {
    hide OwnerOf, RemoveVirtual;
  }

  lemma StaysDisconnected(c: Client, e: Event)
    requires !c.connected
    ensures !Next(c, e).0.connected && Next(c, e).0.nextReq >= c.nextReq
  {
    hide OnMessage, OnSubscriptionRequested, OnUnsubscriptionRequested, OnVariableUpdateRequested, PropagateError;
    match e
    case Subscribe(v, handler) => SubscribingExtends(c, v, handler);
    case Unsubscribe(id) => UnsubscribingExtends(c, id);
    case Update(id, value) => UpdatingExtends(c, id, value);
    case _ =>
  }

  /** A request that waits when the connection is lost goes on waiting, and one that was dropped stays so. */
  lemma StaysUnanswered(c: Client, e: Event, r: ReqId)
    requires ClientOk(c) && !c.connected && r < c.nextReq
    ensures var d := Next(c, e).0;
            ClientOk(d) && !d.connected && r < d.nextReq && (r in d.promises <==> r in c.promises)
  {
    StepKeepsOk(c, e);
    StaysDisconnected(c, e);
    OutcomesAreFinal(c, e);
    hide Next, Divided, Pooled;
    Waits(c);
    Waits(Next(c, e).0);
    if r in Pooled(c) {
      PooledStays(c, e, r);
    }
  }

  /** Once the connection is lost, nothing that happens afterwards answers a request made before: those
      still waiting wait forever. */
  lemma {:induction false} StrandedForever(events: seq<Event>, more: seq<Event>, r: ReqId)
    requires !Run(events).connected && r < Run(events).nextReq
    ensures var d := Run(events + more);
            !d.connected && r < d.nextReq && (r in d.promises <==> r in Run(events).promises)
    decreases |more|
  {
    hide ClientOk, Next;
    if more == [] {
      assert events + more == events;
    } else {
      var front, longer := more[..|more| - 1], events + more;
      assert longer[..|longer| - 1] == events + front;
      StrandedForever(events, front, r);
      RequestsAreAccounted(events + front);
      StaysUnanswered(Run(events + front), more[|more| - 1], r);
    }
  }

  /** The shortest such run: a subscription is requested and the server closes the connection. */
  lemma ClosedStreamStrands(v: VarId, handler: Handler, more: seq<Event>)
    ensures 0 !in Run([Subscribe(v, handler), ServerClosed] + more).promises
  {
    var events := [Subscribe(v, handler), ServerClosed];
    assert events[..1] == [Subscribe(v, handler)] && events[..1][..0] == [];
    assert Run([]) == START;
    assert Run(events[..1]) == Next(START, Subscribe(v, handler)).0;
    assert !Run(events).connected && 0 < Run(events).nextReq;
    StrandedForever(events, more, 0);
  }

  // ----- a refusal that drops another request

  lemma RunOn(events: seq<Event>, e: Event)
    ensures Run(events + [e]) == Next(Run(events), e).0
  {
    assert (events + [e])[..|events|] == events;
  }

  /** Two requests for v are made and granted together, and both subscriptions given up again. */
  function GivenUp(v: VarId, h: Handler, m: SubsId): seq<Event> {
    [Subscribe(v, h)] + [Subscribe(v, h)] + [Receive(SubscriptionReply(Subscribed, v, m, []))]
    + [Unsubscribe(1)] + [Unsubscribe(2)]
  }

  lemma AfterGrant(v: VarId, h: Handler, m: SubsId)
    ensures var c := Run([Subscribe(v, h)] + [Subscribe(v, h)] + [Receive(SubscriptionReply(Subscribed, v, m, []))]);
            && c.db == map[v := Entry(m, [Virtual(1, h), Virtual(2, h)])]
            && c.subs == map[v := []] && c.unsubs == map[] && c.connected && c.nextReq == 2
  {
    hide Written;
    RunOn([], Subscribe(v, h));
    assert [] + [Subscribe(v, h)] == [Subscribe(v, h)] && Run([]) == START;
    RunOn([Subscribe(v, h)], Subscribe(v, h));
    RunOn([Subscribe(v, h)] + [Subscribe(v, h)], Receive(SubscriptionReply(Subscribed, v, m, [])));
    var c, a, b := Run([Subscribe(v, h)] + [Subscribe(v, h)]), SubRequest(0, v, h), SubRequest(1, v, h);
    assert PendingSubs(c.subs, v) == [a, b] && [a, b][1..] == [b] && [b][1..] == [];
    var popped := c.(subs := c.subs[v := []]);
    var d := Grant(popped.(db := popped.db[v := Entry(m, [])]), v, 0, h);
    var e := Grant(d, v, 1, h);
    assert [] + [Virtual(1, h)] == [Virtual(1, h)] && [Virtual(1, h)] + [Virtual(2, h)] ==
           [Virtual(1, h), Virtual(2, h)];
    assert d.db == map[v := Entry(m, [Virtual(1, h)])] && e.db == map[v := Entry(m, [Virtual(1, h), Virtual(2, h)])];
    assert GrantAll(popped, v, m, [a, b]) == GrantAll(d, v, m, [b]) == GrantAll(e, v, m, []) == Handled(e, false);
  }

  lemma AfterGivingUp(v: VarId, h: Handler, m: SubsId)
    ensures var c := Run(GivenUp(v, h, m));
            c.db == map[] && c.subs == map[v := []] && c.connected && c.nextReq == 4
  {
    hide Run, ClientOk;
    AfterGrant(v, h, m);
    var granted := [Subscribe(v, h)] + [Subscribe(v, h)] + [Receive(SubscriptionReply(Subscribed, v, m, []))];
    RequestsAreAccounted(granted);
    GivesUp(Run(granted), v, 1);
    RunOn(granted, Unsubscribe(1));
    RequestsAreAccounted(granted + [Unsubscribe(1)]);
    GivesUp(Run(granted + [Unsubscribe(1)]), v, 2);
    RunOn(granted + [Unsubscribe(1)], Unsubscribe(2));
  }

  /** The first of the subscriptions of v is given up. */
  lemma GivesUp(c: Client, v: VarId, id: SubsId)
    requires ClientOk(c) && Listed(c.db, v, 0, id)
    ensures var d, rest := Next(c, Unsubscribe(id)).0, c.db[v].virtuals[1..];
            && d.db == (if rest == [] then c.db - {v} else c.db[v := Entry(c.db[v].master, rest)])
            && d.subs == c.subs && d.connected == c.connected && d.nextReq == c.nextReq + 1
  {
    hide Accounted, DbOk, OwnerOf, Without, PendingUnsubs;
    Owns(c, v, id);
    OwnerIs(c.db, c.nextVirtual, v, 0, id);
    RemoveAt(c.db, v, 0, c.nextVirtual, id);
    assert c.db[v].virtuals[..0] + c.db[v].virtuals[1..] == c.db[v].virtuals[1..];
  }

  lemma Owns(c: Client, v: VarId, id: SubsId)
    requires ClientOk(c)
    ensures DbOk(c.db, c.nextVirtual) && IdsOk(c.db, c.nextVirtual)
  {
    hide Accounted;
  }

  /** A reply that refuses the second of those requests meets a third one, which is then never answered. */
  lemma RefusalDropsAnother(v: VarId, h: Handler, m: SubsId, cause: Text, more: seq<Event>)
    ensures var refusal := SubscriptionReply(VarAlreadySubscribed, v, 0, cause);
            var events := GivenUp(v, h, m) + [Subscribe(v, h)] + [Receive(refusal)];
            !Run(events).connected && 4 in Run(events).dropped && 4 !in Run(events + more).promises
  {
    hide Run, ClientOk, SubIds, UnsubIds, Written;
    AfterGivingUp(v, h, m);
    var before := GivenUp(v, h, m) + [Subscribe(v, h)];
    RunOn(GivenUp(v, h, m), Subscribe(v, h));
    var refusal := Receive(SubscriptionReply(VarAlreadySubscribed, v, 0, cause));
    RunOn(before, refusal);
    var c := Run(before);
    assert PendingSubs(c.subs, v) == [SubRequest(4, v, h)];
    assert [SubRequest(4, v, h)][0].id in IdsOfSubs([SubRequest(4, v, h)]);
    RequestsAreAccounted(before + [refusal]);
    DroppedIsUnanswered(Run(before + [refusal]), 4);
    StrandedForever(before + [refusal], more, 4);
  }

  lemma DroppedIsUnanswered(c: Client, r: ReqId)
    requires ClientOk(c) && r in c.dropped
    ensures r !in c.promises && r < c.nextReq
  {
    hide UniqueSubs, UniqueUnsubs, SubIds, UnsubIds, DbOk;
    assert r in Issued(c.nextReq);
  }
}

/** The client's connection manager: its handlers change the database, the pool and the promises in
    place. Each is proved against the function that describes it. */
module ConnectionManagement {
  import opened FlightVarTypes
  import opened ClientModel
  import opened ClientRuns
  import opened ClientRequests
  import opened SubscriptionDatabase
  import opened OutputBuffers
  import Streams
  import Serialization

  lemma LooseIsUnset(c: Client, ids: set<ReqId>)
    requires Popped(c, ids)
    ensures ids !! c.promises.Keys && !c.crashed
  {
  }

  lemma NewPromise(c: Client)
    requires ClientOk(c)
    ensures c.nextReq !in c.promises && !c.crashed
  {
    TakeNumber(c);
    LooseIsUnset(c.(nextReq := c.nextReq + 1), {c.nextReq});
  }

  /** A request made now is not completed yet, which leaves these outcomes. */
  lemma Subscribing(c: Client, v: VarId, handler: Handler)
    requires ClientOk(c)
    ensures c.nextReq !in c.promises && ClientOk(ClientModel.OnSubscriptionRequested(c, v, handler).0)
    ensures ClientModel.OnSubscriptionRequested(c, v, handler) ==
            var r := c.nextReq;
            if v in c.db then
              (c.(nextReq := r + 1, db := AddVirtual(c.db, v, Virtual(c.nextVirtual, handler)),
                  nextVirtual := c.nextVirtual + 1, promises := c.promises[r := Granted(c.nextVirtual)]), [])
            else
              (c.(nextReq := r + 1, subs := c.subs[v := PendingSubs(c.subs, v) + [SubRequest(r, v, handler)]]),
               Written([SubscriptionRequest(v)]))
  {
    hide ClientOk, AddVirtual, PendingSubs, Written;
    SubscribeKeepsOk(c, v, handler);
    NewPromise(c);
  }

  lemma Unsubscribing(c: Client, id: SubsId)
    requires ClientOk(c)
    ensures c.nextReq !in c.promises && ClientOk(ClientModel.OnUnsubscriptionRequested(c, id).0)
    ensures ClientModel.OnUnsubscriptionRequested(c, id) ==
            var r := c.nextReq;
            match OwnerOf(c.db, id)
            case None => (c.(nextReq := r + 1, promises := c.promises[r := NoSuchSubscriptionError(id)]), [])
            case Some(v) =>
              var m, db := c.db[v].master, RemoveVirtual(c.db, v, id);
              if v !in db then
                (c.(nextReq := r + 1, db := db,
                    unsubs := c.unsubs[m := PendingUnsubs(c.unsubs, m) + [UnsubRequest(r, id, m)]]),
                 [UnsubscriptionRequest(m)])
              else
                (c.(nextReq := r + 1, db := db, promises := c.promises[r := Finished]), [])
  {
    hide ClientOk, RemoveVirtual, PendingUnsubs;
    UnsubscribeKeepsOk(c, id);
    NewPromise(c);
  }

  lemma Updating(c: Client, id: SubsId, value: Value)
    requires ClientOk(c)
    ensures c.nextReq !in c.promises && ClientOk(ClientModel.OnVariableUpdateRequested(c, id, value).0)
    ensures ClientModel.OnVariableUpdateRequested(c, id, value) ==
            var r := c.nextReq;
            match OwnerOf(c.db, id)
            case None => (c.(nextReq := r + 1, promises := c.promises[r := NoSuchSubscriptionError(id)]), [])
            case Some(v) => (c.(nextReq := r + 1, promises := c.promises[r := Finished]),
                             [VarUpdate(c.db[v].master, value)])
  {
    hide ClientOk, OwnerOf;
    UpdateKeepsOk(c, id, value);
    NewPromise(c);
  }

  /** What the pool's propagation of an error needs and does. */
  lemma ErrorSettles(c: Client)
    requires ClientOk(c)
    ensures UniqueSubs(c.subs) && UniqueUnsubs(c.unsubs)
    ensures SubIds(c.subs) !! UnsubIds(c.unsubs) !! c.promises.Keys
    ensures OnError(c, true) ==
            c.(errors := c.errors + 1, connected := false, subs := map[], unsubs := map[],
               promises := Failed(c.promises, SubIds(c.subs) + UnsubIds(c.unsubs)))
    ensures ClientOk(OnError(c, true)) && ClientOk(OnError(c, false))
  {
    hide DbOk;
    DisconnectSettles(c);
    var ids := SubIds(c.subs) + UnsubIds(c.unsubs);
    assert ids - c.promises.Keys == ids;
  }

  /** One waiting request is granted, or none of those left. */
  lemma GrantOne(c: Client, v: VarId, m: SubsId, reqs: seq<SubRequest>, a: After)
    requires reqs != [] && Popped(c, IdsOfSubs(reqs)) && DistinctSubs(reqs)
    requires a == if v in c.db then Adding(c.db, c.nextVirtual, v, reqs[0].handler)
                  else Creating(c.db, c.nextVirtual, v, m, reqs[0].handler)
    ensures match a.r
            case Ok(id) =>
              var d := c.(db := a.db, nextVirtual := a.next, promises := c.promises[reqs[0].id := Granted(id)]);
              && reqs[0].id !in c.promises
              && GrantAll(c, v, m, reqs) == GrantAll(d, v, m, reqs[1..])
              && Popped(d, IdsOfSubs(reqs[1..])) && DistinctSubs(reqs[1..])
            case Err(_) =>
              && a.db == c.db && a.next == c.nextVirtual
              && GrantAll(c, v, m, reqs) == Handled(c.(dropped := c.dropped + IdsOfSubs(reqs)), true)
  {
    hide Divided, IdsOfSubs, DistinctSubs, MasterDefined, AddVirtual;
    TailOfSubs(reqs);
    LooseIsUnset(c, IdsOfSubs(reqs));
    CompleteOne(c, IdsOfSubs(reqs), reqs[0].id, Granted(c.nextVirtual));
  }

  lemma GrantNone(c: Client, v: VarId, m: SubsId)
    ensures GrantAll(c, v, m, []) == Handled(c, false)
  {
  }

  class ConnectionManager {
    const db: SubscriptionDb
    const pool: RequestPool
    const promises: Promises
    var connected: bool
    var nextReq: ReqId
    var calls: seq<Call>
    var errors: nat
    var sent: seq<Message>
    ghost var dropped: set<ReqId>

    ghost function State(): Client
      reads this, db, db.ids, db.Repr, pool, promises
    {
      Client(db.View(), pool.subs, pool.unsubs, promises.results, dropped, false, connected, db.ids.next,
             nextReq, calls, errors)
    }

    ghost predicate Valid()
      reads this, db, db.ids, db.Repr, pool, promises
    {
      db.Valid() && ClientOk(State())
    }

    constructor ()
      ensures Valid() && State() == ClientModel.START && sent == []
      ensures fresh(db) && fresh(db.ids) && fresh(pool) && fresh(promises) && db.Repr == {}
    {
      db := new SubscriptionDb();
      pool := new RequestPool();
      promises := new Promises();
      connected, nextReq, calls, errors, sent, dropped := true, 0, [], 0, [], {};
      new;
      assert ClientRuns.Run([]) == ClientModel.START;
      RequestsAreAccounted([]);
    }

    /** The state of the manager and everything it has sent. */
    ghost predicate At(c: Client, out: seq<Message>)
      reads this, db, db.ids, db.Repr, pool, promises
    {
      State() == c && sent == out && db.Valid() && ClientOk(c)
    }

    /** Serializes a message into a buffer of its own and sends it. */
    method SendMessage(msg: Message) returns (r: Streams.Attempt)
      modifies this`sent
      ensures r.Done? <==> Fits(msg)
      ensures sent == old(sent) + Written([msg])
    {
      hide Codec.Encode, Written;
      var buffer := new Streams.OutputStream(OUTPUT_SIZE);
      r := Serialization.Serialize(buffer, msg);
      WrittenOne(msg);
      assert sent + [] == sent;
      if r.Done? {
        sent := sent + [msg];
      }
    }

    /** Fails when the request is too long to be sent, and then leaves it in the pool. */
    method OnSubscriptionRequested(v: VarId, handler: Handler) returns (a: Streams.Attempt)
      requires Valid()
      modifies this`nextReq, this`sent, db, db.ids, db.Repr, pool, promises
      ensures db.Repr == old(db.Repr)
      ensures a.Eof? <==> v !in old(State()).db && Length(v) > LONGEST_REQUESTED
      ensures var (c, out) := ClientModel.OnSubscriptionRequested(old(State()), v, handler);
              At(c, old(sent) + out)
    {
      hide ClientOk, SubscriptionDb.Valid, SubscriptionDb.View, AddVirtual, PendingSubs,
           ClientModel.OnSubscriptionRequested, Fits, Written;
      Subscribing(State(), v, handler);
      RequestFits(v);
      var r := nextReq;
      nextReq := nextReq + 1;
      var defined := db.EntryDefined(v);
      if defined {
        var added := db.AddVirtualSubscription(v, handler);
        promises.Set(r, Granted(added.value));
        assert sent + [] == sent;
        a := Streams.Done;
      } else {
        pool.InsertSub(SubRequest(r, v, handler));
        a := SendMessage(SubscriptionRequest(v));
      }
    }

    /** Messages without a text are always sent. */
    method SendShort(msg: Message)
      requires msg.UnsubscriptionRequest? || msg.VarUpdate?
      modifies this`sent
      ensures sent == old(sent) + [msg]
    {
      hide Fits, Written;
      ShortMessagesFit(msg.id, if msg.VarUpdate? then msg.value else BoolValue(true));
      WrittenOne(msg);
      var _ := SendMessage(msg);
    }

    method OnUnsubscriptionRequested(virtualId: SubsId)
      requires Valid()
      modifies this`nextReq, this`sent, db, db.Repr, pool, promises
      ensures db.Repr == old(db.Repr)
      ensures var (c, out) := ClientModel.OnUnsubscriptionRequested(old(State()), virtualId);
              At(c, old(sent) + out)
    {
      hide ClientOk, SubscriptionDb.Valid, SubscriptionDb.View, RemoveVirtual, PendingUnsubs, OwnerOf,
           ClientModel.OnUnsubscriptionRequested, Fits, Written;
      Unsubscribing(State(), virtualId);
      var r := nextReq;
      nextReq := nextReq + 1;
      var found := db.MasterOfVirtual(virtualId);
      match found
      case Err(_) =>
        promises.Set(r, NoSuchSubscriptionError(virtualId));
        assert sent + [] == sent;
      case Ok(master) =>
        GiveUp(r, virtualId, master);
    }

    /** Request r gives up a virtual subscription of the given master. */
    method GiveUp(r: ReqId, virtualId: SubsId, master: SubsId)
      requires db.Valid() && ClientOk(State().(nextReq := r)) && nextReq == r + 1
      requires match OwnerOf(db.View(), virtualId)
               case None => false
               case Some(v) => v in db.View() && db.View()[v].master == master
      modifies this`sent, db, db.Repr, pool, promises
      ensures db.Repr == old(db.Repr)
      ensures var (c, out) := ClientModel.OnUnsubscriptionRequested(old(State()).(nextReq := r), virtualId);
              At(c, old(sent) + out)
    {
      hide ClientOk, SubscriptionDb.Valid, SubscriptionDb.View, RemoveVirtual, PendingUnsubs, OwnerOf,
           ClientModel.OnUnsubscriptionRequested, Fits, Written;
      Unsubscribing(State().(nextReq := r), virtualId);
      var last := db.RemoveVirtualSubscription(virtualId);
      if last.value {
        pool.InsertUnsub(UnsubRequest(r, virtualId, master));
        SendShort(UnsubscriptionRequest(master));
      } else {
        promises.Set(r, Finished);
        assert sent + [] == sent;
      }
    }

    method OnVariableUpdateRequested(virtualId: SubsId, value: Value)
      requires Valid()
      modifies this`nextReq, this`sent, promises
      ensures var (c, out) := ClientModel.OnVariableUpdateRequested(old(State()), virtualId, value);
              At(c, old(sent) + out)
    {
      hide ClientOk, SubscriptionDb.Valid, SubscriptionDb.View, OwnerOf, Fits, Written,
           ClientModel.OnVariableUpdateRequested;
      Updating(State(), virtualId, value);
      var r := nextReq;
      nextReq := nextReq + 1;
      var found := db.MasterOfVirtual(virtualId);
      match found
      case Err(_) =>
        promises.Set(r, NoSuchSubscriptionError(virtualId));
        assert sent + [] == sent;
      case Ok(master) =>
        SendShort(VarUpdate(master, value));
        promises.Set(r, Finished);
    }

    /** Sets the promise of every request of a list taken from the pool. */
    method CompleteSubs(reqs: seq<SubRequest>, outcome: Outcome)
      requires db.Valid() && Popped(State(), IdsOfSubs(reqs)) && DistinctSubs(reqs)
      modifies promises
      ensures State() == ClientModel.CompleteSubs(old(State()), reqs, outcome)
    {
      hide Divided, SubscriptionDb.Valid, SubscriptionDb.View, IdsOfSubs, DistinctSubs;
      ghost var c := State();
      var i := 0;
      while i < |reqs|
        invariant 0 <= i <= |reqs|
        invariant Popped(State(), IdsOfSubs(reqs[i..])) && DistinctSubs(reqs[i..])
        invariant ClientModel.CompleteSubs(State(), reqs[i..], outcome) == ClientModel.CompleteSubs(c, reqs, outcome)
      {
        TailOfSubs(reqs[i..]);
        LooseIsUnset(State(), IdsOfSubs(reqs[i..]));
        CompleteOne(State(), IdsOfSubs(reqs[i..]), reqs[i].id, outcome);
        promises.Set(reqs[i].id, outcome);
        assert reqs[i..][1..] == reqs[i + 1..];
        i := i + 1;
      }
    }

    method CompleteUnsubs(reqs: seq<UnsubRequest>, outcome: Outcome)
      requires db.Valid() && Popped(State(), IdsOfUnsubs(reqs)) && DistinctUnsubs(reqs)
      modifies promises
      ensures State() == ClientModel.CompleteUnsubs(old(State()), reqs, outcome)
    {
      hide Divided, SubscriptionDb.Valid, SubscriptionDb.View, IdsOfUnsubs, DistinctUnsubs;
      ghost var c := State();
      var i := 0;
      while i < |reqs|
        invariant 0 <= i <= |reqs|
        invariant Popped(State(), IdsOfUnsubs(reqs[i..])) && DistinctUnsubs(reqs[i..])
        invariant ClientModel.CompleteUnsubs(State(), reqs[i..], outcome) ==
                  ClientModel.CompleteUnsubs(c, reqs, outcome)
      {
        TailOfUnsubs(reqs[i..]);
        LooseIsUnset(State(), IdsOfUnsubs(reqs[i..]));
        CompleteOne(State(), IdsOfUnsubs(reqs[i..]), reqs[i].id, outcome);
        promises.Set(reqs[i].id, outcome);
        assert reqs[i..][1..] == reqs[i + 1..];
        i := i + 1;
      }
    }

    /** Grants the requests of a list taken from the pool; the rest is lost if the database refuses. */
    method GrantAll(v: VarId, m: SubsId, reqs: seq<SubRequest>) returns (raised: bool)
      requires db.Valid() && Popped(State(), IdsOfSubs(reqs)) && DistinctSubs(reqs)
      modifies this`dropped, db, db.ids, db.Repr, promises
      ensures db.Valid() && old(db.Repr) <= db.Repr && fresh(db.Repr - old(db.Repr))
      ensures Handled(State(), raised) == ClientModel.GrantAll(old(State()), v, m, reqs)
    {
      hide Popped, SubscriptionDb.Valid, SubscriptionDb.View, IdsOfSubs, DistinctSubs, Adding, Creating,
           ClientModel.GrantAll;
      ghost var h := ClientModel.GrantAll(State(), v, m, reqs);
      var i := 0;
      while i < |reqs|
        invariant 0 <= i <= |reqs|
        invariant db.Valid() && old(db.Repr) <= db.Repr && fresh(db.Repr - old(db.Repr))
        invariant Popped(State(), IdsOfSubs(reqs[i..])) && DistinctSubs(reqs[i..])
        invariant ClientModel.GrantAll(State(), v, m, reqs[i..]) == h
      {
        ghost var c := State();
        var r := db.AddOrCreate(v, m, reqs[i].handler);
        GrantOne(c, v, m, reqs[i..], After(db.View(), db.ids.next, r));
        assert reqs[i..][1..] == reqs[i + 1..];
        if r.Err? {
          dropped := dropped + IdsOfSubs(reqs[i..]);
          return true;
        }
        promises.Set(reqs[i].id, Granted(r.value));
        i := i + 1;
      }
      assert reqs[i..] == [];
      GrantNone(State(), v, m);
      return false;
    }

    method OnSubscriptionReplyReceived(status: Status, v: VarId, m: SubsId) returns (raised: bool)
      requires Valid()
      modifies this`dropped, db, db.ids, db.Repr, pool, promises
      ensures db.Valid() && old(db.Repr) <= db.Repr && fresh(db.Repr - old(db.Repr))
      ensures Handled(State(), raised) == OnSubscriptionReply(old(State()), status, v, m)
    {
      hide Popped, DbOk, SubscriptionDb.Valid, SubscriptionDb.View, IdsOfSubs, DistinctSubs, ClientModel.GrantAll,
           ClientModel.CompleteSubs;
      PopSubs(State(), v);
      var reqs := pool.PopSubs(v);
      if reqs == [] {
        return true;
      }
      match status
      case NoSuchVar =>
        CompleteSubs(reqs, NoSuchVariableError(v));
        return false;
      case Subscribed =>
        raised := GrantAll(v, m, reqs);
      case _ =>
        dropped := dropped + IdsOfSubs(reqs);
        return true;
    }

    method OnUnsubscriptionReplyReceived(status: Status, m: SubsId) returns (raised: bool)
      requires Valid()
      modifies this`dropped, pool, promises
      ensures Handled(State(), raised) == OnUnsubscriptionReply(old(State()), status, m)
    {
      hide Popped, DbOk, SubscriptionDb.Valid, SubscriptionDb.View, IdsOfUnsubs, DistinctUnsubs,
           ClientModel.CompleteUnsubs;
      PopUnsubs(State(), m);
      var reqs := pool.PopUnsubs(m);
      if reqs != [] {
        match status
        case NoSuchSubscription =>
          CompleteUnsubs(reqs, NoSuchSubscriptionError(m));
          return false;
        case Unsubscribed =>
          CompleteUnsubs(reqs, Finished);
          return false;
        case _ =>
          dropped := dropped + IdsOfUnsubs(reqs);
      }
      return true;
    }

    method OnVariableUpdateReceived(m: SubsId, value: Value)
      requires Valid()
      modifies this`calls, this`errors
      ensures State() == OnVariableUpdate(old(State()), m, value)
    {
      hide Accounted, SubscriptionDb.Valid, SubscriptionDb.View;
      var made := db.InvokeHandlers(m, value);
      match made
      case Ok(list) => calls := calls + list;
      case Err(_) => errors := errors + 1;
    }

    method OnError(disconnects: bool)
      requires Valid()
      modifies this`errors, this`connected, pool, promises
      ensures At(ClientModel.OnError(old(State()), disconnects), sent)
    {
      hide ClientOk, UniqueSubs, UniqueUnsubs, SubIds, UnsubIds, Failed, SubscriptionDb.Valid, SubscriptionDb.View;
      ErrorSettles(State());
      errors := errors + 1;
      if disconnects {
        pool.PropagateError(promises);
        connected := false;
      }
    }

    /** A callback of the io_service. */
    method Handle(e: Event)
      requires Valid()
      modifies this, db, db.ids, db.Repr, pool, promises
      ensures Valid() && old(db.Repr) <= db.Repr && fresh(db.Repr - old(db.Repr))
      ensures (State(), sent) == var (c, out) := Next(old(State()), e); (c, old(sent) + out)
    {
      hide ClientOk, SubscriptionDb.Valid, SubscriptionDb.View, ClientModel.OnSubscriptionRequested,
           ClientModel.OnUnsubscriptionRequested, ClientModel.OnVariableUpdateRequested, ClientRuns.OnMessage,
           ClientModel.OnError;
      match e
      case Subscribe(v, handler) => var _ := OnSubscriptionRequested(v, handler);
      case Unsubscribe(id) => OnUnsubscriptionRequested(id);
      case Update(id, value) => OnVariableUpdateRequested(id, value);
      case Receive(msg) =>
        if connected {
          OnMessage(msg);
        }
        assert sent + [] == sent;
      case ServerClosed =>
        Unconnected(State());
        connected := false;
        assert sent + [] == sent;
      case ReceivePart =>
        assert sent + [] == sent;
      case SendFailed =>
        OnError(false);
        assert sent + [] == sent;
      case _ =>
        if connected {
          OnError(true);
        }
        assert sent + [] == sent;
    }

    /** Dispatches a message. An error raised by a reply handler disconnects. */
    method OnMessage(msg: Message)
      requires Valid()
      modifies this`connected, this`dropped, this`calls, this`errors, db, db.ids, db.Repr, pool, promises
      ensures old(db.Repr) <= db.Repr && fresh(db.Repr - old(db.Repr))
      ensures At(ClientRuns.OnMessage(old(State()), msg), sent)
    {
      hide ClientOk, SubscriptionDb.Valid, SubscriptionDb.View, OnSubscriptionReply, OnUnsubscriptionReply,
           OnVariableUpdate, ClientModel.OnError;
      match msg
      case SubscriptionReply(status, v, m, _) =>
        SubscriptionReplyKeepsOk(State(), status, v, m);
        var raised := OnSubscriptionReplyReceived(status, v, m);
        if raised {
          OnError(true);
        }
      case UnsubscriptionReply(status, m, _) =>
        UnsubscriptionReplyKeepsOk(State(), status, m);
        var raised := OnUnsubscriptionReplyReceived(status, m);
        if raised {
          OnError(true);
        }
      case VarUpdate(m, value) =>
        MessageKeepsOk(State(), msg);
        OnVariableUpdateReceived(m, value);
      case _ =>
        OnError(true);
    }
  }
}

/** What the client answers: which outcome every reply gives the requests that wait for it, what every call
    leads to, and what the user's handlers are told. */
module ClientAnswers {
  import opened FlightVarTypes
  import opened OutputBuffers
  import opened ClientModel
  import opened ClientRuns
  import opened ClientOutcomes

  // ----- replies to waiting requests

  lemma {:induction false} CompleteSubsSets(c: Client, reqs: seq<SubRequest>, outcome: Outcome, i: nat)
    requires Popped(c, IdsOfSubs(reqs)) && DistinctSubs(reqs) && i < |reqs|
    ensures var d := CompleteSubs(c, reqs, outcome);
            reqs[i].id in d.promises && d.promises[reqs[i].id] == outcome
    decreases |reqs|
  {
    hide Divided, IdsOfSubs, DistinctSubs;
    TailOfSubs(reqs);
    CompleteOne(c, IdsOfSubs(reqs), reqs[0].id, outcome);
    LooseIsOpen(c, IdsOfSubs(reqs));
    var next := Complete(c, reqs[0].id, outcome);
    CompleteSubsExtends(next, reqs[1..], outcome);
    if i > 0 {
      CompleteSubsSets(next, reqs[1..], outcome, i - 1);
    }
  }

  lemma {:induction false} CompleteUnsubsSets(c: Client, reqs: seq<UnsubRequest>, outcome: Outcome, i: nat)
    requires Popped(c, IdsOfUnsubs(reqs)) && DistinctUnsubs(reqs) && i < |reqs|
    ensures var d := CompleteUnsubs(c, reqs, outcome);
            reqs[i].id in d.promises && d.promises[reqs[i].id] == outcome
    decreases |reqs|
  {
    hide Divided, IdsOfUnsubs, DistinctUnsubs;
    TailOfUnsubs(reqs);
    CompleteOne(c, IdsOfUnsubs(reqs), reqs[0].id, outcome);
    LooseIsOpen(c, IdsOfUnsubs(reqs));
    var next := Complete(c, reqs[0].id, outcome);
    CompleteUnsubsExtends(next, reqs[1..], outcome);
    if i > 0 {
      CompleteUnsubsSets(next, reqs[1..], outcome, i - 1);
    }
  }

  /** A request that is being handled has no outcome yet. */
  lemma LooseIsOpen(c: Client, ids: set<ReqId>)
    requires Popped(c, ids)
    ensures ids !! c.promises.Keys
  {
  }

  /** A rejection tells every waiting request that there is no such variable. */
  lemma RejectionAnswers(events: seq<Event>, v: VarId, id: SubsId, cause: Text, i: nat)
    requires Run(events).connected && i < |PendingSubs(Run(events).subs, v)|
    ensures var r := PendingSubs(Run(events).subs, v)[i].id;
            var d := Run(events + [Receive(SubscriptionReply(NoSuchVar, v, id, cause))]);
            d.connected && r in d.promises && d.promises[r] == NoSuchVariableError(v)
  {
    hide Popped, DbOk, CompleteSubs, Run, IdsOfSubs, DistinctSubs;
    RequestsAreAccounted(events);
    RunOn(events, Receive(SubscriptionReply(NoSuchVar, v, id, cause)));
    var c := Run(events);
    var reqs, popped := PendingSubs(c.subs, v), c.(subs := c.subs[v := []]);
    PopSubs(c, v);
    CompleteSubsSets(popped, reqs, NoSuchVariableError(v), i);
    CompleteSubsChanges(popped, reqs, NoSuchVariableError(v));
  }

  /** The end of an unsubscription finishes every waiting request, and an unknown subscription is told. */
  lemma UnsubscriptionAnswers(events: seq<Event>, status: Status, m: SubsId, cause: Text, i: nat)
    requires Run(events).connected && i < |PendingUnsubs(Run(events).unsubs, m)|
    requires status == Unsubscribed || status == NoSuchSubscription
    ensures var r := PendingUnsubs(Run(events).unsubs, m)[i].id;
            var d := Run(events + [Receive(UnsubscriptionReply(status, m, cause))]);
            && d.connected && r in d.promises
            && d.promises[r] == if status == Unsubscribed then Finished else NoSuchSubscriptionError(m)
  {
    hide Popped, DbOk, CompleteUnsubs, Run, IdsOfUnsubs, DistinctUnsubs;
    RequestsAreAccounted(events);
    RunOn(events, Receive(UnsubscriptionReply(status, m, cause)));
    var c := Run(events);
    var reqs, popped := PendingUnsubs(c.unsubs, m), c.(unsubs := c.unsubs[m := []]);
    var outcome := if status == Unsubscribed then Finished else NoSuchSubscriptionError(m);
    PopUnsubs(c, m);
    CompleteUnsubsSets(popped, reqs, outcome, i);
    CompleteUnsubsChanges(popped, reqs, outcome);
  }

  // ----- grants

  /** The virtual subscriptions that the waiting requests become. */
  function Become(reqs: seq<SubRequest>, next: SubsId): (virtuals: seq<Virtual>)
    ensures |virtuals| == |reqs|
    ensures forall i :: 0 <= i < |reqs| ==> virtuals[i] == Virtual(next + i, reqs[i].handler)
  {
    seq(|reqs|, i requires 0 <= i < |reqs| => Virtual(next + i, reqs[i].handler))
  }

  lemma BecomeStep(reqs: seq<SubRequest>, next: SubsId)
    requires reqs != []
    ensures Become(reqs, next) == [Virtual(next, reqs[0].handler)] + Become(reqs[1..], next + 1)
  {
  }

  /** One request is granted. */
  lemma GrantSets(c: Client, v: VarId, r: ReqId, handler: Handler)
    requires v in c.db && r !in c.promises
    ensures var d := Grant(c, v, r, handler);
            && d.nextVirtual == c.nextVirtual + 1
            && d.db == c.db[v := Entry(c.db[v].master, c.db[v].virtuals + [Virtual(c.nextVirtual, handler)])]
            && d.promises == c.promises[r := Granted(c.nextVirtual)]
  {
  }

  lemma GrantAllStep(c: Client, v: VarId, m: SubsId, reqs: seq<SubRequest>)
    requires v in c.db && reqs != []
    ensures GrantAll(c, v, m, reqs) == GrantAll(Grant(c, v, reqs[0].id, reqs[0].handler), v, m, reqs[1..])
  {
    hide Grant, MasterDefined, IdsOfSubs;
  }

  /** The waiting requests have the outcomes that belong to their place. */
  ghost predicate Answered(promises: map<ReqId, Outcome>, reqs: seq<SubRequest>, next: SubsId) {
    forall i :: 0 <= i < |reqs| ==> reqs[i].id in promises && promises[reqs[i].id] == Granted(next + i)
  }

  lemma AnsweredOn(promises: map<ReqId, Outcome>, reqs: seq<SubRequest>, next: SubsId)
    requires reqs != [] && Answered(promises, reqs[1..], next + 1)
    requires reqs[0].id in promises && promises[reqs[0].id] == Granted(next)
    ensures Answered(promises, reqs, next)
  {
    assert forall i :: 0 < i < |reqs| ==> reqs[i] == reqs[1..][i - 1];
  }

  /** All waiting requests are granted, one after the other. */
  lemma {:induction false} GrantAllSets(c: Client, v: VarId, m: SubsId, reqs: seq<SubRequest>)
    requires Popped(c, IdsOfSubs(reqs)) && DistinctSubs(reqs) && v in c.db
    ensures var h := GrantAll(c, v, m, reqs);
            && !h.raised && h.client.nextVirtual == c.nextVirtual + |reqs|
            && h.client.db == c.db[v := Entry(c.db[v].master, c.db[v].virtuals + Become(reqs, c.nextVirtual))]
            && Answered(h.client.promises, reqs, c.nextVirtual)
    decreases |reqs|
  {
    hide Popped, IdsOfSubs, DistinctSubs, MasterDefined, Grant, Answered, Become;
    if reqs == [] {
      NoneBecome(c, v);
    } else {
      TailOfSubs(reqs);
      LooseIsOpen(c, IdsOfSubs(reqs));
      GrantStep(c, v, IdsOfSubs(reqs), reqs[0]);
      GrantSets(c, v, reqs[0].id, reqs[0].handler);
      GrantAllStep(c, v, m, reqs);
      hide GrantAll;
      var d := Grant(c, v, reqs[0].id, reqs[0].handler);
      GrantAllSets(d, v, m, reqs[1..]);
      GrantAllExtends(d, v, m, reqs[1..]);
      BecomeStep(reqs, c.nextVirtual);
      var was, one := c.db[v].virtuals, [Virtual(c.nextVirtual, reqs[0].handler)];
      var rest := Become(reqs[1..], d.nextVirtual);
      assert was + one + rest == was + (one + rest);
      AnsweredOn(GrantAll(d, v, m, reqs[1..]).client.promises, reqs, c.nextVirtual);
    }
  }

  lemma NoneBecome(c: Client, v: VarId)
    requires v in c.db
    ensures c.db == c.db[v := Entry(c.db[v].master, c.db[v].virtuals + Become([], c.nextVirtual))]
    ensures Answered(c.promises, [], c.nextVirtual)
  {
    assert c.db[v].virtuals + Become([], c.nextVirtual) == c.db[v].virtuals;
  }

  /** A grant of m for v makes every waiting request a virtual subscription of its own, in the order in which
      they were made, with the handler given and under a new entry with master m, and tells its id. */
  lemma GrantAnswers(events: seq<Event>, v: VarId, m: SubsId, cause: Text)
    requires var c := Run(events);
             c.connected && PendingSubs(c.subs, v) != [] && v !in c.db && !MasterDefined(c.db, m)
    ensures var c := Run(events);
            var d, reqs := Run(events + [Receive(SubscriptionReply(Subscribed, v, m, cause))]), PendingSubs(c.subs, v);
            && d.connected && d.db == c.db[v := Entry(m, Become(reqs, c.nextVirtual))]
            && forall i :: 0 <= i < |reqs| ==>
                 reqs[i].id in d.promises && d.promises[reqs[i].id] == Granted(c.nextVirtual + i)
  {
    hide Popped, DbOk, Run, IdsOfSubs, DistinctSubs, MasterDefined, Become;
    RequestsAreAccounted(events);
    RunOn(events, Receive(SubscriptionReply(Subscribed, v, m, cause)));
    var c := Run(events);
    var reqs, popped := PendingSubs(c.subs, v), c.(subs := c.subs[v := []]);
    PopSubs(c, v);
    GrantAllCreates(popped, v, m, reqs);
    SubscriptionReplyKeepsConnected(c, Subscribed, v, m);
  }

  lemma GrantAllCreates(c: Client, v: VarId, m: SubsId, reqs: seq<SubRequest>)
    requires Popped(c, IdsOfSubs(reqs)) && DistinctSubs(reqs) && reqs != [] && v !in c.db && !MasterDefined(c.db, m)
    ensures var h := GrantAll(c, v, m, reqs);
            && !h.raised && h.client.db == c.db[v := Entry(m, Become(reqs, c.nextVirtual))]
            && forall i :: 0 <= i < |reqs| ==>
                 reqs[i].id in h.client.promises && h.client.promises[reqs[i].id] == Granted(c.nextVirtual + i)
  {
    hide *;
    var created := c.(db := c.db[v := Entry(m, [])]);
    assert [] + Become(reqs, c.nextVirtual) == Become(reqs, c.nextVirtual);
    CreatedFirst(c, v, m, reqs);
    GrantAllSets(created, v, m, reqs);
    assert created.db[v := Entry(m, Become(reqs, c.nextVirtual))] == c.db[v := Entry(m, Become(reqs, c.nextVirtual))];
    AnsweredAll(GrantAll(c, v, m, reqs).client.promises, reqs, c.nextVirtual);
  }

  lemma CreatedFirst(c: Client, v: VarId, m: SubsId, reqs: seq<SubRequest>)
    requires Popped(c, IdsOfSubs(reqs)) && reqs != [] && v !in c.db && !MasterDefined(c.db, m)
    ensures var created := c.(db := c.db[v := Entry(m, [])]);
            && Popped(created, IdsOfSubs(reqs)) && v in created.db && created.db[v] == Entry(m, [])
            && created.db == c.db[v := Entry(m, [])] && created.nextVirtual == c.nextVirtual
            && GrantAll(created, v, m, reqs) == GrantAll(c, v, m, reqs)
  {
    hide Divided, IdsOfSubs, MasterDefined, Grant;
  }

  lemma AnsweredAll(promises: map<ReqId, Outcome>, reqs: seq<SubRequest>, next: SubsId)
    requires Answered(promises, reqs, next)
    ensures forall i :: 0 <= i < |reqs| ==> reqs[i].id in promises && promises[reqs[i].id] == Granted(next + i)
  {
  }

  // ----- calls

  /** A subscription to a variable that has an entry is granted at once: its own virtual subscription is the
      last of the entry, and nothing is sent. */
  lemma KnownSubscription(events: seq<Event>, v: VarId, handler: Handler)
    requires v in Run(events).db
    ensures var c := Run(events);
            var (d, out) := Next(c, Subscribe(v, handler));
            && out == [] && d.promises == c.promises[c.nextReq := Granted(c.nextVirtual)]
            && d.db == c.db[v := Entry(c.db[v].master, c.db[v].virtuals + [Virtual(c.nextVirtual, handler)])]
  {
    RequestsAreAccounted(events);
    hide Run, UniqueSubs, UniqueUnsubs, DbOk;
    assert Run(events).nextReq !in Issued(Run(events).nextReq);
  }

  /** Any other subscription is asked of the server and waits behind those made before. */
  lemma NewSubscription(events: seq<Event>, v: VarId, handler: Handler)
    requires v !in Run(events).db
    ensures var c := Run(events);
            var (d, out) := Next(c, Subscribe(v, handler));
            && (out == if Length(v) <= LONGEST_REQUESTED then [SubscriptionRequest(v)] else [])
            && PendingSubs(d.subs, v) == PendingSubs(c.subs, v) + [SubRequest(c.nextReq, v, handler)]
            && d.db == c.db && d.promises == c.promises
  {
    hide Run, Fits, Written;
    WrittenOne(SubscriptionRequest(v));
    RequestFits(v);
  }

  /** Giving up an id that is nobody's is answered at once with an error. */
  lemma UnknownUnsubscription(events: seq<Event>, id: SubsId)
    requires forall v, i :: !Listed(Run(events).db, v, i, id)
    ensures var c := Run(events);
            var (d, out) := Next(c, Unsubscribe(id));
            out == [] && d.db == c.db && d.promises == c.promises[c.nextReq := NoSuchSubscriptionError(id)]
  {
    RequestsAreAccounted(events);
    hide Run, UniqueSubs, UniqueUnsubs, DbOk;
    assert Run(events).nextReq !in Issued(Run(events).nextReq);
  }

  /** Giving up the only subscription of a variable removes its entry and waits for the server. */
  lemma LastUnsubscription(events: seq<Event>, v: VarId, id: SubsId)
    requires var c := Run(events); v in c.db && |c.db[v].virtuals| == 1 && c.db[v].virtuals[0].id == id
    ensures var c := Run(events);
            var m := c.db[v].master;
            var (d, out) := Next(c, Unsubscribe(id));
            && out == [UnsubscriptionRequest(m)] && d.db == c.db - {v} && d.promises == c.promises
            && PendingUnsubs(d.unsubs, m) == PendingUnsubs(c.unsubs, m) + [UnsubRequest(c.nextReq, id, m)]
  {
    RequestsAreAccounted(events);
    hide Run, Accounted;
    var c := Run(events);
    assert Listed(c.db, v, 0, id);
    OwnerIs(c.db, c.nextVirtual, v, 0, id);
    RemoveAt(c.db, v, 0, c.nextVirtual, id);
  }

  /** An update of a subscription is sent under the master of its variable, with its value. */
  lemma KnownUpdate(events: seq<Event>, v: VarId, i: nat, id: SubsId, value: Value)
    requires Listed(Run(events).db, v, i, id)
    ensures var c := Run(events);
            var (d, out) := Next(c, Update(id, value));
            && out == [VarUpdate(c.db[v].master, value)]
            && d.db == c.db && d.promises == c.promises[c.nextReq := Finished]
  {
    RequestsAreAccounted(events);
    var c := Run(events);
    OwnerIs(c.db, c.nextVirtual, v, i, id);
    hide Run, UniqueSubs, UniqueUnsubs, DbOk;
    assert c.nextReq !in Issued(c.nextReq);
  }

  lemma UnknownUpdate(events: seq<Event>, id: SubsId, value: Value)
    requires forall v, i :: !Listed(Run(events).db, v, i, id)
    ensures var c := Run(events);
            var (d, out) := Next(c, Update(id, value));
            out == [] && d.db == c.db && d.promises == c.promises[c.nextReq := NoSuchSubscriptionError(id)]
  {
    RequestsAreAccounted(events);
    hide Run, UniqueSubs, UniqueUnsubs, DbOk;
    assert Run(events).nextReq !in Issued(Run(events).nextReq);
  }

  // ----- handlers

  /** An update calls the handler of every virtual subscription of the variable with the master given, once,
      in the order of their list, with variable and value, and changes nothing else. */
  lemma CallsMade(c: Client, v: VarId, value: Value)
    requires ClientOk(c) && v in c.db
    ensures var d, n := OnMessage(c, VarUpdate(c.db[v].master, value)), |c.calls|;
            && d == c.(calls := d.calls) && |d.calls| == n + |c.db[v].virtuals| && d.calls[..n] == c.calls
            && forall k :: 0 <= k < |c.db[v].virtuals| ==>
                 d.calls[n + k] == Call(c.db[v].virtuals[k].handler, v, value)
  {
    hide Accounted;
  }

  lemma UpdateCalls(events: seq<Event>, v: VarId, value: Value)
    requires Run(events).connected && v in Run(events).db
    ensures var c := Run(events);
            var d, n := Next(c, Receive(VarUpdate(c.db[v].master, value))).0, |c.calls|;
            && d == c.(calls := d.calls) && |d.calls| == n + |c.db[v].virtuals| && d.calls[..n] == c.calls
            && forall k :: 0 <= k < |c.db[v].virtuals| ==>
                 d.calls[n + k] == Call(c.db[v].virtuals[k].handler, v, value)
  {
    RequestsAreAccounted(events);
    hide Run, ClientOk;
    CallsMade(Run(events), v, value);
  }

  /** The ids of each list grow, so that subscriptions are in the order in which they were made. */
  ghost predicate InOrder(db: Db) {
    forall v, i, j :: v in db && 0 <= i < j < |db[v].virtuals| ==> db[v].virtuals[i].id < db[v].virtuals[j].id
  }

  lemma AddKeepsOrder(db: Db, v: VarId, next: SubsId, handler: Handler)
    requires InOrder(db) && v in db && forall i :: 0 <= i < |db[v].virtuals| ==> db[v].virtuals[i].id < next
    ensures InOrder(AddVirtual(db, v, Virtual(next, handler)))
  {
  }

  lemma RemoveKeepsOrder(db: Db, v: VarId, k: nat, next: SubsId, id: SubsId)
    requires InOrder(db) && IdsOk(db, next) && Listed(db, v, k, id)
    ensures InOrder(RemoveVirtual(db, v, id))
  {
    RemoveAt(db, v, k, next, id);
  }

  /** All ids listed are below the next one. */
  ghost predicate Below(db: Db, next: SubsId) {
    forall w, i, id: SubsId :: Listed(db, w, i, id) ==> id < next
  }

  lemma EntryKeepsOrder(db: Db, v: VarId, m: SubsId, next: SubsId)
    requires InOrder(db) && Below(db, next) && v !in db
    ensures InOrder(db[v := Entry(m, [])]) && Below(db[v := Entry(m, [])], next)
  {
    var d := db[v := Entry(m, [])];
    forall w, i, id: SubsId | Listed(d, w, i, id) ensures id < next {
      assert Listed(db, w, i, id);
    }
  }

  lemma GrantKeepsOrder(c: Client, v: VarId, r: ReqId, handler: Handler)
    requires InOrder(c.db) && Below(c.db, c.nextVirtual) && v in c.db
    ensures var d := Grant(c, v, r, handler); InOrder(d.db) && Below(d.db, d.nextVirtual)
  {
    assert forall i :: 0 <= i < |c.db[v].virtuals| ==> Listed(c.db, v, i, c.db[v].virtuals[i].id);
    hide InOrder, Listed, AddVirtual;
    AddedIdsBelow(c.db, v, c.nextVirtual, handler);
    AddKeepsOrder(c.db, v, c.nextVirtual, handler);
  }

  lemma {:induction false} GrantAllKeepsOrder(c: Client, v: VarId, m: SubsId, reqs: seq<SubRequest>)
    requires InOrder(c.db) && Below(c.db, c.nextVirtual)
    ensures InOrder(GrantAll(c, v, m, reqs).client.db)
    decreases |reqs|
  {
    hide InOrder, Below, MasterDefined, IdsOfSubs, Grant;
    if reqs != [] && (v in c.db || !MasterDefined(c.db, m)) {
      var d := if v in c.db then c else c.(db := c.db[v := Entry(m, [])]);
      if v !in c.db {
        EntryKeepsOrder(c.db, v, m, c.nextVirtual);
      }
      GrantKeepsOrder(d, v, reqs[0].id, reqs[0].handler);
      GrantAllKeepsOrder(Grant(d, v, reqs[0].id, reqs[0].handler), v, m, reqs[1..]);
    }
  }

  lemma AddedIdsBelow(db: Db, v: VarId, next: SubsId, handler: Handler)
    requires v in db && Below(db, next)
    ensures Below(AddVirtual(db, v, Virtual(next, handler)), next + 1)
  {
    var d := AddVirtual(db, v, Virtual(next, handler));
    forall w, i, id: SubsId | Listed(d, w, i, id) ensures id < next + 1 {
      assert id == next || Listed(db, w, i, id);
    }
  }

  lemma ReplyKeepsOrder(c: Client, st: Status, v: VarId, m: SubsId)
    requires InOrder(c.db) && DbOk(c.db, c.nextVirtual)
    ensures InOrder(OnSubscriptionReply(c, st, v, m).client.db)
  {
    hide InOrder, CompleteSubs, GrantAll;
    var reqs, popped := PendingSubs(c.subs, v), c.(subs := c.subs[v := []]);
    CompleteSubsChanges(popped, reqs, NoSuchVariableError(v));
    GrantAllKeepsOrder(popped, v, m, reqs);
  }

  lemma MessageKeepsOrder(c: Client, msg: Message)
    requires InOrder(c.db) && DbOk(c.db, c.nextVirtual)
    ensures InOrder(OnMessage(c, msg).db)
  {
    hide InOrder, OnSubscriptionReply, OnUnsubscriptionReply, SubIds, UnsubIds;
    match msg
    case SubscriptionReply(st, v, m, _) => ReplyKeepsOrder(c, st, v, m);
    case UnsubscriptionReply(st, m, _) => UnsubReplyKeepsDb(c, st, m);
    case _ =>
  }

  lemma SubscribingKeepsOrder(c: Client, v: VarId, handler: Handler)
    requires InOrder(c.db) && DbOk(c.db, c.nextVirtual)
    ensures InOrder(OnSubscriptionRequested(c, v, handler).0.db)
  {
    hide InOrder, Grant, Written, PendingSubs;
    if v in c.db {
      GrantKeepsOrder(c.(nextReq := c.nextReq + 1), v, c.nextReq, handler);
    }
  }

  lemma UnsubscribingKeepsOrder(c: Client, id: SubsId)
    requires InOrder(c.db) && DbOk(c.db, c.nextVirtual)
    ensures InOrder(OnUnsubscriptionRequested(c, id).0.db)
  {
    hide InOrder, RemoveVirtual, PendingUnsubs;
    var owner := OwnerOf(c.db, id);
    if owner.Some? {
      var k :| Listed(c.db, owner.value, k, id);
      RemoveKeepsOrder(c.db, owner.value, k, c.nextVirtual, id);
    }
  }

  lemma StepKeepsOrder(c: Client, e: Event)
    requires InOrder(c.db) && DbOk(c.db, c.nextVirtual)
    ensures InOrder(Next(c, e).0.db)
  {
    hide InOrder, DbOk, OnMessage, OnSubscriptionRequested, OnUnsubscriptionRequested, SubIds, UnsubIds, OwnerOf;
    match e
    case Subscribe(v, handler) => SubscribingKeepsOrder(c, v, handler);
    case Unsubscribe(id) => UnsubscribingKeepsOrder(c, id);
    case Receive(msg) => MessageKeepsOrder(c, msg);
    case _ =>
  }

  lemma {:induction false} SubscriptionsInOrder(events: seq<Event>)
    ensures InOrder(Run(events).db)
    decreases |events|
  {
    hide InOrder, Next;
    if events == [] {
      assert InOrder(START.db) by { NothingInOrder(); }
    } else {
      SubscriptionsInOrder(events[..|events| - 1]);
      RequestsAreAccounted(events[..|events| - 1]);
      StepKeepsOrder(Run(events[..|events| - 1]), events[|events| - 1]);
    }
  }

  lemma NothingInOrder()
    ensures InOrder(START.db)
  {
  }
}

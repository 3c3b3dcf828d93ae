/** What every run of the client keeps, whatever the server sends: the database is well formed, no
    promise is set twice, and every request is in exactly one place. */
module ClientRuns {
  import opened FlightVarTypes
  import opened ClientModel
  import OutputBuffers

  /** An io_service callback of the client. Nothing is received once the client is disconnected:
      the handlers that disconnect do not start another read. When only a part of a message has arrived,
      its bytes are gone, and the client reads on; what it takes out of the bytes that follow is then any
      message, or none. */
  datatype Event =
    | Subscribe(v: VarId, handler: Handler)
    | Unsubscribe(virtualId: SubsId)
    | Update(virtualId: SubsId, value: Value)
    | Receive(msg: Message)
    | ReceivePart
    | ReceiveGarbled
    | ServerClosed
    | ConnectionReset
    | SendFailed

  ghost function OnMessage(c: Client, msg: Message): Client {
    match msg
    case SubscriptionReply(st, v, m, _) => AfterReply(OnSubscriptionReply(c, st, v, m))
    case UnsubscriptionReply(st, m, _) => AfterReply(OnUnsubscriptionReply(c, st, m))
    case VarUpdate(m, value) => OnVariableUpdate(c, m, value)
    case _ => OnError(c, true)
  }

  /** An error raised by a reply handler disconnects. */
  function AfterReply(h: Handled): Client {
    if h.raised then OnError(h.client, true) else h.client
  }

  /** The new state and the messages sent. */
  ghost function Next(c: Client, e: Event): (Client, seq<Message>) {
    match e
    case Subscribe(v, handler) => OnSubscriptionRequested(c, v, handler)
    case Unsubscribe(id) => OnUnsubscriptionRequested(c, id)
    case Update(id, value) => OnVariableUpdateRequested(c, id, value)
    case Receive(msg) => if c.connected then (OnMessage(c, msg), []) else (c, [])
    case ReceivePart => (c, [])
    case ReceiveGarbled => if c.connected then (OnError(c, true), []) else (c, [])
    case ServerClosed => (c.(connected := false), [])
    case ConnectionReset => if c.connected then (OnError(c, true), []) else (c, [])
    case SendFailed => (OnError(c, false), [])
  }

  ghost function Run(events: seq<Event>): Client
    decreases |events|
  {
    if events == [] then START
    else Next(Run(events[..|events| - 1]), events[|events| - 1]).0
  }

  // ----- the database

  /** Ids come from the counter; each is listed once; and no two variables share a master. */
  ghost predicate IdsOk(db: Db, next: SubsId) {
    && (forall v, i, id: SubsId :: Listed(db, v, i, id) ==> id < next)
    && (forall v, w, i, j, id: SubsId :: Listed(db, v, i, id) && Listed(db, w, j, id) ==> v == w && i == j)
    && (forall v, w :: v in db && w in db && db[v].master == db[w].master ==> v == w)
  }

  ghost predicate DbOk(db: Db, next: SubsId) {
    (forall v :: v in db ==> db[v].virtuals != []) && IdsOk(db, next)
  }

  /** Removing one of several elements with distinct ids closes the gap and keeps the order. */
  lemma {:induction false} WithoutOne(s: seq<Virtual>, k: nat)
    requires k < |s|
    requires forall i, j :: 0 <= i < j < |s| ==> s[i].id != s[j].id
    ensures Without(s, s[k].id) == s[..k] + s[k + 1..]
  {
    if k == 0 {
      WithoutNone(s[1..], s[0].id);
    } else {
      WithoutOne(s[1..], k - 1);
      assert s[..k] + s[k + 1..] == [s[0]] + (s[1..][..k - 1] + s[1..][k..]);
    }
  }

  lemma {:induction false} WithoutNone(s: seq<Virtual>, id: SubsId)
    requires forall i :: 0 <= i < |s| ==> s[i].id != id
    ensures Without(s, id) == s
  {
    if s != [] {
      WithoutNone(s[1..], id);
    }
  }

  /** Under DbOk a virtual id names at most one variable, so OwnerOf has no choice. */
  lemma OwnerIs(db: Db, next: SubsId, v: VarId, i: nat, id: SubsId)
    requires DbOk(db, next) && Listed(db, v, i, id)
    ensures OwnerOf(db, id) == Some(v)
  {
  }

  lemma AddKeepsDb(db: Db, v: VarId, next: SubsId, handler: Handler)
    requires DbOk(db, next) && v in db
    ensures DbOk(AddVirtual(db, v, Virtual(next, handler)), next + 1)
  {
    AppendKeepsDb(db, db, v, db[v], next, handler);
  }

  lemma CreateKeepsDb(db: Db, v: VarId, m: SubsId, next: SubsId, handler: Handler)
    requires DbOk(db, next) && v !in db && !MasterDefined(db, m)
    ensures DbOk(AddVirtual(db[v := Entry(m, [])], v, Virtual(next, handler)), next + 1)
  {
    AppendKeepsDb(db, db[v := Entry(m, [])], v, Entry(m, []), next, handler);
  }

  lemma AppendKeepsDb(was: Db, db: Db, v: VarId, e: Entry, next: SubsId, handler: Handler)
    requires DbOk(was, next) && db == was[v := e]
    requires if v in was then e == was[v] else e.virtuals == [] && !MasterDefined(was, e.master)
    ensures DbOk(AddVirtual(db, v, Virtual(next, handler)), next + 1)
  {
    var d := AddVirtual(db, v, Virtual(next, handler));
    forall w, i, id | Listed(d, w, i, id)
      ensures (w == v && i == |e.virtuals| && id == next) || Listed(was, w, i, id)
    {
    }
  }

  lemma RemoveKeepsDb(db: Db, v: VarId, k: nat, next: SubsId, id: SubsId)
    requires DbOk(db, next) && Listed(db, v, k, id)
    ensures DbOk(RemoveVirtual(db, v, id), next)
    ensures v in RemoveVirtual(db, v, id) <==> |db[v].virtuals| > 1
  {
    RemoveAt(db, v, k, next, id);
    var d := RemoveVirtual(db, v, id);
    forall w, i, x | Listed(d, w, i, x) ensures Listed(db, w, if w == v && i >= k then i + 1 else i, x) {
    }
    assert forall w :: w in d ==> w in db && d[w].master == db[w].master;
  }

  lemma RemoveAt(db: Db, v: VarId, k: nat, next: SubsId, id: SubsId)
    requires IdsOk(db, next) && Listed(db, v, k, id)
    ensures var rest := db[v].virtuals[..k] + db[v].virtuals[k + 1..];
            && Without(db[v].virtuals, id) == rest
            && RemoveVirtual(db, v, id) == if rest == [] then db - {v} else db[v := Entry(db[v].master, rest)]
  {
    var s := db[v].virtuals;
    forall i, j | 0 <= i < j < |s| ensures s[i].id != s[j].id {
      assert Listed(db, v, i, s[i].id) && Listed(db, v, j, s[j].id);
    }
    WithoutOne(s, k);
  }

  // ----- the requests

  /** The requests issued so far. */
  function Issued(n: nat): (ids: set<ReqId>)
    ensures forall r: ReqId :: r in ids <==> r < n
  {
    if n == 0 then {} else Issued(n - 1) + {n - 1}
  }

  ghost predicate UniqueSubs(pool: map<VarId, seq<SubRequest>>) {
    && (forall v, i :: v in pool && 0 <= i < |pool[v]| ==> pool[v][i].v == v)
    && (forall v, w, i, j ::
          v in pool && w in pool && 0 <= i < |pool[v]| && 0 <= j < |pool[w]| &&
          pool[v][i].id == pool[w][j].id
          ==> v == w && i == j)
  }

  ghost predicate UniqueUnsubs(pool: map<SubsId, seq<UnsubRequest>>) {
    && (forall m, i :: m in pool && 0 <= i < |pool[m]| ==> pool[m][i].master == m)
    && (forall m, n, i, j ::
          m in pool && n in pool && 0 <= i < |pool[m]| && 0 <= j < |pool[n]| &&
          pool[m][i].id == pool[n][j].id
          ==> m == n && i == j)
  }

  /** The requests below n are divided among the pool, where each is listed once under its own
      variable or master subscription, the completed ones, the dropped ones and `loose`. */
  ghost predicate Divided(subs: map<VarId, seq<SubRequest>>, unsubs: map<SubsId, seq<UnsubRequest>>,
                          completed: set<ReqId>, dropped: set<ReqId>, loose: set<ReqId>, n: ReqId)
  {
    && UniqueSubs(subs)
    && UniqueUnsubs(unsubs)
    && SubIds(subs) !! UnsubIds(unsubs) !! completed !! dropped !! loose
    && SubIds(subs) + UnsubIds(unsubs) + completed + dropped + loose == Issued(n)
  }

  /** The requests `loose` are being handled; all others are pooled, completed or dropped; and no
      promise was set twice. */
  ghost predicate Popped(c: Client, loose: set<ReqId>) {
    !c.crashed && Divided(c.subs, c.unsubs, c.promises.Keys, c.dropped, loose, c.nextReq)
  }

  ghost predicate Accounted(c: Client) {
    Popped(c, {})
  }

  ghost predicate ClientOk(c: Client) {
    Accounted(c) && DbOk(c.db, c.nextVirtual)
  }

  ghost predicate DistinctSubs(reqs: seq<SubRequest>) {
    forall i, j :: 0 <= i < j < |reqs| ==> reqs[i].id != reqs[j].id
  }

  ghost predicate DistinctUnsubs(reqs: seq<UnsubRequest>) {
    forall i, j :: 0 <= i < j < |reqs| ==> reqs[i].id != reqs[j].id
  }

  lemma TailOfSubs(reqs: seq<SubRequest>)
    requires reqs != [] && DistinctSubs(reqs)
    ensures reqs[0].id in IdsOfSubs(reqs)
    ensures IdsOfSubs(reqs[1..]) == IdsOfSubs(reqs) - {reqs[0].id}
    ensures DistinctSubs(reqs[1..])
  {
    forall r | r in IdsOfSubs(reqs) - {reqs[0].id} ensures r in IdsOfSubs(reqs[1..]) {
      var i :| 0 <= i < |reqs| && reqs[i].id == r;
      assert reqs[1..][i - 1].id == r;
    }
  }

  lemma TailOfUnsubs(reqs: seq<UnsubRequest>)
    requires reqs != [] && DistinctUnsubs(reqs)
    ensures reqs[0].id in IdsOfUnsubs(reqs)
    ensures IdsOfUnsubs(reqs[1..]) == IdsOfUnsubs(reqs) - {reqs[0].id}
    ensures DistinctUnsubs(reqs[1..])
  {
    forall r | r in IdsOfUnsubs(reqs) - {reqs[0].id} ensures r in IdsOfUnsubs(reqs[1..]) {
      var i :| 0 <= i < |reqs| && reqs[i].id == r;
      assert reqs[1..][i - 1].id == r;
    }
  }

  lemma CompleteOne(c: Client, ids: set<ReqId>, r: ReqId, outcome: Outcome)
    requires Popped(c, ids) && r in ids
    ensures Popped(Complete(c, r, outcome), ids - {r})
  {
  }

  lemma CompleteLast(c: Client, r: ReqId, outcome: Outcome)
    requires Popped(c, {r})
    ensures Accounted(Complete(c, r, outcome))
  {
    CompleteOne(c, {r}, r, outcome);
    assert {r} - {r} == {};
  }

  lemma {:induction false} CompleteSubsSettles(c: Client, reqs: seq<SubRequest>, outcome: Outcome)
    requires Popped(c, IdsOfSubs(reqs)) && DistinctSubs(reqs)
    ensures Accounted(CompleteSubs(c, reqs, outcome))
    ensures CompleteSubs(c, reqs, outcome) == c.(promises := CompleteSubs(c, reqs, outcome).promises)
    decreases |reqs|
  {
    hide Divided;
    if reqs == [] {
      assert IdsOfSubs(reqs) == {};
    } else {
      TailOfSubs(reqs);
      CompleteOne(c, IdsOfSubs(reqs), reqs[0].id, outcome);
      CompleteSubsSettles(Complete(c, reqs[0].id, outcome), reqs[1..], outcome);
    }
  }

  lemma {:induction false} CompleteUnsubsSettles(c: Client, reqs: seq<UnsubRequest>, outcome: Outcome)
    requires Popped(c, IdsOfUnsubs(reqs)) && DistinctUnsubs(reqs)
    ensures Accounted(CompleteUnsubs(c, reqs, outcome))
    ensures CompleteUnsubs(c, reqs, outcome) == c.(promises := CompleteUnsubs(c, reqs, outcome).promises)
    decreases |reqs|
  {
    hide Divided;
    if reqs == [] {
      assert IdsOfUnsubs(reqs) == {};
    } else {
      TailOfUnsubs(reqs);
      CompleteOne(c, IdsOfUnsubs(reqs), reqs[0].id, outcome);
      CompleteUnsubsSettles(Complete(c, reqs[0].id, outcome), reqs[1..], outcome);
    }
  }

  lemma {:induction false} GrantAllSettles(c: Client, v: VarId, m: SubsId, reqs: seq<SubRequest>)
    requires Popped(c, IdsOfSubs(reqs)) && DistinctSubs(reqs) && DbOk(c.db, c.nextVirtual)
    ensures ClientOk(GrantAll(c, v, m, reqs).client)
    decreases |reqs|
  {
    hide Divided, DbOk;
    if reqs == [] {
      assert IdsOfSubs(reqs) == {};
    } else {
      TailOfSubs(reqs);
      if v in c.db {
        AddKeepsDb(c.db, v, c.nextVirtual, reqs[0].handler);
        GrantStep(c, v, IdsOfSubs(reqs), reqs[0]);
        GrantAllSettles(Grant(c, v, reqs[0].id, reqs[0].handler), v, m, reqs[1..]);
      } else if !MasterDefined(c.db, m) {
        CreateKeepsDb(c.db, v, m, c.nextVirtual, reqs[0].handler);
        var created := c.(db := c.db[v := Entry(m, [])]);
        GrantStep(created, v, IdsOfSubs(reqs), reqs[0]);
        GrantAllSettles(Grant(created, v, reqs[0].id, reqs[0].handler), v, m, reqs[1..]);
      } else {
        DropAll(c, IdsOfSubs(reqs));
      }
    }
  }

  lemma GrantStep(c: Client, v: VarId, ids: set<ReqId>, req: SubRequest)
    requires Popped(c, ids) && req.id in ids && v in c.db
    ensures Popped(Grant(c, v, req.id, req.handler), ids - {req.id})
    ensures var g := Grant(c, v, req.id, req.handler);
            g.db == AddVirtual(c.db, v, Virtual(c.nextVirtual, req.handler)) && g.nextVirtual == c.nextVirtual + 1
  {
  }

  lemma PopSubs(c: Client, v: VarId)
    requires Accounted(c)
    ensures var reqs := PendingSubs(c.subs, v);
            DistinctSubs(reqs) && Popped(c.(subs := c.subs[v := []]), IdsOfSubs(reqs))
  {
    var reqs := PendingSubs(c.subs, v);
    var rest := c.subs[v := []];
    forall r | r in SubIds(c.subs) && r !in IdsOfSubs(reqs) ensures r in SubIds(rest) {
      var w, i :| w in c.subs && 0 <= i < |c.subs[w]| && c.subs[w][i].id == r;
      assert rest[w][i].id == r;
    }
    forall r | r in IdsOfSubs(reqs) ensures r in SubIds(c.subs) {
      var i :| 0 <= i < |reqs| && reqs[i].id == r;
      assert c.subs[v][i].id == r;
    }
    assert SubIds(c.subs) == SubIds(rest) + IdsOfSubs(reqs);
  }

  lemma PopUnsubs(c: Client, m: SubsId)
    requires Accounted(c)
    ensures var reqs := PendingUnsubs(c.unsubs, m);
            DistinctUnsubs(reqs) && Popped(c.(unsubs := c.unsubs[m := []]), IdsOfUnsubs(reqs))
  {
    var reqs := PendingUnsubs(c.unsubs, m);
    var rest := c.unsubs[m := []];
    forall r | r in UnsubIds(c.unsubs) && r !in IdsOfUnsubs(reqs) ensures r in UnsubIds(rest) {
      var w, i :| w in c.unsubs && 0 <= i < |c.unsubs[w]| && c.unsubs[w][i].id == r;
      assert rest[w][i].id == r;
    }
    forall r | r in IdsOfUnsubs(reqs) ensures r in UnsubIds(c.unsubs) {
      var i :| 0 <= i < |reqs| && reqs[i].id == r;
      assert c.unsubs[m][i].id == r;
    }
    assert UnsubIds(c.unsubs) == UnsubIds(rest) + IdsOfUnsubs(reqs);
  }

  /** A request that has just been made is not in any place yet. */
  lemma TakeNumber(c: Client)
    requires Accounted(c)
    ensures Popped(c.(nextReq := c.nextReq + 1), {c.nextReq})
  {
    assert Issued(c.nextReq + 1) == Issued(c.nextReq) + {c.nextReq};
  }

  lemma PoolSub(c: Client, req: SubRequest)
    requires Popped(c, {req.id})
    ensures Accounted(c.(subs := c.subs[req.v := PendingSubs(c.subs, req.v) + [req]]))
  {
    var was := PendingSubs(c.subs, req.v);
    var pool := c.subs[req.v := was + [req]];
    assert pool[req.v][|was|] == req;
    forall r | r in SubIds(c.subs) ensures r in SubIds(pool) {
      var w, i :| w in c.subs && 0 <= i < |c.subs[w]| && c.subs[w][i].id == r;
      assert pool[w][i].id == r;
    }
    forall v, i | v in pool && 0 <= i < |pool[v]|
      ensures (v == req.v && i == |was|) || (v in c.subs && i < |c.subs[v]| && pool[v][i] == c.subs[v][i])
    {
    }
    assert SubIds(pool) == SubIds(c.subs) + {req.id};
  }

  lemma PoolUnsub(c: Client, req: UnsubRequest)
    requires Popped(c, {req.id})
    ensures Accounted(c.(unsubs := c.unsubs[req.master := PendingUnsubs(c.unsubs, req.master) + [req]]))
  {
    var was := PendingUnsubs(c.unsubs, req.master);
    var pool := c.unsubs[req.master := was + [req]];
    assert pool[req.master][|was|] == req;
    forall r | r in UnsubIds(c.unsubs) ensures r in UnsubIds(pool) {
      var w, i :| w in c.unsubs && 0 <= i < |c.unsubs[w]| && c.unsubs[w][i].id == r;
      assert pool[w][i].id == r;
    }
    forall m, i | m in pool && 0 <= i < |pool[m]|
      ensures (m == req.master && i == |was|) || (m in c.unsubs && i < |c.unsubs[m]| && pool[m][i] == c.unsubs[m][i])
    {
    }
    assert UnsubIds(pool) == UnsubIds(c.unsubs) + {req.id};
  }

  lemma EmptyPoolDivided(subs: map<VarId, seq<SubRequest>>, unsubs: map<SubsId, seq<UnsubRequest>>,
                         completed: set<ReqId>, dropped: set<ReqId>, n: ReqId)
    requires Divided(subs, unsubs, completed, dropped, {}, n)
    ensures Divided(map[], map[], completed + SubIds(subs) + UnsubIds(unsubs), dropped, {}, n)
  {
  }

  lemma PropagateSettles(c: Client)
    requires Accounted(c)
    ensures var d := PropagateError(c);
            Accounted(d) && d.promises.Keys == c.promises.Keys + SubIds(c.subs) + UnsubIds(c.unsubs)
  {
    EmptyPoolDivided(c.subs, c.unsubs, c.promises.Keys, c.dropped, c.nextReq);
    assert PropagateError(c).promises.Keys == c.promises.Keys + SubIds(c.subs) + UnsubIds(c.unsubs);
  }

  /** A disconnecting error completes every pooled request and empties the pool; requests completed
      before keep their outcome. */
  lemma DisconnectSettles(c: Client)
    requires ClientOk(c)
    ensures var d := OnError(c, true);
            && ClientOk(d) && !d.connected && d.subs == map[] && d.unsubs == map[]
            && d.promises.Keys == c.promises.Keys + SubIds(c.subs) + UnsubIds(c.unsubs)
            && forall r :: r in d.promises ==>
                 d.promises[r] == if r in c.promises then c.promises[r] else CommunicationError
  {
    hide Divided, DbOk;
    PropagateSettles(c.(errors := c.errors + 1));
    assert Accounted(OnError(c, true));
  }

  lemma DropAll(c: Client, ids: set<ReqId>)
    requires Popped(c, ids)
    ensures Accounted(c.(dropped := c.dropped + ids))
  {
  }

  lemma SubscriptionReplyKeepsOk(c: Client, st: Status, v: VarId, m: SubsId)
    requires ClientOk(c)
    ensures ClientOk(OnSubscriptionReply(c, st, v, m).client)
  {
    hide Divided, DbOk;
    var reqs := PendingSubs(c.subs, v);
    var popped := c.(subs := c.subs[v := []]);
    PopSubs(c, v);
    if reqs == [] {
      assert IdsOfSubs(reqs) == {};
    } else if st == NoSuchVar {
      CompleteSubsSettles(popped, reqs, NoSuchVariableError(v));
    } else if st == Subscribed {
      GrantAllSettles(popped, v, m, reqs);
    } else {
      DropAll(popped, IdsOfSubs(reqs));
    }
  }

  lemma UnsubscriptionReplyKeepsOk(c: Client, st: Status, m: SubsId)
    requires ClientOk(c)
    ensures ClientOk(OnUnsubscriptionReply(c, st, m).client)
  {
    hide Divided, DbOk;
    var reqs := PendingUnsubs(c.unsubs, m);
    var popped := c.(unsubs := c.unsubs[m := []]);
    PopUnsubs(c, m);
    if reqs == [] {
      assert IdsOfUnsubs(reqs) == {};
    } else if st == NoSuchSubscription {
      CompleteUnsubsSettles(popped, reqs, NoSuchSubscriptionError(m));
    } else if st == Unsubscribed {
      CompleteUnsubsSettles(popped, reqs, Finished);
    } else {
      DropAll(popped, IdsOfUnsubs(reqs));
    }
  }

  lemma MessageKeepsOk(c: Client, msg: Message)
    requires ClientOk(c)
    ensures ClientOk(OnMessage(c, msg))
  {
    hide Divided, DbOk, OnSubscriptionReply, OnUnsubscriptionReply;
    match msg
    case SubscriptionReply(st, v, m, _) =>
      SubscriptionReplyKeepsOk(c, st, v, m);
      DisconnectSettles(OnSubscriptionReply(c, st, v, m).client);
    case UnsubscriptionReply(st, m, _) =>
      UnsubscriptionReplyKeepsOk(c, st, m);
      DisconnectSettles(OnUnsubscriptionReply(c, st, m).client);
    case VarUpdate(m, value) =>
    case _ =>
      DisconnectSettles(c);
  }

  lemma SubscribeKeepsOk(c: Client, v: VarId, handler: Handler)
    requires ClientOk(c)
    ensures ClientOk(OnSubscriptionRequested(c, v, handler).0)
  {
    hide Divided, DbOk;
    var taken := c.(nextReq := c.nextReq + 1);
    var req := SubRequest(c.nextReq, v, handler);
    TakeNumber(c);
    if v in c.db {
      AddKeepsDb(c.db, v, c.nextVirtual, handler);
      GrantStep(taken, v, {req.id}, req);
      assert {req.id} - {req.id} == {};
    } else {
      PoolSub(taken, req);
    }
  }

  lemma UnsubscribeKeepsOk(c: Client, id: SubsId)
    requires ClientOk(c)
    ensures ClientOk(OnUnsubscriptionRequested(c, id).0)
  {
    hide Divided, DbOk;
    var r := c.nextReq;
    var taken := c.(nextReq := r + 1);
    TakeNumber(c);
    match OwnerOf(c.db, id)
    case None =>
      CompleteLast(taken, r, NoSuchSubscriptionError(id));
    case Some(v) =>
      var k :| Listed(c.db, v, k, id);
      RemoveKeepsDb(c.db, v, k, c.nextVirtual, id);
      var removed := taken.(db := RemoveVirtual(c.db, v, id));
      if v !in removed.db {
        PoolUnsub(removed, UnsubRequest(r, id, c.db[v].master));
      } else {
        CompleteLast(removed, r, Finished);
      }
  }

  lemma UpdateKeepsOk(c: Client, id: SubsId, value: Value)
    requires ClientOk(c)
    ensures ClientOk(OnVariableUpdateRequested(c, id, value).0)
  {
    hide Divided, DbOk;
    var r := c.nextReq;
    TakeNumber(c);
    var outcome := if OwnerOf(c.db, id).None? then NoSuchSubscriptionError(id) else Finished;
    CompleteLast(c.(nextReq := r + 1), r, outcome);
  }

  lemma Unconnected(c: Client)
    requires ClientOk(c)
    ensures ClientOk(c.(connected := false))
  {
  }

  lemma Reported(c: Client)
    requires ClientOk(c)
    ensures ClientOk(OnError(c, false))
  {
  }

  lemma StepKeepsOk(c: Client, e: Event)
    requires ClientOk(c)
    ensures ClientOk(Next(c, e).0)
  {
    hide ClientOk;
    match e
    case Subscribe(v, handler) =>
      SubscribeKeepsOk(c, v, handler);
    case Unsubscribe(id) =>
      UnsubscribeKeepsOk(c, id);
    case Update(id, value) =>
      UpdateKeepsOk(c, id, value);
    case Receive(msg) =>
      MessageKeepsOk(c, msg);
    case ReceivePart =>
    case ReceiveGarbled =>
      DisconnectSettles(c);
    case ServerClosed =>
      assert ClientOk(c.(connected := false)) by { Unconnected(c); }
    case ConnectionReset =>
      DisconnectSettles(c);
    case SendFailed =>
      assert ClientOk(OnError(c, false)) by { Reported(c); }
  }

  /** After any sequence of callbacks, with any messages from the server: the database is well
      formed, no promise was set twice and each request is in exactly one place. */
  lemma {:induction false} RequestsAreAccounted(events: seq<Event>)
    ensures ClientOk(Run(events))
    decreases |events|
  {
    if events == [] {
      assert Issued(0) == {};
    } else {
      RequestsAreAccounted(events[..|events| - 1]);
      StepKeepsOk(Run(events[..|events| - 1]), events[|events| - 1]);
    }
  }

  // ----- the last one out

  /** The virtual subscriptions that share a master subscription. */
  ghost function LiveIds(db: Db, m: SubsId): set<SubsId> {
    set v, i | v in db && db[v].master == m && 0 <= i < |db[v].virtuals| :: db[v].virtuals[i].id
  }

  lemma Lives(db: Db, m: SubsId, v: VarId, i: nat, id: SubsId)
    requires Listed(db, v, i, id) && db[v].master == m
    ensures id in LiveIds(db, m)
  {
  }

  lemma WhereLives(db: Db, m: SubsId, id: SubsId) returns (v: VarId, i: nat)
    requires id in LiveIds(db, m)
    ensures Listed(db, v, i, id) && db[v].master == m
  {
    v, i :| v in db && db[v].master == m && 0 <= i < |db[v].virtuals| && db[v].virtuals[i].id == id;
  }

  lemma RemovedId(db: Db, next: SubsId, v: VarId, k: nat, id: SubsId, m: SubsId)
    requires DbOk(db, next) && Listed(db, v, k, id)
    ensures LiveIds(RemoveVirtual(db, v, id), m) == LiveIds(db, m) - {id}
  {
    RemoveAt(db, v, k, next, id);
    var d := RemoveVirtual(db, v, id);
    forall x | x in LiveIds(db, m) - {id} ensures x in LiveIds(d, m) {
      var w, i := WhereLives(db, m, x);
      Lives(d, m, w, if w == v && i > k then i - 1 else i, x);
    }
    forall x | x in LiveIds(d, m) ensures x in LiveIds(db, m) - {id} {
      var w, i := WhereLives(d, m, x);
      assert Listed(db, w, if w == v && i >= k then i + 1 else i, x);
      Lives(db, m, w, if w == v && i >= k then i + 1 else i, x);
    }
  }

  lemma LiveIdsGrow(db: Db, v: VarId, virt: Virtual, m: SubsId)
    requires v in db
    ensures LiveIds(db, m) <= LiveIds(AddVirtual(db, v, virt), m)
  {
    forall x | x in LiveIds(db, m) ensures x in LiveIds(AddVirtual(db, v, virt), m) {
      var w, i := WhereLives(db, m, x);
      Lives(AddVirtual(db, v, virt), m, w, i, x);
    }
  }

  lemma {:induction false} GrantAllKeepsLive(c: Client, v: VarId, m: SubsId, reqs: seq<SubRequest>, n: SubsId)
    ensures LiveIds(c.db, n) <= LiveIds(GrantAll(c, v, m, reqs).client.db, n)
    decreases |reqs|
  {
    hide LiveIds;
    if reqs != [] && (v in c.db || !MasterDefined(c.db, m)) {
      var d := if v in c.db then c else c.(db := c.db[v := Entry(m, [])]);
      forall x | x in LiveIds(c.db, n) ensures x in LiveIds(d.db, n) {
        var w, i := WhereLives(c.db, n, x);
        Lives(d.db, n, w, i, x);
      }
      LiveIdsGrow(d.db, v, Virtual(d.nextVirtual, reqs[0].handler), n);
      GrantAllKeepsLive(Grant(d, v, reqs[0].id, reqs[0].handler), v, m, reqs[1..], n);
    }
  }

  lemma {:induction false} CompleteKeepsDb(c: Client, reqs: seq<SubRequest>, outcome: Outcome)
    ensures CompleteSubs(c, reqs, outcome).db == c.db
    decreases |reqs|
  {
    if reqs != [] {
      CompleteKeepsDb(Complete(c, reqs[0].id, outcome), reqs[1..], outcome);
    }
  }

  lemma {:induction false} CompleteUnsubsKeepsDb(c: Client, reqs: seq<UnsubRequest>, outcome: Outcome)
    ensures CompleteUnsubs(c, reqs, outcome).db == c.db
    decreases |reqs|
  {
    if reqs != [] {
      CompleteUnsubsKeepsDb(Complete(c, reqs[0].id, outcome), reqs[1..], outcome);
    }
  }

  lemma ReplyKeepsLive(c: Client, st: Status, v: VarId, n: SubsId, m: SubsId)
    ensures LiveIds(c.db, m) <= LiveIds(OnSubscriptionReply(c, st, v, n).client.db, m)
  {
    var reqs := PendingSubs(c.subs, v);
    var popped := c.(subs := c.subs[v := []]);
    if st == NoSuchVar {
      CompleteKeepsDb(popped, reqs, NoSuchVariableError(v));
    } else if st == Subscribed {
      GrantAllKeepsLive(popped, v, n, reqs, m);
    }
  }

  lemma UnsubReplyKeepsDb(c: Client, st: Status, n: SubsId)
    ensures OnUnsubscriptionReply(c, st, n).client.db == c.db
  {
    var reqs := PendingUnsubs(c.unsubs, n);
    var popped := c.(unsubs := c.unsubs[n := []]);
    if st == NoSuchSubscription {
      CompleteUnsubsKeepsDb(popped, reqs, NoSuchSubscriptionError(n));
    } else if st == Unsubscribed {
      CompleteUnsubsKeepsDb(popped, reqs, Finished);
    }
  }

  lemma MessageKeepsLive(c: Client, msg: Message, m: SubsId)
    ensures LiveIds(c.db, m) <= LiveIds(OnMessage(c, msg).db, m)
  {
    match msg
    case SubscriptionReply(st, v, n, _) =>
      ReplyKeepsLive(c, st, v, n, m);
    case UnsubscriptionReply(st, n, _) =>
      UnsubReplyKeepsDb(c, st, n);
    case _ =>
  }

  lemma UnsubscribeSends(c: Client, id: SubsId, m: SubsId)
    requires DbOk(c.db, c.nextVirtual)
    ensures var (d, out) := OnUnsubscriptionRequested(c, id);
            UnsubscriptionRequest(m) in out <==> LiveIds(c.db, m) != {} && LiveIds(d.db, m) == {}
  {
    hide DbOk;
    match OwnerOf(c.db, id)
    case None =>
    case Some(v) =>
      var k :| Listed(c.db, v, k, id);
      RemovedId(c.db, c.nextVirtual, v, k, id, m);
      WhoLives(c.db, c.nextVirtual, v, k, id, m);
  }

  /** In every run, a callback sends the unsubscription of a master subscription exactly when it
      takes the number of its virtual subscriptions to zero. */
  lemma {:induction false} LastOneOut(events: seq<Event>, e: Event, m: SubsId)
    ensures var c := Run(events);
            var (d, out) := Next(c, e);
            UnsubscriptionRequest(m) in out <==> LiveIds(c.db, m) != {} && LiveIds(d.db, m) == {}
  {
    hide Divided, DbOk, LiveIds;
    var c := Run(events);
    RequestsAreAccounted(events);
    match e
    case Unsubscribe(id) =>
      UnsubscribeSends(c, id, m);
    case Subscribe(v, handler) =>
      OutputBuffers.WrittenOne(SubscriptionRequest(v));
      if v in c.db {
        LiveIdsGrow(c.db, v, Virtual(c.nextVirtual, handler), m);
      }
    case Receive(msg) =>
      MessageKeepsLive(c, msg, m);
    case _ =>
  }

  lemma WhoLives(db: Db, next: SubsId, v: VarId, k: nat, id: SubsId, m: SubsId)
    requires DbOk(db, next) && Listed(db, v, k, id)
    ensures db[v].master == m <==> id in LiveIds(db, m)
    ensures db[v].master == m ==> (LiveIds(db, m) == {id} <==> v !in RemoveVirtual(db, v, id))
  {
    RemoveKeepsDb(db, v, k, next, id);
    if db[v].master == m {
      Lives(db, m, v, k, id);
      if |db[v].virtuals| > 1 {
        var j := if k == 0 then 1 else 0;
        var other := db[v].virtuals[j].id;
        assert Listed(db, v, j, other);
        Lives(db, m, v, j, other);
      }
    }
    if id in LiveIds(db, m) {
      var w, i := WhereLives(db, m, id);
    }
    forall x | db[v].master == m && x in LiveIds(db, m) ensures |db[v].virtuals| == 1 ==> x == id {
      var w, i := WhereLives(db, m, x);
    }
  }

  /** An unsubscription that is not the last one is completed at once and nothing is sent. */
  lemma OthersCompleteLocally(events: seq<Event>, id: SubsId, m: SubsId)
    requires id in LiveIds(Run(events).db, m) && LiveIds(Run(events).db, m) != {id}
    ensures var c := Run(events);
            var (d, out) := Next(c, Unsubscribe(id));
            && out == []
            && c.nextReq !in c.promises && d.promises == c.promises[c.nextReq := Finished]
            && LiveIds(d.db, m) == LiveIds(c.db, m) - {id}
  {
    var c := Run(events);
    RequestsAreAccounted(events);
    var v, k := WhereLives(c.db, m, id);
    OwnerIs(c.db, c.nextVirtual, v, k, id);
    RemovedId(c.db, c.nextVirtual, v, k, id, m);
    WhoLives(c.db, c.nextVirtual, v, k, id, m);
  }
}

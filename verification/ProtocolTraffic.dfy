/** How the messages in flight are counted and ordered, and what each step does to both. */
module ProtocolTraffic {
  import opened FlightVarTypes
  import C = ClientModel
  import S = ServerModel
  import SR = ServerRuns
  import opened OutputBuffers
  import opened Protocol
  import opened ProtocolInvariant

  type Vars = multiset<VarId>

  lemma NoneOf(q: seq<Message>, t: Tag)
    requires Count(q, t) == 0
    ensures q != [] ==> !Is(q[0], t)
  {
  }

  lemma BehindGrows(q: seq<Message>, msg: Message)
    ensures forall a, b :: Behind(q + [msg], a, b) == Behind(q, a, b) + if Count(q, a) > 0 then One(msg, b) else 0
  {
    forall a, b ensures Behind(q + [msg], a, b) == Behind(q, a, b) + if Count(q, a) > 0 then One(msg, b) else 0 {
      BehindAppend(q, msg, a, b);
    }
  }

  /** What is behind the unsubscription at the head. */
  lemma BehindHead(up: seq<Message>)
    requires up != [] && up[0].UnsubscriptionRequest?
    ensures forall w :: Behind(up, UnsubReq(up[0].id), SubReq(w)) == Count(up[1..], SubReq(w))
    ensures forall m, w :: m != up[0].id ==>
              Behind(up, UnsubReq(m), SubReq(w)) == Behind(up[1..], UnsubReq(m), SubReq(w))
  {
  }

  // ----- messages that are not counted

  lemma QuietFlow(subs: SubPool, unsubs: UnsubPool, up: seq<Message>, down: seq<Message>, wire: seq<Message>,
                  repeated: Vars, lost: Vars, up': seq<Message>, down': seq<Message>, wire': seq<Message>)
    requires Flow(subs, unsubs, up, down, wire, repeated, lost)
    requires forall t :: Count(up', t) == Count(up, t) && Count(down', t) == Count(down, t)
    requires forall t :: Count(wire', t) == Count(wire, t)
    ensures Flow(subs, unsubs, up', down', wire', repeated, lost)
  {
    hide Count;
  }

  lemma QuietOrder(mapper: Mapper, subs: SubPool, up: seq<Message>, down: seq<Message>, wire: seq<Message>,
                   repeated: Vars, lost: Vars, up': seq<Message>, down': seq<Message>, wire': seq<Message>)
    requires Order(mapper, subs, up, down, wire, repeated, lost)
    requires forall t :: Count(up', t) == Count(up, t) && Count(down', t) == Count(down, t)
    requires forall t :: Count(wire', t) == Count(wire, t)
    requires forall a, b :: Behind(up', a, b) == Behind(up, a, b)
    ensures Order(mapper, subs, up', down', wire', repeated, lost)
  {
    hide Count, Behind;
  }

  // ----- requests

  /** A request for v is made and sent, or pooled and lost. */
  lemma WaitFlow(subs: SubPool, unsubs: UnsubPool, up: seq<Message>, down: seq<Message>, wire: seq<Message>,
                 repeated: Vars, lost: Vars, v: VarId, req: C.SubRequest, fits: bool)
    requires Flow(subs, unsubs, up, down, wire, repeated, lost)
    ensures Flow(subs[v := C.PendingSubs(subs, v) + [req]], unsubs,
                 if fits then up + [SubscriptionRequest(v)] else up, down, wire,
                 if C.PendingSubs(subs, v) != [] then repeated + multiset{v} else repeated,
                 if fits then lost else lost + multiset{v})
  {
    Appended(up, SubscriptionRequest(v));
    hide Count;
  }

  lemma WaitOrder(mapper: Mapper, subs: SubPool, up: seq<Message>, down: seq<Message>, wire: seq<Message>,
                  repeated: Vars, lost: Vars, v: VarId, req: C.SubRequest, up': seq<Message>, repeated': Vars,
                      lost': Vars)
    requires Order(mapper, subs, up, down, wire, repeated, lost)
    requires up' == up + [SubscriptionRequest(v)] || up' == up
    requires repeated <= repeated' && lost <= lost'
    ensures Order(mapper, subs[v := C.PendingSubs(subs, v) + [req]], up', down, wire, repeated', lost')
  {
    var msg := SubscriptionRequest(v);
    Appended(up, msg);
    forall a, b ensures Behind(up + [msg], a, b) == Behind(up, a, b) + if Count(up, a) > 0 then One(msg, b) else 0 {
      BehindAppend(up, msg, a, b);
    }
    hide Count, Behind;
  }

  /** The last virtual subscription of v goes. */
  lemma LeaveFlow(subs: SubPool, unsubs: UnsubPool, up: seq<Message>, down: seq<Message>, wire: seq<Message>,
                  repeated: Vars, lost: Vars, m: SubsId, unsubs': UnsubPool)
    requires Flow(subs, unsubs, up, down, wire, repeated, lost)
    requires forall n :: |C.PendingUnsubs(unsubs', n)| == |C.PendingUnsubs(unsubs, n)| + if n == m then 1 else 0
    ensures Flow(subs, unsubs', up + [UnsubscriptionRequest(m)], down, wire, repeated, lost)
  {
    Appended(up, UnsubscriptionRequest(m));
    hide Count;
  }

  lemma LeaveOrder(mapper: Mapper, subs: SubPool, up: seq<Message>, down: seq<Message>, wire: seq<Message>,
                   repeated: Vars, lost: Vars, v: VarId)
    requires Order(mapper, subs, up, down, wire, repeated, lost) && Conserved(subs, up, down, repeated, lost)
    requires SR.Injective(mapper) && v in mapper && C.PendingSubs(subs, v) == []
    ensures Order(mapper, subs, up + [UnsubscriptionRequest(mapper[v])], down, wire, repeated, lost)
  {
    hide LateOk, AwaitedOk, Conserved;
    LeaveKeepsLate(mapper, subs, up, down, repeated, lost, v);
    LeaveKeepsAwaited(mapper, subs, up, down, wire, mapper[v]);
  }

  lemma LeaveKeepsLate(mapper: Mapper, subs: SubPool, up: seq<Message>, down: seq<Message>,
                       repeated: Vars, lost: Vars, v: VarId)
    requires LateOk(mapper, up, repeated) && Conserved(subs, up, down, repeated, lost)
    requires SR.Injective(mapper) && v in mapper && C.PendingSubs(subs, v) == []
    ensures LateOk(mapper, up + [UnsubscriptionRequest(mapper[v])], repeated)
  {
    BehindGrows(up, UnsubscriptionRequest(mapper[v]));
    hide Count, Behind;
    assert repeated[v] == 0 ==> Count(up, SubReq(v)) == 0;
  }

  lemma LeaveKeepsAwaited(mapper: Mapper, subs: SubPool, up: seq<Message>, down: seq<Message>, wire: seq<Message>,
                          m: SubsId)
    requires AwaitedOk(mapper, subs, up, down, wire)
    ensures AwaitedOk(mapper, subs, up + [UnsubscriptionRequest(m)], down, wire)
  {
    Appended(up, UnsubscriptionRequest(m));
    BehindGrows(up, UnsubscriptionRequest(m));
    hide Count, Behind;
  }

  // ----- requests are answered

  /** The request for v at the head of the channel is replaced by a reply about v, if that can be sent. */
  lemma AnswerFlow(subs: SubPool, unsubs: UnsubPool, up: seq<Message>, down: seq<Message>, wire: seq<Message>,
                   repeated: Vars, lost: Vars, v: VarId, reply: Message, fits: bool)
    requires Flow(subs, unsubs, up, down, wire, repeated, lost)
    requires up != [] && up[0] == SubscriptionRequest(v) && reply.SubscriptionReply? && reply.v == v
    requires reply.status != Subscribed && reply.status != NoSuchVar ==> repeated[v] > 0
    ensures Flow(subs, unsubs, up[1..], if fits then down + [reply] else down, if fits then wire + [reply] else wire,
                 repeated, if fits then lost else lost + multiset{v})
  {
    hide Count, Conserved, StatusOk, UnsubsOk;
    AnswerKeepsConserved(subs, up, down, repeated, lost, v, reply, fits);
    AnswerKeepsStatus(down, wire, repeated, v, reply, fits);
    AnswerKeepsUnsubs(unsubs, up, down, reply, fits);
  }

  lemma AnswerKeepsConserved(subs: SubPool, up: seq<Message>, down: seq<Message>, repeated: Vars, lost: Vars,
                             v: VarId, reply: Message, fits: bool)
    requires Conserved(subs, up, down, repeated, lost)
    requires up != [] && up[0] == SubscriptionRequest(v) && reply.SubscriptionReply? && reply.v == v
    ensures Conserved(subs, up[1..], if fits then down + [reply] else down, repeated,
                      if fits then lost else lost + multiset{v})
  {
    Headed(up);
    Appended(down, reply);
    hide Count;
  }

  lemma AnswerKeepsStatus(down: seq<Message>, wire: seq<Message>, repeated: Vars, v: VarId, reply: Message, fits: bool)
    requires StatusOk(down, wire, repeated) && reply.SubscriptionReply? && reply.v == v
    requires reply.status != Subscribed && reply.status != NoSuchVar ==> repeated[v] > 0
    ensures StatusOk(if fits then down + [reply] else down, if fits then wire + [reply] else wire, repeated)
  {
    Appended(down, reply);
    Appended(wire, reply);
    hide Count;
  }

  lemma AnswerKeepsUnsubs(unsubs: UnsubPool, up: seq<Message>, down: seq<Message>, reply: Message, fits: bool)
    requires UnsubsOk(unsubs, up, down) && up != [] && up[0].SubscriptionRequest? && reply.SubscriptionReply?
    ensures UnsubsOk(unsubs, up[1..], if fits then down + [reply] else down)
  {
    Headed(up);
    Appended(down, reply);
    hide Count;
  }

  lemma TailKeepsLate(mapper: Mapper, up: seq<Message>, repeated: Vars)
    requires LateOk(mapper, up, repeated) && up != []
    ensures LateOk(mapper, up[1..], repeated)
  {
    forall v | v in mapper && repeated[v] == 0 ensures Behind(up[1..], SubReq(v), UnsubReq(mapper[v])) == 0 {
      BehindBound(up[1..], SubReq(v), UnsubReq(mapper[v]));
    }
  }

  /** The requests behind an unsubscription are still behind it when another message is taken. */
  lemma TailBehind(up: seq<Message>)
    requires up != [] && !up[0].UnsubscriptionRequest?
    ensures forall m, w :: Behind(up, UnsubReq(m), SubReq(w)) == Behind(up[1..], UnsubReq(m), SubReq(w))
  {
  }

  /** A request for v is refused or rejected. */
  lemma RefuseOrder(mapper: Mapper, subs: SubPool, up: seq<Message>, down: seq<Message>, wire: seq<Message>,
                    repeated: Vars, lost: Vars, v: VarId, reply: Message, fits: bool)
    requires Order(mapper, subs, up, down, wire, repeated, lost)
    requires up != [] && up[0] == SubscriptionRequest(v)
    requires reply.SubscriptionReply? && reply.v == v && reply.status != Subscribed
    ensures Order(mapper, subs, up[1..], if fits then down + [reply] else down, if fits then wire + [reply] else wire,
                  repeated, if fits then lost else lost + multiset{v})
  {
    hide LateOk, AwaitedOk;
    TailKeepsLate(mapper, up, repeated);
    RefuseKeepsAwaited(mapper, subs, up, down, wire, v, reply, fits);
  }

  lemma RefuseKeepsAwaited(mapper: Mapper, subs: SubPool, up: seq<Message>, down: seq<Message>, wire: seq<Message>,
                           v: VarId, reply: Message, fits: bool)
    requires AwaitedOk(mapper, subs, up, down, wire)
    requires up != [] && up[0] == SubscriptionRequest(v)
    requires reply.SubscriptionReply? && reply.v == v && reply.status != Subscribed
    ensures AwaitedOk(mapper, subs, up[1..], if fits then down + [reply] else down,
                      if fits then wire + [reply] else wire)
  {
    TailBehind(up);
    Headed(up);
    hide Count, Behind;
    if fits {
      Appended(down, reply);
      Appended(wire, reply);
    }
  }

  /** A fresh id is granted to v. */
  lemma GrantOrder(mapper: Mapper, subs: SubPool, up: seq<Message>, down: seq<Message>, wire: seq<Message>,
                   repeated: Vars, lost: Vars, v: VarId, reply: Message, fits: bool)
    requires Order(mapper, subs, up, down, wire, repeated, lost)
    requires up != [] && up[0] == SubscriptionRequest(v) && v !in mapper
    requires reply.SubscriptionReply? && reply.v == v && reply.status == Subscribed
             && Count(up, UnsubReq(reply.id)) == 0
    requires Room(v) == 0 ==> !fits
    ensures Order(mapper[v := reply.id], subs, up[1..], if fits then down + [reply] else down,
                  if fits then wire + [reply] else wire, repeated, if fits then lost else lost + multiset{v})
  {
    hide LateOk, AwaitedOk;
    GrantKeepsLate(mapper, up, repeated, v, reply.id);
    GrantKeepsAwaited(mapper, subs, up, down, wire, v, reply, fits);
  }

  lemma GrantKeepsLate(mapper: Mapper, up: seq<Message>, repeated: Vars, v: VarId, m: SubsId)
    requires LateOk(mapper, up, repeated) && up != [] && Count(up, UnsubReq(m)) == 0
    ensures LateOk(mapper[v := m], up[1..], repeated)
  {
    TailKeepsLate(mapper, up, repeated);
    BehindBound(up[1..], SubReq(v), UnsubReq(m));
    Headed(up);
    hide Count, Behind;
  }

  lemma GrantKeepsAwaited(mapper: Mapper, subs: SubPool, up: seq<Message>, down: seq<Message>, wire: seq<Message>,
                          v: VarId, reply: Message, fits: bool)
    requires AwaitedOk(mapper, subs, up, down, wire)
    requires up != [] && up[0] == SubscriptionRequest(v) && v !in mapper
    requires reply.SubscriptionReply? && reply.v == v && reply.status == Subscribed
    ensures AwaitedOk(mapper[v := reply.id], subs, up[1..], if fits then down + [reply] else down,
                      if fits then wire + [reply] else wire)
  {
    TailBehind(up);
    Headed(up);
    hide Count, Behind;
    if fits {
      Appended(down, reply);
      Appended(wire, reply);
    }
  }

  /** A variable update needs no reply. */
  lemma PassFlow(subs: SubPool, unsubs: UnsubPool, up: seq<Message>, down: seq<Message>, wire: seq<Message>,
                 repeated: Vars, lost: Vars)
    requires Flow(subs, unsubs, up, down, wire, repeated, lost) && up != [] && up[0].VarUpdate?
    ensures Flow(subs, unsubs, up[1..], down, wire, repeated, lost)
  {
    Headed(up);
    hide Count;
  }

  lemma PassOrder(mapper: Mapper, subs: SubPool, up: seq<Message>, down: seq<Message>, wire: seq<Message>,
                  repeated: Vars, lost: Vars)
    requires Order(mapper, subs, up, down, wire, repeated, lost) && up != [] && up[0].VarUpdate?
    ensures Order(mapper, subs, up[1..], down, wire, repeated, lost)
  {
    TailKeepsLate(mapper, up, repeated);
    TailBehind(up);
    Headed(up);
    hide Count, Behind, LateOk;
  }

  /** The registration m is taken away. */
  lemma ReleaseFlow(subs: SubPool, unsubs: UnsubPool, up: seq<Message>, down: seq<Message>, wire: seq<Message>,
                    repeated: Vars, lost: Vars, reply: Message)
    requires Flow(subs, unsubs, up, down, wire, repeated, lost)
    requires up != [] && reply.UnsubscriptionReply? && up[0] == UnsubscriptionRequest(reply.id)
    ensures Flow(subs, unsubs, up[1..], down + [reply], wire + [reply], repeated, lost)
  {
    hide Count, Conserved, StatusOk, UnsubsOk;
    ReleaseKeepsConserved(subs, up, down, repeated, lost, reply);
    ReleaseKeepsUnsubs(unsubs, up, down, reply);
    ReleaseKeepsStatus(down, wire, repeated, reply);
  }

  lemma ReleaseKeepsConserved(subs: SubPool, up: seq<Message>, down: seq<Message>, repeated: Vars, lost: Vars,
                              reply: Message)
    requires Conserved(subs, up, down, repeated, lost)
    requires up != [] && up[0].UnsubscriptionRequest? && reply.UnsubscriptionReply?
    ensures Conserved(subs, up[1..], down + [reply], repeated, lost)
  {
    Headed(up);
    Appended(down, reply);
    hide Count;
  }

  lemma ReleaseKeepsUnsubs(unsubs: UnsubPool, up: seq<Message>, down: seq<Message>, reply: Message)
    requires UnsubsOk(unsubs, up, down)
    requires up != [] && reply.UnsubscriptionReply? && up[0] == UnsubscriptionRequest(reply.id)
    ensures UnsubsOk(unsubs, up[1..], down + [reply])
  {
    Headed(up);
    Appended(down, reply);
    hide Count;
  }

  lemma ReleaseKeepsStatus(down: seq<Message>, wire: seq<Message>, repeated: Vars, reply: Message)
    requires StatusOk(down, wire, repeated) && reply.UnsubscriptionReply?
    ensures StatusOk(down + [reply], wire + [reply], repeated)
  {
    Appended(down, reply);
    Appended(wire, reply);
    hide Count;
  }

  lemma ReleaseOrder(mapper: Mapper, subs: SubPool, up: seq<Message>, down: seq<Message>, wire: seq<Message>,
                     repeated: Vars, lost: Vars, reply: Message)
    requires Order(mapper, subs, up, down, wire, repeated, lost)
    requires up != [] && reply.UnsubscriptionReply? && up[0] == UnsubscriptionRequest(reply.id)
    ensures Order(S.Unregister(mapper, reply.id), subs, up[1..], down + [reply], wire + [reply], repeated, lost)
  {
    hide Count, Behind, LateOk, AwaitedOk;
    TailKeepsLate(mapper, up, repeated);
    UnregisterKeepsLate(mapper, up[1..], repeated, reply.id);
    ReleaseKeepsAwaited(mapper, subs, up, down, wire, reply);
  }

  lemma UnregisterKeepsLate(mapper: Mapper, up: seq<Message>, repeated: Vars, m: SubsId)
    requires LateOk(mapper, up, repeated)
    ensures LateOk(S.Unregister(mapper, m), up, repeated)
  {
    hide Behind;
  }

  lemma ReleaseKeepsAwaited(mapper: Mapper, subs: SubPool, up: seq<Message>, down: seq<Message>, wire: seq<Message>,
                            reply: Message)
    requires AwaitedOk(mapper, subs, up, down, wire)
    requires up != [] && reply.UnsubscriptionReply? && up[0] == UnsubscriptionRequest(reply.id)
    ensures AwaitedOk(S.Unregister(mapper, reply.id), subs, up[1..], down + [reply], wire + [reply])
  {
    Headed(up);
    Appended(down, reply);
    Appended(wire, reply);
    BehindHead(up);
    hide Count, Behind;
  }

  // ----- messages are delivered

  /** A message that answers no subscription is delivered. */
  lemma DropOrder(mapper: Mapper, subs: SubPool, up: seq<Message>, down: seq<Message>, wire: seq<Message>,
                  repeated: Vars, lost: Vars)
    requires Order(mapper, subs, up, down, wire, repeated, lost) && down != []
    ensures Order(mapper, subs, up, down[1..], wire, repeated, lost)
  {
    Headed(down);
    hide Count, Behind, LateOk;
  }

  lemma DropFlow(subs: SubPool, unsubs: UnsubPool, up: seq<Message>, down: seq<Message>, wire: seq<Message>,
                 repeated: Vars, lost: Vars)
    requires Flow(subs, unsubs, up, down, wire, repeated, lost) && down != [] && down[0].VarUpdate?
    ensures Flow(subs, unsubs, up, down[1..], wire, repeated, lost)
  {
    Headed(down);
    hide Count;
  }

  lemma SettleFlow(subs: SubPool, unsubs: UnsubPool, up: seq<Message>, down: seq<Message>, wire: seq<Message>,
                   repeated: Vars, lost: Vars, m: SubsId)
    requires Flow(subs, unsubs, up, down, wire, repeated, lost)
    requires down != [] && down[0].UnsubscriptionReply? && down[0].id == m
    requires Count(up, UnsubReq(m)) == 0 && Count(down, UnsubRep(m)) == 1
    ensures Flow(subs, unsubs[m := []], up, down[1..], wire, repeated, lost)
  {
    Headed(down);
    hide Count;
  }

  /** The waiting requests for v are taken from the pool together with the reply about v. */
  lemma AnsweredFlow(subs: SubPool, unsubs: UnsubPool, up: seq<Message>, down: seq<Message>, wire: seq<Message>,
                     repeated: Vars, lost: Vars)
    requires Flow(subs, unsubs, up, down, wire, repeated, lost)
    requires down != [] && down[0].SubscriptionReply? && C.PendingSubs(subs, down[0].v) != []
    requires down[0].status == Subscribed || down[0].status == NoSuchVar
    ensures Flow(subs[down[0].v := []], unsubs, up, down[1..], wire, repeated, lost)
  {
    Headed(down);
    hide Count;
  }

  lemma AnsweredOrder(mapper: Mapper, subs: SubPool, up: seq<Message>, down: seq<Message>, wire: seq<Message>,
                      repeated: Vars, lost: Vars, v: VarId)
    requires Order(mapper, subs, up, down, wire, repeated, lost) && down != []
    requires OnlyGranted(wire, v) ==> NoGrantAhead(mapper, up, down[1..], v)
    ensures Order(mapper, subs[v := []], up, down[1..], wire, repeated, lost)
  {
    Headed(down);
    hide Count, Behind, LateOk;
  }

  /** After the grant of m for v, nothing ahead leads to another one. */
  lemma LastGrant(mapper: Mapper, db: C.Db, up: seq<Message>, down: seq<Message>, v: VarId, m: SubsId, exact: bool)
    requires TokensOk(mapper, db, up, down, exact) && down != [] && Is(down[0], GrantOf(v, m))
    ensures NoGrantAhead(mapper, up, down[1..], v)
  {
    Headed(down);
    assert Count(down, GrantOf(v, m)) > 0;
    BehindBound(up, UnsubReq(m), SubReq(v));
    hide Count, Behind;
    assert Tokens(db, up, down, v, m) <= 1;
  }

  // ----- grants that are promised

  lemma QuietPromise(mapper: Mapper, subs: SubPool, up: seq<Message>, down: seq<Message>, said: seq<Message>,
                     up': seq<Message>, down': seq<Message>, said': seq<Message>)
    requires PromisedOk(mapper, subs, up, down, said)
    requires forall t :: Count(up', t) == Count(up, t) && Count(down', t) == Count(down, t)
    requires forall t :: Count(said', t) == Count(said, t)
    requires forall a, b :: Behind(up', a, b) == Behind(up, a, b)
    ensures PromisedOk(mapper, subs, up', down', said')
  {
    hide Count, Behind;
  }

  /** A new request for v is answered by the server, if not by a grant that is on its way already. */
  lemma WaitPromise(mapper: Mapper, db: C.Db, subs: SubPool, up: seq<Message>, down: seq<Message>, said: seq<Message>,
                    v: VarId, req: C.SubRequest, fits: bool)
    requires PromisedOk(mapper, subs, up, down, said) && TokensOk(mapper, db, up, down, true) && v !in db
    requires Length(v) <= LONGEST_GRANTED ==> fits
    ensures PromisedOk(mapper, subs[v := C.PendingSubs(subs, v) + [req]],
                       if fits then up + [SubscriptionRequest(v)] else up, down, said)
  {
    Appended(up, SubscriptionRequest(v));
    BehindGrows(up, SubscriptionRequest(v));
    hide Count, Behind;
    assert v in mapper ==> Tokens(db, up, down, v, mapper[v]) == Room(v);
  }

  lemma LeavePromise(mapper: Mapper, subs: SubPool, up: seq<Message>, down: seq<Message>, said: seq<Message>, m: SubsId)
    requires PromisedOk(mapper, subs, up, down, said)
    ensures PromisedOk(mapper, subs, up + [UnsubscriptionRequest(m)], down, said)
  {
    Appended(up, UnsubscriptionRequest(m));
    BehindGrows(up, UnsubscriptionRequest(m));
    hide Count, Behind;
  }

  /** A message more was said. */
  lemma SaidMore(said: seq<Message>, msg: Message)
    ensures forall v :: Count(said + [msg], Rejection(v)) == Count(said, Rejection(v)) + One(msg, Rejection(v))
  {
    forall v ensures Count(said + [msg], Rejection(v)) == Count(said, Rejection(v)) + One(msg, Rejection(v)) {
      CountAppend(said, msg, Rejection(v));
    }
  }

  lemma RefusePromise(mapper: Mapper, subs: SubPool, up: seq<Message>, down: seq<Message>, said: seq<Message>,
                      v: VarId, reply: Message, fits: bool)
    requires PromisedOk(mapper, subs, up, down, said) && up != [] && up[0] == SubscriptionRequest(v)
    requires reply.SubscriptionReply? && reply.v == v && reply.status != Subscribed
    requires v in mapper || reply.status == NoSuchVar
    ensures PromisedOk(mapper, subs, up[1..], if fits then down + [reply] else down, said + [reply])
  {
    TailBehind(up);
    Headed(up);
    Appended(down, reply);
    SaidMore(said, reply);
    hide Count, Behind;
  }

  lemma GrantPromise(mapper: Mapper, subs: SubPool, up: seq<Message>, down: seq<Message>, said: seq<Message>,
                     v: VarId, reply: Message, fits: bool)
    requires PromisedOk(mapper, subs, up, down, said) && up != [] && up[0] == SubscriptionRequest(v)
    requires reply.SubscriptionReply? && reply.v == v && reply.status == Subscribed
    requires Length(v) <= LONGEST_GRANTED ==> fits
    ensures PromisedOk(mapper[v := reply.id], subs, up[1..], if fits then down + [reply] else down, said + [reply])
  {
    TailBehind(up);
    Headed(up);
    Appended(down, reply);
    SaidMore(said, reply);
    hide Count, Behind;
  }

  lemma PassPromise(mapper: Mapper, subs: SubPool, up: seq<Message>, down: seq<Message>, said: seq<Message>)
    requires PromisedOk(mapper, subs, up, down, said) && up != [] && up[0].VarUpdate?
    ensures PromisedOk(mapper, subs, up[1..], down, said)
  {
    TailBehind(up);
    Headed(up);
    hide Count, Behind;
  }

  /** A request that waits behind the unsubscription is no longer behind it. */
  lemma ReleasePromise(mapper: Mapper, db: C.Db, subs: SubPool, up: seq<Message>, down: seq<Message>,
                       said: seq<Message>,
                       reply: Message)
    requires PromisedOk(mapper, subs, up, down, said) && TokensOk(mapper, db, up, down, true)
    requires up != [] && reply.UnsubscriptionReply? && up[0] == UnsubscriptionRequest(reply.id)
    ensures PromisedOk(S.Unregister(mapper, reply.id), subs, up[1..], down + [reply], said + [reply])
  {
    Headed(up);
    Appended(down, reply);
    SaidMore(said, reply);
    BehindHead(up);
    hide Count, Behind, TokensOk;
    OneToken(mapper, db, up, down);
  }

  /** What is being unsubscribed is not being granted. */
  lemma OneToken(mapper: Mapper, db: C.Db, up: seq<Message>, down: seq<Message>)
    requires TokensOk(mapper, db, up, down, true) && up != [] && up[0].UnsubscriptionRequest?
    ensures forall w :: w in mapper && mapper[w] == up[0].id ==> Count(down, GrantOf(w, up[0].id)) == 0
  {
    Headed(up);
    hide Count;
    forall w | w in mapper && mapper[w] == up[0].id ensures Count(down, GrantOf(w, up[0].id)) == 0 {
      assert Tokens(db, up, down, w, up[0].id) <= 1;
    }
  }

  /** A message other than a grant is delivered. */
  lemma DropPromise(mapper: Mapper, subs: SubPool, up: seq<Message>, down: seq<Message>, said: seq<Message>)
    requires PromisedOk(mapper, subs, up, down, said) && down != [] && !down[0].SubscriptionReply?
    ensures PromisedOk(mapper, subs, up, down[1..], said)
  {
    Headed(down);
    hide Count, Behind;
  }

  /** The requests for v are answered. */
  lemma AnsweredPromise(mapper: Mapper, subs: SubPool, up: seq<Message>, down: seq<Message>, said: seq<Message>)
    requires PromisedOk(mapper, subs, up, down, said) && down != [] && down[0].SubscriptionReply?
    ensures PromisedOk(mapper, subs[down[0].v := []], up, down[1..], said)
  {
    Headed(down);
    hide Count, Behind;
  }

  /** A reply to a subscription that the client does not expect means that a request was repeated and that
      the reply to it, or one before it, was one too many. */
  lemma UnexpectedMeansClash(mapper: Mapper, subs: SubPool, unsubs: UnsubPool, up: seq<Message>, down: seq<Message>,
                             wire: seq<Message>, repeated: Vars, lost: Vars)
    requires Flow(subs, unsubs, up, down, wire, repeated, lost) && Order(mapper, subs, up, down, wire, repeated, lost)
    requires down != [] && down[0].SubscriptionReply? && RejectionsOk(down)
    requires C.PendingSubs(subs, down[0].v) == [] || (down[0].status != Subscribed && down[0].status != NoSuchVar)
    ensures Clash(repeated, wire, down[0].v)
  {
    var v, status := down[0].v, down[0].status;
    UnexpectedMeansRepeated(subs, up, down, wire, repeated, lost);
    if status == Subscribed {
      GrantIsAwaited(mapper, subs, up, down, wire, v, down[0].id);
    } else if status != NoSuchVar {
      assert Count(down, OddRep(v)) > 0;
    }
    hide Count, LateOk, AwaitedOk, Conserved, UnsubsOk;
    assert down[0] in down;
  }

  lemma UnexpectedMeansRepeated(subs: SubPool, up: seq<Message>, down: seq<Message>, wire: seq<Message>,
                                repeated: Vars, lost: Vars)
    requires Conserved(subs, up, down, repeated, lost) && StatusOk(down, wire, repeated)
    requires down != [] && down[0].SubscriptionReply?
    requires C.PendingSubs(subs, down[0].v) == [] || (down[0].status != Subscribed && down[0].status != NoSuchVar)
    ensures repeated[down[0].v] > 0
  {
    Headed(down);
    hide Count;
    var v := down[0].v;
    assert Count(down, SubRep(v)) > 0;
    assert C.PendingSubs(subs, v) != [] ==> Count(down, OddRep(v)) > 0;
  }
}

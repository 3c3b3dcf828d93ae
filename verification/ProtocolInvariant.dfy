/** What every run of the client and its session keeps. */
module ProtocolInvariant {
  import opened FlightVarTypes
  import C = ClientModel
  import CR = ClientRuns
  import S = ServerModel
  import SR = ServerRuns
  import opened OutputBuffers
  import opened Protocol

  type Mapper = map<VarId, SubsId>
  type SubPool = map<VarId, seq<C.SubRequest>>
  type UnsubPool = map<SubsId, seq<C.UnsubRequest>>

  function Has(db: C.Db, v: VarId, m: SubsId): nat {
    if v in db && db[v].master == m then 1 else 0
  }

  /** Where the registration of v under m is known: a grant on its way to the client, the client's
      database, or an unsubscription on its way to the server. */
  function Tokens(db: C.Db, up: seq<Message>, down: seq<Message>, v: VarId, m: SubsId): nat {
    Count(down, GrantOf(v, m)) + Has(db, v, m) + Count(up, UnsubReq(m))
  }

  /** How many tokens a registration of v can have: none if the reply that grants it is too long. */
  function Room(v: VarId): nat {
    if Length(v) <= LONGEST_GRANTED then 1 else 0
  }

  /** Each registration of the session has at most that many tokens, exactly that many while both sides
      are connected, and no token is without its registration. */
  ghost predicate TokensOk(mapper: Mapper, db: C.Db, up: seq<Message>, down: seq<Message>, exact: bool) {
    && (forall v :: v in mapper ==> Tokens(db, up, down, v, mapper[v]) <= Room(v))
    && (exact ==> forall v :: v in mapper ==> Tokens(db, up, down, v, mapper[v]) == Room(v))
    && (forall v :: v in db ==> v in mapper && mapper[v] == db[v].master)
    && (forall v, m :: Count(down, GrantOf(v, m)) > 0 ==> v in mapper && mapper[v] == m)
    && (forall m: SubsId :: Count(up, UnsubReq(m)) > 0 ==> m in mapper.Values)
  }

  function Pending(subs: SubPool, v: VarId): nat {
    if C.PendingSubs(subs, v) == [] then 0 else 1
  }

  /** The requests and replies about v in flight and those lost are one more than the repeated requests
      while some request for v waits, and as many when none does. */
  ghost predicate Conserved(subs: SubPool, up: seq<Message>, down: seq<Message>,
                            repeated: multiset<VarId>, lost: multiset<VarId>)
  {
    forall v :: Count(up, SubReq(v)) + Count(down, SubRep(v)) + lost[v] == repeated[v] + Pending(subs, v)
  }

  ghost predicate PoolOk(subs: SubPool, db: C.Db) {
    forall v :: v in db ==> C.PendingSubs(subs, v) == []
  }

  ghost predicate LateOk(mapper: Mapper, up: seq<Message>, repeated: multiset<VarId>) {
    forall v :: v in mapper && repeated[v] == 0 ==> Behind(up, SubReq(v), UnsubReq(mapper[v])) == 0
  }

  /** Refusals of variables already subscribed are on their way still, and answer repeated requests. */
  ghost predicate StatusOk(down: seq<Message>, wire: seq<Message>, repeated: multiset<VarId>) {
    forall v :: Count(down, OddRep(v)) == Count(wire, OddRep(v)) && (Count(wire, OddRep(v)) > 0 ==> repeated[v] > 0)
  }

  /** A registration whose grant was too long to be sent: the reply was lost. */
  ghost predicate LostOk(mapper: Mapper, lost: multiset<VarId>) {
    forall v :: v in mapper && Room(v) == 0 ==> lost[v] > 0
  }

  /** Nothing but grants was ever sent for v: rejections are too long, and there were no refusals. */
  predicate OnlyGranted(wire: seq<Message>, v: VarId) {
    Length(v) > LONGEST_REJECTED && Count(wire, OddRep(v)) == 0
  }

  /** Nothing on its way is or leads to a grant for v. */
  ghost predicate NoGrantAhead(mapper: Mapper, up: seq<Message>, down: seq<Message>, v: VarId) {
    && (forall m :: Count(down, GrantOf(v, m)) == 0)
    && (v !in mapper ==> Count(up, SubReq(v)) == 0)
    && (v in mapper ==> Behind(up, UnsubReq(mapper[v]), SubReq(v)) == 0)
  }

  /** Something on its way is or leads to a grant for v. */
  predicate GrantAhead(mapper: Mapper, up: seq<Message>, down: seq<Message>, v: VarId) {
    if v in mapper then Count(down, GrantOf(v, mapper[v])) + Behind(up, UnsubReq(mapper[v]), SubReq(v)) > 0
    else Count(up, SubReq(v)) > 0
  }

  /** A request for a variable that can be granted and was never rejected will be granted. */
  ghost predicate PromisedOk(mapper: Mapper, subs: SubPool, up: seq<Message>, down: seq<Message>, said: seq<Message>) {
    forall v :: Length(v) <= LONGEST_GRANTED && Count(said, Rejection(v)) == 0 && C.PendingSubs(subs, v) != [] ==>
      GrantAhead(mapper, up, down, v)
  }

  /** For such variables no grant arrives that no request waits for. */
  ghost predicate AwaitedOk(mapper: Mapper, subs: SubPool, up: seq<Message>, down: seq<Message>, wire: seq<Message>) {
    forall v :: OnlyGranted(wire, v) && C.PendingSubs(subs, v) == [] ==> NoGrantAhead(mapper, up, down, v)
  }

  /** Each waiting unsubscription has its request or its reply in flight. */
  ghost predicate UnsubsOk(unsubs: UnsubPool, up: seq<Message>, down: seq<Message>) {
    forall m :: |C.PendingUnsubs(unsubs, m)| == Count(up, UnsubReq(m)) + Count(down, UnsubRep(m))
  }

  /** How many messages there are about each request. */
  ghost predicate Flow(subs: SubPool, unsubs: UnsubPool, up: seq<Message>, down: seq<Message>, wire: seq<Message>,
                       repeated: multiset<VarId>, lost: multiset<VarId>)
  {
    && Conserved(subs, up, down, repeated, lost)
    && StatusOk(down, wire, repeated)
    && UnsubsOk(unsubs, up, down)
  }

  /** In what order they are. */
  ghost predicate Order(mapper: Mapper, subs: SubPool, up: seq<Message>, down: seq<Message>, wire: seq<Message>,
                        repeated: multiset<VarId>, lost: multiset<VarId>)
  {
    && LateOk(mapper, up, repeated)
    && LostOk(mapper, lost)
    && AwaitedOk(mapper, subs, up, down, wire)
  }

  ghost predicate RepliesOk(mapper: Mapper, down: seq<Message>, next: SubsId) {
    && (forall m :: Count(down, UnsubRep(m)) <= 1)
    && (forall m: SubsId :: Count(down, UnsubRep(m)) > 0 ==> m !in mapper.Values && m < next)
    && (forall m :: Count(down, OddUnsub(m)) == 0)
    && Count(down, NoReply) == 0
  }

  /** Each id is unsubscribed at most once, and after that the client never has it again. */
  ghost predicate SentOk(sent: seq<Message>, db: C.Db, down: seq<Message>, next: SubsId) {
    && (forall m :: Count(sent, UnsubReq(m)) <= 1)
    && (forall m: SubsId :: Count(sent, UnsubReq(m)) > 0 ==> m < next)
    && (forall v :: v in db ==> Count(sent, UnsubReq(db[v].master)) == 0)
    && (forall v, m :: Count(down, GrantOf(v, m)) > 0 ==> Count(sent, UnsubReq(m)) == 0)
  }

  /** The ids that are registered come from the counter. They are all the session was granted, and as
      long as it lives its table is what is registered. */
  ghost predicate ServerOk(t: S.Server, said: seq<Message>, registered: Mapper) {
    && SR.RunOk(t, said)
    && SR.Injective(registered)
    && registered.Values == SR.Held(said)
    && (forall m :: m in registered.Values ==> m < t.next)
    && (S.Alive(t) ==> registered == t.mapper)
  }

  /** Every rejection on its way fitted the output buffer. */
  ghost predicate RejectionsOk(q: seq<Message>) {
    forall msg :: msg in q && msg.SubscriptionReply? && msg.status == NoSuchVar ==> Length(msg.v) <= LONGEST_REJECTED
  }

  /** What is lost is about variables too long for some reply. */
  ghost predicate LostAreLong(lost: multiset<VarId>) {
    forall v :: lost[v] > 0 ==> Length(v) > LONGEST_REJECTED
  }

  /** A request for v was repeated, and the reply to it, or one before it, was one too many. */
  predicate Clash(repeated: multiset<VarId>, wire: seq<Message>, v: VarId) {
    repeated[v] > 0 && (Length(v) <= LONGEST_REJECTED || Count(wire, OddRep(v)) > 0)
  }

  /** The connection has not failed in any way. */
  predicate Joined(s: System) {
    s.client.connected && !s.cut
  }

  /** The parts that do not depend on the connection. */
  ghost predicate Always(s: System) {
    && CR.ClientOk(s.client)
    && ServerOk(s.server, s.said, s.registered)
    && TokensOk(s.registered, s.client.db, s.up, s.down, Joined(s))
    && RepliesOk(s.registered, s.down, s.server.next)
    && SentOk(s.sent, s.client.db, s.down, s.server.next)
    && RejectionsOk(s.down)
    && Count(s.up, NoRequest) == 0
    && LostAreLong(s.lost)
    && (!s.server.open ==> s.cut)
    && (!s.client.connected && !s.cut ==> exists v :: Clash(s.repeated, Written(s.said), v))
  }

  ghost predicate WhileJoined(s: System) {
    && Flow(s.client.subs, s.client.unsubs, s.up, s.down, Written(s.said), s.repeated, s.lost)
    && Order(s.registered, s.client.subs, s.up, s.down, Written(s.said), s.repeated, s.lost)
    && PoolOk(s.client.subs, s.client.db)
    && PromisedOk(s.registered, s.client.subs, s.up, s.down, s.said)
    && s.client.dropped == {}
  }

  ghost predicate Ok(s: System) {
    Always(s) && (Joined(s) ==> WhileJoined(s))
  }

  ghost predicate SameMasters(db: C.Db, db': C.Db) {
    db.Keys == db'.Keys && forall v :: v in db ==> db'[v].master == db[v].master
  }

  // ----- how the tokens move

  lemma MastersKeepTokens(mapper: Mapper, db: C.Db, db': C.Db, up: seq<Message>, down: seq<Message>,
                          sent: seq<Message>, next: SubsId, exact: bool)
    requires TokensOk(mapper, db, up, down, exact) && SentOk(sent, db, down, next) && SameMasters(db, db')
    ensures TokensOk(mapper, db', up, down, exact) && SentOk(sent, db', down, next)
  {
    hide Count;
  }

  /** The tokens depend on the grants and the unsubscriptions in flight only. */
  lemma NeutralKeepsTokens(mapper: Mapper, db: C.Db, up: seq<Message>, down: seq<Message>,
                           up': seq<Message>, down': seq<Message>, exact: bool)
    requires TokensOk(mapper, db, up, down, exact)
    requires forall m :: Count(up', UnsubReq(m)) == Count(up, UnsubReq(m))
    requires forall v, m :: Count(down', GrantOf(v, m)) == Count(down, GrantOf(v, m))
    ensures TokensOk(mapper, db, up', down', exact)
  {
    hide Count;
  }

  /** The last virtual subscription of v goes: the token moves from the database to the channel. */
  lemma LeaveKeepsTokens(mapper: Mapper, db: C.Db, up: seq<Message>, down: seq<Message>, exact: bool,
                         v: VarId, up': seq<Message>)
    requires TokensOk(mapper, db, up, down, exact) && SR.Injective(mapper) && v in db
    requires UpPlus(up, UnsubscriptionRequest(db[v].master), up')
    ensures TokensOk(mapper, db - {v}, up', down, exact)
  {
    hide Count;
    forall w | w in mapper
      ensures Tokens(db - {v}, up', down, w, mapper[w]) == Tokens(db, up, down, w, mapper[w])
    {
      assert mapper[w] == mapper[v] ==> w == v;
    }
  }

  lemma LeaveKeepsSent(mapper: Mapper, db: C.Db, up: seq<Message>, down: seq<Message>, exact: bool,
                       sent: seq<Message>, next: SubsId, v: VarId, sent': seq<Message>)
    requires TokensOk(mapper, db, up, down, exact) && SR.Injective(mapper) && v in db
    requires SentOk(sent, db, down, next) && db[v].master < next
    requires UpPlus(sent, UnsubscriptionRequest(db[v].master), sent')
    ensures SentOk(sent', db - {v}, down, next)
  {
    hide Count;
    var m := db[v].master;
    assert Tokens(db, up, down, v, m) <= 1 && Has(db, v, m) == 1;
    forall w | w in db - {v} ensures Count(sent', UnsubReq(db[w].master)) == 0 {
      assert mapper[w] == mapper[v] ==> w == v;
    }
    forall w, n | Count(down, GrantOf(w, n)) > 0 ensures Count(sent', UnsubReq(n)) == 0 {
      assert n == m ==> w == v;
    }
  }

  /** The client takes the grant of m for v and creates the entry: the token moves to the database. */
  lemma TakeKeepsTokens(mapper: Mapper, db: C.Db, up: seq<Message>, down: seq<Message>, v: VarId, m: SubsId,
                        down': seq<Message>, exact: bool)
    requires TokensOk(mapper, db, up, down, exact) && v !in db
    requires down != [] && Is(down[0], GrantOf(v, m)) && down' == down[1..]
    ensures TokensOk(mapper, db[v := C.Entry(m, [])], up, down', exact)
  {
    Headed(down);
    hide Count;
    assert Count(down, GrantOf(v, m)) > 0;
    forall w | w in mapper
      ensures Tokens(db[v := C.Entry(m, [])], up, down', w, mapper[w]) == Tokens(db, up, down, w, mapper[w])
    {
    }
  }

  /** Any message may be lost when the client disconnects. */
  lemma LossKeepsTokens(mapper: Mapper, db: C.Db, up: seq<Message>, down: seq<Message>, exact: bool)
    requires TokensOk(mapper, db, up, down, exact) && down != []
    ensures TokensOk(mapper, db, up, down[1..], false)
  {
    Headed(down);
    hide Count;
    forall v | v in mapper ensures Tokens(db, up, down[1..], v, mapper[v]) <= Tokens(db, up, down, v, mapper[v]) {
    }
  }

  /** The grant in hand is for a variable and an id the database does not have. */
  lemma GrantIsNew(mapper: Mapper, db: C.Db, up: seq<Message>, down: seq<Message>, v: VarId, m: SubsId, exact: bool)
    requires TokensOk(mapper, db, up, down, exact) && SR.Injective(mapper)
    requires down != [] && Is(down[0], GrantOf(v, m))
    ensures v !in db && !C.MasterDefined(db, m)
  {
    assert Count(down, GrantOf(v, m)) > 0;
    hide Count;
    assert Tokens(db, up, down, v, m) <= 1;
  }

  /** A request answered with a grant of a fresh id, which is sent if it fits. */
  lemma RegisterKeepsTokens(mapper: Mapper, db: C.Db, up: seq<Message>, down: seq<Message>, exact: bool,
                            v: VarId, m: SubsId, down': seq<Message>)
    requires TokensOk(mapper, db, up, down, exact) && v !in mapper && m !in mapper.Values
    requires forall w, n ::
               Count(down', GrantOf(w, n)) == Count(down, GrantOf(w, n)) + if w == v && n == m then Room(v) else 0
    ensures TokensOk(mapper[v := m], db, up, down', exact)
  {
    hide Count;
    SR.RegisterAdds(mapper, v, m);
    var mapper' := mapper[v := m];
    assert Count(up, UnsubReq(m)) == 0;
    assert Count(down, GrantOf(v, m)) == 0;
    forall w | w in mapper
      ensures Tokens(db, up, down', w, mapper[w]) == Tokens(db, up, down, w, mapper[w])
    {
    }
    assert Tokens(db, up, down', v, m) == Room(v);
  }

  /** An unsubscription handled: the registration and its token go together. */
  lemma UnregisterKeepsTokens(mapper: Mapper, db: C.Db, up: seq<Message>, down: seq<Message>, exact: bool, m: SubsId)
    requires TokensOk(mapper, db, up, down, exact) && SR.Injective(mapper)
    requires up != [] && up[0] == UnsubscriptionRequest(m)
    ensures TokensOk(S.Unregister(mapper, m), db, up[1..], down, exact)
  {
    Headed(up);
    hide Count;
    assert Count(up, UnsubReq(m)) > 0;
    var v :| v in mapper && mapper[v] == m;
    assert Tokens(db, up, down, v, m) <= 1;
    SR.UnregisterKeeps(mapper, m);
    assert S.Unregister(mapper, m) == mapper - {v};
    DropToken(mapper, db, up, down, exact, v, up[1..]);
  }

  lemma DropToken(mapper: Mapper, db: C.Db, up: seq<Message>, down: seq<Message>, exact: bool,
                  v: VarId, up': seq<Message>)
    requires TokensOk(mapper, db, up, down, exact) && SR.Injective(mapper) && v in mapper
    requires UpPlus(up', UnsubscriptionRequest(mapper[v]), up) && (mapper - {v}).Values == mapper.Values - {mapper[v]}
    ensures TokensOk(mapper - {v}, db, up', down, exact)
  {
    hide Count;
    assert Tokens(db, up, down, v, mapper[v]) <= 1 && Count(up, UnsubReq(mapper[v])) == 1;
    forall w | w in mapper && w != v
      ensures Tokens(db, up', down, w, mapper[w]) == Tokens(db, up, down, w, mapper[w])
    {
    }
  }

  /** Anything on its way may get lost when the connection fails. */
  lemma FailureKeepsTokens(mapper: Mapper, db: C.Db, up: seq<Message>, down: seq<Message>, exact: bool,
                           up': seq<Message>, down': seq<Message>)
    requires TokensOk(mapper, db, up, down, exact)
    requires forall t :: Count(up', t) <= Count(up, t) && Count(down', t) <= Count(down, t)
    ensures TokensOk(mapper, db, up', down', false)
  {
    hide Count;
    forall v | v in mapper ensures Tokens(db, up', down', v, mapper[v]) <= Tokens(db, up, down, v, mapper[v]) {
    }
  }

  lemma {:induction false} GrantsAreReplies(q: seq<Message>, v: VarId, m: SubsId)
    ensures Count(q, GrantOf(v, m)) <= Count(q, SubRep(v))
  {
    if q != [] {
      GrantsAreReplies(q[1..], v, m);
    }
  }

  /** A request for a variable that is already registered was repeated. */
  lemma AlreadyMeansRepeated(mapper: Mapper, subs: SubPool, db: C.Db, up: seq<Message>, down: seq<Message>,
                             repeated: multiset<VarId>, lost: multiset<VarId>, v: VarId)
    requires TokensOk(mapper, db, up, down, true) && Conserved(subs, up, down, repeated, lost)
    requires PoolOk(subs, db) && LateOk(mapper, up, repeated) && LostOk(mapper, lost)
    requires v in mapper && up != [] && up[0] == SubscriptionRequest(v)
    ensures repeated[v] > 0
  {
    var m := mapper[v];
    Headed(up);
    GrantsAreReplies(down, v, m);
    hide Count;
    assert Tokens(db, up, down, v, m) == Room(v);
  }

  /** An arriving grant that no request waits for, where only grants are sent: there is none. */
  lemma GrantIsAwaited(mapper: Mapper, subs: SubPool, up: seq<Message>, down: seq<Message>, wire: seq<Message>,
                       v: VarId, m: SubsId)
    requires AwaitedOk(mapper, subs, up, down, wire) && down != [] && Is(down[0], GrantOf(v, m))
    ensures OnlyGranted(wire, v) ==> C.PendingSubs(subs, v) != []
  {
    assert Count(down, GrantOf(v, m)) > 0;
  }
}

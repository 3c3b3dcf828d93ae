/** The calls of the API and the steps of the session keep the invariant. */
module ProtocolSteps {
  import opened FlightVarTypes
  import C = ClientModel
  import CR = ClientRuns
  import S = ServerModel
  import SR = ServerRuns
  import opened OutputBuffers
  import opened Protocol
  import opened ProtocolInvariant
  import opened ProtocolTraffic

  lemma ClientPart(s: System)
    requires Ok(s)
    ensures CR.ClientOk(s.client)
  {
  }

  lemma JoinedTokens(s: System)
    requires Ok(s) && Joined(s)
    ensures s.server.open && TokensOk(s.registered, s.client.db, s.up, s.down, true)
  {
    hide CR.ClientOk, ServerOk, TokensOk, SentOk, RepliesOk, RejectionsOk, LostAreLong, WhileJoined, Written, Clash;
  }

  lemma SessionPart(s: System)
    requires Ok(s)
    ensures ServerOk(s.server, s.said, s.registered)
  {
  }

  // ----- calls of the API

  /** A call that at most sends an update and leaves the masters and the pool alone. */
  lemma QuietCall(s: System, t: System, out: seq<Message>)
    requires Ok(s) && CR.ClientOk(t.client) && |out| <= 1
    requires forall i :: 0 <= i < |out| ==> out[i].VarUpdate?
    requires SameMasters(s.client.db, t.client.db)
    requires t == s.(client := t.client, up := s.up + out, sent := s.sent + out)
    requires t.client == s.client.(db := t.client.db, promises := t.client.promises, crashed := t.client.crashed,
                                   nextVirtual := t.client.nextVirtual, nextReq := t.client.nextReq)
    ensures Ok(t)
  {
    UpdatesDontCount(s.up, out);
    hide CR.ClientOk, ServerOk, Count, Behind, TokensOk, SentOk, RepliesOk, RejectionsOk, LostAreLong, Flow, Order,
         PromisedOk, Written, Clash;
    QuietKeepsParts(s.registered, s.client.db, t.client.db, s.up, s.down, Joined(s), s.sent, s.server.next, out);
    var wire := Written(s.said);
    if Joined(s) {
      QuietFlow(s.client.subs, s.client.unsubs, s.up, s.down, wire, s.repeated, s.lost, t.up, s.down, wire);
      QuietOrder(s.registered, s.client.subs, s.up, s.down, wire, s.repeated, s.lost, t.up, s.down, wire);
      QuietPromise(s.registered, s.client.subs, s.up, s.down, s.said, t.up, s.down, s.said);
    }
  }

  lemma QuietKeepsParts(mapper: Mapper, db: C.Db, db': C.Db, up: seq<Message>, down: seq<Message>, exact: bool,
                        sent: seq<Message>, next: SubsId, out: seq<Message>)
    requires TokensOk(mapper, db, up, down, exact) && SentOk(sent, db, down, next) && SameMasters(db, db')
    requires |out| <= 1 && forall i :: 0 <= i < |out| ==> out[i].VarUpdate?
    ensures TokensOk(mapper, db', up + out, down, exact) && SentOk(sent + out, db', down, next)
  {
    UpdatesDontCount(up, out);
    UpdatesDontCount(sent, out);
    hide Count;
    MastersKeepTokens(mapper, db, db', up, down, sent, next, exact);
    NeutralKeepsTokens(mapper, db', up, down, up + out, down, exact);
    hide TokensOk;
  }

  lemma SubscribeKeeps(s: System, v: VarId, handler: C.Handler)
    requires Ok(s)
    ensures Ok(Step(s, Subscribe(v, handler)))
  {
    hide Always, WhileJoined, CR.ClientOk, Fits, Written, Waits;
    var t := Step(s, Subscribe(v, handler));
    ClientPart(s);
    CR.SubscribeKeepsOk(s.client, v, handler);
    if v in s.client.db {
      QuietCall(s, t, []);
    } else {
      var req := C.SubRequest(s.client.nextReq, v, handler);
      SubscribeWaits(s, v, handler);
      WaitKeepsAlways(s, t, v, req);
      if Joined(s) {
        JoinedTokens(s);
        WaitKeepsJoined(s, t, v, req);
      }
    }
  }

  lemma SubscribeWaits(s: System, v: VarId, handler: C.Handler)
    requires v !in s.client.db
    ensures Waits(s, Step(s, Subscribe(v, handler)), v, C.SubRequest(s.client.nextReq, v, handler))
  {
    hide Fits, Written;
    WrittenOne(SubscriptionRequest(v));
    assert s.up + [] == s.up && s.sent + [] == s.sent;
  }

  /** What a subscription that has to wait for the server changes. */
  ghost predicate Waits(s: System, t: System, v: VarId, req: C.SubRequest) {
    && v !in s.client.db && t.client.db == s.client.db
    && t.client.subs == s.client.subs[v := C.PendingSubs(s.client.subs, v) + [req]]
    && t.client.connected == s.client.connected && t.client.unsubs == s.client.unsubs
    && t.client.dropped == s.client.dropped
    && var msg := SubscriptionRequest(v);
      && t == s.(client := t.client, up := if Fits(msg) then s.up + [msg] else s.up,
                 sent := if Fits(msg) then s.sent + [msg] else s.sent, repeated := t.repeated, lost := t.lost)
      && t.repeated == (if C.PendingSubs(s.client.subs, v) != [] then s.repeated + multiset{v} else s.repeated)
      && t.lost == if Fits(msg) then s.lost else s.lost + multiset{v}
  }

  lemma WaitKeepsAlways(s: System, t: System, v: VarId, req: C.SubRequest)
    requires Always(s) && CR.ClientOk(t.client) && Waits(s, t, v, req)
    ensures Always(t)
  {
    hide Count, CR.ClientOk, ServerOk, RepliesOk, RejectionsOk, Fits, Written, TokensOk, SentOk, Clash;
    RequestFits(v);
    WaitKeepsParts(s.registered, s.client.db, s.up, s.down, Joined(s), s.sent, s.server.next, v,
                   Fits(SubscriptionRequest(v)));
    ClashesStay(s.repeated, Written(s.said), t.repeated);
  }

  lemma WaitKeepsParts(mapper: Mapper, db: C.Db, up: seq<Message>, down: seq<Message>, exact: bool,
                       sent: seq<Message>, next: SubsId, v: VarId, fits: bool)
    requires TokensOk(mapper, db, up, down, exact) && SentOk(sent, db, down, next) && Count(up, NoRequest) == 0
    ensures var up' := if fits then up + [SubscriptionRequest(v)] else up;
            var sent' := if fits then sent + [SubscriptionRequest(v)] else sent;
            TokensOk(mapper, db, up', down, exact) && SentOk(sent', db, down, next) && Count(up', NoRequest) == 0
  {
    Appended(up, SubscriptionRequest(v));
    Appended(sent, SubscriptionRequest(v));
    hide Count;
    NeutralKeepsTokens(mapper, db, up, down, if fits then up + [SubscriptionRequest(v)] else up, down, exact);
    hide TokensOk;
  }

  lemma ClashesStay(repeated: Vars, wire: seq<Message>, repeated': Vars)
    requires repeated <= repeated'
    ensures (exists v :: Clash(repeated, wire, v)) ==> exists v :: Clash(repeated', wire, v)
  {
    if v :| Clash(repeated, wire, v) {
      assert Clash(repeated', wire, v);
    }
  }

  lemma WaitKeepsJoined(s: System, t: System, v: VarId, req: C.SubRequest)
    requires WhileJoined(s) && Waits(s, t, v, req) && TokensOk(s.registered, s.client.db, s.up, s.down, true)
    ensures WhileJoined(t)
  {
    hide Flow, Order, PromisedOk, TokensOk, Fits, Written;
    RequestFits(v);
    var wire, fits := Written(s.said), Fits(SubscriptionRequest(v));
    WaitFlow(s.client.subs, s.client.unsubs, s.up, s.down, wire, s.repeated, s.lost, v, req, fits);
    WaitOrder(s.registered, s.client.subs, s.up, s.down, wire, s.repeated, s.lost, v, req, t.up, t.repeated, t.lost);
    WaitPromise(s.registered, s.client.db, s.client.subs, s.up, s.down, s.said, v, req, fits);
  }

  lemma UnsubscribeKeeps(s: System, id: SubsId)
    requires Ok(s)
    ensures Ok(Step(s, Unsubscribe(id)))
  {
    hide Ok, Always, WhileJoined, CR.ClientOk, Leaves, C.RemoveVirtual, C.OwnerOf;
    var t := Step(s, Unsubscribe(id));
    ClientPart(s);
    CR.UnsubscribeKeepsOk(s.client, id);
    match C.OwnerOf(s.client.db, id)
    case None =>
      QuietCall(s, t, []);
    case Some(v) =>
      if v in C.RemoveVirtual(s.client.db, v, id) {
        MastersStay(s.client.db, v, id);
        QuietCall(s, t, []);
      } else {
        LastLeaves(s, id, v);
        LeaveKeeps(s, t, v);
      }
  }

  lemma MastersStay(db: C.Db, v: VarId, id: SubsId)
    requires v in db && v in C.RemoveVirtual(db, v, id)
    ensures SameMasters(db, C.RemoveVirtual(db, v, id))
  {
  }

  lemma LeaveKeeps(s: System, t: System, v: VarId)
    requires Ok(s) && CR.ClientOk(t.client) && Leaves(s, t, v)
    ensures Ok(t)
  {
    hide Always, WhileJoined, CR.ClientOk;
    LeaveKeepsAlways(s, t, v);
    if Joined(s) {
      LeaveKeepsJoined(s, t, v);
    }
  }

  lemma LastLeaves(s: System, id: SubsId, v: VarId)
    requires C.OwnerOf(s.client.db, id) == Some(v) && v !in C.RemoveVirtual(s.client.db, v, id)
    ensures Leaves(s, Step(s, Unsubscribe(id)), v)
  {
    hide C.OwnerOf, C.Without;
  }

  /** What the last unsubscription for v changes. */
  ghost predicate Leaves(s: System, t: System, v: VarId) {
    && v in s.client.db && t.client.db == s.client.db - {v}
    && var m := s.client.db[v].master;
      var msg := UnsubscriptionRequest(m);
      && t == s.(client := t.client, up := s.up + [msg], sent := s.sent + [msg])
      && t.client.connected == s.client.connected && t.client.subs == s.client.subs
      && t.client.dropped == s.client.dropped
      && forall n :: |C.PendingUnsubs(t.client.unsubs, n)| ==
           |C.PendingUnsubs(s.client.unsubs, n)| + if n == m then 1 else 0
  }

  lemma LeaveKeepsAlways(s: System, t: System, v: VarId)
    requires Always(s) && CR.ClientOk(t.client) && Leaves(s, t, v)
    ensures Always(t)
  {
    var msg := UnsubscriptionRequest(s.client.db[v].master);
    assert s.client.db[v].master in s.registered.Values;
    assert Count(t.up, NoRequest) == 0 by { Appended(s.up, msg); }
    hide Count, CR.ClientOk, SR.RunOk, RepliesOk, TokensOk, SentOk, RejectionsOk, LostAreLong, Written, Clash;
    LeaveKeepsParts(s.registered, s.client.db, s.up, s.down, Joined(s), s.sent, s.server.next, v);
  }

  lemma LeaveKeepsParts(mapper: Mapper, db: C.Db, up: seq<Message>, down: seq<Message>, exact: bool,
                        sent: seq<Message>, next: SubsId, v: VarId)
    requires TokensOk(mapper, db, up, down, exact) && SentOk(sent, db, down, next)
    requires SR.Injective(mapper) && v in db && db[v].master < next
    ensures TokensOk(mapper, db - {v}, up + [UnsubscriptionRequest(db[v].master)], down, exact)
    ensures SentOk(sent + [UnsubscriptionRequest(db[v].master)], db - {v}, down, next)
  {
    hide Count, TokensOk, SentOk;
    var msg := UnsubscriptionRequest(db[v].master);
    Appended(up, msg);
    Appended(sent, msg);
    LeaveKeepsTokens(mapper, db, up, down, exact, v, up + [msg]);
    LeaveKeepsSent(mapper, db, up, down, exact, sent, next, v, sent + [msg]);
  }

  lemma LeaveKeepsJoined(s: System, t: System, v: VarId)
    requires Ok(s) && Joined(s) && Leaves(s, t, v)
    ensures WhileJoined(t)
  {
    assert s.registered[v] == s.client.db[v].master;
    assert SR.Injective(s.registered);
    hide Always, Conserved, StatusOk, UnsubsOk, Order, PromisedOk, Written, Count;
    var wire := Written(s.said);
    LeaveOrder(s.registered, s.client.subs, s.up, s.down, wire, s.repeated, s.lost, v);
    hide Flow;
    LeaveFlow(s.client.subs, s.client.unsubs, s.up, s.down, wire, s.repeated, s.lost, s.registered[v], t.client.unsubs);
    LeavePromise(s.registered, s.client.subs, s.up, s.down, s.said, s.registered[v]);
  }

  lemma UpdateKeeps(s: System, id: SubsId, value: Value)
    requires Ok(s)
    ensures Ok(Step(s, Update(id, value)))
  {
    hide Ok, CR.ClientOk, Step, C.OnVariableUpdateRequested;
    ClientPart(s);
    CR.UpdateKeepsOk(s.client, id, value);
    Updating(s, id, value);
    QuietCall(s, Step(s, Update(id, value)), C.OnVariableUpdateRequested(s.client, id, value).1);
  }

  /** An update sends at most one message and changes no more than its promise. */
  lemma Updating(s: System, id: SubsId, value: Value)
    ensures var t := Step(s, Update(id, value));
            var (c, out) := C.OnVariableUpdateRequested(s.client, id, value);
            && t == s.(client := c, up := s.up + out, sent := s.sent + out)
            && c == s.client.(promises := c.promises, crashed := c.crashed, nextReq := c.nextReq)
            && |out| <= 1 && forall i :: 0 <= i < |out| ==> out[i].VarUpdate?
  {
    hide C.OwnerOf;
  }

  // ----- the session

  /** Only a request that is answered changes what is held, and then the session lives on. */
  lemma HeldStays(t: S.Server, e: S.Event, said: seq<Message>)
    requires !e.Request? || !S.Alive(S.Next(t, e).0)
    ensures SR.Held(said + S.Next(t, e).1) == SR.Held(said)
  {
    hide SR.Held;
    assert said + [] == said;
    if e.Send? && t.posted != [] && t.posted[0].v in t.mapper {
      SR.HeldAppend(said, VarUpdate(t.mapper[t.posted[0].v], t.posted[0].value));
    }
  }

  lemma MapperStays(t: S.Server, e: S.Event)
    requires !e.Request? && S.Alive(S.Next(t, e).0)
    ensures S.Alive(t) && S.Next(t, e).0.mapper == t.mapper
  {
  }

  lemma NextGrows(t: S.Server, e: S.Event)
    ensures t.next <= S.Next(t, e).0.next
  {
    hide S.AlreadyText, S.NoVarText, S.NoSubscriptionText, S.UnknownText;
  }

  lemma AliveIsRegistered(t: S.Server, said: seq<Message>)
    requires SR.RunOk(t, said) && S.Alive(t)
    ensures ServerOk(t, said, t.mapper)
  {
    hide SR.Held, SR.WireOk;
  }

  /** What any event of the session keeps. */
  lemma ServerKeeps(s: System, e: S.Event)
    requires ServerOk(s.server, s.said, s.registered)
    ensures var t := Background(s, e);
            && ServerOk(t.server, t.said, t.registered)
            && s.server.next <= t.server.next
            && (!e.Request? ==> t.registered == s.registered)
  {
    hide SR.RunOk, SR.Held, Written, Unwritten, S.Next;
    SR.StepKeepsOk(s.server, s.said, e);
    NextGrows(s.server, e);
    var t := S.Next(s.server, e).0;
    if S.Alive(t) {
      AliveIsRegistered(t, s.said + S.Next(s.server, e).1);
      if !e.Request? {
        MapperStays(s.server, e);
      }
    } else {
      HeldStays(s.server, e, s.said);
    }
  }

  /** What an event that is not a request lets the session send. */
  lemma UpdatesAreWritten(t: S.Server, e: S.Event)
    requires !e.Request?
    ensures var out := S.Next(t, e).1;
            |out| <= 1 && (forall i :: 0 <= i < |out| ==> out[i].VarUpdate?) && Written(out) == out
                && Unwritten(out) == multiset{}
  {
    hide Fits, Written, S.Release;
    var out := S.Next(t, e).1;
    if out == [] {
      WrittenNothing();
    } else {
      assert out == [out[0]];
      ShortMessagesFit(out[0].id, out[0].value);
      WrittenOne(out[0]);
    }
  }

  /** Such an event sends nothing but updates and leaves the session open if it is. */
  lemma BackgroundSends(s: System, e: S.Event)
    requires ServerOk(s.server, s.said, s.registered) && !e.Request? && e != S.Hangup
    ensures var t, out := Background(s, e), S.Next(s.server, e).1;
            && ServerOk(t.server, t.said, s.registered)
            && t == s.(server := t.server, down := s.down + out, said := s.said + out)
            && s.server.next <= t.server.next && t.server.open == s.server.open
  {
    hide ServerOk, S.Next, Written, Unwritten;
    ServerKeeps(s, e);
    UpdatesAreWritten(s.server, e);
    OpenStays(s.server, e);
    assert s.lost + multiset{} == s.lost;
  }

  lemma BackgroundKeeps(s: System, e: S.Event)
    requires Ok(s) && !e.Request? && e != S.Hangup
    ensures Ok(Background(s, e))
  {
    hide Ok, ServerOk, Written, Unwritten, Count, Behind, S.Next, Background;
    SessionPart(s);
    BackgroundSends(s, e);
    UpdatesAreWritten(s.server, e);
    var out := S.Next(s.server, e).1;
    WrittenMore(s.said, out);
    UpdatesDontCount(s.down, out);
    UpdatesDontCount(s.said, out);
    UpdatesDontCount(Written(s.said), out);
    BackgroundKeepsParts(s, Background(s, e), out);
  }

  lemma OpenStays(t: S.Server, e: S.Event)
    requires !e.Request? && e != S.Hangup
    ensures S.Next(t, e).0.open == t.open
  {
  }

  lemma ClashesCounted(repeated: Vars, wire: seq<Message>, wire': seq<Message>)
    requires forall tag :: Count(wire', tag) == Count(wire, tag)
    ensures (exists v :: Clash(repeated, wire, v)) ==> exists v :: Clash(repeated, wire', v)
  {
    if v :| Clash(repeated, wire, v) {
      assert Clash(repeated, wire', v);
    }
  }

  lemma BackgroundKeepsParts(s: System, t: System, out: seq<Message>)
    requires Ok(s) && ServerOk(t.server, t.said, s.registered)
    requires t == s.(server := t.server, down := s.down + out, said := t.said)
    requires s.server.next <= t.server.next && t.server.open == s.server.open
    requires forall i :: 0 <= i < |out| ==> out[i].VarUpdate?
    requires forall tag :: Count(t.down, tag) == Count(s.down, tag) && Count(t.said, tag) == Count(s.said, tag)
    requires forall tag :: Count(Written(t.said), tag) == Count(Written(s.said), tag)
    ensures Ok(t)
  {
    hide ServerOk, CR.ClientOk, Count, Behind, Written, Flow, Order, PromisedOk;
    NeutralKeepsTokens(s.registered, s.client.db, s.up, s.down, s.up, t.down, Joined(s));
    hide TokensOk;
    ClashesCounted(s.repeated, Written(s.said), Written(t.said));
    if Joined(s) {
      QuietFlow(s.client.subs, s.client.unsubs, s.up, s.down, Written(s.said), s.repeated, s.lost, s.up, t.down,
                Written(t.said));
      QuietOrder(s.registered, s.client.subs, s.up, s.down, Written(s.said), s.repeated, s.lost, s.up, t.down,
                 Written(t.said));
      QuietPromise(s.registered, s.client.subs, s.up, s.down, s.said, s.up, t.down, t.said);
    }
  }

  /** The session loses its connection, and what was on its way to it is lost. */
  lemma HangupKeeps(s: System)
    requires Ok(s)
    ensures Ok(Step(s, Hangup))
  {
    hide Ok, ServerOk, Written;
    HangupServer(s);
    WrittenNothing();
    assert s.down + [] == s.down && s.said + [] == s.said && s.lost + multiset{} == s.lost;
    var t := Step(s, Hangup);
    HangupKeepsParts(s, t);
  }

  lemma HangupServer(s: System)
    requires Ok(s)
    ensures var t := Step(s, Hangup);
            ServerOk(t.server, t.said, t.registered) && t.registered == s.registered
            && !t.server.open && t.server.next == s.server.next
  {
    hide CR.ClientOk, WhileJoined, TokensOk, SentOk, RepliesOk, RejectionsOk, LostAreLong, Written, Clash, ServerOk;
    ServerKeeps(s.(up := [], cut := true), S.Hangup);
  }

  lemma HangupKeepsParts(s: System, t: System)
    requires Ok(s) && ServerOk(t.server, s.said, s.registered) && !t.server.open && t.server.next == s.server.next
    requires t == s.(server := t.server, up := [], cut := true)
    ensures Ok(t)
  {
    hide ServerOk, CR.ClientOk, WhileJoined, TokensOk, SentOk, RepliesOk, RejectionsOk, LostAreLong, Written, Clash;
    assert forall t: Tag :: Count([], t) == 0;
    FailureKeepsTokens(s.registered, s.client.db, s.up, s.down, Joined(s), [], s.down);
  }

  // ----- failing writes

  /** What fails to be written is lost, and nothing else changes but the client's count of errors. */
  ghost predicate Fails(s: System, t: System) {
    && t == s.(client := s.client.(errors := t.client.errors), up := t.up, down := t.down, cut := true)
    && (forall tag :: Count(t.up, tag) <= Count(s.up, tag) && Count(t.down, tag) <= Count(s.down, tag))
    && forall msg :: msg in t.down ==> msg in s.down
  }

  lemma FailKeeps(s: System, t: System)
    requires Ok(s) && Fails(s, t)
    ensures Ok(t)
  {
    hide Count, CR.DbOk, CR.Accounted, ServerOk, WhileJoined, TokensOk, LostAreLong, Written, Clash;
    FailureKeepsTokens(s.registered, s.client.db, s.up, s.down, Joined(s), t.up, t.down);
    FailureKeepsReplies(s.registered, s.client.db, s.sent, s.down, s.server.next, t.down);
    ReportKeepsClient(s.client, t.client.errors);
    hide RepliesOk, SentOk, RejectionsOk;
  }

  lemma ReportKeepsClient(c: C.Client, errors: nat)
    requires CR.ClientOk(c)
    ensures CR.ClientOk(c.(errors := errors))
  {
  }

  lemma FailureKeepsReplies(mapper: Mapper, db: C.Db, sent: seq<Message>, down: seq<Message>, next: SubsId,
                            down': seq<Message>)
    requires RepliesOk(mapper, down, next) && SentOk(sent, db, down, next) && RejectionsOk(down)
    requires forall tag :: Count(down', tag) <= Count(down, tag)
    requires forall msg :: msg in down' ==> msg in down
    ensures RepliesOk(mapper, down', next) && SentOk(sent, db, down', next) && RejectionsOk(down')
  {
    hide Count;
  }

  lemma FailuresKeep(s: System, n: nat)
    requires Ok(s)
    ensures Ok(Step(s, SendFails(n))) && Ok(Step(s, ReplyFails(n)))
  {
    hide Ok, Count;
    forall t: Tag ensures Count(First(s.up, n), t) <= Count(s.up, t) && Count(First(s.down, n), t) <= Count(s.down, t) {
      CountFirst(s.up, n, t);
      CountFirst(s.down, n, t);
    }
    FailKeeps(s, Step(s, SendFails(n)));
    FailKeeps(s, Step(s, ReplyFails(n)));
  }

  // ----- the session serves a request

  lemma ServeKeeps(s: System, known: bool)
    requires Ok(s)
    ensures Ok(Step(s, Serve(known)))
  {
    hide Ok, Step;
    if s.up != [] && s.server.open {
      FirstRequest(s);
      match s.up[0]
      case SubscriptionRequest(v) =>
        ServeSubscription(s, v, known);
      case UnsubscriptionRequest(m) =>
        ServeUnsubscription(s, m, known);
      case VarUpdate(_, _) =>
        ServeUpdate(s, known);
    } else {
      NothingToServe(s, known);
    }
  }

  lemma NothingToServe(s: System, known: bool)
    requires s.up == [] || !s.server.open
    ensures Step(s, Serve(known)) == s
  {
  }

  lemma FirstRequest(s: System)
    requires Ok(s) && s.up != []
    ensures s.up[0].SubscriptionRequest? || s.up[0].UnsubscriptionRequest? || s.up[0].VarUpdate?
    ensures forall m :: s.up[0] == UnsubscriptionRequest(m) ==> m in s.registered.Values
  {
    hide ServerOk, CR.ClientOk, WhileJoined, TokensOk, SentOk, RepliesOk, RejectionsOk, LostAreLong, Count, Written,
         Clash;
    FirstIsKnown(s.registered, s.client.db, s.up, s.down, Joined(s));
  }

  lemma FirstIsKnown(mapper: Mapper, db: C.Db, up: seq<Message>, down: seq<Message>, exact: bool)
    requires TokensOk(mapper, db, up, down, exact) && up != [] && Count(up, NoRequest) == 0
    ensures up[0].SubscriptionRequest? || up[0].UnsubscriptionRequest? || up[0].VarUpdate?
    ensures forall m :: up[0] == UnsubscriptionRequest(m) ==> m in mapper.Values
  {
    NoneOf(up, NoRequest);
    forall m | up[0] == UnsubscriptionRequest(m) ensures Count(up, UnsubReq(m)) > 0 {
    }
  }

  lemma ServerPart(s: System, known: bool)
    requires Ok(s) && s.up != [] && s.server.open
    ensures s.registered == s.server.mapper && s.registered.Values <= s.server.live
    ensures SR.Injective(s.registered) && s.server.next !in s.registered.Values
    ensures var t := Step(s, Serve(known)); ServerOk(t.server, t.said, t.registered)
  {
    hide CR.ClientOk, WhileJoined, TokensOk, RepliesOk, SentOk, Count, S.Next, SR.WireOk, SR.Held, Written, Unwritten;
    ServerKeeps(s.(up := s.up[1..]), S.Request(s.up[0], known));
  }

  lemma TailRequests(up: seq<Message>)
    requires up != [] && Count(up, NoRequest) == 0
    ensures Count(up[1..], NoRequest) == 0
  {
  }

  // a variable update needs no reply

  lemma ServeUpdate(s: System, known: bool)
    requires Ok(s) && s.up != [] && s.up[0].VarUpdate? && s.server.open
    ensures Ok(Step(s, Serve(known)))
  {
    hide Ok, Step;
    ServerPart(s, known);
    UpdateIsTaken(s, known);
    PassKeeps(s, s.(up := s.up[1..]));
  }

  lemma UpdateIsTaken(s: System, known: bool)
    requires s.up != [] && s.up[0].VarUpdate? && s.server.open && s.registered == s.server.mapper
    ensures Step(s, Serve(known)) == s.(up := s.up[1..])
  {
    hide Written;
    WrittenNothing();
    assert s.down + [] == s.down && s.said + [] == s.said && s.lost + multiset{} == s.lost;
  }

  lemma PassKeeps(s: System, t: System)
    requires Ok(s) && s.up != [] && s.up[0].VarUpdate? && t == s.(up := s.up[1..])
    ensures Ok(t)
  {
    hide Count, CR.ClientOk, ServerOk, SentOk, RepliesOk, TokensOk, Flow, Order, PromisedOk, Written, Clash,
         RejectionsOk, LostAreLong;
    TailRequests(s.up);
    PassKeepsTokens(s.registered, s.client.db, s.up, s.down, Joined(s));
    if Joined(s) {
      PassFlow(s.client.subs, s.client.unsubs, s.up, s.down, Written(s.said), s.repeated, s.lost);
      PassOrder(s.registered, s.client.subs, s.up, s.down, Written(s.said), s.repeated, s.lost);
      PassPromise(s.registered, s.client.subs, s.up, s.down, s.said);
    }
  }

  lemma PassKeepsTokens(mapper: Mapper, db: C.Db, up: seq<Message>, down: seq<Message>, exact: bool)
    requires TokensOk(mapper, db, up, down, exact) && up != [] && up[0].VarUpdate?
    ensures TokensOk(mapper, db, up[1..], down, exact)
  {
    Headed(up);
    hide Count;
    NeutralKeepsTokens(mapper, db, up, down, up[1..], down, exact);
  }

  // a subscription is answered, and the answer sent if it fits

  /** What serving the request for v changes. */
  ghost predicate Answers(s: System, t: System, v: VarId, reply: Message) {
    && s.up != [] && s.up[0] == SubscriptionRequest(v)
    && reply.SubscriptionReply? && reply.v == v
    && s.server.open && t.server.open
    && t == s.(server := t.server, up := s.up[1..], said := s.said + [reply], registered := t.registered,
               down := if Fits(reply) then s.down + [reply] else s.down,
               lost := if Fits(reply) then s.lost else s.lost + multiset{v})
    && (!Fits(reply) ==> Length(v) > LONGEST_REJECTED)
    && (Fits(reply) && reply.status == NoSuchVar ==> Length(v) <= LONGEST_REJECTED)
    && (reply.status == Subscribed ==> (Fits(reply) <==> Length(v) <= LONGEST_GRANTED))
  }

  lemma ServeSubscription(s: System, v: VarId, known: bool)
    requires Ok(s) && s.up != [] && s.up[0] == SubscriptionRequest(v) && s.server.open
    ensures Ok(Step(s, Serve(known)))
  {
    hide Ok, ServerOk, Written, Fits, S.AlreadyText, S.NoVarText;
    ServerPart(s, known);
    var t := Step(s, Serve(known));
    var reply := S.OnSubscription(s.server, v, known).1;
    WrittenOne(reply);
    RepliesFit(s.server, v, known);
    assert s.down + [] == s.down && s.lost + multiset{} == s.lost;
    if v in s.server.mapper || !known {
      RefusalKeeps(s, t, v, reply);
    } else {
      GrantKeeps(s, t, v, reply);
    }
  }

  lemma RefusalKeeps(s: System, t: System, v: VarId, reply: Message)
    requires Ok(s) && Answers(s, t, v, reply) && ServerOk(t.server, t.said, t.registered)
    requires t.registered == s.registered && t.server.next == s.server.next
    requires reply.status != Subscribed && (reply.status == NoSuchVar || v in s.registered)
    ensures Ok(t)
  {
    hide ServerOk, CR.ClientOk, Count, TokensOk, SentOk, RepliesOk, Flow, Order, PromisedOk, Written, Fits,
         RejectionsOk;
    TailRequests(s.up);
    WrittenAppend(s.said, reply);
    RefusalKeepsParts(s.registered, s.client.db, s.up, s.down, Joined(s), s.sent, s.server.next, v, reply, Fits(reply));
    WrittenOdd(s.said, reply, s.repeated);
    if Joined(s) {
      if reply.status != NoSuchVar {
        RefusedWasRepeated(s, v);
      }
      var wire := Written(s.said);
      AnswerFlow(s.client.subs, s.client.unsubs, s.up, s.down, wire, s.repeated, s.lost, v, reply, Fits(reply));
      RefuseOrder(s.registered, s.client.subs, s.up, s.down, wire, s.repeated, s.lost, v, reply, Fits(reply));
      RefusePromise(s.registered, s.client.subs, s.up, s.down, s.said, v, reply, Fits(reply));
    }
  }

  /** More messages on the wire do not undo a clash. */
  lemma WrittenOdd(said: seq<Message>, msg: Message, repeated: Vars)
    ensures (exists v :: Clash(repeated, Written(said), v)) ==> exists v :: Clash(repeated, Written(said + [msg]), v)
  {
    hide Fits, Written;
    WrittenAppend(said, msg);
    if v :| Clash(repeated, Written(said), v) {
      CountAppend(Written(said), msg, OddRep(v));
      assert Clash(repeated, Written(said + [msg]), v);
    }
  }

  lemma RefusedWasRepeated(s: System, v: VarId)
    requires Ok(s) && Joined(s) && s.up != [] && s.up[0] == SubscriptionRequest(v) && v in s.registered
    ensures s.repeated[v] > 0
  {
    hide ServerOk, CR.ClientOk, Count, TokensOk, SentOk, RepliesOk, Written, Conserved, PoolOk, LateOk, LostOk,
         AwaitedOk, StatusOk, UnsubsOk;
    AlreadyMeansRepeated(s.registered, s.client.subs, s.client.db, s.up, s.down, s.repeated, s.lost, v);
  }

  lemma RefusalKeepsParts(mapper: Mapper, db: C.Db, up: seq<Message>, down: seq<Message>, exact: bool,
                          sent: seq<Message>, next: SubsId, v: VarId, reply: Message, fits: bool)
    requires TokensOk(mapper, db, up, down, exact) && SentOk(sent, db, down, next)
    requires RepliesOk(mapper, down, next) && RejectionsOk(down)
    requires up != [] && up[0] == SubscriptionRequest(v)
    requires reply.SubscriptionReply? && reply.v == v && reply.status != Subscribed
    requires fits && reply.status == NoSuchVar ==> Length(v) <= LONGEST_REJECTED
    ensures var down' := if fits then down + [reply] else down;
            && TokensOk(mapper, db, up[1..], down', exact) && SentOk(sent, db, down', next)
            && RepliesOk(mapper, down', next) && RejectionsOk(down')
  {
    Headed(up);
    Appended(down, reply);
    hide Count;
    NeutralKeepsTokens(mapper, db, up, down, up[1..], if fits then down + [reply] else down, exact);
    hide TokensOk;
  }

  lemma GrantKeeps(s: System, t: System, v: VarId, reply: Message)
    requires Ok(s) && Answers(s, t, v, reply) && ServerOk(t.server, t.said, t.registered)
    requires reply.status == Subscribed && reply.id == s.server.next && v !in s.registered
    requires t.registered == s.registered[v := reply.id] && t.server.next == s.server.next + 1
    requires s.server.next !in s.registered.Values
    ensures Ok(t)
  {
    hide ServerOk, CR.ClientOk, Count, TokensOk, SentOk, RepliesOk, Flow, Order, PromisedOk, Written, Fits,
         RejectionsOk;
    TailRequests(s.up);
    WrittenAppend(s.said, reply);
    GrantKeepsParts(s.registered, s.client.db, s.up, s.down, Joined(s), s.sent, s.server.next, v, reply, Fits(reply));
    FreshIsUnknown(s.registered, s.client.db, s.up, s.down, Joined(s), s.server.next);
    WrittenOdd(s.said, reply, s.repeated);
    if Joined(s) {
      var wire := Written(s.said);
      AnswerFlow(s.client.subs, s.client.unsubs, s.up, s.down, wire, s.repeated, s.lost, v, reply, Fits(reply));
      GrantOrder(s.registered, s.client.subs, s.up, s.down, wire, s.repeated, s.lost, v, reply, Fits(reply));
      GrantPromise(s.registered, s.client.subs, s.up, s.down, s.said, v, reply, Fits(reply));
    }
  }

  lemma FreshIsUnknown(mapper: Mapper, db: C.Db, up: seq<Message>, down: seq<Message>, exact: bool, m: SubsId)
    requires TokensOk(mapper, db, up, down, exact) && m !in mapper.Values
    ensures Count(up, UnsubReq(m)) == 0
  {
    hide Count;
  }

  lemma GrantKeepsParts(mapper: Mapper, db: C.Db, up: seq<Message>, down: seq<Message>, exact: bool,
                        sent: seq<Message>, next: SubsId, v: VarId, reply: Message, fits: bool)
    requires TokensOk(mapper, db, up, down, exact) && SentOk(sent, db, down, next)
    requires RepliesOk(mapper, down, next) && RejectionsOk(down)
    requires up != [] && up[0] == SubscriptionRequest(v) && v !in mapper && next !in mapper.Values
    requires reply.SubscriptionReply? && reply.v == v && reply.status == Subscribed && reply.id == next
    requires fits <==> Room(v) == 1
    ensures var down' := if fits then down + [reply] else down;
            && TokensOk(mapper[v := next], db, up[1..], down', exact) && SentOk(sent, db, down', next + 1)
            && RepliesOk(mapper[v := next], down', next + 1) && RejectionsOk(down')
  {
    var down' := if fits then down + [reply] else down;
    GrantCounts(up, down, v, reply);
    SR.RegisterAdds(mapper, v, next);
    hide Count;
    NeutralKeepsTokens(mapper, db, up, down, up[1..], down, exact);
    RegisterKeepsTokens(mapper, db, up[1..], down, exact, v, next, down');
    hide TokensOk;
  }

  /** What the counts of a granted request are. */
  lemma GrantCounts(up: seq<Message>, down: seq<Message>, v: VarId, reply: Message)
    requires up != [] && up[0] == SubscriptionRequest(v)
    requires reply.SubscriptionReply? && reply.v == v && reply.status == Subscribed
    ensures forall m :: Count(up[1..], UnsubReq(m)) == Count(up, UnsubReq(m))
    ensures var down' := down + [reply];
            && (forall w, n ::
                  Count(down', GrantOf(w, n)) == Count(down, GrantOf(w, n)) + if w == v && n == reply.id then 1 else 0)
            && (forall m :: Count(down', UnsubRep(m)) == Count(down, UnsubRep(m)))
            && (forall m :: Count(down', OddUnsub(m)) == Count(down, OddUnsub(m)))
            && Count(down', NoReply) == Count(down, NoReply)
  {
    Headed(up);
    Appended(down, reply);
    hide Count;
  }

  // an unsubscription

  lemma ServeUnsubscription(s: System, m: SubsId, known: bool)
    requires Ok(s) && s.up != [] && s.up[0] == UnsubscriptionRequest(m) && m in s.registered.Values && s.server.open
    ensures Ok(Step(s, Serve(known)))
  {
    hide Ok, ServerOk, Step, Unregisters, Fits;
    ServerPart(s, known);
    var reply := UnsubscriptionReply(Unsubscribed, m, []);
    ShortMessagesFit(m, BoolValue(true));
    Unregistering(s, m, known);
    ReleaseKeeps(s, Step(s, Serve(known)), m, reply);
  }

  lemma Unregistering(s: System, m: SubsId, known: bool)
    requires s.up != [] && s.up[0] == UnsubscriptionRequest(m) && s.server.open && s.registered == s.server.mapper
    requires m in s.server.mapper.Values && m in s.server.live && Fits(UnsubscriptionReply(Unsubscribed, m, []))
    ensures Unregisters(s, Step(s, Serve(known)), m, UnsubscriptionReply(Unsubscribed, m, []))
  {
    hide Written, Fits, S.Unregister;
    WrittenOne(UnsubscriptionReply(Unsubscribed, m, []));
    assert s.lost + multiset{} == s.lost;
  }

  /** What taking the registration m away changes. */
  ghost predicate Unregisters(s: System, t: System, m: SubsId, reply: Message) {
    && s.up != [] && s.up[0] == UnsubscriptionRequest(m) && s.server.open && t.server.open
    && t == s.(server := t.server, up := s.up[1..], down := s.down + [reply], said := s.said + [reply],
               registered := t.registered)
    && t.registered == S.Unregister(s.registered, m) && t.server.next == s.server.next
    && reply == UnsubscriptionReply(Unsubscribed, m, [])
  }

  lemma ReleaseKeeps(s: System, t: System, m: SubsId, reply: Message)
    requires Ok(s) && Unregisters(s, t, m, reply) && ServerOk(t.server, t.said, t.registered)
    requires m in s.registered.Values && Fits(reply)
    ensures Ok(t)
  {
    hide Always, WhileJoined, ServerOk, Written, Fits, S.Unregister;
    ReleaseKeepsAlways(s, t, m, reply);
    if Joined(s) {
      JoinedTokens(s);
      ReleaseKeepsJoined(s, t, m, reply);
    }
  }

  lemma ReleaseKeepsAlways(s: System, t: System, m: SubsId, reply: Message)
    requires Always(s) && Unregisters(s, t, m, reply) && ServerOk(t.server, t.said, t.registered)
    requires m in s.registered.Values
    ensures Always(t)
  {
    assert SR.Injective(s.registered) && m < s.server.next;
    hide Count, CR.ClientOk, ServerOk, TokensOk, SentOk, RepliesOk, Written, Fits, RejectionsOk, Clash, LostAreLong,
         S.Unregister;
    WrittenOdd(s.said, reply, s.repeated);
    TailRequests(s.up);
    ReleaseKeepsParts(s.registered, s.client.db, s.up, s.down, Joined(s), s.sent, s.server.next, reply);
  }

  lemma ReleaseKeepsJoined(s: System, t: System, m: SubsId, reply: Message)
    requires WhileJoined(s) && Unregisters(s, t, m, reply) && Fits(reply)
    requires TokensOk(s.registered, s.client.db, s.up, s.down, true)
    ensures WhileJoined(t)
  {
    hide Flow, Order, PromisedOk, TokensOk, Written, Fits, S.Unregister;
    WrittenAppend(s.said, reply);
    ReleaseFlow(s.client.subs, s.client.unsubs, s.up, s.down, Written(s.said), s.repeated, s.lost, reply);
    ReleaseOrder(s.registered, s.client.subs, s.up, s.down, Written(s.said), s.repeated, s.lost, reply);
    ReleasePromise(s.registered, s.client.db, s.client.subs, s.up, s.down, s.said, reply);
  }

  lemma ReleaseKeepsParts(mapper: Mapper, db: C.Db, up: seq<Message>, down: seq<Message>, exact: bool,
                          sent: seq<Message>, next: SubsId, reply: Message)
    requires TokensOk(mapper, db, up, down, exact) && SentOk(sent, db, down, next)
    requires RepliesOk(mapper, down, next) && RejectionsOk(down)
    requires reply.UnsubscriptionReply? && reply.status == Unsubscribed && reply.id < next
    requires reply.id in mapper.Values && SR.Injective(mapper)
    requires up != [] && up[0] == UnsubscriptionRequest(reply.id)
    ensures var mapper', down' := S.Unregister(mapper, reply.id), down + [reply];
            && TokensOk(mapper', db, up[1..], down', exact) && SentOk(sent, db, down', next)
            && RepliesOk(mapper', down', next) && RejectionsOk(down')
  {
    var mapper', down' := S.Unregister(mapper, reply.id), down + [reply];
    Appended(down, reply);
    SR.UnregisterKeeps(mapper, reply.id);
    hide Count;
    UnregisterKeepsTokens(mapper, db, up, down, exact, reply.id);
    NeutralKeepsTokens(mapper', db, up[1..], down, up[1..], down', exact);
    hide TokensOk;
  }
}

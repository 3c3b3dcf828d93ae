/** The client and its session on the server, joined by two first-in first-out channels. Every
    io_service callback of either side is one step. */
module Protocol {
  import opened FlightVarTypes
  import C = ClientModel
  import CR = ClientRuns
  import S = ServerModel
  import opened OutputBuffers

  /** `up` and `down` are the messages in flight. The rest is history: what the client has sent; what the
      session was to send, whether it fitted the output buffer or not; the session's table, which is kept
      when the session dies; how many times each variable was requested while an earlier request for it
      was waiting; how many requests and replies about it were too long to be sent; and whether the
      connection was lost, or failed to carry something, on either side. */
  datatype System = System(
    client: C.Client,
    server: S.Server,
    up: seq<Message>,
    down: seq<Message>,
    sent: seq<Message>,
    said: seq<Message>,
    registered: map<VarId, SubsId>,
    repeated: multiset<VarId>,
    lost: multiset<VarId>,
    cut: bool)

  const START := System(C.START, S.START, [], [], [], [], map[], multiset{}, multiset{}, false)

  /** A call of the API, the client handling a message, the session handling one (`known` is the
      delegate's answer to a subscription), an event of the server's other users, or a failure of the
      connection. Either side notices by itself that it is lost: Cut is the client's end, Hangup the
      session's. A write that fails loses what is on its way from the n-th message on: SendFails is about
      the client's messages, and ReplyFails about the session's, which reads on only if it was an update. */
  datatype Label =
    | Subscribe(v: VarId, handler: C.Handler)
    | Unsubscribe(virtualId: SubsId)
    | Update(virtualId: SubsId, value: Value)
    | Deliver
    | Serve(known: bool)
    | Raise(v: VarId, value: Value)
    | Send
    | OtherSubscribes
    | OtherUnsubscribes(id: SubsId)
    | Cut(reset: bool)
    | Hangup
    | SendFails(n: nat)
    | ReplyFails(n: nat)

  ghost function Ask(s: System, e: CR.Event): System {
    var (c, out) := CR.Next(s.client, e);
    s.(client := c, up := s.up + out, sent := s.sent + out)
  }

  /** The variables of the replies to subscriptions that are too long to be sent. */
  function Unwritten(out: seq<Message>): multiset<VarId> {
    if out != [] && out[0].SubscriptionReply? && !Fits(out[0]) then multiset{out[0].v} else multiset{}
  }

  function Background(s: System, e: S.Event): System {
    var (t, out) := S.Next(s.server, e);
    s.(server := t, down := s.down + Written(out), said := s.said + out, lost := s.lost + Unwritten(out),
       registered := if S.Alive(t) then t.mapper else s.registered)
  }

  /** The variable is being requested by another call that has not been answered. */
  predicate Waiting(c: C.Client, v: VarId) {
    v !in c.db && C.PendingSubs(c.subs, v) != []
  }

  /** The client asks the server for a variable. */
  ghost function Request(s: System, v: VarId, handler: C.Handler): System {
    Ask(s, CR.Subscribe(v, handler)).(
      repeated := if Waiting(s.client, v) then s.repeated + multiset{v} else s.repeated,
      lost := if v !in s.client.db && !Fits(SubscriptionRequest(v)) then s.lost + multiset{v} else s.lost)
  }

  function First(q: seq<Message>, n: nat): seq<Message> {
    if n < |q| then q[..n] else q
  }

  /** A session whose connection is lost reads nothing of what is on its way to it. */
  ghost function Step(s: System, l: Label): System {
    match l
    case Subscribe(v, handler) => Request(s, v, handler)
    case Unsubscribe(id) => Ask(s, CR.Unsubscribe(id))
    case Update(id, value) => Ask(s, CR.Update(id, value))
    case Deliver =>
      if s.down == [] || !s.client.connected then s
      else s.(client := CR.OnMessage(s.client, s.down[0]), down := s.down[1..])
    case Serve(known) =>
      if s.up == [] || !s.server.open then s
      else Background(s.(up := s.up[1..]), S.Request(s.up[0], known))
    case Raise(v, value) => Background(s, S.Raise(v, value))
    case Send => Background(s, S.Send)
    case OtherSubscribes => Background(s, S.OtherSubscribes)
    case OtherUnsubscribes(id) => Background(s, S.OtherUnsubscribes(id))
    case Cut(reset) =>
      s.(client := CR.Next(s.client, if reset then CR.ConnectionReset else CR.ServerClosed).0, cut := true)
    case Hangup => Background(s.(up := [], cut := true), S.Hangup)
    case SendFails(n) => s.(client := CR.Next(s.client, CR.SendFailed).0, up := First(s.up, n), cut := true)
    case ReplyFails(n) => s.(down := First(s.down, n), cut := true)
  }

  ghost function Run(labels: seq<Label>): System
    decreases |labels|
  {
    if labels == [] then START
    else Step(Run(labels[..|labels| - 1]), labels[|labels| - 1])
  }

  // ----- counting messages in flight

  datatype Tag =
    | SubReq(v: VarId)             // a subscription request
    | SubRep(v: VarId)             // any reply to one
    | GrantOf(v: VarId, m: SubsId) // a reply granting id m
    | OddRep(v: VarId)             // a reply that is neither a grant nor a rejection
    | Rejection(v: VarId)
    | UnsubReq(m: SubsId)
    | UnsubRep(m: SubsId)
    | OddUnsub(m: SubsId)          // a reply that does not say unsubscribed
    | NoRequest                    // what a client never sends
    | NoReply                      // what a session never sends

  predicate Is(msg: Message, t: Tag) {
    match t
    case SubReq(v) => msg == SubscriptionRequest(v)
    case SubRep(v) => msg.SubscriptionReply? && msg.v == v
    case GrantOf(v, m) => msg.SubscriptionReply? && msg.v == v && msg.status == Subscribed && msg.id == m
    case OddRep(v) => msg.SubscriptionReply? && msg.v == v && msg.status != Subscribed && msg.status != NoSuchVar
    case Rejection(v) => msg.SubscriptionReply? && msg.v == v && msg.status == NoSuchVar
    case UnsubReq(m) => msg == UnsubscriptionRequest(m)
    case UnsubRep(m) => msg.UnsubscriptionReply? && msg.id == m
    case OddUnsub(m) => msg.UnsubscriptionReply? && msg.id == m && msg.status != Unsubscribed
    case NoRequest => !msg.SubscriptionRequest? && !msg.UnsubscriptionRequest? && !msg.VarUpdate?
    case NoReply => !msg.SubscriptionReply? && !msg.UnsubscriptionReply? && !msg.VarUpdate?
  }

  function One(msg: Message, t: Tag): nat {
    if Is(msg, t) then 1 else 0
  }

  function Count(q: seq<Message>, t: Tag): nat {
    if q == [] then 0 else One(q[0], t) + Count(q[1..], t)
  }

  lemma {:induction false} CountAppend(q: seq<Message>, msg: Message, t: Tag)
    ensures Count(q + [msg], t) == Count(q, t) + One(msg, t)
  {
    if q == [] {
      assert q + [msg] == [msg];
    } else {
      assert (q + [msg])[1..] == q[1..] + [msg];
      CountAppend(q[1..], msg, t);
    }
  }

  /** The channel q' holds msg besides what q holds: what that means for the requests counted. */
  ghost predicate UpPlus(q: seq<Message>, msg: Message, q': seq<Message>) {
    && (forall v :: Count(q', SubReq(v)) == Count(q, SubReq(v)) + if msg == SubscriptionRequest(v) then 1 else 0)
    && (forall m :: Count(q', UnsubReq(m)) == Count(q, UnsubReq(m)) + if msg == UnsubscriptionRequest(m) then 1 else 0)
    && Count(q', NoRequest) == Count(q, NoRequest) + One(msg, NoRequest)
  }

  /** The same for the replies counted. */
  ghost predicate DownPlus(q: seq<Message>, msg: Message, q': seq<Message>) {
    && (forall v :: Count(q', SubRep(v)) == Count(q, SubRep(v)) + One(msg, SubRep(v)))
    && (forall v, m :: Count(q', GrantOf(v, m)) == Count(q, GrantOf(v, m)) + One(msg, GrantOf(v, m)))
    && (forall v :: Count(q', OddRep(v)) == Count(q, OddRep(v)) + One(msg, OddRep(v)))
    && (forall m :: Count(q', UnsubRep(m)) == Count(q, UnsubRep(m)) + One(msg, UnsubRep(m)))
    && (forall m :: Count(q', OddUnsub(m)) == Count(q, OddUnsub(m)) + One(msg, OddUnsub(m)))
    && Count(q', NoReply) == Count(q, NoReply) + One(msg, NoReply)
  }

  lemma Appended(q: seq<Message>, msg: Message)
    ensures UpPlus(q, msg, q + [msg]) && DownPlus(q, msg, q + [msg])
  {
    forall t: Tag ensures Count(q + [msg], t) == Count(q, t) + One(msg, t) {
      CountAppend(q, msg, t);
    }
  }

  lemma Headed(q: seq<Message>)
    requires q != []
    ensures UpPlus(q[1..], q[0], q) && DownPlus(q[1..], q[0], q)
  {
  }

  lemma {:induction false} Among(q: seq<Message>, i: nat, t: Tag)
    requires i < |q| && Is(q[i], t)
    ensures Count(q, t) > 0
  {
    if i > 0 {
      Among(q[1..], i - 1, t);
    }
  }

  lemma {:induction false} CountFirst(q: seq<Message>, n: nat, t: Tag)
    ensures Count(First(q, n), t) <= Count(q, t)
  {
    if 0 < n < |q| {
      CountFirst(q[1..], n - 1, t);
      assert q[..n][1..] == q[1..][..n - 1];
    }
  }

  /** How many messages of one kind are behind the first of another. */
  function Behind(q: seq<Message>, first: Tag, t: Tag): nat {
    if q == [] then 0
    else if Is(q[0], first) then Count(q[1..], t)
    else Behind(q[1..], first, t)
  }

  lemma {:induction false} BehindAppend(q: seq<Message>, msg: Message, first: Tag, t: Tag)
    ensures Behind(q + [msg], first, t) == Behind(q, first, t) + if Count(q, first) > 0 then One(msg, t) else 0
  {
    if q == [] {
      assert q + [msg] == [msg];
    } else {
      assert (q + [msg])[1..] == q[1..] + [msg];
      CountAppend(q[1..], msg, t);
      BehindAppend(q[1..], msg, first, t);
    }
  }

  lemma {:induction false} BehindBound(q: seq<Message>, first: Tag, t: Tag)
    ensures Behind(q, first, t) <= Count(q, t)
    ensures Count(q, first) == 0 ==> Behind(q, first, t) == 0
  {
    if q != [] {
      BehindBound(q[1..], first, t);
    }
  }

  /** Variable updates are not counted: nothing depends on how many are in flight. */
  lemma UpdatesDontCount(q: seq<Message>, out: seq<Message>)
    requires |out| <= 1 && forall i :: 0 <= i < |out| ==> out[i].VarUpdate?
    ensures forall t :: Count(q + out, t) == Count(q, t)
    ensures forall a, b :: Behind(q + out, a, b) == Behind(q, a, b)
  {
    if out == [] {
      assert q + out == q;
    } else {
      assert out == [out[0]];
      forall t ensures Count(q + out, t) == Count(q, t) {
        CountAppend(q, out[0], t);
      }
      forall a, b ensures Behind(q + out, a, b) == Behind(q, a, b) {
        BehindAppend(q, out[0], a, b);
      }
    }
  }
}

/** What the server does for one session, as functions on the state of the session, of the delegate
    behind it and of the queue of updates posted to the io_service. SessionHandling.dfy proves the
    handlers against these functions. */
module ServerModel {
  import opened FlightVarTypes
  import Numerals

  datatype Posted = Posted(v: VarId, value: Value)

  /** `mapper` is the session's table of subscribed variables. `live` are the subscriptions the
      delegate knows, of all sessions, and `next` the next id it gives out. */
  datatype Server = Server(
    mapper: map<VarId, SubsId>,
    live: set<SubsId>,
    next: SubsId,
    posted: seq<Posted>,
    open: bool)

  const START := Server(map[], {}, 1, [], true)

  function Ascii(s: string): Text {
    seq(|s|, i requires 0 <= i < |s| => (s[i] as int) % 0x100)
  }

  /** The explanations sent along with a status. */
  function AlreadyText(): Text { Ascii("Variable already subscribed") }

  function NoVarText(): Text { Ascii("No such variable defined in FlightVars module; missing plugin?") }

  function NoSubscriptionText(m: SubsId): Text { Ascii("No such subscription with ID " + Numerals.Decimal(m)) }

  function UnknownText(m: SubsId): Text { Ascii("Server error while unsubscribing from " + Numerals.Decimal(m)) }

  /** The delegate knows the variable or not: `known` is its answer. */
  function OnSubscription(s: Server, v: VarId, known: bool): (Server, Message) {
    if v in s.mapper then
      (s, SubscriptionReply(VarAlreadySubscribed, v, 0, AlreadyText()))
    else if known then
      (s.(mapper := s.mapper[v := s.next], live := s.live + {s.next}, next := s.next + 1),
       SubscriptionReply(Subscribed, v, s.next, []))
    else
      (s, SubscriptionReply(NoSuchVar, v, 0, NoVarText()))
  }

  function Unregister(mapper: map<VarId, SubsId>, m: SubsId): map<VarId, SubsId> {
    map v | v in mapper && mapper[v] != m :: mapper[v]
  }

  function OnUnsubscription(s: Server, m: SubsId): (Server, Message) {
    if m !in s.live then
      (s, UnsubscriptionReply(NoSuchSubscription, m, NoSubscriptionText(m)))
    else if m !in s.mapper.Values then
      (s.(live := s.live - {m}),
       UnsubscriptionReply(Unknown, m, UnknownText(m)))
    else
      (s.(live := s.live - {m}, mapper := Unregister(s.mapper, m)), UnsubscriptionReply(Unsubscribed, m, []))
  }

  /** A session lives while it reads requests or one of its updates is still posted. */
  predicate Alive(s: Server) {
    s.open || s.posted != []
  }

  /** When a session dies, every subscription it still has is given back to the delegate. */
  function Release(s: Server): Server {
    if Alive(s) then s else s.(live := s.live - s.mapper.Values, mapper := map[])
  }

  /** A message from the client: the new state and the reply, if there is one. After any message that
      is not a request the session reads no more. */
  function OnRequest(s: Server, msg: Message, known: bool): (Server, seq<Message>) {
    match msg
    case SubscriptionRequest(v) => var (t, reply) := OnSubscription(s, v, known); (t, [reply])
    case UnsubscriptionRequest(m) => var (t, reply) := OnUnsubscription(s, m); (t, [reply])
    case VarUpdate(_, _) => (s, [])
    case _ => (OnHangup(s), [])
  }

  /** The io_service sends the oldest posted update, unless its variable is no longer subscribed. */
  function SendPosted(s: Server): (Server, seq<Message>)
    requires s.posted != []
  {
    var p := s.posted[0];
    (Release(s.(posted := s.posted[1..])),
     if p.v in s.mapper then [VarUpdate(s.mapper[p.v], p.value)] else [])
  }

  /** The connection was lost: nothing more is read. */
  function OnHangup(s: Server): Server {
    Release(s.(open := false))
  }

  /** The connection may be lost. The delegate raises updates and serves other sessions at any time. The
      clients of those sessions unsubscribe only ids they were given. */
  datatype Event =
    | Request(msg: Message, known: bool)
    | Hangup
    | Raise(v: VarId, value: Value)
    | Send
    | OtherSubscribes
    | OtherUnsubscribes(id: SubsId)

  function Next(s: Server, e: Event): (Server, seq<Message>) {
    match e
    case Request(msg, known) => if s.open then OnRequest(s, msg, known) else (s, [])
    case Hangup => (OnHangup(s), [])
    case Raise(v, value) => (if Alive(s) then s.(posted := s.posted + [Posted(v, value)]) else s, [])
    case Send => if s.posted == [] then (s, []) else SendPosted(s)
    case OtherSubscribes => (s.(live := s.live + {s.next}, next := s.next + 1), [])
    case OtherUnsubscribes(m) => if m in s.mapper.Values then (s, []) else (s.(live := s.live - {m}), [])
  }
}

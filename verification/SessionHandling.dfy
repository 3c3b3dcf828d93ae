/** The server's side of a session: the two-way table of its subscriptions and the handlers that change
    it in place, proved against the functions of ServerModel. */
module SessionHandling {
  import opened FlightVarTypes
  import opened ServerModel

  /** What a table look-up or change can fail with. */
  datatype MapperError =
    | VariableAlreadyExists(v: VarId)
    | SubscriptionAlreadyExists(m: SubsId)
    | UnknownVariable(v: VarId)
    | UnknownSubscription(m: SubsId)

  datatype Result<+T> = Ok(value: T) | Err(error: MapperError)

  ghost predicate Inverse(left: map<VarId, SubsId>, right: map<SubsId, VarId>) {
    && (forall v :: v in left ==> left[v] in right && right[left[v]] == v)
    && (forall m :: m in right ==> right[m] in left && left[right[m]] == m)
  }

  /** A table and its inverse hold the same pairs. */
  lemma InverseValues(left: map<VarId, SubsId>, right: map<SubsId, VarId>)
    requires Inverse(left, right)
    ensures left.Values == right.Keys && right.Values == left.Keys
  {
    forall m | m in right ensures m in left.Values {
      assert left[right[m]] == m;
    }
    forall v | v in left ensures v in right.Values {
      assert right[left[v]] == v;
    }
  }

  class SubscriptionMapper {
    var left: map<VarId, SubsId>
    var right: map<SubsId, VarId>

    ghost predicate Valid()
      reads this
    {
      Inverse(left, right)
    }

    constructor ()
      ensures Valid() && left == map[]
    {
      left, right := map[], map[];
    }

    method Clear()
      modifies this
      ensures Valid() && left == map[]
    {
      left, right := map[], map[];
    }

    method VariableExists(v: VarId) returns (found: bool)
      ensures found == (v in left)
    {
      found := v in left;
    }

    method SubscriptionExists(m: SubsId) returns (found: bool)
      requires Valid()
      ensures found == (m in left.Values)
    {
      InverseValues(left, right);
      found := m in right;
    }

    method Register(v: VarId, m: SubsId) returns (r: Result<()>)
      requires Valid()
      modifies this
      ensures Valid()
      ensures if v in old(left) then r == Err(VariableAlreadyExists(v)) && left == old(left)
              else if m in old(left).Values then r == Err(SubscriptionAlreadyExists(m)) && left == old(left)
              else r == Ok(()) && left == old(left)[v := m]
    {
      InverseValues(left, right);
      if v in left {
        return Err(VariableAlreadyExists(v));
      }
      if m in right {
        return Err(SubscriptionAlreadyExists(m));
      }
      left, right := left[v := m], right[m := v];
      r := Ok(());
    }

    method VariableOf(m: SubsId) returns (r: Result<VarId>)
      requires Valid()
      ensures match r case Ok(v) => v in left && left[v] == m
                      case Err(e) => e == UnknownSubscription(m) && m !in left.Values
    {
      InverseValues(left, right);
      r := if m in right then Ok(right[m]) else Err(UnknownSubscription(m));
    }

    /** The id of v is the one under which v is found again. */
    method SubscriptionOf(v: VarId) returns (r: Result<SubsId>)
      requires Valid()
      ensures match r case Ok(m) => m in right && right[m] == v
                      case Err(e) => e == UnknownVariable(v) && v !in right.Values
    {
      InverseValues(left, right);
      r := if v in left then Ok(left[v]) else Err(UnknownVariable(v));
    }

    method UnregisterVariable(v: VarId) returns (r: Result<()>)
      requires Valid()
      modifies this
      ensures Valid() && left == old(left) - {v}
      ensures r == if v in old(left) then Ok(()) else Err(UnknownVariable(v))
    {
      if v !in left {
        return Err(UnknownVariable(v));
      }
      left, right := left - {v}, right - {left[v]};
      r := Ok(());
    }

    method UnregisterSubscription(m: SubsId) returns (r: Result<()>)
      requires Valid()
      modifies this
      ensures Valid()
      ensures if m in old(left).Values then r == Ok(()) && left == ServerModel.Unregister(old(left), m)
              else r == Err(UnknownSubscription(m)) && left == old(left)
    {
      InverseValues(left, right);
      if m !in right {
        return Err(UnknownSubscription(m));
      }
      left, right := left - {right[m]}, right - {m};
      r := Ok(());
    }
  }

  /** The delegate: the subscriptions it knows, of all sessions. */
  class Delegate {
    var live: set<SubsId>
    var next: SubsId

    constructor ()
      ensures live == {} && next == 1
    {
      live, next := {}, 1;
    }

    method Subscribe(known: bool) returns (id: Option<SubsId>)
      modifies this
      ensures if known then id == Some(old(next)) && next == old(next) + 1 && live == old(live) + {old(next)}
              else id == None && next == old(next) && live == old(live)
    {
      if !known {
        return None;
      }
      live, next, id := live + {next}, next + 1, Some(next);
    }

    method Unsubscribe(m: SubsId) returns (ok: bool)
      modifies this`live
      ensures ok == (m in old(live)) && live == (if ok then old(live) - {m} else old(live))
    {
      ok := m in live;
      if ok {
        live := live - {m};
      }
    }
  }

  class Session {
    const mapper: SubscriptionMapper
    const delegate: Delegate
    var posted: seq<Posted>
    var open: bool

    ghost function State(): Server
      reads this, mapper, delegate
    {
      Server(mapper.left, delegate.live, delegate.next, posted, open)
    }

    /** Ids the delegate has not given out are not registered. */
    ghost predicate Valid()
      reads this, mapper, delegate
    {
      mapper.Valid() && forall v :: v in mapper.left ==> mapper.left[v] < delegate.next
    }

    constructor (delegate: Delegate)
      ensures Valid() && this.delegate == delegate && fresh(mapper)
      ensures State() == Server(map[], delegate.live, delegate.next, [], true)
    {
      this.delegate := delegate;
      mapper := new SubscriptionMapper();
      posted, open := [], true;
    }

    method HandleSubscriptionRequest(v: VarId, known: bool) returns (reply: Message)
      requires Valid()
      modifies mapper, delegate
      ensures Valid() && (State(), reply) == OnSubscription(old(State()), v, known)
    {
      hide AlreadyText, NoVarText;
      var subscribed := mapper.VariableExists(v);
      if subscribed {
        return SubscriptionReply(VarAlreadySubscribed, v, 0, AlreadyText());
      }
      var id := delegate.Subscribe(known);
      match id
      case None =>
        return SubscriptionReply(NoSuchVar, v, 0, NoVarText());
      case Some(m) =>
        var r := mapper.Register(v, m);
        assert r.Ok?;
        return SubscriptionReply(Subscribed, v, m, []);
    }

    method HandleUnsubscriptionRequest(m: SubsId) returns (reply: Message)
      requires Valid()
      modifies mapper, delegate
      ensures Valid() && (State(), reply) == OnUnsubscription(old(State()), m)
    {
      hide NoSubscriptionText, UnknownText;
      var known := delegate.Unsubscribe(m);
      if !known {
        return UnsubscriptionReply(NoSuchSubscription, m, NoSubscriptionText(m));
      }
      var r := mapper.UnregisterSubscription(m);
      match r
      case Err(_) => return UnsubscriptionReply(Unknown, m, UnknownText(m));
      case Ok(_) => return UnsubscriptionReply(Unsubscribed, m, []);
    }

    /** Gives every subscription back to the delegate, in whatever order the table yields them. */
    method UnsubscribeAll()
      requires Valid()
      modifies mapper, delegate`live
      ensures mapper.Valid() && mapper.left == map[]
      ensures delegate.live == old(delegate.live) - old(mapper.left).Values
    {
      InverseValues(mapper.left, mapper.right);
      var todo := mapper.right.Keys;
      while todo != {}
        invariant todo <= mapper.left.Values && mapper.left == old(mapper.left)
        invariant delegate.live == old(delegate.live) - (mapper.left.Values - todo)
        decreases |todo|
      {
        var m :| m in todo;
        var _ := delegate.Unsubscribe(m);
        todo := todo - {m};
      }
      mapper.Clear();
    }

    /** The last reference to the session is dropped. */
    method Discard()
      requires Valid()
      modifies mapper, delegate`live
      ensures Valid() && State() == Release(old(State()))
    {
      if !open && posted == [] {
        UnsubscribeAll();
      }
    }

    /** A message read from the client. */
    method OnReadRequest(msg: Message, known: bool) returns (replies: seq<Message>)
      requires Valid()
      modifies this`open, mapper, delegate
      ensures Valid() && (State(), replies) == OnRequest(old(State()), msg, known) && |replies| <= 1
    {
      hide OnSubscription, OnUnsubscription;
      match msg
      case SubscriptionRequest(v) =>
        var reply := HandleSubscriptionRequest(v, known);
        replies := [reply];
      case UnsubscriptionRequest(m) =>
        var reply := HandleUnsubscriptionRequest(m);
        replies := [reply];
      case VarUpdate(_, _) =>
        replies := [];
      case _ =>
        OnHangup();
        replies := [];
    }

    /** The connection was closed or reset by the client: nothing more is read. */
    method OnHangup()
      requires Valid()
      modifies this`open, mapper, delegate`live
      ensures Valid() && State() == ServerModel.OnHangup(old(State()))
    {
      open := false;
      Discard();
    }

    /** The delegate reports a change; the io_service will send it. */
    method HandleVarUpdate(v: VarId, value: Value)
      requires Valid()
      modifies this`posted
      ensures Valid() && State() == ServerModel.Next(old(State()), Raise(v, value)).0
    {
      if open || posted != [] {
        posted := posted + [Posted(v, value)];
      }
    }

    method SendVarUpdate() returns (out: seq<Message>)
      requires Valid() && posted != []
      modifies this`posted, mapper, delegate`live
      ensures Valid() && (State(), out) == SendPosted(old(State()))
    {
      var p := posted[0];
      posted := posted[1..];
      var r := mapper.SubscriptionOf(p.v);
      InverseValues(mapper.left, mapper.right);
      match r {
        case Ok(m) => out := [VarUpdate(m, p.value)];
        case Err(_) => out := [];
      }
      Discard();
    }
  }
}

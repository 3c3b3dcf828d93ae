/** Updates between client and session: what is in flight was raised, in this order, and what the client is
    told is what was in flight. */
module ProtocolUpdates {
  import opened FlightVarTypes
  import C = ClientModel
  import CR = ClientRuns
  import CA = ClientAnswers
  import S = ServerModel
  import SR = ServerRuns
  import SU = SessionUpdates
  import opened OutputBuffers
  import opened Protocol
  import opened ProtocolInvariant
  import opened ProtocolSteps
  import opened ProtocolRuns

  // ----- the session's part of a run

  /** The event of the session in a step of the system, if there is one. */
  function EventOf(s: System, l: Label): seq<S.Event> {
    match l
    case Serve(known) => if s.up == [] || !s.server.open then [] else [S.Request(s.up[0], known)]
    case Raise(v, value) => [S.Raise(v, value)]
    case Send => [S.Send]
    case OtherSubscribes => [S.OtherSubscribes]
    case OtherUnsubscribes(id) => [S.OtherUnsubscribes(id)]
    case Hangup => [S.Hangup]
    case _ => []
  }

  ghost function EventsOf(labels: seq<Label>): seq<S.Event>
    decreases |labels|
  {
    if labels == [] then []
    else
      var front := labels[..|labels| - 1];
      EventsOf(front) + EventOf(Run(front), labels[|labels| - 1])
  }

  lemma StepIsEvent(s: System, l: Label)
    ensures var t, events := Step(s, l), EventOf(s, l);
            && |events| <= 1
            && (events == [] ==> t.server == s.server && t.said == s.said)
            && (events != [] ==>
                  t.server == S.Next(s.server, events[0]).0 && t.said == s.said + S.Next(s.server, events[0]).1)
  {
    hide S.Next, CR.Next, CR.OnMessage, Written, Unwritten, Fits;
  }

  /** In every run of the system the session goes through a run of its own. */
  lemma {:induction false} SessionRuns(labels: seq<Label>)
    ensures SR.Run(EventsOf(labels)) == (Run(labels).server, Run(labels).said)
    decreases |labels|
  {
    hide Step, EventOf, S.Next;
    if labels != [] {
      var front, l := labels[..|labels| - 1], labels[|labels| - 1];
      SessionRuns(front);
      StepIsEvent(Run(front), l);
      var events := EventOf(Run(front), l);
      if events == [] {
        assert EventsOf(labels) == EventsOf(front);
      } else {
        assert events == [events[0]];
        SU.RunOn(EventsOf(front), events[0]);
      }
    }
  }

  // ----- where updates come from

  /** For each update posted, and for each message on its way to the client, the step that raised it. */
  datatype Origins = Origins(posted: seq<int>, down: seq<int>)

  /** What a step adds to the posted updates and to the channel, n being its number. */
  function Traced(o: Origins, s: System, l: Label, n: nat): Origins {
    match l
    case Raise(_, _) => if S.Alive(s.server) then o.(posted := o.posted + [n]) else o
    case Send =>
      if o.posted == [] || s.server.posted == [] then o
      else
        Origins(o.posted[1..], if s.server.posted[0].v in s.server.mapper then o.down + [o.posted[0]] else o.down)
    case Serve(known) =>
      if s.up == [] || !s.server.open then o
      else o.(down := o.down + seq(|Written(S.Next(s.server, S.Request(s.up[0], known)).1)|, _ => -1))
    case Deliver => if s.down == [] || !s.client.connected || o.down == [] then o else o.(down := o.down[1..])
    case ReplyFails(k) => if k < |o.down| then o.(down := o.down[..k]) else o
    case _ => o
  }

  ghost function Trace(labels: seq<Label>): Origins
    decreases |labels|
  {
    if labels == [] then Origins([], [])
    else
      var n := |labels| - 1;
      Traced(Trace(labels[..n]), Run(labels[..n]), labels[n], n)
  }

  /** The session has said that v has id m. */
  predicate Granted(said: seq<Message>, v: VarId, m: SubsId) {
    exists i :: 0 <= i < |said| && SR.Grants(said[i], m) && said[i].v == v
  }

  /** The step raised a change of the value. */
  predicate Raised(labels: seq<Label>, i: int, v: VarId, value: Value) {
    0 <= i < |labels| && labels[i] == Raise(v, value)
  }

  /** Every update posted was raised by the step it is traced to, and in this order. */
  ghost predicate PostedOk(labels: seq<Label>, posted: seq<S.Posted>, from: seq<int>) {
    && |from| == |posted|
    && (forall k :: 0 <= k < |posted| ==> Raised(labels, from[k], posted[k].v, posted[k].value))
    && (forall j, k :: 0 <= j < k < |from| ==> from[j] < from[k])
  }

  /** Every update on its way was raised for a variable to which the session granted its id, and in this
      order. */
  ghost predicate DownOk(labels: seq<Label>, said: seq<Message>, down: seq<Message>, from: seq<int>) {
    && |from| == |down|
    && (forall k :: 0 <= k < |down| && down[k].VarUpdate? ==>
          exists v :: Raised(labels, from[k], v, down[k].value) && Granted(said, v, down[k].id))
    && (forall j, k :: 0 <= j < k < |down| && down[j].VarUpdate? && down[k].VarUpdate? ==> from[j] < from[k])
  }

  /** What is on its way was raised before what is still posted. */
  ghost predicate Before(down: seq<Message>, from: seq<int>, posted: seq<int>) {
    && |from| == |down|
    && forall j, k :: 0 <= j < |down| && 0 <= k < |posted| && down[j].VarUpdate? ==> from[j] < posted[k]
  }

  ghost predicate TraceOk(labels: seq<Label>, s: System, o: Origins) {
    && PostedOk(labels, s.server.posted, o.posted)
    && DownOk(labels, s.said, s.down, o.down)
    && Before(s.down, o.down, o.posted)
  }

  lemma PostedOn(labels: seq<Label>, l: Label, posted: seq<S.Posted>, from: seq<int>)
    requires PostedOk(labels, posted, from)
    ensures PostedOk(labels + [l], posted, from)
    ensures l.Raise? ==> PostedOk(labels + [l], posted + [S.Posted(l.v, l.value)], from + [|labels|])
    ensures posted != [] ==> PostedOk(labels + [l], posted[1..], from[1..])
  {
    var longer := labels + [l];
    assert longer[|labels|] == l && forall i :: 0 <= i < |labels| ==> longer[i] == labels[i];
  }

  lemma DownOn(labels: seq<Label>, l: Label, said: seq<Message>, more: seq<Message>, down: seq<Message>, from: seq<int>)
    requires DownOk(labels, said, down, from)
    ensures DownOk(labels + [l], said + more, down, from)
  {
    var longer := labels + [l];
    assert forall i :: 0 <= i < |labels| ==> longer[i] == labels[i];
    forall v, m | Granted(said, v, m) ensures Granted(said + more, v, m) {
      var i :| 0 <= i < |said| && SR.Grants(said[i], m) && said[i].v == v;
      assert (said + more)[i] == said[i];
    }
    forall k | 0 <= k < |down| && down[k].VarUpdate?
      ensures exists v :: Raised(longer, from[k], v, down[k].value) && Granted(said + more, v, down[k].id)
    {
      var v :| Raised(labels, from[k], v, down[k].value) && Granted(said, v, down[k].id);
      assert Raised(longer, from[k], v, down[k].value);
    }
  }

  /** Messages that are no updates are added to the channel. */
  lemma DownPlusOthers(labels: seq<Label>, said: seq<Message>, down: seq<Message>, from: seq<int>, out: seq<Message>,
                       posted: seq<int>)
    requires DownOk(labels, said, down, from) && Before(down, from, posted)
    requires forall i :: 0 <= i < |out| ==> !out[i].VarUpdate?
    ensures DownOk(labels, said, down + out, from + seq(|out|, _ => -1))
    ensures Before(down + out, from + seq(|out|, _ => -1), posted)
  {
    var d, f := down + out, from + seq(|out|, _ => -1);
    assert forall k :: 0 <= k < |down| ==> d[k] == down[k] && f[k] == from[k];
    assert forall k :: |down| <= k < |d| ==> d[k] == out[k - |down|];
  }

  /** The oldest posted update is sent. */
  lemma DownPlusUpdate(labels: seq<Label>, said: seq<Message>, down: seq<Message>, from: seq<int>,
                       posted: seq<S.Posted>, origins: seq<int>, m: SubsId)
    requires DownOk(labels, said, down, from) && PostedOk(labels, posted, origins) && Before(down, from, origins)
    requires posted != [] && Granted(said, posted[0].v, m)
    ensures DownOk(labels, said, down + [VarUpdate(m, posted[0].value)], from + [origins[0]])
    ensures Before(down + [VarUpdate(m, posted[0].value)], from + [origins[0]], origins[1..])
  {
    var d, f := down + [VarUpdate(m, posted[0].value)], from + [origins[0]];
    assert forall k :: 0 <= k < |down| ==> d[k] == down[k] && f[k] == from[k];
    assert Raised(labels, f[|down|], posted[0].v, posted[0].value);
  }

  /** Some of the channel is left. */
  lemma DownPart(labels: seq<Label>, said: seq<Message>, down: seq<Message>, from: seq<int>, posted: seq<int>, n: nat)
    requires DownOk(labels, said, down, from) && Before(down, from, posted) && n <= |down|
    ensures DownOk(labels, said, down[n..], from[n..]) && Before(down[n..], from[n..], posted)
    ensures DownOk(labels, said, down[..n], from[..n]) && Before(down[..n], from[..n], posted)
  {
  }

  // ----- every step

  lemma SendStep(s: System)
    ensures var t, p := Step(s, Send), s.server.posted;
            if p == [] then t.server.posted == [] && t.down == s.down && t.said == s.said
            else
              var out := if p[0].v in s.server.mapper then [VarUpdate(s.server.mapper[p[0].v], p[0].value)] else [];
              t.server.posted == p[1..] && t.down == s.down + out && t.said == s.said + out
  {
    hide Fits, Written, Unwritten;
    var p := s.server.posted;
    WrittenNothing();
    if p != [] && p[0].v in s.server.mapper {
      var msg := VarUpdate(s.server.mapper[p[0].v], p[0].value);
      ShortMessagesFit(msg.id, msg.value);
      WrittenOne(msg);
    }
    assert s.down + [] == s.down && s.said + [] == s.said;
  }

  /** A request is answered by replies, which are no updates. */
  lemma ServeStep(s: System, known: bool)
    requires s.up != [] && s.server.open
    ensures var t, out := Step(s, Serve(known)), S.Next(s.server, S.Request(s.up[0], known)).1;
            && t.server.posted == s.server.posted && t.down == s.down + Written(out) && t.said == s.said + out
            && forall i :: 0 <= i < |Written(out)| ==> !Written(out)[i].VarUpdate?
  {
    var out := S.Next(s.server, S.Request(s.up[0], known)).1;
    RepliesOnly(s.server, s.up[0], known);
    hide Fits, Written, Unwritten, S.Next;
    forall i | 0 <= i < |Written(out)| ensures !Written(out)[i].VarUpdate? {
      WrittenFits(out, Written(out)[i]);
    }
  }

  lemma RepliesOnly(t: S.Server, msg: Message, known: bool)
    requires t.open
    ensures var (u, out) := S.Next(t, S.Request(msg, known));
            u.posted == t.posted && forall m :: m in out ==> !m.VarUpdate?
  {
    hide S.AlreadyText, S.NoVarText, S.NoSubscriptionText, S.UnknownText;
  }

  /** Any other step changes neither what is posted nor what is said, except that a living session posts what
      is raised. */
  lemma OtherStep(s: System, l: Label)
    requires !l.Send? && !l.Serve? && !l.Deliver? && !l.ReplyFails?
    ensures var t := Step(s, l);
            && t.down == s.down && t.said == s.said
            && t.server.posted == if l.Raise? && S.Alive(s.server)
                                  then s.server.posted + [S.Posted(l.v, l.value)] else s.server.posted
  {
    hide CR.Next, CR.OnMessage, Fits, Written, Unwritten;
    WrittenNothing();
    assert s.down + [] == s.down && s.said + [] == s.said;
  }

  /** What is registered was granted. */
  lemma RegisteredIsGranted(labels: seq<Label>, v: VarId)
    requires var t := Run(labels).server; S.Alive(t) && v in t.mapper
    ensures Granted(Run(labels).said, v, Run(labels).server.mapper[v])
  {
    hide Run, SR.Run, SR.Grants;
    SessionRuns(labels);
    SU.IdsAreGranted(EventsOf(labels));
    var t, said := Run(labels).server, Run(labels).said;
    assert SU.Holds(said, v, t.mapper[v]);
  }

  lemma {:induction false} EveryTraceOk(labels: seq<Label>)
    ensures TraceOk(labels, Run(labels), Trace(labels))
    decreases |labels|
  {
    hide Step, PostedOk, DownOk, Before, Traced;
    if labels == [] {
      assert TraceOk([], START, Origins([], [])) by { NothingTraced(); }
    } else {
      var front, l := labels[..|labels| - 1], labels[|labels| - 1];
      EveryTraceOk(front);
      TraceStep(front, l);
      assert labels == front + [l];
    }
  }

  lemma NothingTraced()
    ensures TraceOk([], START, Origins([], []))
  {
  }

  lemma TraceStep(labels: seq<Label>, l: Label)
    requires TraceOk(labels, Run(labels), Trace(labels))
    ensures TraceOk(labels + [l], Step(Run(labels), l), Traced(Trace(labels), Run(labels), l, |labels|))
  {
    var s, o := Run(labels), Trace(labels);
    match l
    case Send => TraceSend(labels);
    case Serve(known) => TraceServe(labels, known);
    case Deliver => TraceDeliver(labels);
    case ReplyFails(k) => TraceFailure(labels, k);
    case _ => TraceOther(labels, l);
  }

  lemma TraceSend(labels: seq<Label>)
    requires TraceOk(labels, Run(labels), Trace(labels))
    ensures TraceOk(labels + [Send], Step(Run(labels), Send), Traced(Trace(labels), Run(labels), Send, |labels|))
  {
    hide Step, Run, Trace, DownOk, Before, Raised, Granted;
    var s, o := Run(labels), Trace(labels);
    SendStep(s);
    PostedOn(labels, Send, s.server.posted, o.posted);
    if s.server.posted != [] {
      var p := s.server.posted[0];
      if p.v in s.server.mapper {
        RegisteredIsGranted(labels, p.v);
        var msg := VarUpdate(s.server.mapper[p.v], p.value);
        DownPlusUpdate(labels, s.said, s.down, o.down, s.server.posted, o.posted, msg.id);
        DownOn(labels, Send, s.said, [msg], s.down + [msg], o.down + [o.posted[0]]);
      } else {
        DownOn(labels, Send, s.said, [], s.down, o.down);
        FewerPosted(s.down, o.down, o.posted);
        assert s.said + [] == s.said && s.down + [] == s.down;
      }
    } else {
      DownOn(labels, Send, s.said, [], s.down, o.down);
      assert s.said + [] == s.said;
    }
  }

  lemma FewerPosted(down: seq<Message>, from: seq<int>, posted: seq<int>)
    requires Before(down, from, posted) && posted != []
    ensures Before(down, from, posted[1..])
  {
  }

  lemma TraceServe(labels: seq<Label>, known: bool)
    requires TraceOk(labels, Run(labels), Trace(labels))
    ensures var l := Serve(known);
            TraceOk(labels + [l], Step(Run(labels), l), Traced(Trace(labels), Run(labels), l, |labels|))
  {
    hide Run, Trace, PostedOk, DownOk, Before, S.Next, Written, Unwritten;
    var s, o := Run(labels), Trace(labels);
    PostedOn(labels, Serve(known), s.server.posted, o.posted);
    if s.up != [] && s.server.open {
      ServeStep(s, known);
      var out := S.Next(s.server, S.Request(s.up[0], known)).1;
      DownPlusOthers(labels, s.said, s.down, o.down, Written(out), o.posted);
      DownOn(labels, Serve(known), s.said, out, s.down + Written(out), o.down + seq(|Written(out)|, _ => -1));
    } else {
      DownOn(labels, Serve(known), s.said, [], s.down, o.down);
      assert s.said + [] == s.said;
    }
  }

  lemma TraceDeliver(labels: seq<Label>)
    requires TraceOk(labels, Run(labels), Trace(labels))
    ensures TraceOk(labels + [Deliver], Step(Run(labels), Deliver),
              Traced(Trace(labels), Run(labels), Deliver, |labels|))
  {
    hide Run, Trace, PostedOk, Before, CR.OnMessage, Raised, Granted;
    var s, o := Run(labels), Trace(labels);
    PostedOn(labels, Deliver, s.server.posted, o.posted);
    DownOn(labels, Deliver, s.said, [], s.down, o.down);
    assert s.said + [] == s.said;
    if s.down != [] {
      DownPart(labels + [Deliver], s.said, s.down, o.down, o.posted, 1);
    }
  }

  lemma TraceFailure(labels: seq<Label>, k: nat)
    requires TraceOk(labels, Run(labels), Trace(labels))
    ensures var l := ReplyFails(k);
            TraceOk(labels + [l], Step(Run(labels), l), Traced(Trace(labels), Run(labels), l, |labels|))
  {
    hide Run, Trace, PostedOk, Before, Raised, Granted, CR.Next, CR.OnMessage, Fits, Written, S.Next;
    var s, o := Run(labels), Trace(labels);
    PostedOn(labels, ReplyFails(k), s.server.posted, o.posted);
    DownOn(labels, ReplyFails(k), s.said, [], s.down, o.down);
    assert s.said + [] == s.said;
    if k < |s.down| {
      DownPart(labels + [ReplyFails(k)], s.said, s.down, o.down, o.posted, k);
    }
  }

  lemma TraceOther(labels: seq<Label>, l: Label)
    requires !l.Send? && !l.Serve? && !l.Deliver? && !l.ReplyFails?
    requires TraceOk(labels, Run(labels), Trace(labels))
    ensures TraceOk(labels + [l], Step(Run(labels), l), Traced(Trace(labels), Run(labels), l, |labels|))
  {
    hide Step, Run, Trace, DownOk, Raised;
    var s, o := Run(labels), Trace(labels);
    OtherStep(s, l);
    PostedOn(labels, l, s.server.posted, o.posted);
    DownOn(labels, l, s.said, [], s.down, o.down);
    assert s.said + [] == s.said;
    if l.Raise? {
      LaterPosted(labels, s.said, s.down, o.down, o.posted);
    }
  }

  /** What is raised now was raised after all that is on its way. */
  lemma LaterPosted(labels: seq<Label>, said: seq<Message>, down: seq<Message>, from: seq<int>, posted: seq<int>)
    requires DownOk(labels, said, down, from) && Before(down, from, posted)
    ensures Before(down, from, posted + [|labels|])
  {
    forall j | 0 <= j < |down| && down[j].VarUpdate? ensures from[j] < |labels| {
      var v :| Raised(labels, from[j], v, down[j].value) && Granted(said, v, down[j].id);
    }
  }

  // ----- what follows

  /** In every run, every update on its way to the client carries a value that was raised for a variable to
      which the session has granted the id of the update. */
  lemma UpdatesWereRaised(labels: seq<Label>, k: nat)
    requires k < |Run(labels).down| && Run(labels).down[k].VarUpdate?
    ensures var s := Run(labels);
            exists v, i :: Raised(labels, i, v, s.down[k].value) && Granted(s.said, v, s.down[k].id)
  {
    hide Run, Trace, Raised, Granted;
    EveryTraceOk(labels);
  }

  /** Updates are on their way in the order in which their values were raised. */
  lemma UpdatesKeepOrder(labels: seq<Label>)
    ensures var s, from := Run(labels), Trace(labels).down;
            && |from| == |s.down|
            && (forall k :: 0 <= k < |s.down| && s.down[k].VarUpdate? ==>
                  0 <= from[k] < |labels| && labels[from[k]].Raise? && labels[from[k]].value == s.down[k].value)
            && (forall j, k ::
                  0 <= j < k < |s.down| && s.down[j].VarUpdate? && s.down[k].VarUpdate? ==> from[j] < from[k])
  {
    hide Run, Trace, Granted;
    EveryTraceOk(labels);
  }

  // ----- from the change to the handlers

  ghost predicate AllGranted(s: System) {
    forall v :: v in s.registered ==> Granted(s.said, v, s.registered[v])
  }

  /** Every registration of the session was granted, and what it granted stays said. */
  lemma {:induction false} RegistrationsWereGranted(labels: seq<Label>)
    ensures AllGranted(Run(labels))
    decreases |labels|
  {
    hide Step, Granted, S.Alive;
    if labels != [] {
      var front, l := labels[..|labels| - 1], labels[|labels| - 1];
      RegistrationsWereGranted(front);
      RegisteredStep(Run(front), l);
      var t := Run(labels);
      if S.Alive(t.server) {
        forall v | v in t.server.mapper ensures Granted(t.said, v, t.server.mapper[v]) {
          RegisteredIsGranted(labels, v);
        }
        EveryRunOk(labels);
        SessionPart(t);
        AliveTable(t);
      }
    }
  }

  /** While a session lives, what is registered is its table. */
  lemma AliveTable(s: System)
    requires ServerOk(s.server, s.said, s.registered) && S.Alive(s.server)
    ensures s.registered == s.server.mapper
  {
    hide SR.RunOk, SR.Held;
  }

  lemma RegisteredStep(s: System, l: Label)
    ensures var t := Step(s, l);
            && (!S.Alive(t.server) ==> t.registered == s.registered)
            && forall v, m :: Granted(s.said, v, m) ==> Granted(t.said, v, m)
  {
    hide CR.Next, CR.OnMessage, Fits, Written, Unwritten, S.Next, S.Alive;
    StepIsEvent(s, l);
    var t := Step(s, l);
    forall v, m | Granted(s.said, v, m) ensures Granted(t.said, v, m) {
      var i :| 0 <= i < |s.said| && SR.Grants(s.said[i], m) && s.said[i].v == v;
      assert t.said[i] == s.said[i];
    }
  }

  /** An id is granted for one variable only. */
  lemma GrantedForOne(labels: seq<Label>, v: VarId, w: VarId, m: SubsId)
    requires Granted(Run(labels).said, v, m) && Granted(Run(labels).said, w, m)
    ensures v == w
  {
    EveryRunOk(labels);
    SessionPart(Run(labels));
    var s := Run(labels);
    hide Run, SR.SessionOk, SR.Ordered, SR.Held, SR.Injective;
    OnceOnly(s.server, s.said);
  }

  lemma OnceOnly(t: S.Server, said: seq<Message>)
    requires SR.RunOk(t, said)
    ensures SR.GrantedOnce(said)
  {
  }

  /** From end to end: an update that arrives for a variable of the client calls the handlers of all its
      virtual subscriptions, once each and in their order, with a value that was raised for this variable,
      and changes nothing else. */
  lemma HandlersHearWhatWasRaised(labels: seq<Label>, v: VarId)
    requires var s := Run(labels);
             && s.client.connected && s.down != [] && s.down[0].VarUpdate?
             && v in s.client.db && s.client.db[v].master == s.down[0].id
    ensures var s, value := Run(labels), Run(labels).down[0].value;
            var c, d, n := s.client, Run(labels + [Deliver]).client, |s.client.calls|;
            && (exists i :: Raised(labels, i, v, value))
            && d == c.(calls := d.calls) && |d.calls| == n + |c.db[v].virtuals| && d.calls[..n] == c.calls
            && forall k :: 0 <= k < |c.db[v].virtuals| ==>
                 d.calls[n + k] == C.Call(c.db[v].virtuals[k].handler, v, value)
  {
    hide Run, Step, Ok, Raised, Granted, CR.OnMessage, CR.ClientOk;
    var s := Run(labels);
    RaisedForTheVariable(labels, v);
    EveryRunOk(labels);
    ClientPart(s);
    CA.CallsMade(s.client, v, s.down[0].value);
    RunOn(labels, Deliver);
    DeliveredUpdate(s);
  }

  lemma DeliveredUpdate(s: System)
    requires s.client.connected && s.down != [] && s.down[0].VarUpdate?
    ensures Step(s, Deliver).client == CR.OnMessage(s.client, VarUpdate(s.down[0].id, s.down[0].value))
  {
    hide CR.OnMessage;
  }

  lemma RaisedForTheVariable(labels: seq<Label>, v: VarId)
    requires var s := Run(labels);
             s.down != [] && s.down[0].VarUpdate? && v in s.client.db && s.client.db[v].master == s.down[0].id
    ensures exists i :: Raised(labels, i, v, Run(labels).down[0].value)
  {
    hide Run, Ok, Raised, Granted;
    var s := Run(labels);
    UpdatesWereRaised(labels, 0);
    RegistrationsWereGranted(labels);
    EveryRunOk(labels);
    EntriesAreRegistered(s, v);
    var w, i :| Raised(labels, i, w, s.down[0].value) && Granted(s.said, w, s.down[0].id);
    GrantedForOne(labels, v, w, s.down[0].id);
  }

  lemma EntriesAreRegistered(s: System, v: VarId)
    requires Ok(s) && v in s.client.db
    ensures v in s.registered && s.registered[v] == s.client.db[v].master
  {
    hide CR.ClientOk, ServerOk, SentOk, RepliesOk, RejectionsOk, LostAreLong, WhileJoined, Written, Clash, Count;
  }
}

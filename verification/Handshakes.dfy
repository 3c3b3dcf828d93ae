/** What a connection does with the messages it takes, told without its own handlers: the first one decides
    whether it is greeted, and from then on it is a session. */
module Handshakes {
  import opened FlightVarTypes
  import opened OutputBuffers
  import opened Framing
  import S = ServerModel
  import SR = ServerRuns
  import SU = SessionUpdates

  function Messages(deeds: seq<Deed>): seq<Message>
    decreases |deeds|
  {
    if deeds == [] then []
    else
      var before := Messages(deeds[..|deeds| - 1]);
      if deeds[|deeds| - 1].Took? then before + [deeds[|deeds| - 1].msg] else before
  }

  /** The event a deed is for the session, `taken` messages having been taken before. */
  function EventOf(d: Deed, taken: nat, answers: nat -> bool): seq<S.Event> {
    match d
    case Took(msg) =>
      if taken > 0 then [S.Request(msg, answers(taken))] else if msg.BeginSession? then [] else [S.Hangup]
    case Did(e) => [e]
    case Shut => [S.Hangup]
  }

  /** The events of the session: none for the message that opens it, a request for every later one, and the
      loss of the connection when it is shut or does not begin with an opening message. */
  function SessionEvents(deeds: seq<Deed>, answers: nat -> bool): seq<S.Event>
    decreases |deeds|
  {
    if deeds == [] then []
    else
      var front := deeds[..|deeds| - 1];
      SessionEvents(front, answers) + EventOf(deeds[|deeds| - 1], |Messages(front)|, answers)
  }

  /** The greeting of the server, if the first message was an opening one. */
  function Greeted(taken: seq<Message>): seq<Message> {
    if taken != [] && taken[0].BeginSession? then [Greeting()] else []
  }

  ghost predicate IsSession(c: Conn, answers: nat -> bool) {
    var (server, said) := SR.Run(SessionEvents(c.deeds, answers));
    c.server == server && c.out == Greeted(c.taken) + Written(said) && (c.taken == [] ==> said == [])
  }

  /** Which phase a connection is in. */
  ghost predicate PhaseOk(c: Conn) {
    && c.taken == Messages(c.deeds)
    && (c.phase.Handshake? ==> c.taken == [] && c.server.open)
    && (c.phase.Serving? ==> c.taken != [] && c.taken[0].BeginSession? && c.server.open)
    && (c.phase.Closed? ==> !c.server.open)
    && (c.taken != [] && !c.taken[0].BeginSession? ==> c.phase.Closed?)
    && (c.taken == [] || !c.taken[0].BeginSession? ==> c.server.mapper == map[] && c.out == [])
  }

  lemma DeedOn(deeds: seq<Deed>, d: Deed, answers: nat -> bool)
    ensures Messages(deeds + [d]) == if d.Took? then Messages(deeds) + [d.msg] else Messages(deeds)
    ensures SessionEvents(deeds + [d], answers) ==
            SessionEvents(deeds, answers) + EventOf(d, |Messages(deeds)|, answers)
  {
    assert (deeds + [d])[..|deeds|] == deeds;
  }

  /** The session goes on by an event and says what fits. */
  lemma SessionOn(events: seq<S.Event>, e: S.Event, greeted: seq<Message>)
    ensures var (s, said) := SR.Run(events);
            var (t, more) := SR.Run(events + [e]);
            t == S.Next(s, e).0 && greeted + Written(more) == greeted + Written(said) + Written(S.Next(s, e).1)
            && more == said + S.Next(s, e).1
  {
    hide S.Next, Written;
    SU.RunOn(events, e);
    var (s, said) := SR.Run(events);
    AtMostOne(s, e);
    WrittenMore(said, S.Next(s, e).1);
    assert greeted + (Written(said) + Written(S.Next(s, e).1)) == greeted + Written(said) + Written(S.Next(s, e).1);
  }

  lemma AtMostOne(s: S.Server, e: S.Event)
    ensures |S.Next(s, e).1| <= 1
  {
    hide S.AlreadyText, S.NoVarText, S.NoSubscriptionText, S.UnknownText;
  }

  lemma ShutKeeps(c: Conn, answers: nat -> bool)
    requires IsSession(c, answers) && PhaseOk(c)
    ensures var d := Shutdown(c); IsSession(d, answers) && PhaseOk(d)
  {
    hide S.Next, Written, SR.Run;
    DeedOn(c.deeds, Shut, answers);
    SessionOn(SessionEvents(c.deeds, answers), S.Hangup, Greeted(c.taken));
    HangupSaysNothing(c.server);
    WrittenNothing();
    assert c.out + [] == c.out;
  }

  lemma HangupSaysNothing(s: S.Server)
    ensures S.Next(s, S.Hangup) == (S.OnHangup(s), []) && !S.OnHangup(s).open
    ensures s.mapper == map[] ==> S.OnHangup(s).mapper == map[]
  {
  }

  lemma OutsideKeeps(c: Conn, e: S.Event, answers: nat -> bool)
    requires IsSession(c, answers) && PhaseOk(c) && !e.Request? && !e.Hangup?
    ensures var d := Outside(c, e); IsSession(d, answers) && PhaseOk(d)
  {
    hide S.Next, Written, SR.Run;
    DeedOn(c.deeds, Did(e), answers);
    SessionOn(SessionEvents(c.deeds, answers), e, Greeted(c.taken));
    OutsideSays(c.server, e);
    WrittenNothing();
    assert c.out + [] == c.out;
  }

  /** Without subscriptions nothing is said, and nobody but the client makes any. */
  lemma OutsideSays(s: S.Server, e: S.Event)
    requires !e.Request? && !e.Hangup?
    ensures var (t, out) := S.Next(s, e);
            t.open == s.open && (s.mapper == map[] ==> t.mapper == map[] && out == [])
  {
  }

  lemma TakeKeeps(c: Conn, msg: Message, answers: nat -> bool)
    requires IsSession(c, answers) && PhaseOk(c) && !c.phase.Closed?
    ensures var d := Handle(c, msg, answers(|c.taken|)); IsSession(d, answers) && PhaseOk(d)
  {
    hide S.Next, Written, SR.Run, S.OnRequest, S.OnHangup;
    DeedOn(c.deeds, Took(msg), answers);
    var events := SessionEvents(c.deeds, answers);
    WrittenNothing();
    if c.phase.Handshake? {
      if !msg.BeginSession? {
        SessionOn(events, S.Hangup, []);
        HangupSaysNothing(c.server);
        assert [] + Written([]) == [];
      } else {
        assert events + [] == events && [] + [Greeting()] == [Greeting()] + [];
        assert (c.taken + [msg])[0] == msg;
      }
    } else {
      SessionOn(events, S.Request(msg, answers(|c.taken|)), Greeted(c.taken));
      RequestIsServed(c.server, msg, answers(|c.taken|));
      assert (c.taken + [msg])[0] == c.taken[0];
    }
  }

  lemma RequestIsServed(s: S.Server, msg: Message, known: bool)
    requires s.open
    ensures S.Next(s, S.Request(msg, known)) == S.OnRequest(s, msg, known)
  {
    hide S.OnRequest;
  }

  lemma ArrivalKeeps(c: Conn, a: Arrival, answers: nat -> bool)
    requires IsSession(c, answers) && PhaseOk(c)
    ensures var d := OnArrival(c, a, answers); IsSession(d, answers) && PhaseOk(d)
  {
    hide Handle, Shutdown, Outside, SR.Run, Written, Codec.Decode, S.Next;
    var bytes := c.pending + BytesOf(a);
    forall p: Text ensures IsSession(c.(pending := p), answers) && PhaseOk(c.(pending := p)) {
    }
    if a.Elsewhere? {
      if !a.e.Request? && !a.e.Hangup? {
        OutsideKeeps(c, a.e, answers);
      }
    } else {
      ShutKeeps(c, answers);
      ShutKeeps(c.(pending := bytes), answers);
      if !c.phase.Closed? && Codec.Decode(bytes).Got? {
        TakeKeeps(c.(pending := Codec.Decode(bytes).rest), Codec.Decode(bytes).value, answers);
      }
    }
  }

  lemma {:induction false} EveryConnectionOk(arrivals: seq<Arrival>, answers: nat -> bool)
    ensures var c := Run(arrivals, answers); IsSession(c, answers) && PhaseOk(c)
    decreases |arrivals|
  {
    hide IsSession, PhaseOk, OnArrival;
    if arrivals == [] {
      assert IsSession(START, answers) && PhaseOk(START) by { NewConnection(answers); }
    } else {
      EveryConnectionOk(arrivals[..|arrivals| - 1], answers);
      ArrivalKeeps(Run(arrivals[..|arrivals| - 1], answers), arrivals[|arrivals| - 1], answers);
    }
  }

  lemma NewConnection(answers: nat -> bool)
    ensures IsSession(START, answers) && PhaseOk(START)
  {
    WrittenNothing();
  }

  // ----- what follows

  /** The first message decides. Before it nothing is written. If it opens a session, the first thing written
      is the opening message of the server, with its name and version. If it is anything else, the
      connection is closed, nothing is ever written and no variable is subscribed. A connection that serves
      has been opened. */
  lemma FirstMessageDecides(arrivals: seq<Arrival>, answers: nat -> bool)
    ensures var c := Run(arrivals, answers);
            && (c.taken == [] ==> c.out == [] && !c.phase.Serving?)
            && (c.taken != [] && c.taken[0].BeginSession? ==>
                  && c.out != [] && c.out[0].BeginSession? && c.out[0].version == 0x0100
                  && |c.out[0].peer| == 17
                  && forall i :: 0 <= i < 17 ==> c.out[0].peer[i] == "FlightVars Server"[i] as int)
            && (c.taken != [] && !c.taken[0].BeginSession? ==>
                  c.out == [] && c.server.mapper == map[] && c.phase.Closed?)
            && (c.phase.Serving? ==> c.taken != [] && c.taken[0].BeginSession?)
  {
    EveryConnectionOk(arrivals, answers);
    hide SR.Run, Written, Run, SessionEvents;
  }

  /** What a connection does after its opening is what a session does with the requests taken, and all it
      writes after its greeting is what the session says and fits. */
  lemma ConnectionIsSession(arrivals: seq<Arrival>, answers: nat -> bool)
    ensures var c := Run(arrivals, answers);
            var (server, said) := SR.Run(SessionEvents(c.deeds, answers));
            && c.server == server && c.taken == Messages(c.deeds)
            && (c.taken != [] && c.taken[0].BeginSession? ==> c.out != [] && c.out[1..] == Written(said))
  {
    EveryConnectionOk(arrivals, answers);
    hide SR.Run, Written, Run, SessionEvents;
  }

  /** Bytes that cannot be read, out of a full buffer or as a message. */
  predicate Unusable(c: Conn, a: Arrival) {
    var bytes := c.pending + BytesOf(a);
    (a.Unreadable? && |bytes| >= 0x1_0000) || ((a.Bytes? || a.Unreadable?) && Codec.Decode(bytes).Bad?)
  }

  /** Whether a message is in its place: an opening one as the first, a request or an update later. */
  predicate InPlace(msg: Message, taken: nat) {
    if taken == 0 then msg.BeginSession?
    else msg.SubscriptionRequest? || msg.UnsubscriptionRequest? || msg.VarUpdate?
  }

  /** In every run a connection that was open is closed by an arrival if and only if it is a reset, or the end
      of the stream once a session was opened, or brings bytes that cannot be read or a message out of
      place. A closed one takes and writes nothing more of its client. */
  lemma ClosesExactly(arrivals: seq<Arrival>, a: Arrival, answers: nat -> bool)
    ensures var c, d := Run(arrivals, answers), Run(arrivals + [a], answers);
            if c.phase.Closed? then
              d.phase.Closed? && d.taken == c.taken && (!a.Elsewhere? ==> d == c)
            else
              d.phase.Closed? <==>
                || a.Reset? || (a.End? && c.taken != []) || Unusable(c, a)
                || (|d.taken| > |c.taken| && !InPlace(d.taken[|c.taken|], |c.taken|))
  {
    EveryConnectionOk(arrivals, answers);
    ArrivalOn(arrivals, a, answers);
    hide Run, IsSession, Written, Codec.Decode;
    var c := Run(arrivals, answers);
    var bytes := c.pending + BytesOf(a);
    if Codec.Decode(bytes).Got? && !c.phase.Closed? {
      HandleCloses(c.(pending := Codec.Decode(bytes).rest), Codec.Decode(bytes).value, answers(|c.taken|));
    }
    hide Handle, S.Next;
  }

  lemma ArrivalOn(arrivals: seq<Arrival>, a: Arrival, answers: nat -> bool)
    ensures Run(arrivals + [a], answers) == OnArrival(Run(arrivals, answers), a, answers)
  {
    hide OnArrival;
    assert (arrivals + [a])[..|arrivals|] == arrivals;
  }

  lemma HandleCloses(c: Conn, msg: Message, known: bool)
    requires !c.phase.Closed? && c.server.open && (c.phase.Handshake? <==> c.taken == [])
    ensures var d := Handle(c, msg, known);
            d.taken == c.taken + [msg] && (d.phase.Closed? <==> !InPlace(msg, |c.taken|))
  {
    hide Written;
  }
}

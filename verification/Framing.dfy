/** How a connection of the server cuts messages out of a stream of bytes that arrives in pieces. */
module Framing {
  import opened FlightVarTypes
  import opened Codec
  import opened OutputBuffers
  import S = ServerModel

  datatype Phase = Handshake | Serving | Closed

  /** What has happened to a connection, apart from how its bytes arrived: a message was taken out of them,
      the delegate or another session did something, or the connection was shut. */
  datatype Deed =
    | Took(msg: Message)
    | Did(e: S.Event)
    | Shut

  /** `pending` are the bytes received and not used up, `taken` the messages taken out of them, `deeds` all
      that has happened, and `out` the messages written to the connection. */
  datatype Conn = Conn(
    phase: Phase,
    pending: Text,
    taken: seq<Message>,
    deeds: seq<Deed>,
    server: S.Server,
    out: seq<Message>)

  const START := Conn(Handshake, [], [], [], S.START, [])

  /** The input buffer of a session. */
  const INPUT_SIZE := 0x1_0000

  function Greeting(): Message { BeginSession(S.Ascii("FlightVars Server"), 0x0100) }

  function Close(c: Conn): Conn {
    c.(phase := Closed, server := S.OnHangup(c.server))
  }

  function Shutdown(c: Conn): Conn {
    Close(c).(deeds := c.deeds + [Shut])
  }

  /** Something that is not due to the client happens to the session. */
  function Outside(c: Conn, e: S.Event): Conn {
    var (t, out) := S.Next(c.server, e);
    c.(server := t, out := c.out + Written(out), deeds := c.deeds + [Did(e)])
  }

  /** A whole message was read. `known` is the delegate's answer to a subscription. A reply too long for
      the output buffer fails to be written; the failure is taken for a message that is still incomplete,
      so the connection goes on reading. */
  function Handle(c: Conn, msg: Message, known: bool): Conn {
    var d := c.(taken := c.taken + [msg], deeds := c.deeds + [Took(msg)]);
    match c.phase
    case Handshake =>
      if msg.BeginSession? then d.(phase := Serving, out := c.out + [Greeting()]) else Close(d)
    case Serving =>
      var (t, replies) := S.OnRequest(c.server, msg, known);
      d.(server := t, out := c.out + Written(replies), phase := if t.open then Serving else Closed)
    case Closed => c
  }

  /** Some bytes arrived: at most one message is taken out of those pending. */
  function OnRead(c: Conn, chunk: Text, answers: nat -> bool): Conn {
    if c.phase.Closed? then c
    else
      var bytes := c.pending + chunk;
      match Decode(bytes)
      case Short => c.(pending := bytes)
      case Bad(_) => Shutdown(c.(pending := bytes))
      case Got(msg, rest) => Handle(c.(pending := rest), msg, answers(|c.taken|))
  }

  /** A read of the connection ends with some bytes; with bytes that fill the input buffer in such a way
      that they cannot be read out of it; with the end of the stream; or with a reset. In between, updates
      are raised and sent, and other sessions are served. */
  datatype Arrival =
    | Bytes(chunk: Text)
    | Unreadable(chunk: Text)
    | End
    | Reset
    | Elsewhere(e: S.Event)

  /** While it waits for the greeting, the server takes the end of the stream for an incomplete message. */
  function OnArrival(c: Conn, a: Arrival, answers: nat -> bool): Conn {
    match a
    case Bytes(chunk) => OnRead(c, chunk, answers)
    case Unreadable(chunk) =>
      if c.phase.Closed? || |c.pending + chunk| < INPUT_SIZE then OnRead(c, chunk, answers)
      else Shutdown(c.(pending := c.pending + chunk))
    case End => if c.phase.Serving? then Shutdown(c) else c
    case Reset => if c.phase.Closed? then c else Shutdown(c)
    case Elsewhere(e) => if e.Request? || e.Hangup? then c else Outside(c, e)
  }

  function Run(arrivals: seq<Arrival>, answers: nat -> bool): Conn
    decreases |arrivals|
  {
    if arrivals == [] then START
    else OnArrival(Run(arrivals[..|arrivals| - 1], answers), arrivals[|arrivals| - 1], answers)
  }

  /** The same, had every message arrived whole and at once. */
  function Replay(deeds: seq<Deed>, answers: nat -> bool): Conn
    decreases |deeds|
  {
    if deeds == [] then START
    else
      var before := Replay(deeds[..|deeds| - 1], answers);
      match deeds[|deeds| - 1]
      case Took(msg) => Handle(before, msg, answers(|before.taken|))
      case Did(e) => Outside(before, e)
      case Shut => Shutdown(before)
  }

  function BytesOf(a: Arrival): Text {
    if a.Bytes? || a.Unreadable? then a.chunk else []
  }

  function Received(arrivals: seq<Arrival>): Text
    decreases |arrivals|
  {
    if arrivals == [] then [] else Received(arrivals[..|arrivals| - 1]) + BytesOf(arrivals[|arrivals| - 1])
  }

  function EncodeAll(msgs: seq<Message>): Text {
    if msgs == [] then [] else Encode(msgs[0]) + EncodeAll(msgs[1..])
  }

  lemma {:induction false} EncodeSplit(msgs: seq<Message>, k: nat)
    requires k <= |msgs|
    ensures EncodeAll(msgs) == EncodeAll(msgs[..k]) + EncodeAll(msgs[k..])
  {
    hide Encode;
    if k > 0 {
      EncodeSplit(msgs[1..], k - 1);
      assert msgs[..k][1..] == msgs[1..][..k - 1];
    }
  }

  lemma DecodeNothing()
    ensures Decode([]) == Short
  {
  }

  /** Bytes that are the beginning of encoded messages read as incomplete or as the first of them. */
  lemma FirstMessage(bytes: Text, msgs: seq<Message>)
    requires bytes <= EncodeAll(msgs) && forall i :: 0 <= i < |msgs| ==> Encodable(msgs[i])
    ensures match Decode(bytes)
            case Short => msgs == [] || |bytes| < |Encode(msgs[0])|
            case Bad(_) => false
            case Got(msg, rest) => msgs != [] && msg == msgs[0] && bytes == Encode(msg) + rest
  {
    hide Encode, Decode, Encodable;
    if msgs == [] {
      DecodeNothing();
    } else {
      var e := Encode(msgs[0]);
      if |bytes| < |e| {
        PrefixIsShort(msgs[0], |bytes|);
        assert bytes == e[..|bytes|];
      } else {
        RoundTrip(msgs[0], bytes[|e|..]);
        assert bytes == e + bytes[|e|..];
      }
    }
  }

  lemma HandleTakes(c: Conn, msg: Message, known: bool)
    requires !c.phase.Closed?
    ensures var d := Handle(c, msg, known);
            d.taken == c.taken + [msg] && d.pending == c.pending && d.deeds == c.deeds + [Took(msg)]
    ensures forall p :: Handle(c.(pending := p), msg, known) == Handle(c, msg, known).(pending := p)
  {
    hide Written, S.OnRequest;
  }

  /** The messages taken are the first ones sent, in order and each once; the connection is in the state
      it would be in had they arrived whole, between the same other deeds; and while it is not closed no
      byte is lost. */
  ghost predicate Faithful(c: Conn, msgs: seq<Message>, received: Text, answers: nat -> bool) {
    && c.taken <= msgs
    && c == Replay(c.deeds, answers).(pending := c.pending)
    && (!c.phase.Closed? ==> received == EncodeAll(c.taken) + c.pending)
  }

  lemma ReadKeepsFaith(c: Conn, msgs: seq<Message>, received: Text, chunk: Text, answers: nat -> bool)
    requires Faithful(c, msgs, received, answers) && received + chunk <= EncodeAll(msgs)
    requires forall i :: 0 <= i < |msgs| ==> Encodable(msgs[i])
    ensures Faithful(OnRead(c, chunk, answers), msgs, received + chunk, answers)
  {
    hide Encode, Decode, Handle, Encodable, EncodeAll, Replay, Close, Written;
    if !c.phase.Closed? {
      var bytes := c.pending + chunk;
      assert EncodeAll(c.taken) + bytes == received + chunk;
      Remaining(c, msgs, bytes);
      FirstMessage(bytes, msgs[|c.taken|..]);
      if Decode(bytes).Got? {
        OneMore(c, msgs, bytes, answers);
      }
    }
  }

  lemma Remaining(c: Conn, msgs: seq<Message>, bytes: Text)
    requires c.taken <= msgs && EncodeAll(c.taken) + bytes <= EncodeAll(msgs)
    ensures bytes <= EncodeAll(msgs[|c.taken|..])
  {
    hide Encode;
    EncodeSplit(msgs, |c.taken|);
    assert msgs[..|c.taken|] == c.taken;
    var a, b := EncodeAll(c.taken), EncodeAll(msgs[|c.taken|..]);
    assert bytes == (a + bytes)[|a|..] && b == (a + b)[|a|..];
  }

  lemma ReplayOn(c: Conn, deed: Deed, answers: nat -> bool)
    requires c == Replay(c.deeds, answers).(pending := c.pending)
    ensures Replay(c.deeds + [deed], answers) ==
            var before := Replay(c.deeds, answers);
            match deed
            case Took(msg) => Handle(before, msg, answers(|before.taken|))
            case Did(e) => Outside(before, e)
            case Shut => Shutdown(before)
  {
    assert (c.deeds + [deed])[..|c.deeds|] == c.deeds;
  }

  /** Arrivals that bring no message. */
  lemma OtherKeepsFaith(c: Conn, msgs: seq<Message>, received: Text, a: Arrival, answers: nat -> bool)
    requires Faithful(c, msgs, received, answers) && !a.Bytes?
             && OnArrival(c, a, answers) != OnRead(c, BytesOf(a), answers)
    ensures Faithful(OnArrival(c, a, answers), msgs, received + BytesOf(a), answers)
  {
    hide Replay, S.Next, S.OnHangup, EncodeAll, OnRead, Written;
    ReplayOn(c, Shut, answers);
    if a.Elsewhere? {
      ReplayOn(c, Did(a.e), answers);
    }
    assert received + [] == received;
  }

  /** However the bytes of the messages sent are split into pieces, whatever happens in between, and wherever
      the stream ends or the input buffer fails, the connection is faithful to them. */
  lemma {:induction false} SplittingDoesNotMatter(msgs: seq<Message>, arrivals: seq<Arrival>, answers: nat -> bool)
    requires Received(arrivals) <= EncodeAll(msgs) && forall i :: 0 <= i < |msgs| ==> Encodable(msgs[i])
    ensures Faithful(Run(arrivals, answers), msgs, Received(arrivals), answers)
    decreases |arrivals|
  {
    hide Encodable, EncodeAll, OnRead, OnArrival, Faithful;
    if arrivals == [] {
      StartIsFaithful(msgs, answers);
    } else {
      var front, a := arrivals[..|arrivals| - 1], arrivals[|arrivals| - 1];
      var c := Run(front, answers);
      assert Received(front) <= Received(arrivals);
      SplittingDoesNotMatter(msgs, front, answers);
      ReadKeepsFaith(c, msgs, Received(front), BytesOf(a), answers);
      if OnArrival(c, a, answers) != OnRead(c, BytesOf(a), answers) {
        BytesAreRead(c, a, answers);
        OtherKeepsFaith(c, msgs, Received(front), a, answers);
      }
    }
  }

  lemma BytesAreRead(c: Conn, a: Arrival, answers: nat -> bool)
    ensures a.Bytes? ==> OnArrival(c, a, answers) == OnRead(c, BytesOf(a), answers)
  {
  }

  lemma StartIsFaithful(msgs: seq<Message>, answers: nat -> bool)
    ensures Faithful(START, msgs, [], answers)
  {
  }

  // ----- when the input buffer cannot fail

  /** An arrival whose bytes can all be read. */
  function Readable(a: Arrival): Arrival {
    if a.Unreadable? then Bytes(a.chunk) else a
  }

  function AllReadable(arrivals: seq<Arrival>): seq<Arrival> {
    seq(|arrivals|, i requires 0 <= i < |arrivals| => Readable(arrivals[i]))
  }

  /** The server is never behind by as much as the input buffer holds. */
  ghost predicate NeverFull(arrivals: seq<Arrival>, answers: nat -> bool) {
    forall k :: 0 <= k < |arrivals| && !Run(arrivals[..k], answers).phase.Closed? ==>
      |Received(arrivals[..k]) + BytesOf(arrivals[k])| < |EncodeAll(Run(arrivals[..k], answers).taken)| + INPUT_SIZE
  }

  /** As long as less than the input buffer holds has arrived and is not taken, every arrival can be read. */
  lemma {:induction false} RoomMeansReadable(msgs: seq<Message>, arrivals: seq<Arrival>, answers: nat -> bool)
    requires Received(arrivals) <= EncodeAll(msgs) && forall i :: 0 <= i < |msgs| ==> Encodable(msgs[i])
    requires NeverFull(arrivals, answers)
    ensures Run(arrivals, answers) == Run(AllReadable(arrivals), answers)
    decreases |arrivals|
  {
    hide Encodable, EncodeAll, OnRead;
    if arrivals != [] {
      var front, a := arrivals[..|arrivals| - 1], arrivals[|arrivals| - 1];
      assert Received(front) <= Received(arrivals);
      assert NeverFull(front, answers) by {
        assert forall k :: 0 <= k < |front| ==> front[..k] == arrivals[..k];
      }
      RoomMeansReadable(msgs, front, answers);
      SplittingDoesNotMatter(msgs, front, answers);
      var all := AllReadable(arrivals);
      assert all[..|all| - 1] == AllReadable(front);
      assert arrivals[..|arrivals| - 1] == front;
    }
  }

  lemma EncodeNothing()
    ensures EncodeAll([]) == []
  {
  }

  lemma OneMore(c: Conn, msgs: seq<Message>, bytes: Text, answers: nat -> bool)
    requires !c.phase.Closed? && c.taken <= msgs && c == Replay(c.deeds, answers).(pending := c.pending)
    requires |c.taken| < |msgs| && Decode(bytes).Got? && Decode(bytes).value == msgs[|c.taken|]
    requires bytes == Encode(msgs[|c.taken|]) + Decode(bytes).rest
    ensures var d := Handle(c.(pending := Decode(bytes).rest), Decode(bytes).value, answers(|c.taken|));
            && d.taken <= msgs
            && d == Replay(d.deeds, answers).(pending := d.pending)
            && EncodeAll(c.taken) + bytes == EncodeAll(d.taken) + d.pending
  {
    hide Encode, Decode, Handle, Replay;
    var msg, rest := Decode(bytes).value, Decode(bytes).rest;
    ReplayOn(c, Took(msg), answers);
    HandleTakes(Replay(c.deeds, answers), msg, answers(|c.taken|));
    HandleTakes(c, msg, answers(|c.taken|));
    var longer := c.taken + [msg];
    EncodeSplit(longer, |c.taken|);
    assert longer[..|c.taken|] == c.taken && longer[|c.taken|..] == [msg];
    assert EncodeAll([msg]) == Encode(msg) + EncodeAll([]);
  }

  /** A read takes the next message exactly when the whole of it has arrived, and never more than one. */
  lemma TakenWhenComplete(msgs: seq<Message>, arrivals: seq<Arrival>, chunk: Text, answers: nat -> bool)
    requires Received(arrivals) + chunk <= EncodeAll(msgs) && forall i :: 0 <= i < |msgs| ==> Encodable(msgs[i])
    ensures var c := Run(arrivals, answers);
            var d := OnRead(c, chunk, answers);
            !c.phase.Closed? ==>
              var k := |c.taken|;
              var complete := k < |msgs| && |Encode(msgs[k])| <= |c.pending + chunk|;
              d.taken == if complete then c.taken + [msgs[k]] else c.taken
  {
    hide Encode, EncodeAll, Encodable, OnRead, Run, Replay, Received;
    assert Received(arrivals) <= EncodeAll(msgs);
    SplittingDoesNotMatter(msgs, arrivals, answers);
    var c := Run(arrivals, answers);
    if !c.phase.Closed? {
      assert EncodeAll(c.taken) + (c.pending + chunk) == EncodeAll(c.taken) + c.pending + chunk;
      ReadTakes(c, msgs, chunk, answers);
    }
  }

  lemma ReadTakes(c: Conn, msgs: seq<Message>, chunk: Text, answers: nat -> bool)
    requires !c.phase.Closed? && c.taken <= msgs && EncodeAll(c.taken) + (c.pending + chunk) <= EncodeAll(msgs)
    requires forall i :: 0 <= i < |msgs| ==> Encodable(msgs[i])
    ensures var k := |c.taken|;
            var complete := k < |msgs| && |Encode(msgs[k])| <= |c.pending + chunk|;
            OnRead(c, chunk, answers).taken == if complete then c.taken + [msgs[k]] else c.taken
  {
    hide Encode, EncodeAll, Decode, Encodable, Handle;
    var bytes := c.pending + chunk;
    Remaining(c, msgs, bytes);
    FirstMessage(bytes, msgs[|c.taken|..]);
    if Decode(bytes).Got? {
      HandleTakes(c.(pending := Decode(bytes).rest), Decode(bytes).value, answers(|c.taken|));
    }
  }

  // ----- replies that do not fit

  /** The reply to a subscription is lost exactly when the variable is too long for what it says. The
      session keeps the subscription even if its reply was lost, and the connection goes on. */
  lemma LostReply(c: Conn, v: VarId, known: bool)
    requires c.phase.Serving? && c.server.open
    ensures var d := Handle(c, SubscriptionRequest(v), known);
            var longest := if v in c.server.mapper then LONGEST_REFUSED
                           else if known then LONGEST_GRANTED else LONGEST_REJECTED;
            && d.phase.Serving? && (d.out == c.out <==> Length(v) > longest)
            && (v in d.server.mapper <==> v in c.server.mapper || known)
            && (v !in c.server.mapper && known ==> d.server.mapper[v] in d.server.live)
  {
    hide Fits, Written;
    RepliesFit(c.server, v, known);
    WrittenOne(S.OnSubscription(c.server, v, known).1);
  }
}

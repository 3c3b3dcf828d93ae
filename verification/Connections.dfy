/** A connection of the server at work: it marks its input buffer, parses, goes back to the mark when the
    message is incomplete, and serializes the replies. */
module Connections {
  import opened FlightVarTypes
  import opened Codec
  import opened Streams
  import opened Serialization
  import opened OutputBuffers
  import opened Framing
  import opened SessionHandling

  /** Reads a message, leaving the buffer marked where it began if it could not be read. */
  method Unmarshall(input: InputStream) returns (r: Fetched<Message>)
    modifies input
    ensures Follows(r, input.pending, Decode(old(input.pending)))
    ensures input.marked == if r.Value? then None else Some(old(input.pending))
  {
    hide Decode;
    input.SetMark();
    r := Deserialize(input);
    if r.Value? {
      input.UnsetMark();
    }
  }

  class Connection {
    const input: InputStream
    const session: Session
    var phase: Phase
    var out: seq<Message>
    ghost var taken: seq<Message>
    ghost var deeds: seq<Deed>

    ghost function State(): Conn
      reads this, input, session, session.mapper, session.delegate
    {
      Conn(phase, input.pending, taken, deeds, session.State(), out)
    }

    ghost predicate Valid()
      reads this, session, session.mapper, session.delegate
    {
      session.Valid() && (phase != Closed ==> session.open)
    }

    constructor (delegate: Delegate)
      ensures Valid() && fresh(input) && fresh(session) && fresh(session.mapper) && session.delegate == delegate
      ensures State() == Framing.START.(server := State().server)
      ensures State().server == ServerModel.Server(map[], delegate.live, delegate.next, [], true)
    {
      input := new InputStream([]);
      session := new Session(delegate);
      phase, out, taken, deeds := Handshake, [], [], [];
    }

    /** Serializes a reply into a buffer of its own. */
    method WriteMessage(msg: Message) returns (r: Attempt)
      modifies this`out
      ensures r.Done? <==> Fits(msg)
      ensures out == if r.Done? then old(out) + [msg] else old(out)
    {
      hide Encode;
      var buffer := new OutputStream(OUTPUT_SIZE);
      :- Serialize(buffer, msg);
      out := out + [msg];
      r := Done;
    }

    method Close()
      requires Valid()
      modifies this`phase, session`open, session.mapper, session.delegate`live
      ensures Valid() && State() == Framing.Close(old(State()))
    {
      phase := Closed;
      session.OnHangup();
    }

    method Shutdown()
      requires Valid()
      modifies this`phase, this`deeds, session`open, session.mapper, session.delegate`live
      ensures Valid() && State() == Framing.Shutdown(old(State()))
    {
      Close();
      deeds := deeds + [Shut];
    }

    /** Bytes have arrived. */
    method OnRead(chunk: Text, known: bool)
      requires Valid()
      modifies this, input, session`open, session.mapper, session.delegate
      ensures Valid()
      ensures var c := Framing.OnRead(old(State()), chunk, (n: nat) => known);
              State() == if c.phase.Closed? then c.(pending := input.pending) else c
    {
      hide Decode, ServerModel.OnRequest, Encode, Written;
      if phase == Closed {
        return;
      }
      input.Receive(chunk);
      var r := Unmarshall(input);
      match r
      case OutOfBytes =>
        input.Reset();
      case Failed(_) =>
        Shutdown();
      case Value(msg) =>
        OnMessage(msg, known);
    }

    /** The stream has ended. */
    method OnEnd()
      requires Valid()
      modifies this`phase, this`deeds, input`pending, session`open, session.mapper, session.delegate`live
      ensures Valid()
      ensures State() == Framing.OnArrival(old(State()), End, (n: nat) => false).(pending := input.pending)
      ensures input.pending == if old(phase) == Handshake && old(input.marked).Some? then old(input.marked).value
                               else old(input.pending)
    {
      if phase == Serving {
        Shutdown();
      } else if phase == Handshake {
        input.Reset();
      }
    }

    /** The connection was reset by the client. */
    method OnReset()
      requires Valid()
      modifies this`phase, this`deeds, session`open, session.mapper, session.delegate`live
      ensures Valid() && State() == Framing.OnArrival(old(State()), Framing.Reset, (n: nat) => false)
    {
      if phase != Closed {
        Shutdown();
      }
    }

    /** The delegate reports a change. */
    method OnVarUpdate(v: VarId, value: Value)
      requires Valid()
      modifies this`deeds, session`posted
      ensures Valid()
      ensures State() == Framing.OnArrival(old(State()), Elsewhere(ServerModel.Raise(v, value)), (n: nat) => false)
    {
      hide Written;
      WrittenNothing();
      session.HandleVarUpdate(v, value);
      deeds := deeds + [Did(ServerModel.Raise(v, value))];
    }

    /** The io_service sends the oldest update posted. */
    method OnPosted()
      requires Valid() && session.posted != []
      modifies this`deeds, this`out, session`posted, session.mapper, session.delegate`live
      ensures Valid()
      ensures State() == Framing.OnArrival(old(State()), Elsewhere(ServerModel.Send), (n: nat) => false)
    {
      hide Written, Fits;
      var updates := session.SendVarUpdate();
      WrittenNothing();
      if updates != [] {
        WrittenOne(updates[0]);
        assert updates == [updates[0]];
        var _ := WriteMessage(updates[0]);
      }
      deeds := deeds + [Did(ServerModel.Send)];
    }

    method OnMessage(msg: Message, known: bool)
      requires Valid() && phase != Closed && input.marked == None
      modifies this, input`pending, session`open, session.mapper, session.delegate
      ensures Valid() && State() == Framing.Handle(old(State()), msg, known)
    {
      hide ServerModel.OnRequest, Fits, Written;
      taken, deeds := taken + [msg], deeds + [Took(msg)];
      if phase == Handshake {
        if msg.BeginSession? {
          GreetingFits();
          var _ := WriteMessage(Greeting());
          phase := Serving;
        } else {
          Close();
        }
      } else {
        var replies := session.OnReadRequest(msg, known);
        WrittenNothing();
        if replies != [] {
          WrittenOne(replies[0]);
          var sent := WriteMessage(replies[0]);
          assert replies == [replies[0]];
          if sent.Eof? {
            input.Reset();
          }
        }
        if !session.open {
          phase := Closed;
        }
      }
    }
  }

  lemma GreetingFits()
    ensures Fits(Greeting())
  {
  }
}

/** The serializer and the deserializer: they write and read a message field by field on streams, and
    what they do is what the wire format says. */
module Serialization {
  import opened FlightVarTypes
  import opened Codec
  import opened Streams

  // ----- the serializer

  method WriteText(out: OutputStream, t: Text) returns (r: Attempt)
    modifies out
    ensures r.Done? <==> |PutText(t)| <= old(out.room)
    ensures r.Done? ==> out.written == old(out.written) + PutText(t) && out.room == old(out.room) - |PutText(t)|
  {
    var length := PutWord(|t| % 0x1_0000);
    :- WriteAll(out, length);
    :- WriteAll(out, t);
    r := Done;
  }

  method WriteValue(out: OutputStream, v: Value) returns (r: Attempt)
    modifies out
    ensures r.Done? <==> |PutValue(v)| <= old(out.room)
    ensures r.Done? ==> out.written == old(out.written) + PutValue(v) && out.room == old(out.room) - |PutValue(v)|
  {
    hide PutPayload;
    :- WriteAll(out, [ValueCode(v)]);
    :- WritePayload(out, v);
    r := Done;
  }

  method WritePayload(out: OutputStream, v: Value) returns (r: Attempt)
    modifies out
    ensures r.Done? <==> |PutPayload(v)| <= old(out.room)
    ensures r.Done? ==> out.written == old(out.written) + PutPayload(v) && out.room == old(out.room) - |PutPayload(v)|
  {
    hide PutWord, PutDword;
    match v {
      case BoolValue(flag) => :- WriteAll(out, [if flag then 1 else 0]);
      case ByteValue(b) => :- WriteAll(out, [b]);
      case WordValue(w) => :- WriteAll(out, PutWord(w));
      case DwordValue(d) => :- WriteAll(out, PutDword(d));
      case FloatValue(significand, exponent) =>
        :- WriteAll(out, PutDword(significand));
        :- WriteAll(out, PutDword(exponent));
    }
    r := Done;
  }

  method WriteVar(out: OutputStream, v: VarId) returns (r: Attempt)
    modifies out
    ensures r.Done? <==> |PutText(v.group)| + |PutText(v.name)| <= old(out.room)
    ensures r.Done? ==> out.written == old(out.written) + (PutText(v.group) + PutText(v.name))
    ensures r.Done? ==> out.room == old(out.room) - |PutText(v.group)| - |PutText(v.name)|
  {
    hide PutText;
    :- WriteText(out, v.group);
    :- WriteText(out, v.name);
    r := Done;
  }

  method WriteSubscriptionReply(out: OutputStream, msg: Message) returns (r: Attempt)
    requires msg.SubscriptionReply?
    modifies out
    ensures r.Done? <==> |PutContents(msg)| <= old(out.room)
    ensures r.Done? ==> out.written == old(out.written) + PutContents(msg)
    ensures r.Done? ==> out.room == old(out.room) - |PutContents(msg)|
  {
    hide PutText, PutId, StatusCode;
    ghost var was, s, g, n, i, c := out.written, [StatusCode(msg.status)], PutText(msg.v.group), PutText(msg.v.name),
      PutId(msg.id), PutText(msg.cause);
    :- WriteAll(out, [StatusCode(msg.status)]);
    :- WriteVar(out, msg.v);
    :- WriteAll(out, PutId(msg.id));
    :- WriteText(out, msg.cause);
    Regroup(was + s + (g + n), i, c);
    Regroup(was + s, g + n, i + c);
    Regroup(g, n, i + c);
    Regroup(was, s, g + (n + (i + c)));
    r := Done;
  }

  method WriteUnsubscriptionReply(out: OutputStream, msg: Message) returns (r: Attempt)
    requires msg.UnsubscriptionReply?
    modifies out
    ensures r.Done? <==> |PutContents(msg)| <= old(out.room)
    ensures r.Done? ==> out.written == old(out.written) + PutContents(msg)
    ensures r.Done? ==> out.room == old(out.room) - |PutContents(msg)|
  {
    hide PutText, PutId, StatusCode;
    ghost var was := out.written;
    :- WriteAll(out, [StatusCode(msg.status)]);
    :- WriteAll(out, PutId(msg.id));
    Regroup(was, [StatusCode(msg.status)], PutId(msg.id));
    :- WriteText(out, msg.cause);
    Regroup(was, [StatusCode(msg.status)] + PutId(msg.id), PutText(msg.cause));
    Regroup([StatusCode(msg.status)], PutId(msg.id), PutText(msg.cause));
    r := Done;
  }

  method WriteContents(out: OutputStream, msg: Message) returns (r: Attempt)
    modifies out
    ensures r.Done? <==> |PutContents(msg)| <= old(out.room)
    ensures r.Done? ==> out.written == old(out.written) + PutContents(msg)
    ensures r.Done? ==> out.room == old(out.room) - |PutContents(msg)|
  {
    hide PutText, PutWord, PutId, PutValue, StatusCode;
    match msg {
      case BeginSession(peer, version) =>
        :- WriteText(out, peer);
        :- WriteAll(out, PutWord(version));
      case EndSession(cause) =>
        :- WriteText(out, cause);
      case SubscriptionRequest(v) =>
        :- WriteVar(out, v);
      case SubscriptionReply(_, _, _, _) =>
        :- WriteSubscriptionReply(out, msg);
      case UnsubscriptionRequest(id) =>
        :- WriteAll(out, PutId(id));
      case UnsubscriptionReply(_, _, _) =>
        :- WriteUnsubscriptionReply(out, msg);
      case VarUpdate(id, value) =>
        :- WriteAll(out, PutId(id));
        :- WriteValue(out, value);
    }
    r := Done;
  }

  /** A message is written whole exactly when its encoding fits. */
  method Serialize(out: OutputStream, msg: Message) returns (r: Attempt)
    modifies out
    ensures r.Done? <==> |Encode(msg)| <= old(out.room)
    ensures r.Done? ==> out.written == old(out.written) + Encode(msg)
  {
    hide PutContents;
    :- WriteAll(out, PutWord(TypeCode(msg)));
    :- WriteContents(out, msg);
    :- WriteAll(out, PutWord(END_MARK));
    r := Done;
  }

  // ----- the deserializer

  datatype Fetched<+T> = Value(value: T) | OutOfBytes | Failed(error: ProtocolError)
  {
    predicate IsFailure() { !Value? }

    function PropagateFailure<U>(): Fetched<U>
      requires IsFailure()
    {
      if OutOfBytes? then Fetched<U>.OutOfBytes else Fetched<U>.Failed(error)
    }

    function Extract(): T
      requires !IsFailure()
    {
      value
    }
  }

  /** What was fetched from a stream is what reading its bytes gives; after a value the stream is left
      with the rest. */
  predicate Follows<T(==)>(r: Fetched<T>, left: Text, spec: Reading<T>) {
    match spec
    case Got(value, rest) => r == Fetched<T>.Value(value) && left == rest
    case Short => r.OutOfBytes?
    case Bad(error) => r == Fetched<T>.Failed(error)
  }

  method FetchBytes(s: InputStream, count: nat) returns (r: Fetched<Text>)
    modifies s`pending
    ensures if |old(s.pending)| < count then r.OutOfBytes?
            else r == Value(old(s.pending)[..count]) && s.pending == old(s.pending)[count..]
  {
    var dest := new byte[count];
    var got := ReadAll(s, dest, count);
    if got.Eof? {
      return OutOfBytes;
    }
    return Value(dest[..count]);
  }

  method FetchByte(s: InputStream) returns (r: Fetched<byte>)
    modifies s`pending
    ensures Follows(r, s.pending, ReadByte(old(s.pending)))
  {
    var b :- FetchBytes(s, 1);
    return Value(b[0]);
  }

  method FetchWord(s: InputStream) returns (r: Fetched<word>)
    modifies s`pending
    ensures Follows(r, s.pending, ReadWord(old(s.pending)))
  {
    var b :- FetchBytes(s, 2);
    return Value(b[0] as int * 0x100 + b[1]);
  }

  method FetchDword(s: InputStream) returns (r: Fetched<dword>)
    modifies s`pending
    ensures Follows(r, s.pending, ReadDword(old(s.pending)))
  {
    var b :- FetchBytes(s, 4);
    return Value(((b[0] as int * 0x100 + b[1]) * 0x100 + b[2]) * 0x100 + b[3]);
  }

  method FetchText(s: InputStream) returns (r: Fetched<Text>)
    modifies s`pending
    ensures Follows(r, s.pending, ReadText(old(s.pending)))
  {
    hide ReadWord;
    var n :- FetchWord(s);
    r := FetchBytes(s, n);
  }

  method FetchValue(s: InputStream) returns (r: Fetched<FlightVarTypes.Value>)
    modifies s`pending
    ensures Follows(r, s.pending, ReadValue(old(s.pending)))
  {
    hide ReadByte, ReadPayload;
    var code :- FetchByte(s);
    r := FetchPayload(s, code);
  }

  method FetchPayload(s: InputStream, code: byte) returns (r: Fetched<FlightVarTypes.Value>)
    modifies s`pending
    ensures Follows(r, s.pending, ReadPayload(code, old(s.pending)))
  {
    hide ReadByte, ReadWord, ReadDword;
    match code
    case 0 =>
      var b :- FetchByte(s);
      return Value(BoolValue(b > 0));
    case 1 =>
      var b :- FetchByte(s);
      return Value(ByteValue(b));
    case 2 =>
      var w :- FetchWord(s);
      return Value(WordValue(w));
    case 3 =>
      var d :- FetchDword(s);
      return Value(DwordValue(d));
    case 4 =>
      var significand :- FetchDword(s);
      var exponent :- FetchDword(s);
      return Value(FloatValue(significand, exponent));
    case _ =>
      return Failed(InvalidVariableType(code));
  }

  method FetchVar(s: InputStream) returns (r: Fetched<VarId>)
    modifies s`pending
    ensures Follows(r, s.pending, ReadVar(old(s.pending)))
  {
    hide ReadText;
    var group :- FetchText(s);
    var name :- FetchText(s);
    return Value(VarId(group, name));
  }

  method FetchContents(s: InputStream, code: word) returns (r: Fetched<Message>)
    modifies s`pending
    ensures Follows(r, s.pending, ReadContents(code, old(s.pending)))
  {
    hide ReadByte, ReadWord, ReadDword, ReadText, ReadVar, ReadValue, StatusOf;
    match code
    case 0x700 =>
      var peer :- FetchText(s);
      var version :- FetchWord(s);
      return Value(BeginSession(peer, version));
    case 0x701 =>
      var cause :- FetchText(s);
      return Value(EndSession(cause));
    case 0x702 =>
      var v :- FetchVar(s);
      return Value(SubscriptionRequest(v));
    case 0x703 =>
      var status :- FetchByte(s);
      var v :- FetchVar(s);
      var id :- FetchDword(s);
      var cause :- FetchText(s);
      return Value(SubscriptionReply(StatusOf(status), v, id, cause));
    case 0x704 =>
      var id :- FetchDword(s);
      return Value(UnsubscriptionRequest(id));
    case 0x705 =>
      var status :- FetchByte(s);
      var id :- FetchDword(s);
      var cause :- FetchText(s);
      return Value(UnsubscriptionReply(StatusOf(status), id, cause));
    case 0x706 =>
      var id :- FetchDword(s);
      var value :- FetchValue(s);
      return Value(VarUpdate(id, value));
    case _ =>
      return Failed(InvalidMessageType(code - 0x700));
  }

  method Deserialize(s: InputStream) returns (r: Fetched<Message>)
    modifies s`pending
    ensures Follows(r, s.pending, Decode(old(s.pending)))
  {
    hide ReadWord, ReadContents;
    var code :- FetchWord(s);
    var msg :- FetchContents(s, code);
    var mark :- FetchWord(s);
    if mark != END_MARK {
      return Failed(InvalidTermination(mark));
    }
    return Value(msg);
  }
}

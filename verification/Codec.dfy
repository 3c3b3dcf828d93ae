/** The wire format of the messages: what bytes stand for a message and how bytes are read back. */
module Codec {
  import opened FlightVarTypes

  datatype ProtocolError =
    | InvalidMessageType(kind: int)
    | InvalidVariableType(code: byte)
    | InvalidTermination(mark: word)

  /** The value read from the front of some bytes and the bytes after it, or why there is none. */
  datatype Reading<+T> = Got(value: T, rest: Text) | Short | Bad(error: ProtocolError)
  {
    predicate IsFailure() { !Got? }

    function PropagateFailure<U>(): Reading<U>
      requires IsFailure()
    {
      if Short? then Reading<U>.Short else Reading<U>.Bad(error)
    }

    function Extract(): (T, Text)
      requires !IsFailure()
    {
      (value, rest)
    }
  }

  // ----- writing

  function PutWord(w: word): Text { [w / 0x100, w % 0x100] }

  function PutDword(d: dword): Text { PutWord(d / 0x1_0000) + PutWord(d % 0x1_0000) }

  /** The length is truncated to sixteen bits, the contents are not. */
  function PutText(t: Text): Text { PutWord(|t| % 0x1_0000) + t }

  /** Identifiers are 32 bits wide. */
  function PutId(id: SubsId): Text { PutDword(id % 0x1_0000_0000) }

  function StatusCode(s: Status): byte {
    match s
    case Subscribed => 0
    case Unsubscribed => 1
    case NoSuchVar => 2
    case NoSuchSubscription => 3
    case VarAlreadySubscribed => 4
    case Unknown => 5
    case Unnamed(code) => code
  }

  function ValueCode(v: Value): byte {
    match v
    case BoolValue(_) => 0
    case ByteValue(_) => 1
    case WordValue(_) => 2
    case DwordValue(_) => 3
    case FloatValue(_, _) => 4
  }

  function PutPayload(v: Value): Text {
    match v
    case BoolValue(flag) => [if flag then 1 else 0]
    case ByteValue(b) => [b]
    case WordValue(w) => PutWord(w)
    case DwordValue(d) => PutDword(d)
    case FloatValue(significand, exponent) => PutDword(significand) + PutDword(exponent)
  }

  function PutValue(v: Value): Text {
    [ValueCode(v)] + PutPayload(v)
  }

  function TypeCode(msg: Message): word {
    match msg
    case BeginSession(_, _) => 0x700
    case EndSession(_) => 0x701
    case SubscriptionRequest(_) => 0x702
    case SubscriptionReply(_, _, _, _) => 0x703
    case UnsubscriptionRequest(_) => 0x704
    case UnsubscriptionReply(_, _, _) => 0x705
    case VarUpdate(_, _) => 0x706
  }

  function PutContents(msg: Message): Text {
    match msg
    case BeginSession(peer, version) => PutText(peer) + PutWord(version)
    case EndSession(cause) => PutText(cause)
    case SubscriptionRequest(v) => PutText(v.group) + PutText(v.name)
    case SubscriptionReply(status, v, id, cause) =>
      [StatusCode(status)] + (PutText(v.group) + (PutText(v.name) + (PutId(id) + PutText(cause))))
    case UnsubscriptionRequest(id) => PutId(id)
    case UnsubscriptionReply(status, id, cause) => [StatusCode(status)] + (PutId(id) + PutText(cause))
    case VarUpdate(id, value) => PutId(id) + PutValue(value)
  }

  const END_MARK: word := 0x0d0a

  function Encode(msg: Message): Text {
    PutWord(TypeCode(msg)) + (PutContents(msg) + PutWord(END_MARK))
  }

  // ----- reading

  function ReadByte(s: Text): Reading<byte> {
    if |s| < 1 then Short else Got(s[0], s[1..])
  }

  function ReadWord(s: Text): Reading<word> {
    if |s| < 2 then Short else Got(s[0] as int * 0x100 + s[1], s[2..])
  }

  function ReadDword(s: Text): Reading<dword> {
    var (high, s1) :- ReadWord(s);
    var (low, s2) :- ReadWord(s1);
    Got(high * 0x1_0000 + low, s2)
  }

  function ReadText(s: Text): Reading<Text> {
    var (n, s1) :- ReadWord(s);
    if |s1| < n then Short else Got(s1[..n], s1[n..])
  }

  function StatusOf(code: byte): Status {
    match code
    case 0 => Subscribed
    case 1 => Unsubscribed
    case 2 => NoSuchVar
    case 3 => NoSuchSubscription
    case 4 => VarAlreadySubscribed
    case 5 => Unknown
    case _ => Unnamed(code)
  }

  function ReadPayload(code: byte, s: Text): Reading<Value> {
    match code
    case 0 => var (b, s1) :- ReadByte(s); Got(BoolValue(b > 0), s1)
    case 1 => var (b, s1) :- ReadByte(s); Got(ByteValue(b), s1)
    case 2 => var (w, s1) :- ReadWord(s); Got(WordValue(w), s1)
    case 3 => var (d, s1) :- ReadDword(s); Got(DwordValue(d), s1)
    case 4 =>
      var (significand, s1) :- ReadDword(s);
      var (exponent, s2) :- ReadDword(s1);
      Got(FloatValue(significand, exponent), s2)
    case _ => Bad(InvalidVariableType(code))
  }

  function ReadValue(s: Text): Reading<Value> {
    var (code, s1) :- ReadByte(s);
    ReadPayload(code, s1)
  }

  function ReadVar(s: Text): Reading<VarId> {
    var (group, s1) :- ReadText(s);
    var (name, s2) :- ReadText(s1);
    Got(VarId(group, name), s2)
  }

  function ReadContents(code: word, s: Text): Reading<Message> {
    match code
    case 0x700 =>
      var (peer, s1) :- ReadText(s);
      var (version, s2) :- ReadWord(s1);
      Got(BeginSession(peer, version), s2)
    case 0x701 =>
      var (cause, s1) :- ReadText(s);
      Got(EndSession(cause), s1)
    case 0x702 =>
      var (v, s1) :- ReadVar(s);
      Got(SubscriptionRequest(v), s1)
    case 0x703 =>
      var (status, s1) :- ReadByte(s);
      var (v, s2) :- ReadVar(s1);
      var (id, s3) :- ReadDword(s2);
      var (cause, s4) :- ReadText(s3);
      Got(SubscriptionReply(StatusOf(status), v, id, cause), s4)
    case 0x704 =>
      var (id, s1) :- ReadDword(s);
      Got(UnsubscriptionRequest(id), s1)
    case 0x705 =>
      var (status, s1) :- ReadByte(s);
      var (id, s2) :- ReadDword(s1);
      var (cause, s3) :- ReadText(s2);
      Got(UnsubscriptionReply(StatusOf(status), id, cause), s3)
    case 0x706 =>
      var (id, s1) :- ReadDword(s);
      var (value, s2) :- ReadValue(s1);
      Got(VarUpdate(id, value), s2)
    case _ => Bad(InvalidMessageType(code - 0x700))
  }

  function ReadEnd(s: Text): Reading<()> {
    var (mark, s1) :- ReadWord(s);
    if mark == END_MARK then Got((), s1) else Bad(InvalidTermination(mark))
  }

  function Decode(s: Text): Reading<Message> {
    var (code, s1) :- ReadWord(s);
    var (msg, s2) :- ReadContents(code, s1);
    var (_, s3) :- ReadEnd(s2);
    Got(msg, s3)
  }

  // ----- the round trip

  predicate IsShort(t: Text) { |t| < 0x1_0000 }

  /** What the format has room for: texts whose length fits sixteen bits and ids of 32 bits. */
  predicate Encodable(msg: Message) {
    match msg
    case BeginSession(peer, _) => IsShort(peer)
    case EndSession(cause) => IsShort(cause)
    case SubscriptionRequest(v) => IsShort(v.group) && IsShort(v.name)
    case SubscriptionReply(_, v, id, cause) => IsShort(v.group) && IsShort(v.name) && id < 0x1_0000_0000
        && IsShort(cause)
    case UnsubscriptionRequest(id) => id < 0x1_0000_0000
    case UnsubscriptionReply(_, id, cause) => id < 0x1_0000_0000 && IsShort(cause)
    case VarUpdate(id, _) => id < 0x1_0000_0000
  }

  lemma WordBack(w: word, rest: Text)
    ensures ReadWord(PutWord(w) + rest) == Got(w, rest)
  {
  }

  lemma DwordBack(d: dword, rest: Text)
    ensures ReadDword(PutDword(d) + rest) == Got(d, rest)
  {
    WordBack(d / 0x1_0000, PutWord(d % 0x1_0000) + rest);
    WordBack(d % 0x1_0000, rest);
    assert PutDword(d) + rest == PutWord(d / 0x1_0000) + (PutWord(d % 0x1_0000) + rest);
  }

  lemma TextBack(t: Text, rest: Text)
    requires IsShort(t)
    ensures ReadText(PutText(t) + rest) == Got(t, rest)
  {
    WordBack(|t|, t + rest);
    assert PutText(t) + rest == PutWord(|t|) + (t + rest);
  }

  lemma IdBack(id: SubsId, rest: Text)
    requires id < 0x1_0000_0000
    ensures ReadDword(PutId(id) + rest) == Got(id, rest)
  {
    hide PutDword, ReadDword;
    DwordBack(id, rest);
  }

  lemma ByteBack(b: byte, rest: Text)
    ensures ReadByte([b] + rest) == Got(b, rest)
  {
  }

  lemma StatusBack(s: Status)
    ensures StatusOf(StatusCode(s)) == s
  {
  }

  lemma PayloadBack(v: Value, rest: Text)
    ensures ReadPayload(ValueCode(v), PutPayload(v) + rest) == Got(v, rest)
  {
    hide PutWord, ReadWord, PutDword, ReadDword, ReadByte;
    match v
    case BoolValue(flag) => ByteBack(if flag then 1 else 0, rest);
    case ByteValue(b) => ByteBack(b, rest);
    case WordValue(w) => WordBack(w, rest);
    case DwordValue(d) => DwordBack(d, rest);
    case FloatValue(significand, exponent) =>
      Regroup(PutDword(significand), PutDword(exponent), rest);
      DwordBack(significand, PutDword(exponent) + rest);
      DwordBack(exponent, rest);
  }

  lemma ValueBack(v: Value, rest: Text)
    ensures ReadValue(PutValue(v) + rest) == Got(v, rest)
  {
    hide PutPayload, ReadPayload, ReadByte;
    Regroup([ValueCode(v)], PutPayload(v), rest);
    ByteBack(ValueCode(v), PutPayload(v) + rest);
    PayloadBack(v, rest);
  }

  lemma VarBack(v: VarId, rest: Text)
    requires IsShort(v.group) && IsShort(v.name)
    ensures ReadVar(PutText(v.group) + (PutText(v.name) + rest)) == Got(v, rest)
  {
    hide PutText, ReadText;
    TextBack(v.group, PutText(v.name) + rest);
    TextBack(v.name, rest);
  }

  lemma Regroup(a: Text, b: Text, c: Text)
    ensures (a + b) + c == a + (b + c)
  {
  }

  lemma ContentsBack(msg: Message, rest: Text)
    requires Encodable(msg)
    ensures ReadContents(TypeCode(msg), PutContents(msg) + rest) == Got(msg, rest)
  {
    hide PutText, ReadText, PutDword, ReadDword, PutId, ReadByte, StatusCode, StatusOf, PutValue, ReadValue, ReadVar,
         PutWord, ReadWord;
    match msg
    case BeginSession(peer, version) =>
      Regroup(PutText(peer), PutWord(version), rest);
      TextBack(peer, PutWord(version) + rest);
      WordBack(version, rest);
    case EndSession(cause) =>
      TextBack(cause, rest);
    case SubscriptionRequest(v) =>
      Regroup(PutText(v.group), PutText(v.name), rest);
      VarBack(v, rest);
    case SubscriptionReply(status, v, id, cause) =>
      var g, n, i, c := PutText(v.group), PutText(v.name), PutId(id), PutText(cause);
      assert PutContents(msg) + rest == [StatusCode(status)] + (g + (n + (i + (c + rest))));
      StatusBack(status);
      ByteBack(StatusCode(status), g + (n + (i + (c + rest))));
      VarBack(v, i + (c + rest));
      IdBack(id, c + rest);
      TextBack(cause, rest);
    case UnsubscriptionRequest(id) =>
      IdBack(id, rest);
    case UnsubscriptionReply(status, id, cause) =>
      var i, c := PutId(id), PutText(cause);
      assert PutContents(msg) + rest == [StatusCode(status)] + (i + (c + rest));
      StatusBack(status);
      ByteBack(StatusCode(status), i + (c + rest));
      IdBack(id, c + rest);
      TextBack(cause, rest);
    case VarUpdate(id, value) =>
      Regroup(PutId(id), PutValue(value), rest);
      IdBack(id, PutValue(value) + rest);
      ValueBack(value, rest);
  }

  /** Reading the encoding of a message, whatever follows it, gives the message back and leaves exactly
      what followed. */
  lemma {:induction false} RoundTrip(msg: Message, rest: Text)
    requires Encodable(msg)
    ensures Decode(Encode(msg) + rest) == Got(msg, rest)
  {
    hide PutContents, ReadContents;
    var c := PutContents(msg);
    assert Encode(msg) + rest == PutWord(TypeCode(msg)) + (c + (PutWord(END_MARK) + rest));
    WordBack(TypeCode(msg), c + (PutWord(END_MARK) + rest));
    ContentsBack(msg, PutWord(END_MARK) + rest);
    WordBack(END_MARK, rest);
  }

  lemma ReadTextIsShort(s: Text)
    ensures ReadText(s).Got? ==> IsShort(ReadText(s).value)
  {
  }

  lemma ReadVarIsShort(s: Text)
    ensures ReadVar(s).Got? ==> IsShort(ReadVar(s).value.group) && IsShort(ReadVar(s).value.name)
  {
    hide ReadText;
    ReadTextIsShort(s);
    if ReadText(s).Got? {
      ReadTextIsShort(ReadText(s).rest);
    }
  }

  lemma ReadIsEncodable(code: word, s: Text)
    ensures ReadContents(code, s).Got? ==> Encodable(ReadContents(code, s).value)
  {
    hide ReadByte, ReadWord, ReadDword, ReadText, ReadVar, ReadValue, StatusOf, IsShort;
    match code
    case 0x700 => ReadTextIsShort(s);
    case 0x701 => ReadTextIsShort(s);
    case 0x702 => ReadVarIsShort(s);
    case 0x703 =>
      if ReadContents(code, s).Got? {
        var s1 := ReadByte(s).rest;
        ReadVarIsShort(s1);
        ReadTextIsShort(ReadDword(ReadVar(s1).rest).rest);
      }
    case 0x705 =>
      if ReadContents(code, s).Got? {
        ReadTextIsShort(ReadDword(ReadByte(s).rest).rest);
      }
    case _ =>
  }

  /** Nothing but encodable messages is ever read. */
  lemma DecodedIsEncodable(s: Text)
    ensures Decode(s).Got? ==> Encodable(Decode(s).value)
  {
    hide ReadWord, ReadContents, Encodable;
    if Decode(s).Got? {
      ReadIsEncodable(ReadWord(s).value, ReadWord(s).rest);
    }
  }

  /** The round trip holds exactly for the messages the format has room for. */
  lemma RoundTripExactly(msg: Message, rest: Text)
    ensures Decode(Encode(msg) + rest) == Got(msg, rest) <==> Encodable(msg)
  {
    hide Encode, Decode;
    DecodedIsEncodable(Encode(msg) + rest);
    if Encodable(msg) {
      RoundTrip(msg, rest);
    }
  }

  // ----- bytes that come later

  /** What was read from s is read from s + t too, and what could not be read because of an error still
      cannot. */
  predicate Settled<T(==)>(before: Reading<T>, after: Reading<T>, t: Text) {
    match before
    case Got(value, rest) => after == Got(value, rest + t)
    case Short => true
    case Bad(error) => after == Bad(error)
  }

  lemma SettledByte(s: Text, t: Text)
    ensures Settled(ReadByte(s), ReadByte(s + t), t)
  {
  }

  lemma SettledWord(s: Text, t: Text)
    ensures Settled(ReadWord(s), ReadWord(s + t), t)
  {
  }

  lemma SettledDword(s: Text, t: Text)
    ensures Settled(ReadDword(s), ReadDword(s + t), t)
  {
    hide ReadWord;
    SettledWord(s, t);
    if ReadWord(s).Got? {
      SettledWord(ReadWord(s).rest, t);
    }
  }

  lemma SettledText(s: Text, t: Text)
    ensures Settled(ReadText(s), ReadText(s + t), t)
  {
    hide ReadWord;
    SettledWord(s, t);
    if ReadText(s).Got? {
      var s1, n := ReadWord(s).rest, ReadWord(s).value;
      assert (s1 + t)[..n] == s1[..n] && (s1 + t)[n..] == s1[n..] + t;
    }
  }

  lemma SettledVar(s: Text, t: Text)
    ensures Settled(ReadVar(s), ReadVar(s + t), t)
  {
    hide ReadText;
    SettledText(s, t);
    if ReadText(s).Got? {
      SettledText(ReadText(s).rest, t);
    }
  }

  lemma SettledPayload(code: byte, s: Text, t: Text)
    ensures Settled(ReadPayload(code, s), ReadPayload(code, s + t), t)
  {
    hide ReadByte, ReadWord, ReadDword;
    SettledByte(s, t);
    SettledWord(s, t);
    SettledDword(s, t);
    if ReadDword(s).Got? {
      SettledDword(ReadDword(s).rest, t);
    }
  }

  lemma SettledValue(s: Text, t: Text)
    ensures Settled(ReadValue(s), ReadValue(s + t), t)
  {
    hide ReadByte, ReadPayload;
    SettledByte(s, t);
    if ReadByte(s).Got? {
      SettledPayload(ReadByte(s).value, ReadByte(s).rest, t);
    }
  }

  lemma SettledContents(code: word, s: Text, t: Text)
    ensures Settled(ReadContents(code, s), ReadContents(code, s + t), t)
  {
    hide ReadByte, ReadWord, ReadDword, ReadText, ReadVar, ReadValue, StatusOf;
    match code
    case 0x700 =>
      SettledText(s, t);
      if ReadText(s).Got? {
        SettledWord(ReadText(s).rest, t);
      }
    case 0x701 => SettledText(s, t);
    case 0x702 => SettledVar(s, t);
    case 0x703 =>
      SettledByte(s, t);
      if ReadByte(s).Got? {
        var s1 := ReadByte(s).rest;
        SettledVar(s1, t);
        if ReadVar(s1).Got? {
          var s2 := ReadVar(s1).rest;
          SettledDword(s2, t);
          if ReadDword(s2).Got? {
            SettledText(ReadDword(s2).rest, t);
          }
        }
      }
    case 0x704 => SettledDword(s, t);
    case 0x705 =>
      SettledByte(s, t);
      if ReadByte(s).Got? {
        var s1 := ReadByte(s).rest;
        SettledDword(s1, t);
        if ReadDword(s1).Got? {
          SettledText(ReadDword(s1).rest, t);
        }
      }
    case 0x706 =>
      SettledDword(s, t);
      if ReadDword(s).Got? {
        SettledValue(ReadDword(s).rest, t);
      }
    case _ =>
  }

  /** Bytes that arrive later never change a message that was read, nor an error that was found. */
  lemma LaterBytes(s: Text, t: Text)
    ensures Settled(Decode(s), Decode(s + t), t)
  {
    hide ReadWord, ReadContents;
    SettledWord(s, t);
    if ReadWord(s).Got? {
      var code, s1 := ReadWord(s).value, ReadWord(s).rest;
      SettledContents(code, s1, t);
      if ReadContents(code, s1).Got? {
        SettledWord(ReadContents(code, s1).rest, t);
      }
    }
  }

  /** Any part of an encoding that is not all of it reads as incomplete, never as a message and never as
      an error. */
  lemma {:induction false} PrefixIsShort(msg: Message, k: nat)
    requires Encodable(msg) && k < |Encode(msg)|
    ensures Decode(Encode(msg)[..k]) == Short
  {
    hide Encode, Decode, Encodable;
    var e := Encode(msg);
    RoundTrip(msg, []);
    LaterBytes(e[..k], e[k..]);
    assert e[..k] + e[k..] == e == e + [];
  }
}

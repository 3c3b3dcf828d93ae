/** The bytes on the wire, one by one: what the format looks like to somebody who listens. */
module WireBytes {
  import opened FlightVarTypes
  import opened Codec
  import Endian

  // ----- the order of bytes

  /** Words travel with their highest byte first. */
  lemma WordBytes(w: word)
    ensures var b := PutWord(w); |b| == 2 && b[0] as int * 0x100 + b[1] == w
  {
  }

  lemma DwordBytes(d: dword)
    ensures var b := PutDword(d);
            && |b| == 4
            && b[0] as int * 0x100_0000 + b[1] as int * 0x1_0000 + b[2] as int * 0x100 + b[3] == d
  {
    WordBytes(d / 0x1_0000);
    WordBytes(d % 0x1_0000);
  }

  /** Whoever reads a word takes the first byte for the highest. */
  lemma WordRead(b1: byte, b0: byte, rest: Text)
    ensures ReadWord([b1, b0] + rest) == Got(b1 as int * 0x100 + b0, rest)
  {
  }

  lemma DwordRead(b3: byte, b2: byte, b1: byte, b0: byte, rest: Text)
    ensures ReadDword([b3, b2, b1, b0] + rest) ==
            Got(b3 as int * 0x100_0000 + b2 as int * 0x1_0000 + b1 as int * 0x100 + b0, rest)
  {
    WordRead(b3, b2, [b1, b0] + rest);
    WordRead(b1, b0, rest);
    assert [b3, b2, b1, b0] + rest == [b3, b2] + ([b1, b0] + rest);
  }

  function Number16(v: bv16): word { v as int }

  function Numbers(bytes: seq<bv8>): Text {
    seq(|bytes|, i requires 0 <= i < |bytes| => bytes[i] as int)
  }

  lemma HighAndLow(v: bv16)
    ensures (v >> 8) as int * 0x100 + (v & 0xff) as int == v as int && v >> 8 < 0x100 && v & 0xff < 0x100
  {
  }

  lemma Narrowed(v: bv16)
    requires v < 0x100
    ensures (v as bv8) as int == v as int
  {
  }

  lemma NumbersOf(v: bv16)
    ensures var b := Numbers(Endian.Bytes16(v)); |b| == 2 && b[0] as int * 0x100 + b[1] == Number16(v)
  {
    HighAndLow(v);
    Narrowed(v >> 8);
    Narrowed(v & 0xff);
  }

  /** There is one way only to write a word with its highest byte first. */
  lemma OnlyBytes(w: word, b: Text)
    requires |b| == 2 && b[0] as int * 0x100 + b[1] == w
    ensures PutWord(w) == b
  {
  }

  /** The bytes of a word are those a host of either byte order stores for the wire. */
  lemma WordIsBigEndian(v: bv16, host: Endian.Host)
    ensures PutWord(Number16(v)) == Numbers(Endian.Stored(Endian.Bytes16(Endian.NativeToBig16(v, host)), host))
  {
    hide *;
    NumbersOf(v);
    OnlyBytes(Number16(v), Numbers(Endian.Bytes16(v)));
    Endian.WireIsBigEndian(v, 0, host);
  }

  function HighHalf(v: bv32): bv16 { (v >> 16) as bv16 }

  function LowHalf(v: bv32): bv16 { (v & 0xffff) as bv16 }

  lemma HalvesOf(v: bv32)
    ensures Endian.Bytes32(v) == Endian.Bytes16(HighHalf(v)) + Endian.Bytes16(LowHalf(v))
  {
    var a, b := Endian.Bytes32(v), Endian.Bytes16(HighHalf(v)) + Endian.Bytes16(LowHalf(v));
    assert a[0] == b[0] && a[1] == b[1] && a[2] == b[2] && a[3] == b[3];
  }

  /** The same for words of 32 bits, put together from two halves. */
  lemma DwordIsBigEndian(v: bv32, host: Endian.Host)
    ensures PutDword(Number16(HighHalf(v)) as int * 0x1_0000 + Number16(LowHalf(v))) ==
            Numbers(Endian.Stored(Endian.Bytes32(Endian.NativeToBig32(v, host)), host))
  {
    hide *;
    Endian.WireIsBigEndian(0, v, host);
    HalvesOf(v);
    Endian.WireIsBigEndian(HighHalf(v), 0, host);
    Endian.WireIsBigEndian(LowHalf(v), 0, host);
    WordIsBigEndian(HighHalf(v), host);
    WordIsBigEndian(LowHalf(v), host);
    TogetherAgain(Number16(HighHalf(v)), Number16(LowHalf(v)));
    NumbersAppend(Endian.Bytes16(HighHalf(v)), Endian.Bytes16(LowHalf(v)));
  }

  lemma NumbersAppend(a: seq<bv8>, b: seq<bv8>)
    ensures Numbers(a + b) == Numbers(a) + Numbers(b)
  {
  }

  lemma TogetherAgain(high: word, low: word)
    ensures PutDword(high * 0x1_0000 + low) == PutWord(high) + PutWord(low)
  {
  }

  // ----- the messages

  /** The numbers of the statuses. */
  lemma StatusBytes(code: UnnamedStatus)
    ensures StatusCode(Subscribed) == 0 && StatusCode(Unsubscribed) == 1 && StatusCode(NoSuchVar) == 2
    ensures StatusCode(NoSuchSubscription) == 3 && StatusCode(VarAlreadySubscribed) == 4 && StatusCode(Unknown) == 5
    ensures StatusCode(Unnamed(code)) == code
  {
  }

  lemma TextBytes(t: Text)
    requires IsShort(t)
    ensures PutText(t) == PutWord(|t|) + t
  {
  }

  /** A value travels as a byte that says what it is and the bytes of its contents. */
  lemma ValueBytes(flag: bool, b: byte, w: word, d: dword, e: dword)
    ensures PutValue(BoolValue(flag)) == [0, if flag then 1 else 0] && PutValue(ByteValue(b)) == [1, b]
    ensures PutValue(WordValue(w)) == [2] + PutWord(w) && PutValue(DwordValue(d)) == [3] + PutDword(d)
    ensures PutValue(FloatValue(d, e)) == [4] + PutDword(d) + PutDword(e)
  {
    hide PutWord, PutDword;
  }

  /** The fields of every message between its type and the end mark. */
  lemma Fields(msg: Message)
    requires Encodable(msg)
    ensures match msg
            case BeginSession(peer, version) => PutContents(msg) == PutText(peer) + PutWord(version)
            case EndSession(cause) => PutContents(msg) == PutText(cause)
            case SubscriptionRequest(v) => PutContents(msg) == PutText(v.group) + PutText(v.name)
            case SubscriptionReply(status, v, id, cause) =>
              PutContents(msg) ==
              [StatusCode(status)] + PutText(v.group) + PutText(v.name) + PutDword(id) + PutText(cause)
            case UnsubscriptionRequest(id) => PutContents(msg) == PutDword(id)
            case UnsubscriptionReply(status, id, cause) =>
              PutContents(msg) == [StatusCode(status)] + PutDword(id) + PutText(cause)
            case VarUpdate(id, value) => PutContents(msg) == PutDword(id) + PutValue(value)
  {
    hide PutWord, PutDword, PutText, PutValue, StatusCode;
    match msg
    case SubscriptionReply(status, v, id, cause) =>
      var s, g, n, i, c := [StatusCode(status)], PutText(v.group), PutText(v.name), PutDword(id), PutText(cause);
      Regroup(s + g + n, i, c);
      Regroup(s + g, n, i + c);
      Regroup(s, g, n + (i + c));
    case UnsubscriptionReply(status, id, cause) =>
      Regroup([StatusCode(status)], PutDword(id), PutText(cause));
    case _ =>
  }

  /** Every message begins with the bytes of its type, ends with 0d and 0a, and has its fields in between. */
  lemma MessageBytes(msg: Message)
    ensures Encode(msg)[..2] ==
            match msg
            case BeginSession(_, _) => [0x07, 0x00]
            case EndSession(_) => [0x07, 0x01]
            case SubscriptionRequest(_) => [0x07, 0x02]
            case SubscriptionReply(_, _, _, _) => [0x07, 0x03]
            case UnsubscriptionRequest(_) => [0x07, 0x04]
            case UnsubscriptionReply(_, _, _) => [0x07, 0x05]
            case VarUpdate(_, _) => [0x07, 0x06]
    ensures var e := Encode(msg); e[|e| - 2..] == [0x0d, 0x0a] && e[2..|e| - 2] == PutContents(msg)
  {
    hide PutContents;
  }
}

/** The values exchanged by the FlightVars components: variables, their values and the messages of
    the FlightVars protocol. */
module FlightVarTypes {

  datatype Option<+T> = None | Some(value: T)

  type byte = x: int | 0 <= x < 0x100
  type word = x: int | 0 <= x < 0x1_0000
  type dword = x: int | 0 <= x < 0x1_0000_0000

  /** The bytes of a double word, the least significant first. */
  function Little(d: dword): (bytes: seq<byte>)
    ensures |bytes| == 4
  {
    [d % 0x100, d / 0x100 % 0x100, d / 0x1_0000 % 0x100, d / 0x100_0000]
  }

  lemma LittleSums(d: dword)
    ensures var b := Little(d);
            b[0] as int + 0x100 * b[1] as int + 0x1_0000 * b[2] as int + 0x100_0000 * b[3] as int == d
  {
    var q := d / 0x100;
    var r := q / 0x100;
    assert d / 0x1_0000 == r && d / 0x100_0000 == r / 0x100;
    assert d == 0x100 * q + d % 0x100 && q == 0x100 * r + q % 0x100 && r == 0x100 * (r / 0x100) + r % 0x100;
    assert r < 0x1_0000;
  }

  /** The bytes of a character string. */
  type Text = seq<byte>

  datatype VarId = VarId(group: Text, name: Text)

  /** A float travels as two words; FloatCodec relates them to the number they stand for. */
  datatype Value =
    | BoolValue(flag: bool)
    | ByteValue(b: byte)
    | WordValue(w: word)
    | DwordValue(d: dword)
    | FloatValue(significand: dword, exponent: dword)

  type SubsId = nat

  /** Any byte is accepted as a status; those the enumeration does not name are kept as a number. */
  type UnnamedStatus = x: int | 6 <= x < 0x100 witness 6

  datatype Status =
    | Subscribed
    | Unsubscribed
    | NoSuchVar
    | NoSuchSubscription
    | VarAlreadySubscribed
    | Unknown
    | Unnamed(code: UnnamedStatus)

  datatype Message =
    | BeginSession(peer: Text, version: word)
    | EndSession(cause: Text)
    | SubscriptionRequest(v: VarId)
    | SubscriptionReply(status: Status, v: VarId, id: SubsId, cause: Text)
    | UnsubscriptionRequest(id: SubsId)
    | UnsubscriptionReply(status: Status, id: SubsId, cause: Text)
    | VarUpdate(id: SubsId, value: Value)
}

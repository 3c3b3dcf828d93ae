/** Byte order of unsigned words, bit by bit. */
module Endian {

  datatype Host = LittleEndian | BigEndian

  function Swap16(v: bv16): bv16 {
    (v >> 8) | (v << 8)
  }

  function Swap32(v: bv32): bv32 {
    (v >> 24) | ((v << 8) & 0x00ff_0000) | ((v >> 8) & 0x0000_ff00) | (v << 24)
  }

  function NativeToBig16(v: bv16, host: Host): bv16 {
    if host.BigEndian? then v else Swap16(v)
  }

  function BigToNative16(v: bv16, host: Host): bv16 {
    if host.BigEndian? then v else Swap16(v)
  }

  function NativeToBig32(v: bv32, host: Host): bv32 {
    if host.BigEndian? then v else Swap32(v)
  }

  function BigToNative32(v: bv32, host: Host): bv32 {
    if host.BigEndian? then v else Swap32(v)
  }

  /** The bytes of a word from the highest to the lowest. */
  function Bytes16(v: bv16): (bytes: seq<bv8>)
    ensures |bytes| == 2
  {
    [(v >> 8) as bv8, (v & 0xff) as bv8]
  }

  function Bytes32(v: bv32): (bytes: seq<bv8>)
    ensures |bytes| == 4
  {
    [(v >> 24) as bv8, ((v >> 16) & 0xff) as bv8, ((v >> 8) & 0xff) as bv8, (v & 0xff) as bv8]
  }

  function Reversed(s: seq<bv8>): seq<bv8> {
    seq(|s|, i requires 0 <= i < |s| => s[|s| - 1 - i])
  }

  /** The bytes of a word in the memory of the host. */
  function Stored(bytes: seq<bv8>, host: Host): seq<bv8> {
    if host.BigEndian? then bytes else Reversed(bytes)
  }

  lemma BytesOfSwap16(v: bv16)
    ensures Bytes16(Swap16(v)) == Reversed(Bytes16(v))
  {
    assert Bytes16(Swap16(v))[0] == Bytes16(v)[1];
    assert Bytes16(Swap16(v))[1] == Bytes16(v)[0];
  }

  lemma BytesOfSwap32(v: bv32)
    ensures Bytes32(Swap32(v)) == Reversed(Bytes32(v))
  {
    assert Bytes32(Swap32(v))[0] == Bytes32(v)[3];
    assert Bytes32(Swap32(v))[1] == Bytes32(v)[2];
    assert Bytes32(Swap32(v))[2] == Bytes32(v)[1];
    assert Bytes32(Swap32(v))[3] == Bytes32(v)[0];
  }

  lemma SameBytes16(v: bv16, w: bv16)
    requires Bytes16(v) == Bytes16(w)
    ensures v == w
  {
    assert (v >> 8) as bv8 == (w >> 8) as bv8 && (v & 0xff) as bv8 == (w & 0xff) as bv8 by {
      assert Bytes16(v)[0] == Bytes16(w)[0] && Bytes16(v)[1] == Bytes16(w)[1];
    }
  }

  lemma SameBytes32(v: bv32, w: bv32)
    requires Bytes32(v) == Bytes32(w)
    ensures v == w
  {
    assert Bytes32(v)[0] == Bytes32(w)[0] && Bytes32(v)[1] == Bytes32(w)[1];
    assert Bytes32(v)[2] == Bytes32(w)[2] && Bytes32(v)[3] == Bytes32(w)[3];
  }

  lemma ReversedTwice(s: seq<bv8>)
    ensures Reversed(Reversed(s)) == s
  {
  }

  /** What leaves a host has its highest byte first, whatever the host. */
  lemma WireIsBigEndian(v: bv16, w: bv32, host: Host)
    ensures Stored(Bytes16(NativeToBig16(v, host)), host) == Bytes16(v)
    ensures Stored(Bytes32(NativeToBig32(w, host)), host) == Bytes32(w)
  {
    hide Bytes16, Bytes32, Swap16, Swap32, Reversed;
    BytesOfSwap16(v);
    BytesOfSwap32(w);
    ReversedTwice(Bytes16(v));
    ReversedTwice(Bytes32(w));
  }

  /** A word stored by one host for the wire and loaded by another is the same word. */
  lemma HostsAgree16(v: bv16, loaded: bv16, sender: Host, receiver: Host)
    requires Stored(Bytes16(loaded), receiver) == Stored(Bytes16(NativeToBig16(v, sender)), sender)
    ensures BigToNative16(loaded, receiver) == v
  {
    hide Bytes16, Swap16, Reversed;
    WireIsBigEndian(v, 0, sender);
    BytesOfSwap16(loaded);
    ReversedTwice(Bytes16(loaded));
    SameBytes16(BigToNative16(loaded, receiver), v);
  }

  lemma HostsAgree32(v: bv32, loaded: bv32, sender: Host, receiver: Host)
    requires Stored(Bytes32(loaded), receiver) == Stored(Bytes32(NativeToBig32(v, sender)), sender)
    ensures BigToNative32(loaded, receiver) == v
  {
    hide Bytes32, Swap32, Reversed;
    WireIsBigEndian(0, v, sender);
    BytesOfSwap32(loaded);
    ReversedTwice(Bytes32(loaded));
    SameBytes32(BigToNative32(loaded, receiver), v);
  }
}

/** FSUIPC offsets: little-endian values of one, two or four bytes in a memory of bytes. */
module OffsetMemory {
  import opened FlightVarTypes

  datatype Width = OneByte | TwoBytes | FourBytes

  datatype Offset = Offset(address: word, width: Width)

  const MEMORY_SIZE := 0xffff

  type Memory = m: seq<byte> | |m| == MEMORY_SIZE witness seq(MEMORY_SIZE, _ => 0)

  function Size(w: Width): nat {
    match w case OneByte => 1 case TwoBytes => 2 case FourBytes => 4
  }

  /** The number of values an offset of a width can have. */
  function Range(w: Width): nat {
    match w case OneByte => 0x100 case TwoBytes => 0x1_0000 case FourBytes => 0x1_0000_0000
  }

  predicate InMemory(o: Offset) {
    o.address + Size(o.width) <= MEMORY_SIZE
  }

  /** An offset all of whose bytes are in the memory. */
  type Cell = o: Offset | InMemory(o) witness Offset(0, OneByte)

  /** Two and four bytes as a number, the highest first. */
  function Two(b1: byte, b0: byte): word { b1 as int * 0x100 + b0 }

  function Four(b3: byte, b2: byte, b1: byte, b0: byte): dword { Two(b3, b2) as int * 0x1_0000 + Two(b1, b0) }

  function Read(m: Memory, o: Cell): (v: dword)
    ensures v < Range(o.width)
  {
    var a := o.address;
    match o.width
    case OneByte => m[a]
    case TwoBytes => Two(m[a + 1], m[a])
    case FourBytes => Four(m[a + 3], m[a + 2], m[a + 1], m[a])
  }

  function High(v: dword): word { v / 0x1_0000 }

  function Low(v: dword): word { v % 0x1_0000 }

  function Write(m: Memory, o: Cell, v: dword): Memory {
    var a := o.address;
    match o.width
    case OneByte => m[a := Low(v) % 0x100]
    case TwoBytes => m[a + 1 := Low(v) / 0x100][a := Low(v) % 0x100]
    case FourBytes =>
      m[a + 3 := High(v) / 0x100][a + 2 := High(v) % 0x100][a + 1 := Low(v) / 0x100][a := Low(v) % 0x100]
  }

  lemma TwoOf(w: word)
    ensures Two(w / 0x100, w % 0x100) == w
  {
  }

  lemma OfTwo(b1: byte, b0: byte)
    ensures Two(b1, b0) / 0x100 == b1 && Two(b1, b0) % 0x100 == b0
  {
  }

  lemma LowByte(v: dword)
    ensures Low(v) % 0x100 == v % 0x100
  {
    assert v == v / 0x1_0000 * 0x1_0000 + Low(v);
    assert Low(v) == Low(v) / 0x100 * 0x100 + Low(v) % 0x100;
    assert v == (v / 0x1_0000 * 0x100 + Low(v) / 0x100) * 0x100 + Low(v) % 0x100;
  }

  /** A value that does not fit loses its high bytes. */
  lemma ReadBack(m: Memory, o: Cell, v: dword)
    ensures Read(Write(m, o, v), o) == v % Range(o.width)
  {
    TwoOf(Low(v));
    TwoOf(High(v));
    LowByte(v);
    hide Two;
  }

  predicate Apart(o: Cell, p: Cell) {
    o.address + Size(o.width) <= p.address || p.address + Size(p.width) <= o.address
  }

  /** Writing an offset changes no offset that does not overlap it. */
  lemma WriteElsewhere(m: Memory, o: Cell, v: dword, p: Cell)
    requires Apart(o, p)
    ensures Read(Write(m, o, v), p) == Read(m, p)
  {
  }

  /** A write is undone by writing back what was there. */
  lemma WriteUndone(m: Memory, o: Cell, v: dword)
    ensures Write(Write(m, o, v), o, Read(m, o)) == m
  {
    hide High, Low, Two;
    var a, r := o.address, Read(m, o);
    match o.width
    case OneByte =>
      HalvesOf(0, m[a]);
    case TwoBytes =>
      OfTwo(m[a + 1], m[a]);
      HalvesOf(0, Two(m[a + 1], m[a]));
    case FourBytes =>
      OfTwo(m[a + 1], m[a]);
      OfTwo(m[a + 3], m[a + 2]);
      HalvesOf(Two(m[a + 3], m[a + 2]), Two(m[a + 1], m[a]));
  }

  lemma HalvesOf(high: word, low: word)
    ensures High(high as int * 0x1_0000 + low) == high && Low(high as int * 0x1_0000 + low) == low
  {
  }
}

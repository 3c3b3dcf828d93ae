/** The records of the request buffer byte by byte, and the versions that a client accepts. */
module IpcBytes {
  import opened FlightVarTypes
  import opened IpcRecords
  import opened Ipc

  predicate BytesAt(b: seq<byte>, at: nat, bytes: seq<byte>) {
    at + |bytes| <= |b| && b[at..at + |bytes|] == bytes
  }

  /** Four bytes are determined by the number they make. */
  lemma OneNumber(a: seq<byte>, b: seq<byte>)
    requires |a| == |b| == 4 && DwordAt(a, 0) == DwordAt(b, 0)
    ensures a == b
  {
    var a0: int, a1: int, a2: int, a3: int := a[0], a[1], a[2], a[3];
    var b0: int, b1: int, b2: int, b3: int := b[0], b[1], b[2], b[3];
    assert a0 + 0x100 * a1 + 0x1_0000 * a2 + 0x100_0000 * a3 == b0 + 0x100 * b1 + 0x1_0000 * b2 + 0x100_0000 * b3;
    assert a3 == b3;
    assert a2 == b2;
    assert a1 == b1;
  }

  lemma DwordIs(b: seq<byte>, at: nat, d: dword)
    requires at + 4 <= |b|
    ensures DwordAt(b, at) == d <==> BytesAt(b, at, Little(d))
  {
    LittleBack(d);
    hide Little;
    var s, little := b[at..at + 4], Little(d);
    assert DwordAt(b, at) == DwordAt(s, 0);
    if DwordAt(b, at) == d {
      OneNumber(s, little);
    }
  }

  /** A record in the buffer: the number of its kind, offset, size and, for a read, destination, each lowest
      byte first, and then the payload. */
  lemma RecordIs(b: seq<byte>, at: nat, r: Record)
    requires at + SizeOf(r) <= |b| && |r.payload| < 0x1_0000_0000
    ensures RecordAt(b, at, r) <==>
            && BytesAt(b, at, if r.ReadRecord? then [1, 0, 0, 0] else [2, 0, 0, 0])
            && BytesAt(b, at + 4, Little(r.offset))
            && BytesAt(b, at + 8, Little(|r.payload|))
            && (r.ReadRecord? ==> BytesAt(b, at + 12, Little(r.dest)) && BytesAt(b, at + 16, r.payload))
            && (r.WriteRecord? ==> BytesAt(b, at + 12, r.payload))
  {
    assert Little(1) == [1, 0, 0, 0] && Little(2) == [2, 0, 0, 0];
    hide Little, DwordAt, BytesAt;
    DwordIs(b, at, 1);
    DwordIs(b, at, 2);
    DwordIs(b, at + 4, r.offset);
    DwordIs(b, at + 8, |r.payload|);
    if r.ReadRecord? {
      DwordIs(b, at + 12, r.dest);
    }
    PayloadIs(b, at + HeaderSize(r), r.payload);
  }

  lemma PayloadIs(b: seq<byte>, at: nat, payload: seq<byte>)
    requires at + |payload| <= |b|
    ensures BytesAt(b, at, payload) <==> b[at..at + |payload|] == payload
  {
  }

  /** What is stored for records one after the other: the payload of each read that has a destination. */
  lemma {:induction false} StoresInOrder(before: seq<Record>, after: seq<Record>)
    ensures StoresOf(before + after) == StoresOf(before) + StoresOf(after)
  {
    if before == [] {
      assert before + after == after;
    } else {
      assert (before + after)[1..] == before[1..] + after;
      StoresInOrder(before[1..], after);
    }
  }

  lemma StoredOf(r: Record)
    ensures StoresOf([]) == []
    ensures r.WriteRecord? ==> StoresOf([r]) == []
    ensures r.ReadRecord? && r.dest != 0 && r.payload != [] ==> StoresOf([r]) == [Store(r.dest, r.payload)]
    ensures r.ReadRecord? && (r.dest == 0 || r.payload == []) ==> StoresOf([r]) == []
  {
    assert [r][1..] == [];
  }

  // ----- the opening handshake

  /** An answer to the opening requests: their bytes, with `version` and `fs` in the payloads of the reads. */
  predicate AnswersOpening(reply: seq<byte>, version: seq<byte>, fs: seq<byte>) {
    && |version| == |fs| == 4
    && BytesAt(reply, 4, [1, 0, 0, 0, 0x04, 0x33, 0, 0, 4, 0, 0, 0, 1, 0, 0, 0])
    && BytesAt(reply, 20, version)
    && BytesAt(reply, 24, [1, 0, 0, 0, 0x08, 0x33, 0, 0, 4, 0, 0, 0, 2, 0, 0, 0])
    && BytesAt(reply, 40, fs)
    && BytesAt(reply, 44, [2, 0, 0, 0, 0x0a, 0x33, 0, 0, 2, 0, 0, 0, 0xd1, 0x07])
    && BytesAt(reply, 58, [0, 0, 0, 0])
  }

  lemma ByteOf(b: seq<byte>, at: nat, bytes: seq<byte>, i: nat)
    requires BytesAt(b, at, bytes) && i < |bytes|
    ensures b[at + i] == bytes[i]
  {
    assert b[at..at + |bytes|][i] == bytes[i];
  }

  lemma HeadersAt(reply: seq<byte>, at: nat, o: byte, dest: byte)
    requires BytesAt(reply, at, [1, 0, 0, 0, o, 0x33, 0, 0, 4, 0, 0, 0, dest, 0, 0, 0])
    ensures DwordAt(reply, at) == 1 && DwordAt(reply, at + 8) == 4 && DwordAt(reply, at + 12) == dest as int
  {
    var bytes := [1, 0, 0, 0, o, 0x33, 0, 0, 4, 0, 0, 0, dest, 0, 0, 0];
    forall i | 0 <= i < 16 ensures reply[at + i] == bytes[i] {
      ByteOf(reply, at, bytes, i);
    }
  }

  lemma LastHeaderAt(reply: seq<byte>)
    requires BytesAt(reply, 44, [2, 0, 0, 0, 0x0a, 0x33, 0, 0, 2, 0, 0, 0, 0xd1, 0x07])
    requires BytesAt(reply, 58, [0, 0, 0, 0])
    ensures DwordAt(reply, 44) == 2 && DwordAt(reply, 52) == 2 && DwordAt(reply, 58) == 0
  {
    var bytes := [2, 0, 0, 0, 0x0a, 0x33, 0, 0, 2, 0, 0, 0, 0xd1, 0x07];
    forall i | 0 <= i < 14 ensures reply[44 + i] == bytes[i] {
      ByteOf(reply, 44, bytes, i);
    }
    var zeros := [0, 0, 0, 0];
    forall i | 0 <= i < 4 ensures reply[58 + i] == zeros[i] {
      ByteOf(reply, 58, zeros, i);
    }
  }

  lemma AnswersWalked(reply: seq<byte>, version: seq<byte>, fs: seq<byte>)
    requires AnswersOpening(reply, version, fs)
    ensures Walk(reply, 4) == Some([Store(1, version), Store(2, fs)])
  {
    HeadersAt(reply, 4, 0x04, 1);
    HeadersAt(reply, 24, 0x08, 2);
    LastHeaderAt(reply);
    hide DwordAt;
    assert Walk(reply, 58) == Some([]);
    assert Walk(reply, 44) == Some([]);
    var last: seq<Store> := [];
    assert [Store(2, fs)] + last == [Store(2, fs)];
    assert reply[40..44] == fs && reply[20..24] == version;
    assert Walk(reply, 24) == Some([Store(2, fs)]);
    assert [Store(1, version)] + [Store(2, fs)] == [Store(1, version), Store(2, fs)];
  }

  lemma StoredAre(version: seq<byte>, fs: seq<byte>)
    requires |version| == |fs| == 4
    ensures BytesStored([Store(1, version), Store(2, fs)], 1) == version
    ensures BytesStored([Store(1, version), Store(2, fs)], 2) == fs
  {
    var stores := [Store(1, version), Store(2, fs)];
    assert stores[..1] == [stores[0]] && stores[..1][..0] == [];
    assert BytesStored(stores[..1], 1) == version;
    assert BytesStored(stores[..1], 2) == Zeros(4);
  }

  /** Which versions are accepted, from the eight bytes answered: FSUIPC must be 1.998e or later, the two high
      bytes of the simulator's word must be the mark fade, and its two low bytes the version required, if
      one is. */
  lemma VersionsAccepted(reply: seq<byte>, version: seq<byte>, fs: seq<byte>, required: dword)
    requires AnswersOpening(reply, version, fs)
    ensures Walk(reply, 4).Some?
    ensures
      var verdict := Verdict(Walk(reply, 4).value, required);
      var recent :=
        0x1998_0005 <= version[0] as int + 0x100 * version[1] as int + 0x1_0000 * version[2] as int
                       + 0x100_0000 * version[3] as int;
      var marked := fs[2] == 0xde && fs[3] == 0xfa;
      var wanted := required == 0 || required == fs[0] as int + 0x100 * fs[1] as int;
      && (verdict == ErrVersion <==> !recent || !marked)
      && (verdict == ErrWrongFs <==> recent && marked && !wanted)
      && (verdict == ErrOk <==> recent && marked && wanted)
  {
    AnswersWalked(reply, version, fs);
    hide AnswersOpening, Walk, BytesStored;
    StoredAre(version, fs);
    Halves(fs);
  }

  lemma Halves(fs: seq<byte>)
    requires |fs| == 4
    ensures DwordAt(fs, 0) / 0x1_0000 == fs[2] as int + 0x100 * fs[3] as int
    ensures DwordAt(fs, 0) % 0x1_0000 == fs[0] as int + 0x100 * fs[1] as int
  {
  }

  /** The header and payload of a record, one after the other. */
  lemma ReadIs(b: seq<byte>, at: nat, offset: dword, dest: dword, payload: seq<byte>)
    requires |payload| == 4 && RecordAt(b, at, ReadRecord(offset, dest, payload))
    ensures BytesAt(b, at, [1, 0, 0, 0] + Little(offset) + [4, 0, 0, 0] + Little(dest))
    ensures BytesAt(b, at + 16, payload)
  {
    assert Little(4) == [4, 0, 0, 0];
    RecordIs(b, at, ReadRecord(offset, dest, payload));
    hide RecordAt, BytesAt, Little;
    Joined(b, at, [1, 0, 0, 0], Little(offset), [4, 0, 0, 0], Little(dest));
  }

  lemma WriteIs(b: seq<byte>, at: nat, offset: dword, payload: seq<byte>)
    requires |payload| == 2 && RecordAt(b, at, WriteRecord(offset, payload))
    ensures BytesAt(b, at, [2, 0, 0, 0] + Little(offset) + [2, 0, 0, 0] + payload)
  {
    assert Little(2) == [2, 0, 0, 0];
    RecordIs(b, at, WriteRecord(offset, payload));
    hide RecordAt, BytesAt, Little;
    Joined(b, at, [2, 0, 0, 0], Little(offset), [2, 0, 0, 0], payload);
  }

  /** A peer that answers the opening requests as they were sent answers in these bytes. */
  lemma AnswersAreThese(reply: seq<byte>, version: seq<byte>, fs: seq<byte>)
    requires |version| == |fs| == 4 && |reply| >= 62
    requires RecordAt(reply, 4, OpeningRequests()[0].(payload := version))
    requires RecordAt(reply, 24, OpeningRequests()[1].(payload := fs))
    requires RecordAt(reply, 44, OpeningRequests()[2]) && DwordAt(reply, 58) == 0
    ensures AnswersOpening(reply, version, fs)
  {
    OpeningBytes();
    hide Little, RecordAt, BytesAt, DwordAt, OpeningRequests;
    ReadIs(reply, 4, 0x3304, 1, version);
    ReadIs(reply, 24, 0x3308, 2, fs);
    WriteIs(reply, 44, 0x330a, [0xd1, 0x07]);
    DwordIs(reply, 58, 0);
  }

  lemma OpeningBytes()
    ensures OpeningRequests() == [ReadRecord(0x3304, 1, Zeros(4)), ReadRecord(0x3308, 2, Zeros(4)),
                                  WriteRecord(0x330a, [0xd1, 0x07])]
    ensures [1, 0, 0, 0] + Little(0x3304) + [4, 0, 0, 0] + Little(1)
            == [1, 0, 0, 0, 0x04, 0x33, 0, 0, 4, 0, 0, 0, 1, 0, 0, 0]
    ensures [1, 0, 0, 0] + Little(0x3308) + [4, 0, 0, 0] + Little(2)
            == [1, 0, 0, 0, 0x08, 0x33, 0, 0, 4, 0, 0, 0, 2, 0, 0, 0]
    ensures [2, 0, 0, 0] + Little(0x330a) + [2, 0, 0, 0] + [0xd1, 0x07]
            == [2, 0, 0, 0, 0x0a, 0x33, 0, 0, 2, 0, 0, 0, 0xd1, 0x07]
    ensures Little(0) == [0, 0, 0, 0]
  {
  }

  lemma Joined(b: seq<byte>, at: nat, kind: seq<byte>, offset: seq<byte>, size: seq<byte>, rest: seq<byte>)
    requires |kind| == |offset| == |size| == 4
    requires BytesAt(b, at, kind) && BytesAt(b, at + 4, offset)
    requires BytesAt(b, at + 8, size) && BytesAt(b, at + 12, rest)
    ensures BytesAt(b, at, kind + offset + size + rest)
  {
    var n := 12 + |rest|;
    assert b[at..at + n] == b[at..at + 4] + b[at + 4..at + 8] + b[at + 8..at + 12] + b[at + 12..at + n];
  }
}

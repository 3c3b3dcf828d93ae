/** The records of the FSUIPC request buffer: how they are laid out in bytes and how they are walked. */
module IpcRecords {
  import opened FlightVarTypes

  const READ_ID: dword := 1
  const WRITE_ID: dword := 2
  const READ_HEADER := 16
  const WRITE_HEADER := 12

  /** A request waiting in the buffer. The destination of a read is an address, zero if there is none. */
  datatype Record =
    | ReadRecord(offset: dword, dest: dword, payload: seq<byte>)
    | WriteRecord(offset: dword, payload: seq<byte>)

  /** Bytes copied to an address. */
  datatype Store = Store(dest: dword, bytes: seq<byte>)

  function DwordAt(b: seq<byte>, at: nat): dword
    requires at + 4 <= |b|
  {
    b[at] as int + b[at + 1] as int * 0x100 + b[at + 2] as int * 0x1_0000 + b[at + 3] as int * 0x100_0000
  }

  lemma LittleBack(d: dword)
    ensures DwordAt(Little(d), 0) == d
  {
    LittleSums(d);
  }

  function HeaderSize(r: Record): nat {
    if r.ReadRecord? then READ_HEADER else WRITE_HEADER
  }

  function SizeOf(r: Record): nat {
    HeaderSize(r) + |r.payload|
  }

  predicate HeaderAt(b: seq<byte>, at: nat, r: Record) {
    && at + HeaderSize(r) <= |b|
    && DwordAt(b, at) == (if r.ReadRecord? then READ_ID else WRITE_ID)
    && DwordAt(b, at + 4) == r.offset
    && DwordAt(b, at + 8) == |r.payload|
    && (r.ReadRecord? ==> DwordAt(b, at + 12) == r.dest)
  }

  /** The bytes from `at` on are those of a record. */
  predicate RecordAt(b: seq<byte>, at: nat, r: Record) {
    && HeaderAt(b, at, r)
    && at + SizeOf(r) <= |b|
    && b[at + HeaderSize(r)..at + SizeOf(r)] == r.payload
  }

  function TotalSize(rs: seq<Record>): nat {
    if rs == [] then 0 else SizeOf(rs[0]) + TotalSize(rs[1..])
  }

  /** The bytes from `at` on are those of some records, one after the other. */
  predicate RecordsAt(b: seq<byte>, at: nat, rs: seq<Record>)
    decreases |rs|
  {
    rs == [] || (RecordAt(b, at, rs[0]) && RecordsAt(b, at + SizeOf(rs[0]), rs[1..]))
  }

  /** The reads of an answered buffer, in order, each with its destination and its bytes. Walking stops at
      a zero or at an identifier that is neither of the two. There is no result when a record leaves the
      buffer. */
  function Walk(b: seq<byte>, at: nat): Option<seq<Store>>
    decreases |b| - at
  {
    if |b| < at + 4 then None
    else if DwordAt(b, at) == READ_ID then
      if |b| < at + READ_HEADER then None
      else
        var n, dest := DwordAt(b, at + 8), DwordAt(b, at + 12);
        if |b| < at + READ_HEADER + n then None
        else
          var rest := Walk(b, at + READ_HEADER + n);
          if rest.None? then None
          else
            var payload := b[at + READ_HEADER..at + READ_HEADER + n];
            Some((if dest != 0 && n != 0 then [Store(dest, payload)] else []) + rest.value)
    else if DwordAt(b, at) == WRITE_ID then
      if |b| < at + WRITE_HEADER then None
      else
        var n := DwordAt(b, at + 8);
        if |b| < at + WRITE_HEADER + n then None else Walk(b, at + WRITE_HEADER + n)
    else Some([])
  }

  function StoreOf(r: Record): seq<Store> {
    if r.ReadRecord? && r.dest != 0 && r.payload != [] then [Store(r.dest, r.payload)] else []
  }

  function StoresOf(rs: seq<Record>): seq<Store> {
    if rs == [] then [] else StoreOf(rs[0]) + StoresOf(rs[1..])
  }

  /** The peer answers a request by filling the payload of a read and nothing else. */
  predicate Answers(answer: Record, request: Record) {
    if request.ReadRecord? then
      answer == request.(payload := answer.payload) && |answer.payload| == |request.payload|
    else
      answer == request
  }

  ghost predicate AllAnswer(answers: seq<Record>, requests: seq<Record>) {
    |answers| == |requests| && forall i :: 0 <= i < |requests| ==> Answers(answers[i], requests[i])
  }

  lemma {:induction false} AnswersFillTheSameSpace(answers: seq<Record>, requests: seq<Record>)
    requires AllAnswer(answers, requests)
    ensures TotalSize(answers) == TotalSize(requests)
  {
    if requests != [] {
      assert Answers(answers[0], requests[0]);
      AnswersFillTheSameSpace(answers[1..], requests[1..]);
    }
  }

  /** Walking undoes printing: over records followed by a zero, the walk gives each read destination its
      payload, in order, and stops at the zero. */
  lemma {:induction false} WalkUndoesPrint(b: seq<byte>, at: nat, rs: seq<Record>)
    requires RecordsAt(b, at, rs) && at + TotalSize(rs) + 4 <= |b| && DwordAt(b, at + TotalSize(rs)) == 0
    ensures Walk(b, at) == Some(StoresOf(rs))
    decreases |rs|
  {
    hide DwordAt;
    if rs != [] {
      var r := rs[0];
      WalkUndoesPrint(b, at + SizeOf(r), rs[1..]);
      assert [] + StoresOf(rs[1..]) == StoresOf(rs[1..]);
    }
  }

  /** There is only one way to read records out of the same bytes. */
  lemma {:induction false} RecordsAreUnique(b: seq<byte>, at: nat, rs: seq<Record>, rs': seq<Record>)
    requires RecordsAt(b, at, rs) && RecordsAt(b, at, rs') && TotalSize(rs) == TotalSize(rs')
    ensures rs == rs'
    decreases |rs|
  {
    if rs != [] && rs' != [] {
      assert rs[0] == rs'[0];
      RecordsAreUnique(b, at + SizeOf(rs[0]), rs[1..], rs'[1..]);
    }
  }

  lemma {:induction false} RecordsAppend(b: seq<byte>, at: nat, rs: seq<Record>, r: Record)
    requires RecordsAt(b, at, rs) && RecordAt(b, at + TotalSize(rs), r)
    ensures RecordsAt(b, at, rs + [r]) && TotalSize(rs + [r]) == TotalSize(rs) + SizeOf(r)
    decreases |rs|
  {
    hide RecordAt;
    if rs == [] {
      assert [r][1..] == [];
    } else {
      assert (rs + [r])[1..] == rs[1..] + [r];
      RecordsAppend(b, at + SizeOf(rs[0]), rs[1..], r);
    }
  }

  /** Records depend on their own bytes only. */
  lemma {:induction false} RecordsFrame(b: seq<byte>, b': seq<byte>, at: nat, rs: seq<Record>)
    requires RecordsAt(b, at, rs) && |b| == |b'|
    requires forall i :: at <= i < at + TotalSize(rs) && i < |b| ==> b'[i] == b[i]
    ensures RecordsAt(b', at, rs) && (rs != [] ==> at + TotalSize(rs) <= |b|)
    decreases |rs|
  {
    if rs != [] {
      RecordFrame(b, b', at, rs[0]);
      hide RecordAt;
      RecordsFrame(b, b', at + SizeOf(rs[0]), rs[1..]);
    }
  }

  lemma DwordFrame(b: seq<byte>, b': seq<byte>, at: nat)
    requires at + 4 <= |b| == |b'| && forall i :: at <= i < at + 4 ==> b'[i] == b[i]
    ensures DwordAt(b', at) == DwordAt(b, at)
  {
  }

  lemma HeaderFrame(b: seq<byte>, b': seq<byte>, at: nat, r: Record)
    requires HeaderAt(b, at, r) && |b| == |b'|
    requires forall i :: at <= i < at + HeaderSize(r) ==> b'[i] == b[i]
    ensures HeaderAt(b', at, r)
  {
  }

  lemma RecordFrame(b: seq<byte>, b': seq<byte>, at: nat, r: Record)
    requires RecordAt(b, at, r) && |b| == |b'|
    requires forall i :: at <= i < at + SizeOf(r) ==> b'[i] == b[i]
    ensures RecordAt(b', at, r)
  {
  }

  /** When the peer answers every request, fills nothing but the payloads of reads and leaves the
      terminator, the walk gives each read destination the bytes the peer put there. */
  lemma AnswersAreDelivered(reply: seq<byte>, requests: seq<Record>, answers: seq<Record>)
    requires AllAnswer(answers, requests) && RecordsAt(reply, 4, answers)
    requires 4 + TotalSize(requests) + 4 <= |reply| && DwordAt(reply, 4 + TotalSize(requests)) == 0
    ensures Walk(reply, 4) == Some(StoresOf(answers))
  {
    AnswersFillTheSameSpace(answers, requests);
    WalkUndoesPrint(reply, 4, answers);
  }

  // ----- the guard

  const WRAP := 0x1_0000_0000

  /** Whether a request is accepted: the sum is taken in 32 bits. */
  predicate Accepted(next: nat, size: dword, header: nat, max: nat) {
    (next + 8 + (size + header) % WRAP) % WRAP <= max
  }

  /** The request, its terminator and four spare bytes stay inside the buffer. */
  predicate Inside(next: nat, size: nat, header: nat, max: nat) {
    next + 8 + size + header <= max
  }

  /** The guard refuses exactly the requests that do not fit, unless the sum wraps around. */
  lemma GuardIsExact(next: nat, size: dword, header: nat, max: nat)
    requires next + 8 <= max <= 0x7f00 && header <= READ_HEADER
    ensures next + 8 + size + header < WRAP ==> (Accepted(next, size, header, max) <==> Inside(next, size, header, max))
    ensures Accepted(next, size, header, max) && !Inside(next, size, header, max) <==>
            next + 8 + size + header >= WRAP && next + 8 + size + header - WRAP <= max
  {
    var sum := next + 8 + size + header;
    assert (next + 8 + (size + header) % WRAP) % WRAP == sum % WRAP;
  }

  /** A size of almost four gigabytes gets past the guard. */
  lemma HugeRequestIsAccepted()
    ensures Accepted(4, 0xffff_fff0, READ_HEADER, 0x7f00) && !Inside(4, 0xffff_fff0, READ_HEADER, 0x7f00)
  {
  }
}

/** The FSUIPC user library: requests are appended to a buffer in place, sent in one message, and the
    answers are walked back. */
module Ipc {
  import opened FlightVarTypes
  import opened IpcRecords

  const MAX_SIZE := 0x7f00
  const MIN_SIZE := 32

  datatype Result =
    | ErrOk
    | ErrOpen
    | ErrNoFs
    | ErrView
    | ErrVersion
    | ErrWrongFs
    | ErrNotOpen
    | ErrNoData
    | ErrData
    | ErrSize

  function Zeros(n: nat): seq<byte> { seq(n, _ => 0) }

  /** The guard's sum wraps around and ends up inside the buffer. */
  predicate WrapsInside(next: nat, size: nat, header: nat, max: nat) {
    WRAP <= next + 8 + size + header <= WRAP + max
  }

  // addresses of the variables that hold the version of FSUIPC and of the simulator
  const VERSION_AT: dword := 1
  const FS_VERSION_AT: dword := 2

  const LIB_VERSION: dword := 2001

  /** The requests of the opening handshake need this many bytes, the spare ones included. */
  const OPEN_SIZE := 66

  function OpeningRequests(): seq<Record> {
    [ReadRecord(0x3304, VERSION_AT, Zeros(4)), ReadRecord(0x3308, FS_VERSION_AT, Zeros(4)),
     WriteRecord(0x330a, [LIB_VERSION % 0x100, LIB_VERSION / 0x100])]
  }

  /** The first bytes of a variable are overwritten. */
  function Overwritten(bytes: seq<byte>, was: seq<byte>): (now: seq<byte>)
    ensures |now| == |was|
  {
    if |bytes| < |was| then bytes + was[|bytes|..] else bytes[..|was|]
  }

  /** The bytes of a variable, zero before, when some bytes have been stored at its address, one after the
      other. */
  function BytesStored(stores: seq<Store>, dest: dword): (bytes: seq<byte>)
    ensures |bytes| == 4
    decreases |stores|
  {
    if stores == [] then Zeros(4)
    else
      var last, before := stores[|stores| - 1], BytesStored(stores[..|stores| - 1], dest);
      if last.dest == dest then Overwritten(last.bytes, before) else before
  }

  function Stored(stores: seq<Store>, dest: dword): dword {
    DwordAt(BytesStored(stores, dest), 0)
  }

  /** What the answers to the opening requests lead to. */
  function Verdict(stores: seq<Store>, required: dword): Result {
    var version, fs := Stored(stores, VERSION_AT), Stored(stores, FS_VERSION_AT);
    if version < 0x1998_0005 || fs / 0x1_0000 != 0xfade then ErrVersion
    else if required != 0 && required != fs % 0x1_0000 then ErrWrongFs
    else ErrOk
  }

  class Client {
    var view: array?<byte>
    var max: nat
    var next: nat
    ghost var queue: seq<Record>

    /** While the client is open: the requests fill the bytes from 4 to next, and there is room for the
        terminator. */
    ghost predicate Valid()
      reads this, view
    {
      view != null ==>
        && MIN_SIZE <= max <= view.Length && max <= MAX_SIZE
        && next == 4 + TotalSize(queue) && next + 8 <= max
        && RecordsAt(view[..], 4, queue)
    }

    constructor ()
      ensures Valid() && view == null
    {
      view, max, next, queue := null, 0, 0, [];
    }

    method Close()
      modifies this`view
      ensures Valid() && view == null
    {
      view := null;
    }

    method PutDword(at: nat, d: dword)
      requires view != null && at + 4 <= view.Length
      modifies view
      ensures DwordAt(view[..], at) == d
      ensures forall i :: 0 <= i < view.Length && !(at <= i < at + 4) ==> view[i] == old(view[i])
    {
      LittleBack(d);
      view[at] := d % 0x100;
      view[at + 1] := d / 0x100 % 0x100;
      view[at + 2] := d / 0x1_0000 % 0x100;
      view[at + 3] := d / 0x100_0000;
    }

    method CopyIn(at: nat, bytes: seq<byte>)
      requires view != null && at + |bytes| <= view.Length
      modifies view
      ensures view[at..at + |bytes|] == bytes
      ensures forall i :: 0 <= i < view.Length && !(at <= i < at + |bytes|) ==> view[i] == old(view[i])
    {
      forall i | 0 <= i < |bytes| {
        view[at + i] := bytes[i];
      }
    }

    method PutHeader(r: Record)
      requires view != null && next + HeaderSize(r) <= view.Length && |r.payload| < WRAP
      modifies view
      ensures HeaderAt(view[..], next, r)
      ensures forall i :: 0 <= i < view.Length && !(next <= i < next + HeaderSize(r)) ==> view[i] == old(view[i])
    {
      PutDword(next, if r.ReadRecord? then READ_ID else WRITE_ID);
      PutDword(next + 4, r.offset);
      PutDword(next + 8, |r.payload|);
      if r.ReadRecord? {
        PutDword(next + 12, r.dest);
      }
    }

    /** Writes a record after those already there. */
    method Append(r: Record)
      requires Valid() && view != null && Inside(next, |r.payload|, HeaderSize(r), max)
      modifies this`next, this`queue, view
      ensures Valid() && queue == old(queue) + [r]
    {
      hide RecordsAt, TotalSize, HeaderAt;
      ghost var was := view[..];
      PutHeader(r);
      ghost var headed := view[..];
      CopyIn(next + HeaderSize(r), r.payload);
      HeaderFrame(headed, view[..], next, r);
      RecordsFrame(was, view[..], 4, queue);
      RecordsAppend(view[..], 4, queue, r);
      queue, next := queue + [r], next + SizeOf(r);
    }

    /** Nothing that a caller can see has changed. */
    twostate predicate Same()
      reads this, view
    {
      view == old(view) && next == old(next) && max == old(max) && queue == old(queue)
      && (view != null ==> view[..] == old(view[..]))
    }

    /** `initial` are the bytes at the destination, which a special read sends along. */
    method ReadCommon(special: bool, offset: dword, size: dword, dest: dword, initial: seq<byte>) returns (r: Result)
      requires Valid() && |initial| == size && (view != null ==> !WrapsInside(next, size, READ_HEADER, max))
      modifies this`next, this`queue, view
      ensures Valid()
      ensures if view == null then r == ErrNotOpen && Same()
              else if !Inside(old(next), size, READ_HEADER, max) then r == ErrSize && Same()
              else
                && r == ErrOk
                && queue == old(queue) + [ReadRecord(offset, dest, if special then initial else Zeros(size))]
    {
      hide RecordsAt, TotalSize;
      if view == null {
        return ErrNotOpen;
      }
      GuardIsExact(next, size, READ_HEADER, max);
      if !Accepted(next, size, READ_HEADER, max) {
        return ErrSize;
      }
      Append(ReadRecord(offset, dest, if special then initial else Zeros(size)));
      r := ErrOk;
    }

    method Read(offset: dword, size: dword, dest: dword) returns (r: Result)
      requires Valid() && (view != null ==> !WrapsInside(next, size, READ_HEADER, max))
      modifies this`next, this`queue, view
      ensures Valid()
      ensures if view == null then r == ErrNotOpen && Same()
              else if !Inside(old(next), size, READ_HEADER, max) then r == ErrSize && Same()
              else r == ErrOk && queue == old(queue) + [ReadRecord(offset, dest, Zeros(size))]
    {
      r := ReadCommon(false, offset, size, dest, Zeros(size));
    }

    method Write(offset: dword, bytes: seq<byte>) returns (r: Result)
      requires Valid() && |bytes| < WRAP && (view != null ==> !WrapsInside(next, |bytes|, WRITE_HEADER, max))
      modifies this`next, this`queue, view
      ensures Valid()
      ensures if view == null then r == ErrNotOpen && Same()
              else if !Inside(old(next), |bytes|, WRITE_HEADER, max) then r == ErrSize && Same()
              else r == ErrOk && queue == old(queue) + [WriteRecord(offset, bytes)]
    {
      hide RecordsAt, TotalSize;
      if view == null {
        return ErrNotOpen;
      }
      GuardIsExact(next, |bytes|, WRITE_HEADER, max);
      if !Accepted(next, |bytes|, WRITE_HEADER, max) {
        return ErrSize;
      }
      Append(WriteRecord(offset, bytes));
      r := ErrOk;
    }

    /** Sends the requests and walks the answers back. `code` is the address left in the first bytes,
        `success` and `reply` what the peer returns and leaves in the buffer; `sent` is what it was sent and
        `stores` the bytes copied to the destinations of the reads. */
    method Process(code: dword, success: bool, reply: seq<byte>) returns (r: Result, sent: seq<byte>,
        stores: seq<Store>)
      requires Valid()
      requires view != null ==> |reply| == view.Length && (success ==> Walk(reply, 4).Some?)
      modifies this`next, this`queue, view
      ensures Valid()
      ensures if view == null then r == ErrNotOpen && stores == [] && Same()
              else if old(queue) == [] then r == ErrNoData && stores == [] && Same()
              else
                && queue == [] && next == 4
                && |sent| == view.Length && DwordAt(sent, 0) == code
                && RecordsAt(sent, 4, old(queue)) && DwordAt(sent, old(next)) == 0
                && (if success then r == ErrOk && stores == Walk(reply, 4).value else r == ErrData && stores == [])
    {
      stores, sent := [], [];
      if view == null {
        return ErrNotOpen, sent, stores;
      }
      EmptyQueue();
      if 4 >= next {
        return ErrNoData, sent, stores;
      }
      sent := Send(code);
      queue, next := [], 4;
      CopyIn(0, reply);
      assert view[..] == reply by {
        assert view[..] == view[0..0 + |reply|];
      }
      if !success {
        return ErrData, sent, stores;
      }
      stores := WalkBack();
      r := ErrOk;
    }

    /** Puts the terminator and the address in place; the result is what the peer is given to read. */
    method Send(code: dword) returns (sent: seq<byte>)
      requires Valid() && view != null
      modifies view
      ensures |sent| == view.Length && DwordAt(sent, 0) == code
      ensures RecordsAt(sent, 4, queue) && DwordAt(sent, next) == 0
    {
      hide RecordsAt, TotalSize;
      ghost var was := view[..];
      PutDword(next, 0);
      ghost var ended := view[..];
      PutDword(0, code);
      RecordsFrame(was, view[..], 4, queue);
      DwordFrame(ended, view[..], next);
      sent := view[..];
    }

    lemma EmptyQueue()
      requires Valid() && view != null
      ensures next > 4 <==> queue != []
    {
    }

    method WalkBack() returns (stores: seq<Store>)
      requires view != null && next == 4 && queue == [] && Walk(view[..], 4).Some?
      requires MIN_SIZE <= max <= view.Length && max <= MAX_SIZE
      modifies this`next, view
      ensures Valid() && next == 4 && stores == Walk(old(view[..]), 4).value
    {
      hide DwordAt;
      stores := [];
      ghost var reply := view[..];
      ghost var all := Walk(reply, 4).value;
      while DwordAt(view[..], next) != 0
        invariant view[..] == reply && next + 4 <= |reply| && Walk(reply, next).Some?
        invariant all == stores + Walk(reply, next).value
        decreases view.Length - next
      {
        var id := DwordAt(view[..], next);
        if id == READ_ID {
          var n, dest := DwordAt(view[..], next + 8), DwordAt(view[..], next + 12);
          next := next + READ_HEADER;
          if dest != 0 && n != 0 {
            stores := stores + [Store(dest, view[next..next + n])];
          }
          next := next + n;
        } else if id == WRITE_ID {
          next := next + WRITE_HEADER + DwordAt(view[..], next + 8);
        } else {
          PutDword(next, 0);
          break;
        }
      }
      next := 4;
    }

    /** Starts the client over the memory given, asking for the versions first. `found` tells whether the
        peer's window exists. */
    method Open(required: dword, memory: array?<byte>, size: dword, found: bool,
                code: dword, success: bool, reply: seq<byte>) returns (r: Result, stores: seq<Store>)
      requires Valid()
      requires memory != null ==> size <= memory.Length && |reply| == memory.Length
      requires memory != null && success ==> Walk(reply, 4).Some?
      modifies this, memory
      ensures Valid()
      ensures r == ErrOk ==> view == memory && queue == [] && max == if size < MAX_SIZE then size else MAX_SIZE
      ensures r != ErrOk && old(view) == null ==> view == null
      ensures r == ErrOpen ==> Same()
      ensures r == if old(view) != null then ErrOpen
                   else if memory == null || size < MIN_SIZE then ErrView
                   else if !found then ErrNoFs
                   else if size < OPEN_SIZE then ErrSize
                   else if !success then ErrData
                   else Verdict(Walk(reply, 4).value, required)
    {
      stores := [];
      if view != null {
        return ErrOpen, stores;
      }
      if memory == null || size < MIN_SIZE {
        return ErrView, stores;
      }
      if !found {
        return ErrNoFs, stores;
      }
      max := if size < MAX_SIZE then size else MAX_SIZE;
      view, next, queue := memory, 4, [];
      r := RequestVersions();
      if r != ErrOk {
        Close();
        return;
      }
      var sent;
      r, sent, stores := Process(code, success, reply);
      if r == ErrOk {
        r := Verdict(stores, required);
      }
      if r != ErrOk {
        Close();
      }
    }

    method RequestVersions() returns (r: Result)
      requires Valid() && view != null && queue == []
      modifies this`next, this`queue, view
      ensures Valid()
      ensures r == if max < OPEN_SIZE then ErrSize else ErrOk
      ensures r == ErrOk ==> queue == OpeningRequests()
    {
      hide RecordsAt;
      r := Read(0x3304, 4, VERSION_AT);
      if r != ErrOk {
        return;
      }
      assert queue[1..] == [] && next == 24;
      r := Read(0x3308, 4, FS_VERSION_AT);
      if r != ErrOk {
        return;
      }
      assert queue[1..][1..] == [];
      assert TotalSize(queue[1..]) == SizeOf(queue[1]) + TotalSize([]);
      assert next == 44;
      r := Write(0x330a, [LIB_VERSION % 0x100, LIB_VERSION / 0x100]);
    }
  }
}

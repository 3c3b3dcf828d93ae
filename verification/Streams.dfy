/** Byte streams that transfer what they can, and the loops that insist on all of it. */
module Streams {
  import opened FlightVarTypes

  /** Whether an operation was completed or ran into the end of the stream. */
  datatype Attempt = Done | Eof
  {
    predicate IsFailure() { Eof? }

    function PropagateFailure(): Attempt
      requires IsFailure()
    {
      Eof
    }
  }

  /** A buffer to read from: the bytes it has not delivered and those it had not delivered when it was
      marked. */
  class InputStream {
    var pending: Text
    var marked: Option<Text>

    constructor (bytes: Text)
      ensures pending == bytes && marked == None
    {
      pending, marked := bytes, None;
    }

    method Receive(bytes: Text)
      modifies this
      ensures pending == old(pending) + bytes
      ensures marked == if old(marked).Some? then Some(old(marked).value + bytes) else None
    {
      pending := pending + bytes;
      if marked.Some? {
        marked := Some(marked.value + bytes);
      }
    }

    method SetMark()
      modifies this`marked
      ensures marked == Some(pending)
    {
      marked := Some(pending);
    }

    method UnsetMark()
      modifies this`marked
      ensures marked == None
    {
      marked := None;
    }

    /** Goes back to the mark, if there is one. */
    method Reset()
      modifies this`pending
      ensures pending == if marked.Some? then marked.value else old(pending)
    {
      if marked.Some? {
        pending := marked.value;
      }
    }

    /** Delivers any number of bytes up to count, but none only if none is wanted or there is none. */
    method Read(dest: array<byte>, at: nat, count: nat) returns (n: nat)
      requires at + count <= dest.Length
      modifies this`pending, dest
      ensures n <= count && n <= |old(pending)| && (n == 0 <==> count == 0 || old(pending) == [])
      ensures dest[..] == old(dest[..at]) + old(pending)[..n] + old(dest[at + n..])
      ensures pending == old(pending)[n..]
    {
      if count == 0 || pending == [] {
        return 0;
      }
      n :| 1 <= n <= count && n <= |pending|;
      forall i | 0 <= i < n {
        dest[at + i] := pending[i];
      }
      pending := pending[n..];
    }
  }

  /** A stream to write to: what was written and how much it still takes. */
  class OutputStream {
    var written: Text
    var room: nat

    constructor (capacity: nat)
      ensures written == [] && room == capacity
    {
      written, room := [], capacity;
    }

    /** Takes any number of bytes up to those offered, but none only if none is offered or there is no
        room. */
    method Write(bytes: Text) returns (n: nat)
      modifies this
      ensures n <= |bytes| && n <= old(room) && (n == 0 <==> bytes == [] || old(room) == 0)
      ensures written == old(written) + bytes[..n] && room == old(room) - n
    {
      if bytes == [] || room == 0 {
        n := 0;
      } else {
        n :| 1 <= n <= |bytes| && n <= room;
      }
      written, room := written + bytes[..n], room - n;
    }
  }

  /** Reads until count bytes are there or the stream ends. */
  method ReadAll(s: InputStream, dest: array<byte>, count: nat) returns (r: Attempt)
    requires count <= dest.Length
    modifies s`pending, dest
    ensures r.Done? <==> count <= |old(s.pending)|
    ensures r.Done? ==> dest[..count] == old(s.pending)[..count] && s.pending == old(s.pending)[count..]
    ensures r.Eof? ==> s.pending == []
  {
    var p, left: nat := 0, count;
    while left != 0
      invariant 0 <= p == count - left && p <= |old(s.pending)|
      invariant dest[..p] == old(s.pending)[..p] && s.pending == old(s.pending)[p..]
    {
      var n := s.Read(dest, p, left);
      if n == 0 {
        return Eof;
      }
      p, left := p + n, left - n;
    }
    return Done;
  }

  /** Writes until all bytes are taken or the stream takes no more. */
  method WriteAll(s: OutputStream, bytes: Text) returns (r: Attempt)
    modifies s
    ensures r.Done? <==> |bytes| <= old(s.room)
    ensures r.Done? ==> s.written == old(s.written) + bytes && s.room == old(s.room) - |bytes|
    ensures r.Eof? ==> s.written == old(s.written) + bytes[..old(s.room)] && s.room == 0
  {
    var p := 0;
    while p != |bytes|
      invariant p <= |bytes| && p <= old(s.room)
      invariant s.written == old(s.written) + bytes[..p] && s.room == old(s.room) - p
      decreases |bytes| - p
    {
      var n := s.Write(bytes[p..]);
      if n == 0 {
        return Eof;
      }
      p := p + n;
    }
    return Done;
  }
}

/** The circular buffer behind a connection's input: bytes are received at one index and read at another,
    and those read since the mark can be read again. Everything is proved against the bytes the buffer
    stands for, and the one read that fails is characterized exactly. */
module RingBuffers {
  import opened FlightVarTypes

  /** An index that may be off by one turn in either direction. */
  function Wrap(i: int, n: nat): (k: nat)
    requires 0 <= i + n && i < 2 * n
    ensures k < n
  {
    if i < 0 then i + n else if i < n then i else i - n
  }

  /** The bytes of a circle of bytes from an index on. */
  function Turn(s: seq<byte>, from: int, n: nat): (t: seq<byte>)
    requires 0 <= from + |s| && from + n <= 2 * |s|
    ensures |t| == n && forall i :: 0 <= i < n ==> t[i] == s[Wrap(from + i, |s|)]
  {
    seq<byte>(n, i requires 0 <= i < n => s[Wrap(from + i, |s|)])
  }

  function First(s: seq<byte>, n: nat): (f: seq<byte>)
    requires n <= |s|
    ensures |f| == n
  {
    s[..n]
  }

  function Rest(s: seq<byte>, n: nat): (r: seq<byte>)
    requires n <= |s|
    ensures |r| == |s| - n
  {
    s[n..]
  }

  class RingBuffer {
    const data: array<byte>
    var readIndex: nat
    var writeIndex: nat
    var bytesWritten: nat
    var mark: Option<nat>
    var distFromMark: nat

    predicate Valid()
      reads this
    {
      && data.Length > 0
      && readIndex <= data.Length && writeIndex < data.Length
      && bytesWritten + distFromMark <= data.Length
      && (readIndex + bytesWritten == writeIndex || readIndex + bytesWritten == writeIndex + data.Length
          || readIndex + bytesWritten == writeIndex + 2 * data.Length)
      && (mark.None? ==> distFromMark == 0)
      && (mark.Some? ==>
            && mark.value <= data.Length
            && (mark.value == readIndex - distFromMark || mark.value == readIndex - distFromMark + data.Length
                || mark.value == readIndex - distFromMark + 2 * data.Length))
    }

    /** The bytes not read yet. */
    ghost function Pending(): (p: seq<byte>)
      reads this, data
      requires Valid()
    {
      Turn(data[..], readIndex, bytesWritten)
    }

    /** The bytes read since the mark. */
    ghost function Retained(): (p: seq<byte>)
      reads this, data
      requires Valid()
    {
      Turn(data[..], readIndex - distFromMark, distFromMark)
    }

    constructor (capacity: nat)
      requires capacity > 0
      ensures Valid() && fresh(data) && data.Length == capacity && Pending() == [] && mark == None
      ensures readIndex == writeIndex == 0
    {
      data := new byte[capacity](_ => 0);
      readIndex, writeIndex, bytesWritten, mark, distFromMark := 0, 0, 0, None, 0;
    }

    function AvailableForWrite(): nat
      reads this
      requires Valid()
    {
      data.Length - bytesWritten - distFromMark
    }

    predicate IsBroken()
      reads this
    {
      readIndex > writeIndex
    }

    /** Puts bytes into the free part of the array, in up to two stretches. */
    method Store(bytes: seq<byte>)
      requires Valid() && |bytes| <= AvailableForWrite()
      modifies data
      ensures PutIn(old(data[..]), data[..], writeIndex, bytes)
    {
      var room := if IsBroken() then readIndex - writeIndex else data.Length - writeIndex;
      var first := if |bytes| < room then |bytes| else room;
      forall i | 0 <= i < first {
        data[writeIndex + i] := bytes[i];
      }
      forall i | first <= i < |bytes| {
        data[i - first] := bytes[i];
      }
    }

    /** Bytes have arrived. */
    method Receive(bytes: seq<byte>)
      requires Valid() && |bytes| <= AvailableForWrite()
      modifies this`writeIndex, this`bytesWritten, data
      ensures Valid() && Pending() == old(Pending()) + bytes && Retained() == old(Retained())
      ensures var end := old(writeIndex) + |bytes|;
              writeIndex == (if end < data.Length then end else end - data.Length)
      ensures bytesWritten == old(bytesWritten) + |bytes|
    {
      hide Turn, Wrap, PutIn;
      ghost var was := data[..];
      Store(bytes);
      Received(was, data[..], readIndex, bytesWritten, distFromMark, writeIndex, bytes);
      var end := writeIndex + |bytes|;
      writeIndex, bytesWritten := if end < data.Length then end else end - data.Length, bytesWritten + |bytes|;
    }

    /** Takes some bytes out of the array, which fails when they are not all inside it. */
    method Take(offset: nat, n: nat) returns (bytes: Option<seq<byte>>)
      ensures bytes == if offset + n <= data.Length then Some(data[offset..offset + n]) else None
    {
      if offset + n > data.Length {
        return None;
      }
      return Some(data[offset..offset + n]);
    }

    /** The buffer is exactly full and the bytes wanted cross the end of the array. */
    predicate Overruns(count: nat)
      reads this
      requires Valid()
    {
      var n := if count < bytesWritten then count else bytesWritten;
      bytesWritten == data.Length && readIndex == writeIndex && readIndex + n > data.Length
    }

    /** No read fails while less than the capacity is held. */
    lemma RoomMeansReadable(count: nat)
      requires Valid() && |Pending()| < data.Length
      ensures !Overruns(count)
    {
    }

    /** Reads up to count bytes. */
    method Read(count: nat) returns (bytes: Option<seq<byte>>)
      requires Valid()
      modifies this`readIndex, this`bytesWritten, this`distFromMark
      ensures Valid() && bytesWritten == old(bytesWritten) - if bytes.Some? then |bytes.value| else 0
      ensures bytes.Some? && old(!IsBroken()) ==> readIndex == old(readIndex) + |bytes.value|
      ensures bytes.None? <==> old(Overruns(count))
      ensures bytes.None? ==> Pending() == old(Pending()) && Retained() == old(Retained())
      ensures bytes.Some? ==>
                var n := if count < old(bytesWritten) then count else old(bytesWritten);
                && bytes.value == First(old(Pending()), n) && Pending() == Rest(old(Pending()), n)
                && Retained() == if mark.Some? then old(Retained()) + bytes.value else []
    {
      hide Turn, Wrap, First, Rest;
      var n := if count < bytesWritten then count else bytesWritten;
      if IsBroken() {
        bytes := ReadBroken(n);
      } else {
        bytes := Take(readIndex, n);
        if bytes.Some? {
          TurnStart(data[..], readIndex, bytesWritten, n);
          Advance(n);
        }
      }
    }

    /** The bytes from the read index to the end of the array, and the rest from its beginning. */
    method ReadBroken(n: nat) returns (bytes: Option<seq<byte>>)
      requires Valid() && IsBroken() && n <= bytesWritten
      modifies this`readIndex, this`bytesWritten, this`distFromMark
      ensures Valid() && bytes == Some(First(old(Pending()), n)) && Pending() == Rest(old(Pending()), n)
      ensures bytesWritten == old(bytesWritten) - n
      ensures Retained() == if mark.Some? then old(Retained()) + bytes.value else []
    {
      hide Turn, Wrap, First, Rest;
      ghost var pending := Pending();
      var rem := data.Length - readIndex;
      if n < rem {
        var all := TakeFront(n);
        return Some(all);
      }
      var part := ReadToEnd();
      var last := TakeFront(n - rem);
      InTwoParts(pending, rem, n);
      Regroup(old(Retained()), part, last);
      bytes := Some(part + last);
    }

    /** Reads bytes that lie in one stretch. */
    method TakeFront(n: nat) returns (bytes: seq<byte>)
      requires Valid() && n <= bytesWritten && readIndex + n <= data.Length
      modifies this`readIndex, this`bytesWritten, this`distFromMark
      ensures Valid() && readIndex == old(readIndex) + n && bytesWritten == old(bytesWritten) - n
      ensures bytes == First(old(Pending()), n) && Pending() == Rest(old(Pending()), n)
      ensures Retained() == if mark.Some? then old(Retained()) + bytes else []
    {
      hide Turn, Wrap, First, Rest;
      var taken := Take(readIndex, n);
      TurnStart(data[..], readIndex, bytesWritten, n);
      Advance(n);
      bytes := taken.value;
    }

    method ReadToEnd() returns (bytes: seq<byte>)
      requires Valid() && IsBroken() && data.Length - readIndex <= bytesWritten
      modifies this`readIndex, this`bytesWritten, this`distFromMark
      ensures Valid() && readIndex == 0 && bytesWritten == old(bytesWritten) - (data.Length - old(readIndex))
      ensures var rem := data.Length - old(readIndex);
              && bytes == First(old(Pending()), rem) && Pending() == Rest(old(Pending()), rem)
              && Retained() == if mark.Some? then old(Retained()) + bytes else []
    {
      hide Turn, Wrap, First, Rest;
      bytes := TakeFront(data.Length - readIndex);
      Restart();
    }

    /** Continues at the beginning of the array. */
    method Restart()
      requires Valid() && readIndex == data.Length && writeIndex + bytesWritten <= 2 * data.Length
      modifies this`readIndex
      ensures Valid() && readIndex == 0 && Pending() == old(Pending()) && Retained() == old(Retained())
      ensures bytesWritten <= data.Length
    {
      readIndex := 0;
      assert Pending() == old(Pending());
      assert Retained() == old(Retained());
    }

    /** Moves the read index. */
    method Advance(n: nat)
      requires Valid() && n <= bytesWritten && readIndex + n <= data.Length
      modifies this`readIndex, this`bytesWritten, this`distFromMark
      ensures Valid() && readIndex == old(readIndex) + n && bytesWritten == old(bytesWritten) - n
      ensures Pending() == Rest(old(Pending()), n)
      ensures Retained() == if mark.Some? then old(Retained()) + First(old(Pending()), n) else []
    {
      hide Turn, Wrap, First, Rest;
      TurnFurther(data[..], readIndex, bytesWritten, distFromMark, n);
      readIndex, bytesWritten := readIndex + n, bytesWritten - n;
      if mark.Some? {
        distFromMark := distFromMark + n;
      }
    }

    /** Setting a mark does not forget the bytes read since another one. If there are any, what the buffer
        says about the mark is wrong from then on, unless they fill it. */
    method SetMark()
      requires Valid()
      modifies this`mark
      ensures mark == Some(readIndex)
      ensures Valid() <==> distFromMark == 0 || distFromMark == data.Length
      ensures distFromMark == 0 ==> Pending() == old(Pending()) && Retained() == []
    {
      mark := Some(readIndex);
    }

    method UnsetMark()
      requires Valid()
      modifies this`mark, this`distFromMark
      ensures Valid() && mark == None && Pending() == old(Pending()) && Retained() == []
    {
      mark, distFromMark := None, 0;
    }

    /** Goes back to the mark, if there is one. */
    method Reset()
      requires Valid()
      modifies this`readIndex, this`bytesWritten, this`distFromMark
      ensures Valid() && Retained() == []
      ensures Pending() == old(Retained()) + old(Pending())
    {
      hide Turn, Wrap;
      EmptyTurn(data[..], readIndex);
      if mark.Some? {
        EmptyTurn(data[..], mark.value);
        MarkIsStart(data[..], readIndex, bytesWritten, distFromMark, mark.value);
        bytesWritten := bytesWritten + distFromMark;
        distFromMark := 0;
        readIndex := mark.value;
      }
    }
  }

  lemma EmptyTurn(s: seq<byte>, from: nat)
    requires from <= |s|
    ensures Turn(s, from, 0) == [] && [] + Turn(s, from, 0) == []
  {
  }

  lemma InTwoParts(s: seq<byte>, k: nat, n: nat)
    requires k <= n <= |s|
    ensures First(s, n) == First(s, k) + First(Rest(s, k), n - k) && Rest(Rest(s, k), n - k) == Rest(s, n)
  {
  }

  lemma Regroup(a: seq<byte>, b: seq<byte>, c: seq<byte>)
    ensures a + b + c == a + (b + c)
  {
  }

  lemma MarkIsStart(s: seq<byte>, read: nat, count: nat, dist: nat, mark: nat)
    requires read <= |s| && mark <= |s| && count + dist <= |s|
    requires mark == read - dist || mark == read - dist + |s| || mark == read - dist + 2 * |s|
    ensures Turn(s, mark, count + dist) == Turn(s, read - dist, dist) + Turn(s, read, count)
  {
    var a, b := Turn(s, mark, count + dist), Turn(s, read - dist, dist) + Turn(s, read, count);
    forall i | 0 <= i < count + dist ensures a[i] == b[i] {
    }
  }

  /** Four bytes received into a buffer of four after two have come and gone cannot be read at once. */
  method FullBufferFails() returns (r: Option<seq<byte>>)
    ensures r == None
  {
    var b := new RingBuffer(4);
    b.Receive([1, 2]);
    r := b.Read(2);
    b.Receive([3, 4, 5, 6]);
    r := b.Read(4);
  }

  /** What is read moves from the bytes pending to those retained. */
  lemma TurnFurther(s: seq<byte>, read: nat, count: nat, dist: nat, n: nat)
    requires n <= count && read + n <= |s| && count + dist <= |s|
    ensures Turn(s, read + n, count - n) == Rest(Turn(s, read, count), n)
    ensures Turn(s, read + n - (dist + n), dist + n) == Turn(s, read - dist, dist) + First(Turn(s, read, count), n)
    ensures Turn(s, read + n, 0) == []
  {
    var a, b := Turn(s, read - dist, dist + n), Turn(s, read - dist, dist) + Turn(s, read, count)[..n];
    forall i | 0 <= i < dist + n ensures a[i] == b[i] {
    }
  }

  /** Bytes that lie in one stretch. */
  lemma TurnStart(s: seq<byte>, from: nat, count: nat, n: nat)
    requires from + n <= |s| && n <= count && from + count <= 2 * |s|
    ensures First(Turn(s, from, count), n) == s[from..from + n]
  {
  }

  /** The circle after some bytes were put in, from the write index on. */
  ghost predicate PutIn(was: seq<byte>, now: seq<byte>, write: nat, bytes: seq<byte>) {
    |now| == |was| && forall k :: 0 <= k < |was| ==>
      now[k] == if write <= k < write + |bytes| then bytes[k - write]
                else if 0 <= k + |was| - write < |bytes| then bytes[k + |was| - write]
                else was[k]
  }

  lemma Received(was: seq<byte>, now: seq<byte>, read: nat, count: nat, dist: nat, write: nat, bytes: seq<byte>)
    requires read <= |was| && write < |was| && count + dist + |bytes| <= |was| && PutIn(was, now, write, bytes)
    requires read + count == write || read + count == write + |was| || read + count == write + 2 * |was|
    ensures Turn(now, read, count + |bytes|) == Turn(was, read, count) + bytes
    ensures Turn(now, read - dist, dist) == Turn(was, read - dist, dist)
  {
    var a, b := Turn(now, read, count + |bytes|), Turn(was, read, count) + bytes;
    forall i | 0 <= i < count + |bytes| ensures a[i] == b[i] {
    }
    var c, d := Turn(now, read - dist, dist), Turn(was, read - dist, dist);
    forall i | 0 <= i < dist ensures c[i] == d[i] {
    }
  }
}

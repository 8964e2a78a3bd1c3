/** CStandardByteQueue: a ring of bytes as a queue open at both ends, one place of the ring kept free. */
module ByteQueue {
  import opened Bits
  import opened DataQueue
  import opened Memory
  import opened Sequences

  /** How many of the bytes asked for are moved when there is room, or stock, for `room`. */
  function Granted(partFill: bool, length: nat, room: nat): (n: nat)
    ensures n <= length && n <= room
    ensures length <= room ==> n == length
    ensures n < length ==> n == 0 || (partFill && n == room)
  {
    if length <= room then length else if partFill then room else 0
  }

  function Repeat(b: byte, n: nat): (s: seq<byte>)
    ensures |s| == n && forall i :: 0 <= i < n ==> s[i] == b
  {
    seq(n, _ => b)
  }

  /** Writing before the first byte, not beyond the ring's begin. */
  lemma BetweenFront(ring: seq<byte>, r: nat, w: nat, b: seq<byte>)
    requires |b| <= r < |ring| && w < |ring| && (w < r ==> w < r - |b|)
    ensures Between(Patch(ring, r - |b|, b), r - |b|, w) == b + Between(ring, r, w)
  {
    var at := r - |b|;
    if r <= w {
      PatchOnward(ring, at, b, w);
    } else {
      PatchOnward(ring, at, b, |ring|);
      PatchBefore(ring, at, b, w);
      Regroup(b, ring[r..], ring[..w]);
    }
  }

  /** The same across the ring's begin. */
  lemma BetweenFrontWrap(ring: seq<byte>, r: nat, w: nat, b1: seq<byte>, b2: seq<byte>)
    requires |b2| == r <= w < |ring| - |b1| && b1 != []
    ensures Between(Patch(Patch(ring, 0, b2), |ring| - |b1|, b1), |ring| - |b1|, w) == b1 + b2 + Between(ring, r, w)
  {
    var mid, at := Patch(ring, 0, b2), |ring| - |b1|;
    PatchOnward(ring, 0, b2, w);
    PatchBefore(mid, at, b1, w);
    PatchUpTo(mid, at, b1, at);
    assert mid[at..at] + b1 == b1;
    Regroup(b1, b2, ring[r..w]);
  }

  class CStandardByteQueue {
    var buffer: array<byte>
    var maxCount: nat
    var head: nat
    var tail: nat
    var partFill: bool

    predicate Valid()
      reads this
    {
      && buffer.Length == maxCount
      && if maxCount == 0 then head == tail == 0 else head < maxCount && tail < maxCount
    }

    /** The bytes in the queue, the next one to get first. */
    function Contents(): (s: seq<byte>)
      reads this, buffer
      requires Valid()
      ensures |s| <= MaxSize()
    {
      if maxCount == 0 then [] else Between(buffer[..], tail, head)
    }

    function MaxSize(): nat
      reads this
    {
      if maxCount != 0 then maxCount - 1 else 0
    }

    function UsedSize(): (n: nat)
      reads this, buffer
      requires Valid()
      ensures n == |Contents()|
    {
      if head < tail then head + maxCount - tail else head - tail
    }

    function FreeSize(): (n: nat)
      reads this, buffer
      requires Valid()
      ensures UsedSize() + n == MaxSize()
    {
      if maxCount == 0 then 0 else if head >= tail then tail + maxCount - head - 1 else tail - head - 1
    }

    predicate IsFull()
      reads this, buffer
      requires Valid() && maxCount != 0
      ensures IsFull() <==> |Contents()| == MaxSize()
    {
      (if head + 1 >= maxCount then 0 else head + 1) == tail
    }

    constructor (maxQueueSize: nat, partFillAllow: bool)
      requires maxQueueSize > 0
      ensures Valid() && fresh(buffer) && Contents() == [] && MaxSize() == maxQueueSize && partFill == partFillAllow
    {
      buffer := new byte[0];
      maxCount, head, tail, partFill := 0, 0, 0, partFillAllow;
      new;
      var ok := Resize(maxQueueSize);
    }

    method Put(dataIn: seq<byte>) returns (length: nat)
      requires Valid()
      modifies this`head, buffer
      ensures Valid()
      ensures length == Granted(partFill, |dataIn|, old(FreeSize()))
      ensures Contents() == old(Contents()) + dataIn[..length]
    {
      length := 0;
      if maxCount != 0 {
        length := Granted(partFill, |dataIn|, FreeSize());
        Append(dataIn[..length]);
      }
    }

    /** Copies bytes that fit behind the last byte, in two pieces across the ring's end. */
    method Append(bytes: seq<byte>)
      requires Valid() && maxCount != 0 && |bytes| <= FreeSize()
      modifies this`head, buffer
      ensures Valid()
      ensures Contents() == old(Contents()) + bytes
    {
      ghost var ring := buffer[..];
      if bytes == [] {
        return;
      }
      if |bytes| + head >= maxCount {
        var dif := maxCount - head;
        assert bytes == bytes[..dif] + bytes[dif..];
        BetweenWrap(ring, tail, head, bytes[..dif], bytes[dif..]);
        CopyIn(buffer, head, bytes[..dif]);
        head := |bytes| - dif;
        CopyIn(buffer, 0, bytes[dif..]);
      } else {
        BetweenPatch(ring, tail, head, bytes);
        CopyIn(buffer, head, bytes);
        head := head + |bytes|;
      }
    }

    method Fill(fillByte: byte, wanted: nat) returns (length: nat)
      requires Valid()
      modifies this`head, buffer
      ensures Valid()
      ensures length == if wanted == 0 then old(FreeSize()) else Granted(partFill, wanted, old(FreeSize()))
      ensures Contents() == old(Contents()) + Repeat(fillByte, length)
    {
      length := 0;
      if maxCount != 0 {
        length := if wanted == 0 then FreeSize() else Granted(partFill, wanted, FreeSize());
        Append(Repeat(fillByte, length));
      }
    }

    /** When not all fit, the last bytes of the data are kept. */
    method PutInFront(dataIn: seq<byte>) returns (length: nat)
      requires Valid()
      modifies this`tail, buffer
      ensures Valid()
      ensures length == Granted(partFill, |dataIn|, old(FreeSize()))
      ensures Contents() == dataIn[|dataIn| - length..] + old(Contents())
    {
      length := 0;
      if maxCount != 0 {
        length := Granted(partFill, |dataIn|, FreeSize());
        Prepend(dataIn[|dataIn| - length..]);
      }
    }

    method Prepend(bytes: seq<byte>)
      requires Valid() && maxCount != 0 && |bytes| <= FreeSize()
      modifies this`tail, buffer
      ensures Valid()
      ensures Contents() == bytes + old(Contents())
    {
      if tail < |bytes| {
        PrependWrapped(bytes[..|bytes| - tail], bytes[|bytes| - tail..]);
        assert bytes[..|bytes| - old(tail)] + bytes[|bytes| - old(tail)..] == bytes;
      } else {
        PrependStraight(bytes);
      }
    }

    method PrependStraight(bytes: seq<byte>)
      requires Valid() && maxCount != 0 && |bytes| <= tail && (head < tail ==> head < tail - |bytes|)
      modifies this`tail, buffer
      ensures Valid()
      ensures Contents() == bytes + old(Contents())
    {
      BetweenFront(buffer[..], tail, head, bytes);
      CopyIn(buffer, tail - |bytes|, bytes);
      tail := tail - |bytes|;
    }

    method PrependWrapped(bytes1: seq<byte>, bytes2: seq<byte>)
      requires Valid() && maxCount != 0 && |bytes2| == tail <= head < maxCount - |bytes1| && bytes1 != []
      modifies this`tail, buffer
      ensures Valid()
      ensures Contents() == bytes1 + bytes2 + old(Contents())
    {
      ghost var ring, was := buffer[..], Contents();
      BetweenFrontWrap(ring, tail, head, bytes1, bytes2);
      CopyPieces(bytes1, bytes2);
      assert Between(buffer[..], tail, head) == bytes1 + bytes2 + was;
    }

    method CopyPieces(bytes1: seq<byte>, bytes2: seq<byte>)
      requires buffer.Length == maxCount && |bytes1| + |bytes2| <= maxCount
      modifies this`tail, buffer
      ensures tail == maxCount - |bytes1|
      ensures buffer[..] == Patch(Patch(old(buffer[..]), 0, bytes2), maxCount - |bytes1|, bytes1)
    {
      CopyIn(buffer, 0, bytes2);
      tail := maxCount - |bytes1|;
      CopyIn(buffer, tail, bytes1);
    }

    method Get(maxLength: nat) returns (dataOut: seq<byte>)
      requires Valid()
      modifies this`tail
      ensures Valid()
      ensures |dataOut| == Granted(partFill, maxLength, |old(Contents())|)
      ensures old(Contents()) == dataOut + Contents()
    {
      var length := Granted(partFill, maxLength, UsedSize());
      if maxCount == 0 {
        return [];
      }
      BetweenSkip(buffer[..], tail, head, length);
      dataOut := Fetch(length);
    }

    method Fetch(length: nat) returns (dataOut: seq<byte>)
      requires Valid() && maxCount != 0 && length <= UsedSize()
      modifies this`tail
      ensures dataOut == FirstBytes(buffer[..], old(tail), length) && tail == Skip(maxCount, old(tail), length)
    {
      if length + tail >= maxCount {
        var dif := maxCount - tail;
        dataOut := buffer[tail..tail + dif];
        tail := length - dif;
        dataOut := dataOut + buffer[..tail];
      } else {
        dataOut := buffer[tail..tail + length];
        tail := tail + length;
      }
    }

    method Remove(maxLength: nat) returns (length: nat)
      requires Valid()
      modifies this`tail
      ensures Valid()
      ensures length == Granted(partFill, maxLength, |old(Contents())|)
      ensures Contents() == old(Contents())[length..]
    {
      length := Granted(partFill, maxLength, UsedSize());
      if maxCount == 0 {
        return;
      }
      BetweenSkip(buffer[..], tail, head, length);
      Advance(length);
    }

    method Advance(length: nat)
      requires tail < maxCount && length <= maxCount
      modifies this`tail
      ensures tail == Skip(maxCount, old(tail), length)
    {
      tail := tail + length;
      if tail >= maxCount {
        tail := tail - maxCount;
      }
    }

    method Clear()
      requires Valid()
      modifies this`head, this`tail
      ensures Valid() && Contents() == []
    {
      head, tail := 0, 0;
    }

    /** The contents move to the begin of a new buffer if they fit. */
    method Resize(newMaxQueueSize: nat) returns (ok: bool)
      requires Valid() && newMaxQueueSize > 0
      modifies this
      ensures Valid() && partFill == old(partFill)
      ensures ok <==> |old(Contents())| <= newMaxQueueSize
      ensures Contents() == old(Contents())
      ensures if ok then fresh(buffer) && MaxSize() == newMaxQueueSize
              else buffer == old(buffer) && MaxSize() == old(MaxSize())
    {
      var count := UsedSize();
      ok := count <= newMaxQueueSize;
      if ok {
        var newBuf := new byte[newMaxQueueSize + 1](_ => 0);
        var bytes := if head < tail then buffer[tail..] + buffer[..head] else buffer[tail..head];
        assert bytes == Contents();
        forall i | 0 <= i < |bytes| {
          newBuf[i] := bytes[i];
        }
        buffer, head, tail, maxCount := newBuf, count, 0, newMaxQueueSize + 1;
        assert buffer[..][..count] == bytes;
      }
    }
  }
}

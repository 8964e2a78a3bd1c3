/** The converter's ring of bytes written (DATA_QUEUE of src/convert/huf2sff.h). */
module DataQueue {
  import opened Bits
  import opened Memory
  import opened Sequences

  const QUEUESIZE := 4096

  /** What a full ring does: it keeps as many leading bytes as fit. */
  function Offer(queue: seq<byte>, bytes: seq<byte>): (r: seq<byte>)
    requires |queue| < QUEUESIZE
    ensures |r| < QUEUESIZE
    ensures |queue| + |bytes| < QUEUESIZE ==> r == queue + bytes
  {
    if |queue| + |bytes| < QUEUESIZE then queue + bytes
    else queue + bytes[..QUEUESIZE - 1 - |queue|]
  }

  lemma OfferAppend(queue: seq<byte>, a: seq<byte>, b: seq<byte>)
    requires |queue| < QUEUESIZE
    ensures Offer(Offer(queue, a), b) == Offer(queue, a + b)
  {
    if |queue| + |a| >= QUEUESIZE {
      assert (a + b)[..QUEUESIZE - 1 - |queue|] == a[..QUEUESIZE - 1 - |queue|];
    } else if |queue| + |a| + |b| >= QUEUESIZE {
      var n := QUEUESIZE - 1 - |queue|;
      assert queue + (a + b)[..n] == queue + a + b[..n - |a|];
    } else {
      assert queue + (a + b) == queue + a + b;
    }
  }

  /** The bytes between two positions of a ring, going round its end when the second is lower. */
  function Between(ring: seq<byte>, from: nat, to: nat): (s: seq<byte>)
    requires from < |ring| && to < |ring|
    ensures |s| == if from <= to then to - from else to + |ring| - from
  {
    if from <= to then ring[from..to] else ring[from..] + ring[..to]
  }

  /** Writing behind the last byte, short of the ring's end, appends. */
  lemma BetweenPatch(ring: seq<byte>, r: nat, w: nat, b: seq<byte>)
    requires r < |ring| && w + |b| < |ring| && (r > w ==> w + |b| < r)
    ensures Between(Patch(ring, w, b), r, w + |b|) == Between(ring, r, w) + b
  {
    if r <= w {
      PatchUpTo(ring, w, b, r);
    } else {
      PatchUpTo(ring, w, b, 0);
      PatchBehind(ring, w, b, r);
      Regroup(ring[r..], ring[..w], b);
    }
  }

  /** The same across the ring's end. */
  lemma BetweenWrap(ring: seq<byte>, r: nat, w: nat, b1: seq<byte>, b2: seq<byte>)
    requires |b2| < r <= w < |ring| && w + |b1| == |ring|
    ensures Between(Patch(Patch(ring, w, b1), 0, b2), r, |b2|) == Between(ring, r, w) + (b1 + b2)
  {
    var mid := Patch(ring, w, b1);
    PatchUpTo(ring, w, b1, r);
    PatchBehind(mid, 0, b2, r);
    PatchUpTo(mid, 0, b2, 0);
    assert mid[..0] + b2 == b2;
    Regroup(ring[r..w], b1, b2);
  }

  /** The first bytes, which may lie on both sides of the ring's end, and where the others begin. */
  function FirstBytes(ring: seq<byte>, r: nat, n: nat): seq<byte>
    requires r < |ring| && n <= |ring|
  {
    if r + n < |ring| then ring[r..r + n] else ring[r..] + ring[..r + n - |ring|]
  }

  function Skip(size: nat, r: nat, n: nat): (s: nat)
    requires r < size && n <= size
    ensures s < size
  {
    if r + n < size then r + n else r + n - size
  }

  lemma BetweenSkip(ring: seq<byte>, r: nat, w: nat, n: nat)
    requires r < |ring| && w < |ring| && n <= |Between(ring, r, w)|
    ensures FirstBytes(ring, r, n) + Between(ring, Skip(|ring|, r, n), w) == Between(ring, r, w)
  {
    if r <= w {
      assert ring[r..r + n] + ring[r + n..w] == ring[r..w];
    } else if r + n < |ring| {
      SplitSuffix(ring, r, r + n);
      Regroup(ring[r..r + n], ring[r + n..], ring[..w]);
    } else {
      var k := r + n - |ring|;
      SplitPrefix(ring, k, w);
      Regroup(ring[r..], ring[..k], ring[k..w]);
    }
  }

  lemma SplitSuffix(s: seq<byte>, a: nat, b: nat)
    requires a <= b <= |s|
    ensures s[a..b] + s[b..] == s[a..]
  {
  }

  lemma SplitPrefix(s: seq<byte>, b: nat, c: nat)
    requires b <= c <= |s|
    ensures s[..b] + s[b..c] == s[..c]
  {
  }

  class Queue {
    const qdata: array<byte>
    var qread: nat
    var qwrite: nat

    predicate Valid()
      reads this
    {
      qdata.Length == QUEUESIZE && qread < QUEUESIZE && qwrite < QUEUESIZE
    }

    /** The bytes waiting in the ring, oldest first. */
    function Contents(): (s: seq<byte>)
      reads this, qdata
      requires Valid()
      ensures |s| < QUEUESIZE
    {
      Between(qdata[..], qread, qwrite)
    }

    constructor ()
      ensures Valid() && fresh(qdata) && Contents() == []
    {
      qdata := new byte[QUEUESIZE](_ => 0);
      qread, qwrite := 0, 0;
    }

    method Clear()
      requires Valid()
      modifies this
      ensures Valid() && Contents() == []
    {
      qread, qwrite := 0, 0;
    }

    method Fill() returns (n: nat)
      requires Valid()
      ensures n == |Contents()|
    {
      n := (qwrite + QUEUESIZE - qread) % QUEUESIZE;
    }

    /** HUFenq: append as many of the bytes as fit. */
    method Enq(buff: seq<byte>) returns (n: nat)
      requires Valid()
      modifies this`qwrite, qdata
      ensures Valid() && Contents() == Offer(old(Contents()), buff)
      ensures n == |Contents()| - |old(Contents())|
    {
      var fill := Fill();
      var free := QUEUESIZE - 1 - fill;
      n := if |buff| > free then free else |buff|;
      if n == 0 {
        return;
      }
      Store(buff[..n]);
    }

    /** Copy bytes that fit behind the last byte, in two pieces if need be. */
    method Store(bytes: seq<byte>)
      requires Valid() && 0 < |bytes| < QUEUESIZE - |Contents()|
      modifies this`qwrite, qdata
      ensures Valid() && Contents() == old(Contents()) + bytes
    {
      ghost var ring := qdata[..];
      var len1 := if qwrite + |bytes| > QUEUESIZE then QUEUESIZE - qwrite else |bytes|;
      var b1, b2 := bytes[..len1], bytes[len1..];
      assert bytes == b1 + b2;
      CopyIn(qdata, qwrite, b1);
      if qwrite + len1 < QUEUESIZE {
        BetweenPatch(ring, qread, qwrite, b1);
        qwrite := qwrite + len1;
      } else {
        BetweenWrap(ring, qread, qwrite, b1, b2);
        qwrite := 0;
        CopyIn(qdata, qwrite, b2);
        qwrite := |b2|;
      }
    }

    method Enq1(val: byte) returns (n: nat)
      requires Valid()
      modifies this`qwrite, qdata
      ensures Valid() && Contents() == Offer(old(Contents()), [val])
      ensures n == |Contents()| - |old(Contents())|
    {
      if (qwrite + 1) % QUEUESIZE == qread {
        return 0;
      }
      ghost var was := Contents();
      qdata[qwrite] := val;
      qwrite := (qwrite + 1) % QUEUESIZE;
      n := 1;
      assert Contents() == was + [val];
    }

    /** Take up to `maxLen` bytes from the ring. */
    method Get(maxLen: nat) returns (buffer: seq<byte>)
      requires Valid()
      modifies this`qread
      ensures Valid()
      ensures |buffer| == if maxLen < |old(Contents())| then maxLen else |old(Contents())|
      ensures old(Contents()) == buffer + Contents()
    {
      var fill := Fill();
      var len := if maxLen > fill then fill else maxLen;
      if len == 0 {
        return [];
      }
      BetweenSkip(qdata[..], qread, qwrite, len);
      buffer := Fetch(len);
    }

    /** Copy bytes out, in two pieces if need be. */
    method Fetch(len: nat) returns (buffer: seq<byte>)
      requires Valid() && len <= |Contents()|
      modifies this`qread
      ensures buffer == FirstBytes(qdata[..], old(qread), len)
      ensures qread == Skip(QUEUESIZE, old(qread), len)
    {
      ghost var ring := qdata[..];
      var len1 := if qread + len > QUEUESIZE then QUEUESIZE - qread else len;
      var len2 := len - len1;
      RingStep(qread + len1);
      buffer := qdata[qread..qread + len1];
      assert buffer == ring[qread..qread + len1];
      assert qread + len1 == QUEUESIZE ==> buffer == ring[qread..] && ring[..0] == [];
      qread := (qread + len1) % QUEUESIZE;
      if len2 > 0 {
        assert qdata[qread..qread + len2] == ring[..len2];
        buffer := buffer + qdata[qread..qread + len2];
        RingStep(qread + len2);
        qread := (qread + len2) % QUEUESIZE;
      }
    }
  }

  lemma RingStep(n: nat)
    requires n <= QUEUESIZE
    ensures n % QUEUESIZE == if n < QUEUESIZE then n else 0
  {
  }
}

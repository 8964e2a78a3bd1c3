/** Copying bytes into a block of memory. */
module Memory {
  import opened Bits

  /** The block after copying. */
  function Patch(mem: seq<byte>, at: nat, bytes: seq<byte>): (r: seq<byte>)
    requires at + |bytes| <= |mem|
    ensures |r| == |mem|
  {
    mem[..at] + bytes + mem[at + |bytes|..]
  }

  // ---- parts of the block, as they are cut out -----------------------------------------------

  lemma PatchBefore(mem: seq<byte>, at: nat, bytes: seq<byte>, to: nat)
    requires to <= at && at + |bytes| <= |mem|
    ensures Patch(mem, at, bytes)[..to] == mem[..to]
  {
  }

  lemma PatchBehind(mem: seq<byte>, at: nat, bytes: seq<byte>, from: nat)
    requires at + |bytes| <= from <= |mem|
    ensures Patch(mem, at, bytes)[from..] == mem[from..]
  {
  }

  lemma PatchUpTo(mem: seq<byte>, at: nat, bytes: seq<byte>, from: nat)
    requires from <= at && at + |bytes| <= |mem|
    ensures Patch(mem, at, bytes)[from..at + |bytes|] == mem[from..at] + bytes
    ensures Patch(mem, at, bytes)[..at + |bytes|] == mem[..at] + bytes
    ensures at + |bytes| == |mem| ==> Patch(mem, at, bytes)[from..] == mem[from..at] + bytes
  {
  }

  lemma PatchOnward(mem: seq<byte>, at: nat, bytes: seq<byte>, to: nat)
    requires at + |bytes| <= to <= |mem|
    ensures Patch(mem, at, bytes)[at..to] == bytes + mem[at + |bytes|..to]
    ensures Patch(mem, at, bytes)[at..] == bytes + mem[at + |bytes|..]
    ensures at == 0 ==> Patch(mem, at, bytes)[..to] == bytes + mem[|bytes|..to]
  {
  }

  lemma PatchTwice(mem: seq<byte>, at: nat, a: seq<byte>, b: seq<byte>)
    requires at + |a| + |b| <= |mem|
    ensures Patch(Patch(mem, at, a), at + |a|, b) == Patch(mem, at, a + b)
  {
    var once := Patch(mem, at, a);
    assert once[..at + |a|] == mem[..at] + a;
    assert once[at + |a| + |b|..] == mem[at + |a| + |b|..];
  }

  lemma PatchNothing(mem: seq<byte>, at: nat)
    requires at <= |mem|
    ensures Patch(mem, at, []) == mem
  {}

  /** s_memcpy. */
  method CopyIn(mem: array<byte>, at: nat, bytes: seq<byte>)
    requires at + |bytes| <= mem.Length
    modifies mem
    ensures mem[..] == Patch(old(mem[..]), at, bytes)
  {
    forall i | 0 <= i < |bytes| {
      mem[at + i] := bytes[i];
    }
  }
}

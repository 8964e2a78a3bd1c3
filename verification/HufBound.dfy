/** How much the converter can write for a given number of bits. */
module HufBound {
  import opened Bits
  import opened HufTree
  import opened SffStream
  import opened HufMachine

  const PAGEBYTES := 18

  function LineBytes(rs: seq<SffRecord>): nat {
    if rs == [] then 0 else (if rs[0].Line? then |Encode(rs[0])| else 0) + LineBytes(rs[1..])
  }

  lemma {:induction false} LineBytesAppend(a: seq<SffRecord>, b: seq<SffRecord>)
    ensures LineBytes(a + b) == LineBytes(a) + LineBytes(b)
  {
    if a == [] {
      assert a + b == b;
    } else {
      assert (a + b)[1..] == a[1..] + b;
      LineBytesAppend(a[1..], b);
    }
  }

  /** The bits that are paid for no record yet; one less than none when the next bit is paid for too. */
  function Unpaid(m: Machine): int {
    if m.eolFound then -1 else Recorded(m)
  }

  /** What is left of 3 bytes for 17 bits: nothing, or at least two seventeenths of a byte. */
  predicate Spare(n: int) {
    n == 0 || n >= 2
  }

  /** A record of at least eleven bits costs, with the one bit that ends the line, 17 bits for 3 bytes. */
  lemma LineCost(data: seq<byte>, bits: nat)
    requires |data| == bits / 8
    ensures bits >= 11 ==> Spare(3 * (bits + 1) - 17 * |Encode(Line(data))|)
  {}

  function SpareOf(ts: Trees, m: Machine, bits: seq<bool>): int
    requires BothWellFormed(ts) && Ok(ts, m)
  {
    3 * (Unpaid(m) + |bits| - Unpaid(Run(ts, m, bits).0)) - 17 * LineBytes(Run(ts, m, bits).1)
  }

  lemma StepBound(ts: Trees, m: Machine, bit: bool)
    requires BothWellFormed(ts) && Ok(ts, m)
    ensures Spare(3 * (Unpaid(m) + 1 - Unpaid(Step(ts, m, bit).0)) - 17 * LineBytes(Step(ts, m, bit).1))
  {
    if Recording(m) {
      RecordingBound(ts, m, bit);
    } else {
      var rs := Step(ts, m, bit).1;
      StepKeeps(ts, m, bit);
      assert rs == [] || rs == [rs[0]];
    }
  }

  lemma RecordingBound(ts: Trees, m: Machine, bit: bool)
    requires BothWellFormed(ts) && Ok(ts, m) && Recording(m)
    ensures Spare(3 * (Unpaid(m) + 1 - Unpaid(Step(ts, m, bit).0)) - 17 * LineBytes(Step(ts, m, bit).1))
  {
    var r := RecordBit(m, bit);
    RecordBitKeeps(m, bit);
    WalkKeeps(ts, r, bit);
    LineCost(r.aux, Recorded(r));
    LineAlone(r.aux);
  }

  lemma LineAlone(data: seq<byte>)
    ensures LineBytes([Line(data)]) == |Encode(Line(data))|
  {
    assert [Line(data)][1..] == [];
  }

  /** The expansion bound, with the state before and after: 17 bits buy 3 bytes, and if some of that is left
      it is never a single seventeenth. */
  lemma {:induction false} RunBound(ts: Trees, m: Machine, bits: seq<bool>)
    requires BothWellFormed(ts) && Ok(ts, m)
    ensures Spare(SpareOf(ts, m, bits))
    decreases |bits|
  {
    if bits != [] {
      StepBound(ts, m, bits[0]);
      RunCons(ts, m, bits);
      var (m1, rs1) := Step(ts, m, bits[0]);
      RunBound(ts, m1, bits[1..]);
      LineBytesAppend(rs1, Run(ts, m1, bits[1..]).1);
    }
  }

  /** A page starts at most once in a run, with the first end-of-line code. */
  lemma {:induction false} RunPages(ts: Trees, m: Machine, bits: seq<bool>)
    requires BothWellFormed(ts) && Ok(ts, m)
    ensures |EncodeAll(Run(ts, m, bits).1)|
         == LineBytes(Run(ts, m, bits).1)
            + if !m.lineValid && Run(ts, m, bits).0.lineValid then PAGEBYTES else 0
    decreases |bits|
  {
    if bits != [] {
      StepKeeps(ts, m, bits[0]);
      var (m1, rs1) := Step(ts, m, bits[0]);
      RunPages(ts, m1, bits[1..]);
      RunIsOk(ts, m1, bits[1..]);
      LineBytesAppend(rs1, Run(ts, m1, bits[1..]).1);
      EncodeAllAppend(rs1, Run(ts, m1, bits[1..]).1);
      StepPages(ts, m, bits[0]);
    }
  }

  lemma StepPages(ts: Trees, m: Machine, bit: bool)
    requires BothWellFormed(ts) && Ok(ts, m)
    ensures |EncodeAll(Step(ts, m, bit).1)|
         == LineBytes(Step(ts, m, bit).1)
            + if !m.lineValid && Step(ts, m, bit).0.lineValid then PAGEBYTES else 0
  {
    StepKeeps(ts, m, bit);
    var rs := Step(ts, m, bit).1;
    if rs != [] {
      assert rs == [rs[0]] && rs[1..] == [];
      assert EncodeAll(rs) == Encode(rs[0]) + [];
    }
  }

  /** At most 3 bytes for 17 bits, counting one bit more than came in and the bits already recorded,
      and one page header if the document had not begun. */
  lemma ExpansionBound(ts: Trees, m: Machine, bits: seq<bool>)
    requires BothWellFormed(ts) && Ok(ts, m)
    ensures 17 * LineBytes(Run(ts, m, bits).1) <= 3 * (Recorded(m) + |bits| + 1)
    ensures |EncodeAll(Run(ts, m, bits).1)|
         <= 3 * (Recorded(m) + |bits| + 1) / 17 + if m.lineValid then 0 else PAGEBYTES
  {
    RunBound(ts, m, bits);
    RunPages(ts, m, bits);
  }
}

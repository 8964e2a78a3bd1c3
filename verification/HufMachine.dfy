/** The bit machine of the Modified Huffman to SFF converter, for any well-formed pair of code trees:
    one step a bit, and the SFF records that a step writes. */
module HufMachine {
  import opened Bits
  import opened Options
  import opened HufTree
  import opened SffStream

  /** The converter's fields, but for the ring of bytes written. */
  datatype Machine = Machine(
    lineValid: bool, eop: bool, vres: nat,
    node: nat, white: bool, eolFound: bool, zeros: nat,
    run0: int, run1: int, emptyLine: bool,
    aux: seq<byte>, outByte: byte, outBits: nat)

  const AUXSIZE := 8192

  /** A cleared machine, as at the start of a document. */
  function Opened(vres: nat): Machine {
    Machine(false, false, vres, 0, true, false, 0, 0, 0, false, [], 0, 0)
  }

  function HufmanInit(m: Machine): Machine {
    m.(node := 0, white := true, eolFound := false, zeros := 0, run0 := 0, run1 := 0,
       aux := [], outByte := 0, outBits := 0)
  }

  predicate Recording(m: Machine) {
    m.lineValid && !m.eolFound
  }

  /** Shift the bit into the byte being filled. */
  function RecordBit(m: Machine, bit: bool): Machine {
    var out := ShiftIn(m.outByte, bit);
    if m.outBits + 1 >= 8 then m.(aux := m.aux + [out], outByte := 0, outBits := 0)
    else m.(outByte := out, outBits := m.outBits + 1)
  }

  function AddRun(m: Machine, run: int): Machine {
    var m1 := m.(run1 := m.run1 + run, emptyLine := m.emptyLine && (m.white || run == 0), node := 0);
    if run < TCLIM then m1.(white := !m.white, run0 := m1.run1) else m1
  }

  /** Follow the bit in the code tree of the current colour. */
  function WalkBit(ts: Trees, m: Machine, bit: bool): (Machine, seq<SffRecord>)
    requires Inside(ts, m)
  {
    var t := ts.Of(m.white);
    var next := Child(t[m.node], bit);
    var token := if next < |t| then t[next].token else -1;
    var m1 := m.(node := next);
    if token < 0 then (m1, [])
    else if token == EOL then (m1.(eolFound := true), [Line(m.aux)])
    else (AddRun(m1, token), [])
  }

  /** Count zeros; a one bit after eleven of them ends the line. */
  function CountBit(m: Machine, bit: bool): (Machine, seq<SffRecord>) {
    if !bit then (m.(zeros := m.zeros + 1), [])
    else if m.zeros < 11 then (m.(zeros := 0), [])
    else if m.lineValid then (HufmanInit(m), [])
    else (HufmanInit(m.(lineValid := true, eop := false)), [PageStart(m.vres % 256)])
  }

  /** One call of HUFtstBit. */
  function Step(ts: Trees, m: Machine, bit: bool): (Machine, seq<SffRecord>)
    requires Inside(ts, m)
  {
    var (m1, rs1) := if Recording(m) then WalkBit(ts, RecordBit(m, bit), bit) else (m, []);
    var (m2, rs2) := CountBit(m1, bit);
    (m2, rs1 + rs2)
  }

  // ---- the state invariant -------------------------------------------------------------------

  ghost predicate Inside(ts: Trees, m: Machine) {
    m.node < |ts.Of(m.white)|
  }

  /** How many bits of the current line are recorded. */
  function Recorded(m: Machine): nat {
    8 * |m.aux| + m.outBits
  }

  /** The recorded bits themselves. */
  function LineBits(m: Machine): seq<bool>
    requires m.outBits < 8
  {
    Unpack(m.aux) + Shifted(m.outByte, m.outBits)
  }

  /** An inner node, with as many bits at least recorded as lie between the root and a node that is
      reached by zeros only. */
  ghost predicate Reached(t: Tree, i: nat, bits: nat)
    requires WellFormed(t)
  {
    && i < |t| && t[i].token < 0
    && var z := TrailsOf(t)[i];
       z.OnlyZeros? ==> z.n <= bits
  }

  ghost predicate Ok(ts: Trees, m: Machine)
    requires BothWellFormed(ts)
  {
    && Inside(ts, m)
    && m.outBits < 8
    && (!m.eolFound ==> Reached(ts.Of(m.white), m.node, Recorded(m)))
  }

  lemma RootReached(t: Tree, bits: nat)
    requires WellFormed(t)
    ensures Reached(t, 0, bits)
  {
    assert NodeOk(t, TrailsOf(t), 0);
  }

  /** A bit leads inside the tree; to EOL only by a zero, after ten zeros at least. */
  lemma ChildReached(t: Tree, i: nat, bit: bool, bits: nat)
    requires WellFormed(t) && Reached(t, i, bits)
    ensures var c := Child(t[i], bit);
            && c < |t|
            && (t[c].token < 0 ==> Reached(t, c, bits + 1))
            && (t[c].token == EOL ==> !bit && bits >= 10)
  {
    assert NodeOk(t, TrailsOf(t), i);
    assert NodeOk(t, TrailsOf(t), Child(t[i], bit));
    RootReached(t, bits + 1);
  }

  lemma RecordBitKeeps(m: Machine, bit: bool)
    requires m.outBits < 8
    ensures var r := RecordBit(m, bit);
            && r.outBits < 8 && Recorded(r) == Recorded(m) + 1
            && r == m.(aux := r.aux, outByte := r.outByte, outBits := r.outBits)
  {}

  /** Walking on a bit just recorded keeps the invariant; a line is written on a zero bit only, and
      after eleven recorded bits at least. */
  lemma WalkKeeps(ts: Trees, r: Machine, bit: bool)
    requires BothWellFormed(ts) && !r.eolFound && r.outBits < 8
    requires Recorded(r) > 0 && Reached(ts.Of(r.white), r.node, Recorded(r) - 1)
    ensures var (m', rs) := WalkBit(ts, r, bit);
            && Ok(ts, m')
            && m' == m'.(lineValid := r.lineValid, zeros := r.zeros, vres := r.vres,
                         aux := r.aux, outBits := r.outBits)
            && if m'.eolFound then !bit && Recorded(r) > 10 && rs == [Line(r.aux)] else rs == []
  {
    ChildReached(ts.Of(r.white), r.node, bit, Recorded(r) - 1);
    RootReached(ts.white, Recorded(r));
    RootReached(ts.black, Recorded(r));
  }

  lemma CountKeeps(ts: Trees, m: Machine, bit: bool)
    requires BothWellFormed(ts) && Ok(ts, m)
    ensures Ok(ts, CountBit(m, bit).0)
  {
    RootReached(ts.white, 0);
  }

  /** What a step keeps, and what it writes: at most one record; the start of a page only when no
      line was valid before. */
  lemma StepKeeps(ts: Trees, m: Machine, bit: bool)
    requires BothWellFormed(ts) && Ok(ts, m)
    ensures var (m', rs) := Step(ts, m, bit);
            && Ok(ts, m')
            && |rs| <= 1
            && (m.lineValid ==> m'.lineValid)
            && (rs != [] && rs[0].Line? ==>
                  && Recording(m) && !bit && m'.eolFound && m'.lineValid && Recorded(m) >= 10
                  && rs[0] == Line(RecordBit(m, bit).aux))
            && (rs != [] && !rs[0].Line? ==>
                  rs[0] == PageStart(m.vres % 256) && !m.lineValid && m'.lineValid)
  {
    var m1 := m;
    if Recording(m) {
      RecordBitKeeps(m, bit);
      WalkKeeps(ts, RecordBit(m, bit), bit);
      m1 := WalkBit(ts, RecordBit(m, bit), bit).0;
    }
    CountKeeps(ts, m1, bit);
  }

  /** Recording is faithful: bits are kept in the order in which they came. */
  lemma RecordBitAppends(m: Machine, bit: bool)
    requires m.outBits < 8
    ensures LineBits(RecordBit(m, bit)) == LineBits(m) + [bit]
  {
    ShiftInAppends(m.outByte, m.outBits, bit);
    var out := ShiftIn(m.outByte, bit);
    calc {
      LineBits(m) + [bit];
      Unpack(m.aux) + (Shifted(m.outByte, m.outBits) + [bit]);
      Unpack(m.aux) + Shifted(out, m.outBits + 1);
    }
    if m.outBits == 7 {
      UnpackFull(m.aux, out);
    }
  }

  // ---- runs ----------------------------------------------------------------------------------

  /** All records written for a string of bits, and the state after it. */
  function Run(ts: Trees, m: Machine, bits: seq<bool>): (Machine, seq<SffRecord>)
    requires BothWellFormed(ts) && Ok(ts, m)
    decreases |bits|
  {
    if bits == [] then (m, [])
    else
      StepKeeps(ts, m, bits[0]);
      var (m1, rs1) := Step(ts, m, bits[0]);
      var (m2, rs2) := Run(ts, m1, bits[1..]);
      (m2, rs1 + rs2)
  }

  lemma {:induction false} RunIsOk(ts: Trees, m: Machine, bits: seq<bool>)
    requires BothWellFormed(ts) && Ok(ts, m)
    ensures Ok(ts, Run(ts, m, bits).0)
    ensures m.lineValid ==> Run(ts, m, bits).0.lineValid
    decreases |bits|
  {
    if bits != [] {
      StepKeeps(ts, m, bits[0]);
      RunIsOk(ts, Step(ts, m, bits[0]).0, bits[1..]);
    }
  }

  lemma RunCons(ts: Trees, m: Machine, bits: seq<bool>)
    requires BothWellFormed(ts) && Ok(ts, m) && bits != []
    ensures var (m1, rs1) := Step(ts, m, bits[0]);
            && Ok(ts, m1)
            && Run(ts, m, bits).0 == Run(ts, m1, bits[1..]).0
            && Run(ts, m, bits).1 == rs1 + Run(ts, m1, bits[1..]).1
  {
    StepKeeps(ts, m, bits[0]);
  }

  lemma {:induction false} RunAppend(ts: Trees, m: Machine, a: seq<bool>, b: seq<bool>)
    requires BothWellFormed(ts) && Ok(ts, m)
    ensures Ok(ts, Run(ts, m, a).0)
    ensures Run(ts, m, a + b).0 == Run(ts, Run(ts, m, a).0, b).0
    ensures Run(ts, m, a + b).1 == Run(ts, m, a).1 + Run(ts, Run(ts, m, a).0, b).1
    decreases |a|
  {
    if a == [] {
      assert a + b == b;
    } else {
      assert (a + b)[0] == a[0] && (a + b)[1..] == a[1..] + b;
      RunCons(ts, m, a);
      RunCons(ts, m, a + b);
      var (m1, rs1) := Step(ts, m, a[0]);
      RunAppend(ts, m1, a[1..], b);
      var rs2 := Run(ts, m1, a[1..]).1;
      var rs3 := Run(ts, Run(ts, m, a).0, b).1;
      assert rs1 + (rs2 + rs3) == rs1 + rs2 + rs3;
    }
  }

  /** The recorded line never outgrows the converter's line buffer during the run. */
  ghost predicate LinesFit(ts: Trees, m: Machine, bits: seq<bool>)
    requires BothWellFormed(ts) && Ok(ts, m)
    decreases |bits|
  {
    && |m.aux| <= AUXSIZE
    && (bits == [] ||
        (StepKeeps(ts, m, bits[0]);
         && (Recording(m) ==> |RecordBit(m, bits[0]).aux| <= AUXSIZE)
         && LinesFit(ts, Step(ts, m, bits[0]).0, bits[1..])))
  }

  /** A run can be cut anywhere without the line buffer overflowing on either side. */
  lemma {:induction false} LinesFitSplit(ts: Trees, m: Machine, a: seq<bool>, b: seq<bool>)
    requires BothWellFormed(ts) && Ok(ts, m) && LinesFit(ts, m, a + b)
    ensures LinesFit(ts, m, a)
    ensures Ok(ts, Run(ts, m, a).0) && LinesFit(ts, Run(ts, m, a).0, b)
    decreases |a|
  {
    if a == [] {
      assert a + b == b;
    } else {
      StepKeeps(ts, m, a[0]);
      assert (a + b)[1..] == a[1..] + b;
      LinesFitSplit(ts, Step(ts, m, a[0]).0, a[1..], b);
    }
  }

  /** Whatever bits come in, every record written is one that a reader can split off again. */
  lemma {:induction false} RunIsFramed(ts: Trees, m: Machine, bits: seq<bool>)
    requires BothWellFormed(ts) && Ok(ts, m) && LinesFit(ts, m, bits)
    ensures AllFramed(Run(ts, m, bits).1)
    decreases |bits|
  {
    if bits != [] {
      StepKeeps(ts, m, bits[0]);
      RunIsFramed(ts, Step(ts, m, bits[0]).0, bits[1..]);
    }
  }

  /** So the reader recovers exactly the records from the bytes of any run. */
  lemma RunReadsBack(ts: Trees, m: Machine, bits: seq<bool>)
    requires BothWellFormed(ts) && Ok(ts, m) && LinesFit(ts, m, bits)
    ensures Read(EncodeAll(Run(ts, m, bits).1)) == Some(Run(ts, m, bits).1)
  {
    RunIsFramed(ts, m, bits);
    ReadEncoded(Run(ts, m, bits).1);
  }
}

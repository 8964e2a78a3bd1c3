/** Conversion of one line: a well-formed string of T.4 code words, fill and an end-of-line code. */
module HufLine {
  import opened Bits
  import opened HufTree
  import opened SffStream
  import opened HufMachine

  /** Code words of runs in alternating colours; a make-up code keeps the colour. */
  predicate IsLine(ts: Trees, white: bool, codes: seq<seq<bool>>)
    decreases |codes|
  {
    codes == [] ||
    (&& IsCode(ts.Of(white), 0, codes[0])
     && IsLine(ts, ColourAfter(ts, white, codes[0]), codes[1..]))
  }

  predicate ColourAfter(ts: Trees, white: bool, code: seq<bool>)
    requires IsCode(ts.Of(white), 0, code)
  {
    if RunLength(ts.Of(white), 0, code) < TCLIM then !white else white
  }

  function EndColour(ts: Trees, white: bool, codes: seq<seq<bool>>): bool
    requires IsLine(ts, white, codes)
    decreases |codes|
  {
    if codes == [] then white else EndColour(ts, ColourAfter(ts, white, codes[0]), codes[1..])
  }

  /** The number of dots that the runs of a line add up to. */
  function Width(ts: Trees, white: bool, codes: seq<seq<bool>>): int
    requires IsLine(ts, white, codes)
    decreases |codes|
  {
    if codes == [] then 0
    else RunLength(ts.Of(white), 0, codes[0]) + Width(ts, ColourAfter(ts, white, codes[0]), codes[1..])
  }

  function Flat(codes: seq<seq<bool>>): seq<bool> {
    if codes == [] then [] else codes[0] + Flat(codes[1..])
  }

  /** The state just after an end-of-line code. */
  predicate Fresh(m: Machine) {
    m.lineValid && m == HufmanInit(m)
  }

  /** In the middle of a line: `bits` recorded, nothing written, the zero counter below eleven. */
  ghost predicate MidLine(ts: Trees, m: Machine, bits: seq<bool>)
    requires BothWellFormed(ts)
  {
    Ok(ts, m) && Recording(m) && m.zeros <= 10 && LineBits(m) == bits
  }

  // ---- inside a code word --------------------------------------------------------------------

  /** One bit inside a line, away from the end-of-line leaf, is recorded and nothing is written. */
  lemma MidLineStep(ts: Trees, m: Machine, bit: bool, bits: seq<bool>)
    requires BothWellFormed(ts) && MidLine(ts, m, bits)
    requires var t := ts.Of(m.white);
             var c := Child(t[m.node], bit); c < |t| && t[c].token != EOL
    ensures var (m', rs) := Step(ts, m, bit);
            && rs == [] && Ok(ts, m') && Recording(m') && LineBits(m') == bits + [bit]
            && m'.zeros == (if bit then 0 else m.zeros + 1)
            && m'.vres == m.vres && m'.eop == m.eop
            && m' == WalkBit(ts, RecordBit(m, bit), bit).0.(zeros := m'.zeros)
  {
    RecordBitKeeps(m, bit);
    RecordBitAppends(m, bit);
    WalkKeeps(ts, RecordBit(m, bit), bit);
    StepKeeps(ts, m, bit);
  }

  /** The zero counter against the trail of the current node, `start` zeros having come before it. */
  ghost predicate Counted(t: Tree, i: nat, zeros: nat, start: nat)
    requires WellFormed(t) && i < |t|
  {
    var z := TrailsOf(t)[i];
    zeros == if z.OnlyZeros? then start + z.n else z.n
  }

  lemma CodeBit(t: Tree, i: nat, w: seq<bool>, zeros: nat, start: nat)
    requires WellFormed(t) && IsCode(t, i, w) && t[i].token < 0
    requires start <= 3 && Counted(t, i, zeros, start)
    ensures zeros <= 10
    ensures var c := Child(t[i], w[0]);
            var zeros' := if w[0] then 0 else zeros + 1;
            && Counted(t, c, zeros', start) && zeros' <= 10
            && (|w| == 1 ==> zeros' <= 3)
  {
    var c := Child(t[i], w[0]);
    var trail := TrailsOf(t);
    assert NodeOk(t, trail, i) && NodeOk(t, trail, c);
    if trail[i].OnlyZeros? {
      AtMostSevenLeadingZeros(t, trail, i, w);
    }
    if |w| > 1 && trail[c].OnlyZeros? {
      AtMostSevenLeadingZeros(t, trail, c, w[1..]);
    }
  }

  lemma CodeStepKeeps(ts: Trees, m: Machine, w: seq<bool>, bits: seq<bool>, start: nat)
    requires BothWellFormed(ts) && MidLine(ts, m, bits)
    requires IsCode(ts.Of(m.white), m.node, w)
    requires start <= 3 && Counted(ts.Of(m.white), m.node, m.zeros, start)
    ensures var (m', rs) := Step(ts, m, w[0]);
            && rs == [] && MidLine(ts, m', bits + [w[0]])
            && m' == WalkBit(ts, RecordBit(m, w[0]), w[0]).0.(zeros := m'.zeros)
            && m'.zeros == (if w[0] then 0 else m.zeros + 1)
            && m'.vres == m.vres && m'.eop == m.eop
  {
    CodeBit(ts.Of(m.white), m.node, w, m.zeros, start);
    MidLineStep(ts, m, w[0], bits);
  }

  /** Where a bit of a code word leads. */
  lemma CodeWalk(ts: Trees, r: Machine, w: seq<bool>)
    requires IsCode(ts.Of(r.white), r.node, w)
    ensures var m' := WalkBit(ts, r, w[0]).0;
            if |w| == 1 then
              var run := RunLength(ts.Of(r.white), r.node, w);
              m'.node == 0 && m'.run1 == r.run1 + run && m'.white == if run < TCLIM then !r.white else r.white
            else m' == r.(node := Child(ts.Of(r.white)[r.node], w[0]))
  {
  }

  /** One bit of a code word: it stays inside the word, or completes it and its run is added. */
  lemma CodeStep(ts: Trees, m: Machine, w: seq<bool>, bits: seq<bool>, start: nat)
    requires BothWellFormed(ts) && MidLine(ts, m, bits)
    requires IsCode(ts.Of(m.white), m.node, w)
    requires start <= 3 && Counted(ts.Of(m.white), m.node, m.zeros, start)
    ensures var (m', rs) := Step(ts, m, w[0]);
            && rs == [] && MidLine(ts, m', bits + [w[0]])
            && if |w| == 1 then m'.zeros <= 3 && Accepted(m, m', RunLength(ts.Of(m.white), m.node, w))
               else && m' == m'.(white := m.white, run1 := m.run1, vres := m.vres, eop := m.eop)
                    && m'.node == Child(ts.Of(m.white)[m.node], w[0])
                    && Counted(ts.Of(m.white), m'.node, m'.zeros, start)
  {
    CodeStepKeeps(ts, m, w, bits, start);
    RecordBitKeeps(m, w[0]);
    CodeWalk(ts, RecordBit(m, w[0]), w);
    CodeBit(ts.Of(m.white), m.node, w, m.zeros, start);
  }

  /** The state after a code word against the one before it. */
  predicate Accepted(m: Machine, m': Machine, run: int) {
    && m'.node == 0 && m'.run1 == m.run1 + run
    && m'.white == (if run < TCLIM then !m.white else m.white)
    && m'.vres == m.vres && m'.eop == m.eop
  }

  /** A code word is recorded whole, adds its run, and leaves at most three zeros counted; at no bit of
      it are more than ten zeros counted. */
  lemma {:induction false} RunCode(ts: Trees, m: Machine, w: seq<bool>, bits: seq<bool>, start: nat)
    requires BothWellFormed(ts) && MidLine(ts, m, bits)
    requires IsCode(ts.Of(m.white), m.node, w)
    requires start <= 3 && Counted(ts.Of(m.white), m.node, m.zeros, start)
    ensures var (m', rs) := Run(ts, m, w);
            && rs == [] && MidLine(ts, m', bits + w) && m'.zeros <= 3
            && Accepted(m, m', RunLength(ts.Of(m.white), m.node, w))
    ensures Quiet(ts, m, w)
    decreases |w|
  {
    CodeStep(ts, m, w, bits, start);
    BitsMore(bits, w);
    if |w| == 1 {
      LastBit(ts, m, w);
    } else {
      RunCode(ts, Step(ts, m, w[0]).0, w[1..], bits + [w[0]], start);
      QuietMore(ts, m, w);
      SilentBit(ts, m, w);
    }
  }

  lemma BitsMore(bits: seq<bool>, w: seq<bool>)
    requires w != []
    ensures bits + [w[0]] + w[1..] == bits + w
    ensures |w| == 1 ==> bits + [w[0]] == bits + w
  {
  }

  lemma QuietMore(ts: Trees, m: Machine, w: seq<bool>)
    requires BothWellFormed(ts) && Ok(ts, m) && w != [] && m.zeros <= 10
    requires Ok(ts, Step(ts, m, w[0]).0) && Quiet(ts, Step(ts, m, w[0]).0, w[1..])
    ensures Quiet(ts, m, w)
  {
  }

  lemma SilentBit(ts: Trees, m: Machine, w: seq<bool>)
    requires BothWellFormed(ts) && Ok(ts, m) && w != [] && Step(ts, m, w[0]).1 == []
    ensures Ok(ts, Step(ts, m, w[0]).0) && Run(ts, m, w) == Run(ts, Step(ts, m, w[0]).0, w[1..])
  {
    RunCons(ts, m, w);
    var rs := Run(ts, Step(ts, m, w[0]).0, w[1..]).1;
    assert [] + rs == rs;
  }

  lemma LastBit(ts: Trees, m: Machine, w: seq<bool>)
    requires BothWellFormed(ts) && Ok(ts, m) && |w| == 1 && m.zeros <= 10
    requires var m1 := Step(ts, m, w[0]).0; Ok(ts, m1) && m1.zeros <= 10
    ensures Run(ts, m, w) == Step(ts, m, w[0]) && Quiet(ts, m, w)
  {
    var (m1, rs) := Step(ts, m, w[0]);
    assert w[1..] == [] && Run(ts, m1, w[1..]) == (m1, []) && rs + [] == rs;
  }

  /** At no bit of the run are more than ten zeros counted. */
  ghost predicate Quiet(ts: Trees, m: Machine, bits: seq<bool>)
    requires BothWellFormed(ts) && Ok(ts, m)
    decreases |bits|
  {
    && m.zeros <= 10
    && (bits == [] || (StepKeeps(ts, m, bits[0]); Quiet(ts, Step(ts, m, bits[0]).0, bits[1..])))
  }

  lemma {:induction false} QuietAppend(ts: Trees, m: Machine, a: seq<bool>, b: seq<bool>)
    requires BothWellFormed(ts) && Ok(ts, m) && Quiet(ts, m, a)
    requires Ok(ts, Run(ts, m, a).0) && Quiet(ts, Run(ts, m, a).0, b)
    ensures Quiet(ts, m, a + b)
    decreases |a|
  {
    if a == [] {
      assert a + b == b;
    } else {
      StepKeeps(ts, m, a[0]);
      assert (a + b)[1..] == a[1..] + b;
      QuietAppend(ts, Step(ts, m, a[0]).0, a[1..], b);
    }
  }

  /** Two runs in a row that write nothing and count no eleven zeros. */
  lemma QuietRuns(ts: Trees, m: Machine, a: seq<bool>, b: seq<bool>)
    requires BothWellFormed(ts) && Ok(ts, m) && Quiet(ts, m, a) && Run(ts, m, a).1 == []
    requires Ok(ts, Run(ts, m, a).0)
    requires Quiet(ts, Run(ts, m, a).0, b) && Run(ts, Run(ts, m, a).0, b).1 == []
    ensures Quiet(ts, m, a + b)
    ensures Run(ts, m, a + b).1 == [] && Run(ts, m, a + b).0 == Run(ts, Run(ts, m, a).0, b).0
  {
    QuietAppend(ts, m, a, b);
    RunAppend(ts, m, a, b);
  }

  lemma {:induction false} QuietPrefix(ts: Trees, m: Machine, a: seq<bool>, b: seq<bool>)
    requires BothWellFormed(ts) && Ok(ts, m) && Quiet(ts, m, a + b)
    ensures Run(ts, m, a).0.zeros <= 10
    decreases |a|
  {
    if a != [] {
      assert (a + b)[0] == a[0] && (a + b)[1..] == a[1..] + b;
      RunCons(ts, m, a);
      QuietPrefix(ts, Step(ts, m, a[0]).0, a[1..], b);
    }
  }

  lemma QuietThroughout(ts: Trees, m: Machine, bits: seq<bool>)
    requires BothWellFormed(ts) && Ok(ts, m) && Quiet(ts, m, bits)
    ensures forall k :: 0 <= k <= |bits| ==> Run(ts, m, bits[..k]).0.zeros <= 10
  {
    forall k | 0 <= k <= |bits| ensures Run(ts, m, bits[..k]).0.zeros <= 10 {
      assert bits == bits[..k] + bits[k..];
      QuietPrefix(ts, m, bits[..k], bits[k..]);
    }
  }

  // ---- the code words of a line --------------------------------------------------------------

  lemma RootCounted(t: Tree, zeros: nat)
    requires WellFormed(t)
    ensures |t| > 0 && Counted(t, 0, zeros, zeros)
  {
    assert NodeOk(t, TrailsOf(t), 0);
  }

  /** The state after the code words of a line against the one before them. */
  ghost predicate CodesDone(ts: Trees, m: Machine, m': Machine, codes: seq<seq<bool>>, bits: seq<bool>)
    requires BothWellFormed(ts) && IsLine(ts, m.white, codes)
  {
    && MidLine(ts, m', bits) && m'.zeros <= 3 && m'.node == 0
    && m'.run1 == m.run1 + Width(ts, m.white, codes)
    && m'.white == EndColour(ts, m.white, codes)
    && m'.vres == m.vres && m'.eop == m.eop
  }

  /** A run over the code words of a line: it writes nothing and counts no eleven zeros. */
  ghost predicate CodesRun(ts: Trees, m: Machine, codes: seq<seq<bool>>, bits: seq<bool>)
    requires BothWellFormed(ts) && Ok(ts, m) && IsLine(ts, m.white, codes)
  {
    && Run(ts, m, Flat(codes)).1 == []
    && CodesDone(ts, m, Run(ts, m, Flat(codes)).0, codes, bits)
    && Quiet(ts, m, Flat(codes))
  }

  /** All code words of a line are recorded, and their runs add up. */
  lemma {:induction false} RunCodes(ts: Trees, m: Machine, codes: seq<seq<bool>>, bits: seq<bool>)
    requires BothWellFormed(ts) && MidLine(ts, m, bits) && m.node == 0 && m.zeros <= 3
    requires IsLine(ts, m.white, codes)
    ensures CodesRun(ts, m, codes, bits + Flat(codes))
    decreases |codes|
  {
    if codes == [] {
      NoCodesRun(ts, m, bits);
    } else {
      FirstCode(ts, m, codes, bits);
      RunCodes(ts, Run(ts, m, codes[0]).0, codes[1..], bits + codes[0]);
      FlatMore(codes, bits);
      CodesRunMore(ts, m, codes, bits + Flat(codes));
    }
  }

  lemma NoCodesRun(ts: Trees, m: Machine, bits: seq<bool>)
    requires BothWellFormed(ts) && MidLine(ts, m, bits) && m.node == 0 && m.zeros <= 3
    ensures CodesRun(ts, m, [], bits + Flat([]))
  {
    assert bits + Flat([]) == bits;
  }

  lemma FlatMore(codes: seq<seq<bool>>, bits: seq<bool>)
    requires codes != []
    ensures bits + codes[0] + Flat(codes[1..]) == bits + Flat(codes)
  {
  }

  /** The state after the first code word. */
  ghost predicate FirstDone(ts: Trees, m: Machine, codes: seq<seq<bool>>)
    requires BothWellFormed(ts) && Ok(ts, m) && codes != [] && IsLine(ts, m.white, codes)
  {
    var m1 := Run(ts, m, codes[0]).0;
    && Ok(ts, m1) && Run(ts, m, codes[0]).1 == []
    && Accepted(m, m1, RunLength(ts.Of(m.white), 0, codes[0]))
    && m1.white == ColourAfter(ts, m.white, codes[0])
    && Quiet(ts, m, codes[0])
  }

  lemma FirstCode(ts: Trees, m: Machine, codes: seq<seq<bool>>, bits: seq<bool>)
    requires BothWellFormed(ts) && MidLine(ts, m, bits) && m.node == 0 && m.zeros <= 3
    requires codes != [] && IsLine(ts, m.white, codes)
    ensures FirstDone(ts, m, codes)
    ensures var m1 := Run(ts, m, codes[0]).0;
            MidLine(ts, m1, bits + codes[0]) && m1.node == 0 && m1.zeros <= 3
  {
    RootCounted(ts.Of(m.white), m.zeros);
    RunCode(ts, m, codes[0], bits, m.zeros);
  }

  lemma CodesRunMore(ts: Trees, m: Machine, codes: seq<seq<bool>>, bits: seq<bool>)
    requires BothWellFormed(ts) && Ok(ts, m) && codes != [] && IsLine(ts, m.white, codes)
    requires FirstDone(ts, m, codes) && CodesRun(ts, Run(ts, m, codes[0]).0, codes[1..], bits)
    ensures CodesRun(ts, m, codes, bits)
  {
    var m1, rest := Run(ts, m, codes[0]).0, Flat(codes[1..]);
    QuietRuns(ts, m, codes[0], rest);
    CodesDoneMore(ts, m, m1, Run(ts, m1, rest).0, codes, bits);
  }

  lemma CodesDoneMore(ts: Trees, m: Machine, m1: Machine, m2: Machine, codes: seq<seq<bool>>, bits: seq<bool>)
    requires BothWellFormed(ts) && IsLine(ts, m.white, codes) && codes != []
    requires Accepted(m, m1, RunLength(ts.Of(m.white), 0, codes[0]))
    requires m1.white == ColourAfter(ts, m.white, codes[0]) && CodesDone(ts, m1, m2, codes[1..], bits)
    ensures CodesDone(ts, m, m2, codes, bits)
  {
  }

  // ---- fill and end of line ------------------------------------------------------------------

  /** A zero on the way from the root to the end-of-line leaf, `depth` zeros below the root. */
  lemma EolBit(ts: Trees, m: Machine, depth: nat, bits: seq<bool>)
    requires BothWellFormed(ts) && depth <= 10
    requires Ok(ts, m) && Recording(m) && LineBits(m) == bits
    requires TrailsOf(ts.Of(m.white))[m.node] == OnlyZeros(depth)
    ensures var (m', rs) := Step(ts, m, false);
            && Ok(ts, m') && m'.lineValid && m'.outBits < 8 && LineBits(m') == bits + [false]
            && m' == m'.(zeros := m.zeros + 1, vres := m.vres, eop := m.eop, emptyLine := m.emptyLine)
            && if depth == 10 then m'.eolFound && rs == [Line(m'.aux)]
               else && !m'.eolFound && rs == [] && m'.white == m.white
                    && TrailsOf(ts.Of(m.white))[m'.node] == OnlyZeros(depth + 1)
  {
    var t := ts.Of(m.white);
    var trail := TrailsOf(t);
    assert NodeOk(t, trail, m.node) && NodeOk(t, trail, Child(t[m.node], false));
    RecordBitKeeps(m, false);
    RecordBitAppends(m, false);
    WalkKeeps(ts, RecordBit(m, false), false);
    StepKeeps(ts, m, false);
  }

  /** The state after `n` zeros that reach the end-of-line leaf, and the line they write. */
  predicate AtEol(m: Machine, m': Machine, rs: seq<SffRecord>, bits: seq<bool>, n: nat) {
    && m'.lineValid && m'.eolFound && rs == [Line(m'.aux)]
    && m'.zeros == m.zeros + n && m'.vres == m.vres && m'.eop == m.eop && m'.emptyLine == m.emptyLine
    && m'.outBits < 8 && LineBits(m') == bits + Zeros(n)
  }

  lemma ZerosMore(bits: seq<bool>, n: nat)
    requires n > 0
    ensures Zeros(n)[0] == false && Zeros(n)[1..] == Zeros(n - 1)
    ensures bits + [false] + Zeros(n - 1) == bits + Zeros(n)
  {
  }

  /** Zeros from the root: the eleventh reaches the end-of-line leaf, which writes the line. */
  lemma {:induction false} RunToEol(ts: Trees, m: Machine, depth: nat, n: nat, bits: seq<bool>)
    requires BothWellFormed(ts) && n > 0 && depth + n == 11
    requires Ok(ts, m) && Recording(m) && LineBits(m) == bits
    requires TrailsOf(ts.Of(m.white))[m.node] == OnlyZeros(depth)
    ensures Ok(ts, Run(ts, m, Zeros(n)).0)
    ensures AtEol(m, Run(ts, m, Zeros(n)).0, Run(ts, m, Zeros(n)).1, bits, n)
    decreases n
  {
    EolBit(ts, m, depth, bits);
    ZerosMore(bits, n);
    RunCons(ts, m, Zeros(n));
    var (m1, rs1) := Step(ts, m, false);
    if n > 1 {
      RunToEol(ts, m1, depth + 1, n - 1, bits + [false]);
    } else {
      assert Run(ts, m1, Zeros(0)) == (m1, []) && rs1 + [] == rs1;
      assert bits + [false] == bits + Zeros(1);
    }
  }

  /** Zeros after the end-of-line leaf, or before the first line, are only counted. */
  lemma {:induction false} RunFill(ts: Trees, m: Machine, n: nat)
    requires BothWellFormed(ts) && Ok(ts, m) && !Recording(m)
    ensures Run(ts, m, Zeros(n)) == (m.(zeros := m.zeros + n), [])
    decreases n
  {
    if n > 0 {
      ZerosMore([], n);
      var none: seq<SffRecord> := [];
      assert none + none == none;
      SilentBit(ts, m, Zeros(n));
      RunFill(ts, m.(zeros := m.zeros + 1), n - 1);
    }
  }

  /** The payload of a line: the bits that fill whole bytes. */
  lemma PayloadOf(aux: seq<byte>, outByte: byte, outBits: nat, bits: seq<bool>, n: nat)
    requires outBits < 8 && n >= outBits
    requires Unpack(aux) + Shifted(outByte, outBits) == bits + Zeros(n)
    ensures Unpack(aux) == bits + Zeros(n - outBits)
  {
    var all := bits + Zeros(n);
    assert Unpack(aux) == all[..|all| - outBits];
  }

  /** The state once the line is written, against the one after its code words. */
  predicate Written(m: Machine, m': Machine) {
    m'.lineValid && m'.eolFound && m'.vres == m.vres && m'.eop == m.eop && m'.emptyLine == m.emptyLine
  }

  ghost predicate IsPayload(data: seq<byte>, bits: seq<bool>) {
    exists k :: 4 <= k <= 11 && Unpack(data) == bits + Zeros(k)
  }

  lemma RootTrail(t: Tree)
    requires WellFormed(t)
    ensures TrailsOf(t)[0] == OnlyZeros(0)
  {
  }

  lemma WrittenAtEol(m: Machine, m': Machine, rs: seq<SffRecord>, bits: seq<bool>)
    requires AtEol(m, m', rs, bits, 11)
    ensures Written(m, m') && m'.zeros >= 11 && rs == [Line(m'.aux)] && IsPayload(m'.aux, bits)
  {
    PayloadOf(m'.aux, m'.outByte, m'.outBits, bits, 11);
  }

  /** After the code words eleven zeros write the line. */
  lemma RunEleven(ts: Trees, m: Machine, bits: seq<bool>)
    requires BothWellFormed(ts) && MidLine(ts, m, bits) && m.node == 0
    ensures Ok(ts, Run(ts, m, Zeros(11)).0)
    ensures AtEol(m, Run(ts, m, Zeros(11)).0, Run(ts, m, Zeros(11)).1, bits, 11)
  {
    RootTrail(ts.Of(m.white));
    RunToEol(ts, m, 0, 11, bits);
  }

  /** More zeros are fill. */
  lemma RunZeros(ts: Trees, m: Machine, bits: seq<bool>, fill: nat)
    requires BothWellFormed(ts) && MidLine(ts, m, bits) && m.node == 0 && fill >= 11
    ensures var (m', rs) := Run(ts, m, Zeros(fill));
            && Ok(ts, m') && Written(m, m') && m'.zeros >= 11
            && rs == [Line(m'.aux)] && IsPayload(m'.aux, bits)
  {
    RunEleven(ts, m, bits);
    var m2 := Run(ts, m, Zeros(11)).0;
    WrittenAtEol(m, m2, Run(ts, m, Zeros(11)).1, bits);
    RunFill(ts, m2, fill - 11);
    assert Zeros(11) + Zeros(fill - 11) == Zeros(fill);
    RunAppend(ts, m, Zeros(11), Zeros(fill - 11));
    RunIsOk(ts, m, Zeros(fill));
    assert [Line(m2.aux)] + [] == [Line(m2.aux)];
  }

  /** The one bit of the end-of-line code makes the machine fresh. */
  lemma RunLastBit(ts: Trees, m: Machine, m': Machine)
    requires BothWellFormed(ts) && Ok(ts, m') && m.lineValid && Written(m, m') && m'.zeros >= 11
    ensures Run(ts, m', [true]) == (HufmanInit(m), [])
  {
    var (next, rs) := Step(ts, m', true);
    assert next == HufmanInit(m) && rs == [];
    StepKeeps(ts, m', true);
    assert [true][1..] == [];
  }

  /** For every well-formed line and any amount of fill, the zero counter stays below eleven inside the
      line, exactly one record is written, its payload is the code bits in order and then four to eleven
      zeros, and the machine is ready for the next line. */
  lemma LineConverts(ts: Trees, m: Machine, codes: seq<seq<bool>>, fill: nat)
    requires BothWellFormed(ts) && Fresh(m) && IsLine(ts, true, codes) && fill >= 11
    ensures Ok(ts, m)
    ensures forall k :: 0 <= k <= |Flat(codes)| ==> Run(ts, m, Flat(codes)[..k]).0.zeros <= 10
    ensures Run(ts, m, Flat(codes)).0.run1 == Width(ts, true, codes)
    ensures var (m', rs) := Run(ts, m, Flat(codes) + Zeros(fill) + [true]);
            && Fresh(m') && m'.(emptyLine := m.emptyLine) == m
            && |rs| == 1 && rs[0].Line? && IsPayload(rs[0].data, Flat(codes))
  {
    var bits := Flat(codes);
    RootReached(ts.white, 0);
    assert LineBits(m) == [] && bits == [] + bits;
    RunCodes(ts, m, codes, []);
    QuietThroughout(ts, m, bits);
    var m1 := Run(ts, m, bits).0;
    RunZeros(ts, m1, bits, fill);
    var m2 := Run(ts, m1, Zeros(fill)).0;
    RunLastBit(ts, m1, m2);
    RunAppend(ts, m, bits, Zeros(fill));
    RunAppend(ts, m, bits + Zeros(fill), [true]);
    assert [] + [Line(m2.aux)] + [] == [Line(m2.aux)];
  }

  /** A coded line and the fill before its end-of-line code. */
  datatype CodedLine = CodedLine(codes: seq<seq<bool>>, fill: nat)

  predicate AllLines(ts: Trees, lines: seq<CodedLine>) {
    forall l | l in lines :: IsLine(ts, true, l.codes) && l.fill >= 11
  }

  function LineStream(lines: seq<CodedLine>): seq<bool> {
    if lines == [] then []
    else Flat(lines[0].codes) + Zeros(lines[0].fill) + [true] + LineStream(lines[1..])
  }

  /** One record for each line, with its code bits. */
  ghost predicate AreRecords(rs: seq<SffRecord>, lines: seq<CodedLine>) {
    |rs| == |lines| && forall i :: 0 <= i < |rs| ==> rs[i].Line? && IsPayload(rs[i].data, Flat(lines[i].codes))
  }

  lemma RecordsCons(rs1: seq<SffRecord>, rs2: seq<SffRecord>, lines: seq<CodedLine>)
    requires lines != [] && |rs1| == 1 && rs1[0].Line? && IsPayload(rs1[0].data, Flat(lines[0].codes))
    requires AreRecords(rs2, lines[1..])
    ensures AreRecords(rs1 + rs2, lines)
  {
    var rs := rs1 + rs2;
    forall i | 0 <= i < |rs|
      ensures rs[i].Line? && IsPayload(rs[i].data, Flat(lines[i].codes))
    {
      if i > 0 {
        assert rs[i] == rs2[i - 1] && lines[i] == lines[1..][i - 1];
      }
    }
  }

  /** Any number of lines in a row give one record each, in their order and with their code bits. */
  lemma {:induction false} LinesConvert(ts: Trees, m: Machine, lines: seq<CodedLine>)
    requires BothWellFormed(ts) && Fresh(m) && Ok(ts, m) && AllLines(ts, lines)
    ensures Fresh(Run(ts, m, LineStream(lines)).0)
    ensures AreRecords(Run(ts, m, LineStream(lines)).1, lines)
    decreases |lines|
  {
    if lines != [] {
      var l, rest := lines[0], LineStream(lines[1..]);
      var first := Flat(l.codes) + Zeros(l.fill) + [true];
      LineConverts(ts, m, l.codes, l.fill);
      RunAppend(ts, m, first, rest);
      var (m1, rs1) := Run(ts, m, first);
      LinesConvert(ts, m1, lines[1..]);
      RecordsCons(rs1, Run(ts, m1, rest).1, lines);
      assert LineStream(lines) == first + rest;
    }
  }
}

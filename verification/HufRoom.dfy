/** How much room a chunk of fax data needs: what it can write at most when bits of a line are pending, and what
    lines keep a page within that and within the converter's line buffer. */
module HufRoom {
  import opened Bits
  import opened HufTree
  import opened HufMachine
  import opened HufLine
  import opened HufPage
  import opened HufBound

  /** The most bits of a line that may be pending when a chunk of CHUNKBITS bits comes. */
  const PENDING := 4932
  const CHUNKBITS := 8000

  // ---- what a chunk writes at most -----------------------------------------------------------

  /** The first line takes `k` bits and pays one byte for eight of its bits; the others pay `rest` bytes. */
  predicate Paid(recorded: nat, n: nat, written: nat, k: nat, rest: nat) {
    0 < k <= n && written <= (recorded + k) / 8 + 3 + rest && Spare(3 * (n - k) - 17 * rest)
  }

  lemma {:induction false} PendingPaid(ts: Trees, m: Machine, bits: seq<bool>) returns (k: nat, rest: nat)
    requires BothWellFormed(ts) && Ok(ts, m) && Recording(m)
    ensures LineBytes(Run(ts, m, bits).1) == 0
         || Paid(Recorded(m), |bits|, LineBytes(Run(ts, m, bits).1), k, rest)
    decreases |bits|
  {
    k, rest := 0, 0;
    if bits != [] {
      var (m1, rs1) := Step(ts, m, bits[0]);
      RunCons(ts, m, bits);
      LineBytesAppend(rs1, Run(ts, m1, bits[1..]).1);
      StepPays(ts, m, bits[0]);
      if rs1 == [] {
        k, rest := PendingPaid(ts, m1, bits[1..]);
        k := k + 1;
      } else {
        k, rest := 1, LineBytes(Run(ts, m1, bits[1..]).1);
        AfterLine(ts, m1, bits[1..]);
      }
    }
  }

  /** A bit of a line is recorded, or it completes the line. */
  lemma StepPays(ts: Trees, m: Machine, bit: bool)
    requires BothWellFormed(ts) && Ok(ts, m) && Recording(m)
    ensures var (m1, rs) := Step(ts, m, bit);
            if rs == [] then Ok(ts, m1) && Recording(m1) && Recorded(m1) <= Recorded(m) + 1
            else Ok(ts, m1) && m1.eolFound && LineBytes(rs) <= (Recorded(m) + 1) / 8 + 3
  {
    StepKeeps(ts, m, bit);
    var r := RecordBit(m, bit);
    RecordBitKeeps(m, bit);
    WalkKeeps(ts, r, bit);
    LineAlone(r.aux);
  }

  lemma AfterLine(ts: Trees, m: Machine, bits: seq<bool>)
    requires BothWellFormed(ts) && Ok(ts, m) && m.eolFound
    ensures Spare(3 * |bits| - 17 * LineBytes(Run(ts, m, bits).1))
  {
    RunBound(ts, m, bits);
    RunIsOk(ts, m, bits);
  }

  /** With at most PENDING bits of a line pending, a chunk's lines take at most 2030 bytes. */
  lemma RoomForLines(ts: Trees, m: Machine, bits: seq<bool>)
    requires BothWellFormed(ts) && Ok(ts, m) && m.lineValid && |bits| <= CHUNKBITS
    requires m.eolFound || Recorded(m) <= PENDING
    ensures LineBytes(Run(ts, m, bits).1) <= 2030
  {
    if m.eolFound {
      AfterLine(ts, m, bits);
    } else {
      var k, rest := PendingPaid(ts, m, bits);
      if LineBytes(Run(ts, m, bits).1) > 0 {
        RoomPaid(Recorded(m), |bits|, LineBytes(Run(ts, m, bits).1), k, rest);
      }
    }
  }

  /** For 2031 bytes one seventeenth of a byte would be left, which never is. */
  lemma RoomPaid(recorded: nat, n: nat, written: nat, k: nat, rest: nat)
    requires recorded <= PENDING && n <= CHUNKBITS && Paid(recorded, n, written, k, rest)
    ensures written <= 2030
  {
  }

  // ---- pages that keep within it -------------------------------------------------------------

  /** At most `bound` bits of a line are pending; the zero that completes a line may come on top. */
  predicate Held(m: Machine, bound: nat) {
    Recorded(m) <= if !m.lineValid then 0 else if m.eolFound then bound + 1 else bound
  }

  /** All through a run. */
  ghost predicate Within(ts: Trees, m: Machine, bits: seq<bool>, bound: nat)
    requires BothWellFormed(ts) && Ok(ts, m)
    decreases |bits|
  {
    && Held(m, bound)
    && (bits == [] || (StepKeeps(ts, m, bits[0]); Within(ts, Step(ts, m, bits[0]).0, bits[1..], bound)))
  }

  lemma {:induction false} WithinAppend(ts: Trees, m: Machine, a: seq<bool>, b: seq<bool>, bound: nat)
    requires BothWellFormed(ts) && Ok(ts, m)
    ensures Ok(ts, Run(ts, m, a).0)
    ensures Within(ts, m, a + b, bound) <==> Within(ts, m, a, bound) && Within(ts, Run(ts, m, a).0, b, bound)
    ensures Within(ts, m, a, bound) ==> Held(Run(ts, m, a).0, bound)
    decreases |a|
  {
    RunIsOk(ts, m, a);
    if a == [] {
      assert a + b == b;
      WithinHeld(ts, m, b, bound);
    } else {
      StepKeeps(ts, m, a[0]);
      assert (a + b)[0] == a[0] && (a + b)[1..] == a[1..] + b;
      RunCons(ts, m, a);
      WithinAppend(ts, Step(ts, m, a[0]).0, a[1..], b, bound);
    }
  }

  lemma WithinHeld(ts: Trees, m: Machine, bits: seq<bool>, bound: nat)
    requires BothWellFormed(ts) && Ok(ts, m)
    ensures Within(ts, m, bits, bound) ==> Held(m, bound)
    ensures Within(ts, m, [], bound) <==> Held(m, bound)
  {
  }

  /** A step records one bit at most. */
  lemma StepRecords(ts: Trees, m: Machine, bit: bool)
    requires BothWellFormed(ts) && Ok(ts, m)
    ensures var m1 := Step(ts, m, bit).0;
            && Ok(ts, m1) && Recorded(m1) <= Recorded(m) + (if Recording(m) then 1 else 0)
            && (m.lineValid ==> m1.lineValid)
            && (m1.eolFound && !m.eolFound ==> Recording(m))
  {
    StepKeeps(ts, m, bit);
    if Recording(m) {
      RecordingRecords(ts, m, bit);
    }
  }

  lemma RecordingRecords(ts: Trees, m: Machine, bit: bool)
    requires BothWellFormed(ts) && Ok(ts, m) && Recording(m)
    ensures Recorded(Step(ts, m, bit).0) <= Recorded(m) + 1
  {
    RecordBitKeeps(m, bit);
    WalkKeeps(ts, RecordBit(m, bit), bit);
  }

  /** Few bits stay within the bound by their number. */
  lemma {:induction false} WithinShort(ts: Trees, m: Machine, bits: seq<bool>, bound: nat)
    requires BothWellFormed(ts) && Ok(ts, m) && Recording(m) && Recorded(m) + |bits| <= bound
    ensures Within(ts, m, bits, bound)
    decreases |bits|
  {
    if bits != [] {
      var m1 := Step(ts, m, bits[0]).0;
      StepRecords(ts, m, bits[0]);
      if m1.eolFound {
        WithinDone(ts, m1, bits[1..], bound);
      } else {
        WithinShort(ts, m1, bits[1..], bound);
      }
    }
  }

  /** So do bits behind a complete line. */
  lemma {:induction false} WithinDone(ts: Trees, m: Machine, bits: seq<bool>, bound: nat)
    requires BothWellFormed(ts) && Ok(ts, m) && m.lineValid && m.eolFound && Recorded(m) <= bound + 1
    requires |bits| <= bound + 1
    ensures Within(ts, m, bits, bound)
    decreases |bits|
  {
    if bits != [] {
      var m1 := Step(ts, m, bits[0]).0;
      StepRecords(ts, m, bits[0]);
      if m1.eolFound {
        WithinDone(ts, m1, bits[1..], bound);
      } else {
        WithinShort(ts, m1, bits[1..], bound);
      }
    }
  }

  lemma {:induction false} WithinZeros(ts: Trees, m: Machine, n: nat, bound: nat)
    requires BothWellFormed(ts) && Ok(ts, m) && !Recording(m) && Held(m, bound)
    ensures Within(ts, m, Zeros(n), bound)
    decreases n
  {
    if n > 0 {
      ZerosMore([], n);
      StepKeeps(ts, m, false);
      var m1 := m.(zeros := m.zeros + 1);
      assert Step(ts, m, false).0 == m1;
      WithinZeros(ts, m1, n - 1, bound);
    }
  }

  lemma WithinOne(ts: Trees, m: Machine, bit: bool, bound: nat)
    requires BothWellFormed(ts) && Ok(ts, m) && Held(m, bound) && Held(Step(ts, m, bit).0, bound)
    ensures Within(ts, m, [bit], bound)
  {
    StepKeeps(ts, m, bit);
    assert [bit][1..] == [];
  }

  /** A line whose code words and ten of its zeros are within the bound. */
  lemma LineWithin(ts: Trees, m: Machine, l: CodedLine, bound: nat)
    requires BothWellFormed(ts) && Fresh(m) && Ok(ts, m) && IsLine(ts, true, l.codes) && l.fill >= 11
    requires |Flat(l.codes)| + 10 <= bound
    ensures Within(ts, m, Flat(l.codes) + Zeros(l.fill) + [true], bound)
  {
    var a, b := Flat(l.codes) + Zeros(10) + [false], Zeros(l.fill - 11) + [true];
    LineStartWithin(ts, m, l.codes, bound);
    WithinAppend(ts, m, a, [], bound);
    ElevenEnds(ts, m, l.codes);
    FillWithin(ts, Run(ts, m, a).0, l.fill - 11, bound);
    WithinAppend(ts, m, a, b, bound);
    FillSplits(Flat(l.codes), l.fill);
  }

  lemma FillSplits(bits: seq<bool>, fill: nat)
    requires fill >= 11
    ensures bits + Zeros(fill) + [true] == bits + Zeros(10) + [false] + (Zeros(fill - 11) + [true])
  {
  }

  lemma LineStartWithin(ts: Trees, m: Machine, codes: seq<seq<bool>>, bound: nat)
    requires BothWellFormed(ts) && Fresh(m) && Ok(ts, m) && IsLine(ts, true, codes)
    requires |Flat(codes)| + 10 <= bound
    ensures Within(ts, m, Flat(codes) + Zeros(10) + [false], bound)
  {
    var a := Flat(codes) + Zeros(10);
    WithinShort(ts, m, a, bound);
    WithinAppend(ts, m, a, [], bound);
    var m1 := Run(ts, m, a).0;
    ElevenEnds(ts, m, codes);
    RunAppend(ts, m, a, [false]);
    RunCons(ts, m1, [false]);
    StepRecords(ts, m1, false);
    WithinOne(ts, m1, false, bound);
    WithinAppend(ts, m, a, [false], bound);
  }

  lemma FillWithin(ts: Trees, m: Machine, n: nat, bound: nat)
    requires BothWellFormed(ts) && Ok(ts, m) && m.lineValid && m.eolFound && Held(m, bound)
    ensures Within(ts, m, Zeros(n) + [true], bound)
  {
    WithinZeros(ts, m, n, bound);
    RunFill(ts, m, n);
    var m1 := Run(ts, m, Zeros(n)).0;
    assert Held(Step(ts, m1, true).0, bound);
    WithinOne(ts, m1, true, bound);
    WithinAppend(ts, m, Zeros(n), [true], bound);
  }

  lemma ElevenEnds(ts: Trees, m: Machine, codes: seq<seq<bool>>)
    requires BothWellFormed(ts) && Fresh(m) && Ok(ts, m) && IsLine(ts, true, codes)
    ensures var m2 := Run(ts, m, Flat(codes) + Zeros(10) + [false]).0;
            Ok(ts, m2) && m2.lineValid && m2.eolFound
  {
    var bits := Flat(codes);
    assert LineBits(m) == [] && bits == [] + bits;
    RunCodes(ts, m, codes, []);
    RunZeros(ts, Run(ts, m, bits).0, bits, 11);
    assert bits + Zeros(10) + [false] == bits + Zeros(11);
    RunAppend(ts, m, bits, Zeros(11));
  }

  lemma {:induction false} LinesWithin(ts: Trees, m: Machine, lines: seq<CodedLine>, bound: nat)
    requires BothWellFormed(ts) && Fresh(m) && Ok(ts, m) && AllLines(ts, lines)
    requires forall l | l in lines :: |Flat(l.codes)| + 10 <= bound
    ensures Within(ts, m, LineStream(lines), bound)
    decreases |lines|
  {
    if lines != [] {
      var l, rest := lines[0], LineStream(lines[1..]);
      var first := Flat(l.codes) + Zeros(l.fill) + [true];
      LineWithin(ts, m, l, bound);
      LineConverts(ts, m, l.codes, l.fill);
      RunIsOk(ts, m, first);
      LinesWithin(ts, Run(ts, m, first).0, lines[1..], bound);
      WithinAppend(ts, m, first, rest, bound);
    }
  }

  /** A whole page, from the opened state on. */
  lemma PageWithin(ts: Trees, vres: nat, n: nat, lines: seq<CodedLine>, pad: nat, bound: nat)
    requires BothWellFormed(ts) && AllLines(ts, lines) && n >= 11 && pad <= 10 <= bound
    requires forall l | l in lines :: |Flat(l.codes)| + 10 <= bound
    ensures Ok(ts, Opened(vres)) && Within(ts, Opened(vres), PageStream(n, lines, pad), bound)
  {
    var m, m1, first := Opened(vres), Begun(vres), Zeros(n) + [true];
    FirstEol(ts, vres, n);
    StartWithin(ts, vres, n, bound);
    RootReached(ts.white, 0);
    LinesWithin(ts, m1, lines, bound);
    WithinAppend(ts, m, first, LineStream(lines), bound);
    LinesConvert(ts, m1, lines);
    RunIsOk(ts, m1, LineStream(lines));
    var m2 := Run(ts, m1, LineStream(lines)).0;
    WithinShort(ts, m2, Zeros(pad), bound);
    RunAppend(ts, m, first, LineStream(lines));
    WithinAppend(ts, m, first + LineStream(lines), Zeros(pad), bound);
  }

  lemma StartWithin(ts: Trees, vres: nat, n: nat, bound: nat)
    requires BothWellFormed(ts) && n >= 11
    ensures Ok(ts, Opened(vres)) && Within(ts, Opened(vres), Zeros(n) + [true], bound)
  {
    var m := Opened(vres);
    OpenedIsOk(ts, vres);
    WithinZeros(ts, m, n, bound);
    RunFill(ts, m, n);
    WithinOne(ts, m.(zeros := n), true, bound);
    WithinAppend(ts, m, Zeros(n), [true], bound);
  }

  // ---- the line buffer -----------------------------------------------------------------------

  /** The most code bits of a line that fit the line buffer with the eleven zeros that complete it. */
  const LINEBITS := 65532

  lemma {:induction false} WithinFits(ts: Trees, m: Machine, bits: seq<bool>, bound: nat)
    requires BothWellFormed(ts) && Ok(ts, m) && Within(ts, m, bits, bound) && bound <= LINEBITS + 10
    ensures LinesFit(ts, m, bits)
    decreases |bits|
  {
    if Recording(m) {
      RecordBitKeeps(m, bits != [] && bits[0]);
    }
    if bits != [] {
      StepKeeps(ts, m, bits[0]);
      WithinFits(ts, Step(ts, m, bits[0]).0, bits[1..], bound);
    }
  }

  /** A line with more code bits is written behind the end of the line buffer. */
  lemma LineOverflows(ts: Trees, m: Machine, l: CodedLine)
    requires BothWellFormed(ts) && Fresh(m) && Ok(ts, m) && IsLine(ts, true, l.codes) && l.fill >= 11
    requires |Flat(l.codes)| > LINEBITS
    ensures !LinesFit(ts, m, Flat(l.codes) + Zeros(l.fill) + [true])
  {
    var a, b := Flat(l.codes) + Zeros(10), [false] + (Zeros(l.fill - 11) + [true]);
    FillSplits(Flat(l.codes), l.fill);
    assert a + b == Flat(l.codes) + Zeros(l.fill) + [true];
    if LinesFit(ts, m, a + b) {
      ZerosRecorded(ts, m, l.codes, 10);
      LinesFitSplit(ts, m, a, b);
      var m1 := Run(ts, m, a).0;
      RecordBitKeeps(m1, false);
    }
  }

  /** Up to ten zeros behind the code words are recorded like these. */
  lemma ZerosRecorded(ts: Trees, m: Machine, codes: seq<seq<bool>>, n: nat)
    requires BothWellFormed(ts) && Fresh(m) && Ok(ts, m) && IsLine(ts, true, codes) && n <= 10
    ensures var (m1, rs) := Run(ts, m, Flat(codes) + Zeros(n));
            rs == [] && Ok(ts, m1) && Recording(m1) && Recorded(m1) == |Flat(codes)| + n
  {
    var bits := Flat(codes);
    assert LineBits(m) == [] && bits == [] + bits;
    RunCodes(ts, m, codes, []);
    var m0 := Run(ts, m, bits).0;
    RootTrail(ts.Of(m0.white));
    ShortZeros(ts, m0, 0, n, bits);
    RunAppend(ts, m, bits, Zeros(n));
    var m1 := Run(ts, m0, Zeros(n)).0;
    assert |LineBits(m1)| == Recorded(m1);
  }

  /** A page's lines fit the line buffer, of 8192 bytes, if and only if none has more than LINEBITS code bits. */
  lemma {:induction false} LinesFitExactly(ts: Trees, m: Machine, lines: seq<CodedLine>)
    requires BothWellFormed(ts) && Fresh(m) && Ok(ts, m) && AllLines(ts, lines)
    ensures LinesFit(ts, m, LineStream(lines)) <==> forall l | l in lines :: |Flat(l.codes)| <= LINEBITS
    decreases |lines|
  {
    if forall l | l in lines :: |Flat(l.codes)| <= LINEBITS {
      LinesWithin(ts, m, lines, LINEBITS + 10);
      WithinFits(ts, m, LineStream(lines), LINEBITS + 10);
    } else {
      var l, rest := lines[0], LineStream(lines[1..]);
      var first := Flat(l.codes) + Zeros(l.fill) + [true];
      if |Flat(l.codes)| > LINEBITS {
        LineOverflows(ts, m, l);
      } else {
        LineConverts(ts, m, l.codes, l.fill);
        RunIsOk(ts, m, first);
        LinesFitExactly(ts, Run(ts, m, first).0, lines[1..]);
        assert forall x | x in lines :: x == l || x in lines[1..];
      }
      if LinesFit(ts, m, LineStream(lines)) {
        LinesFitSplit(ts, m, first, rest);
      }
    }
  }
}

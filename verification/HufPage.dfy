/** A whole page of coded lines: its bits can be taken apart in one way only, and from the first end-of-line
    code of a document on each line gives one record. */
module HufPage {
  import opened Bits
  import opened HufTree
  import opened SffStream
  import opened HufMachine
  import opened HufLine

  // ---- the bits of a page --------------------------------------------------------------------

  /** A code word has a one among its first eight bits. */
  lemma {:induction false} OneAmongEight(t: Tree, trail: seq<Trail>, i: nat, w: seq<bool>) returns (j: nat)
    requires Labels(t, trail) && IsCode(t, i, w) && t[i].token < 0 && trail[i].OnlyZeros?
    ensures j < |w| && w[j] && trail[i].n + j <= 7
    decreases |w|
  {
    AtMostSevenLeadingZeros(t, trail, i, w);
    assert NodeOk(t, trail, i) && NodeOk(t, trail, Child(t[i], w[0]));
    if w[0] {
      j := 0;
    } else {
      j := OneAmongEight(t, trail, Child(t[i], w[0]), w[1..]);
      j := j + 1;
    }
  }

  /** So a code word cannot be taken for the zeros before an end-of-line code. */
  lemma CodeIsNoFill(ts: Trees, white: bool, w: seq<bool>, x: seq<bool>, n: nat, y: seq<bool>)
    requires BothWellFormed(ts) && IsCode(ts.Of(white), 0, w) && n >= 11
    ensures w + x != Zeros(n) + y
  {
    var t := ts.Of(white);
    RootReached(t, 0);
    var j := OneAmongEight(t, TrailsOf(t), 0, w);
    assert (w + x)[j] && !(Zeros(n) + y)[j];
  }

  lemma ZerosAgree(n: nat, x: seq<bool>, k: nat, y: seq<bool>)
    requires Zeros(n) + [true] + x == Zeros(k) + [true] + y
    ensures n == k && x == y
  {
    FirstOne(Zeros(n) + [true] + x, n, x);
    FirstOne(Zeros(k) + [true] + y, k, y);
  }

  lemma FirstOne(s: seq<bool>, n: nat, x: seq<bool>)
    requires s == Zeros(n) + [true] + x
    ensures n < |s| && s[n] && (forall i :: 0 <= i < n ==> !s[i]) && s[n + 1..] == x
  {
  }

  lemma WordsAgree(t: Tree, v: seq<bool>, x: seq<bool>, w: seq<bool>, y: seq<bool>)
    requires IsCode(t, 0, v) && IsCode(t, 0, w) && v + x == w + y
    ensures v == w && x == y
  {
    var s := v + x;
    assert s[..|v|] == v && s[|v|..] == x;
    assert (w + y)[..|w|] == w && (w + y)[|w|..] == y;
    if |v| < |w| {
      assert w[..|v|] == v;
      CodesArePrefixFree(t, 0, w, |v|);
    } else if |w| < |v| {
      assert v[..|w|] == w;
      CodesArePrefixFree(t, 0, v, |w|);
    }
  }

  function LineBitsOf(l: CodedLine, rest: seq<bool>): seq<bool> {
    Flat(l.codes) + (Zeros(l.fill) + [true] + rest)
  }

  lemma BitsCons(l: CodedLine, rest: seq<bool>)
    requires l.codes != []
    ensures LineBitsOf(l, rest) == l.codes[0] + LineBitsOf(l.(codes := l.codes[1..]), rest)
  {
  }

  /** Two lines that start in the same colour, with anything behind them: equal bits come from equal code
      words, equal fill and an equal rest. */
  lemma {:induction false} LinesAgree(ts: Trees, white: bool, a: CodedLine, x: seq<bool>, b: CodedLine, y: seq<bool>)
    requires BothWellFormed(ts) && IsLine(ts, white, a.codes) && IsLine(ts, white, b.codes)
    requires a.fill >= 11 && b.fill >= 11 && LineBitsOf(a, x) == LineBitsOf(b, y)
    ensures a == b && x == y
    decreases |a.codes|
  {
    var p, q := Zeros(a.fill) + [true] + x, Zeros(b.fill) + [true] + y;
    if a.codes == [] && b.codes == [] {
      assert LineBitsOf(a, x) == p && LineBitsOf(b, y) == q;
      ZerosAgree(a.fill, x, b.fill, y);
    } else if a.codes == [] {
      assert LineBitsOf(a, x) == Zeros(a.fill) + ([true] + x);
      BitsCons(b, y);
      CodeIsNoFill(ts, white, b.codes[0], LineBitsOf(b.(codes := b.codes[1..]), y), a.fill, [true] + x);
    } else if b.codes == [] {
      assert LineBitsOf(b, y) == Zeros(b.fill) + ([true] + y);
      BitsCons(a, x);
      CodeIsNoFill(ts, white, a.codes[0], LineBitsOf(a.(codes := a.codes[1..]), x), b.fill, [true] + y);
    } else {
      var a', b' := a.(codes := a.codes[1..]), b.(codes := b.codes[1..]);
      BitsCons(a, x);
      BitsCons(b, y);
      WordsAgree(ts.Of(white), a.codes[0], LineBitsOf(a', x), b.codes[0], LineBitsOf(b', y));
      LinesAgree(ts, ColourAfter(ts, white, a.codes[0]), a', x, b', y);
      assert a.codes == [a.codes[0]] + a'.codes && b.codes == [b.codes[0]] + b'.codes;
    }
  }

  lemma StreamCons(lines: seq<CodedLine>)
    requires lines != []
    ensures LineStream(lines) == LineBitsOf(lines[0], LineStream(lines[1..])) && LineStream(lines) != []
  {
    var l := lines[0];
    RegroupBits(Flat(l.codes), Zeros(l.fill), [true], LineStream(lines[1..]));
  }

  lemma RegroupBits(x: seq<bool>, y: seq<bool>, z: seq<bool>, rest: seq<bool>)
    ensures x + y + z + rest == x + (y + z + rest) && |x + y + z + rest| >= |z|
  {
  }

  /** The bits of a page determine its lines, their code words and the fill. */
  lemma {:induction false} DecodesUniquely(ts: Trees, a: seq<CodedLine>, b: seq<CodedLine>)
    requires BothWellFormed(ts) && AllLines(ts, a) && AllLines(ts, b) && LineStream(a) == LineStream(b)
    ensures a == b
    decreases |a|
  {
    if a == [] {
      if b != [] {
        StreamCons(b);
      }
    } else {
      StreamCons(a);
      if b != [] {
        StreamCons(b);
        LinesAgree(ts, true, a[0], LineStream(a[1..]), b[0], LineStream(b[1..]));
        DecodesUniquely(ts, a[1..], b[1..]);
        assert a == [a[0]] + a[1..] && b == [b[0]] + b[1..];
      }
    }
  }

  // ---- from the start of a document ----------------------------------------------------------

  lemma OpenedIsOk(ts: Trees, vres: nat)
    requires BothWellFormed(ts)
    ensures Ok(ts, Opened(vres))
  {
    RootReached(ts.white, 0);
  }

  /** A machine whose document has begun. */
  function Begun(vres: nat): Machine {
    HufmanInit(Opened(vres).(lineValid := true))
  }

  /** The first end-of-line code of a document starts its page. */
  lemma FirstEol(ts: Trees, vres: nat, n: nat)
    requires BothWellFormed(ts) && n >= 11
    ensures Ok(ts, Opened(vres))
    ensures Run(ts, Opened(vres), Zeros(n) + [true]) == (Begun(vres), [PageStart(vres % 256)])
  {
    var m := Opened(vres);
    OpenedIsOk(ts, vres);
    RunFill(ts, m, n);
    var m1 := m.(zeros := n);
    RunAppend(ts, m, Zeros(n), [true]);
    RunCons(ts, m1, [true]);
    assert [true][1..] == [];
    var rs := [PageStart(vres % 256)];
    assert rs + [] == rs && [] + rs == rs;
    assert CountBit(m1, true) == (Begun(vres), rs);
    assert Step(ts, m1, true) == (Begun(vres), [] + rs);
  }

  /** Fewer than eleven zeros from the root are recorded and write nothing. */
  lemma {:induction false} ShortZeros(ts: Trees, m: Machine, depth: nat, n: nat, bits: seq<bool>)
    requires BothWellFormed(ts) && depth + n <= 10 && Ok(ts, m) && Recording(m) && LineBits(m) == bits
    requires TrailsOf(ts.Of(m.white))[m.node] == OnlyZeros(depth)
    ensures var (m', rs) := Run(ts, m, Zeros(n));
            rs == [] && Ok(ts, m') && Recording(m') && LineBits(m') == bits + Zeros(n)
    decreases n
  {
    if n > 0 {
      ShortZero(ts, m, depth, bits);
      ZerosMore(bits, n);
      ShortZeros(ts, Step(ts, m, false).0, depth + 1, n - 1, bits + [false]);
      SilentBit(ts, m, Zeros(n));
    } else {
      assert bits + Zeros(0) == bits;
    }
  }

  lemma ShortZero(ts: Trees, m: Machine, depth: nat, bits: seq<bool>)
    requires BothWellFormed(ts) && depth < 10 && Ok(ts, m) && Recording(m) && LineBits(m) == bits
    requires TrailsOf(ts.Of(m.white))[m.node] == OnlyZeros(depth)
    ensures var (m', rs) := Step(ts, m, false);
            && Ok(ts, m') && Recording(m') && rs == [] && LineBits(m') == bits + [false]
            && TrailsOf(ts.Of(m'.white))[m'.node] == OnlyZeros(depth + 1)
  {
    EolBit(ts, m, depth, bits);
  }

  lemma PadWritesNothing(ts: Trees, m: Machine, pad: nat)
    requires BothWellFormed(ts) && Ok(ts, m) && Fresh(m) && pad <= 10
    ensures Run(ts, m, Zeros(pad)).1 == []
  {
    RootTrail(ts.white);
    ShortZeros(ts, m, 0, pad, LineBits(m));
  }

  /** A document's first page: fill, the first end-of-line code, the lines, and up to ten padding zeros. */
  function PageStream(n: nat, lines: seq<CodedLine>, pad: nat): seq<bool> {
    Zeros(n) + [true] + LineStream(lines) + Zeros(pad)
  }

  /** It gives the start of the page and then one record a line, in order and with its code bits. */
  lemma PageConverts(ts: Trees, vres: nat, n: nat, lines: seq<CodedLine>, pad: nat)
    requires BothWellFormed(ts) && AllLines(ts, lines) && n >= 11 && pad <= 10
    ensures Ok(ts, Opened(vres))
    ensures var rs := Run(ts, Opened(vres), PageStream(n, lines, pad)).1;
            rs != [] && rs[0] == PageStart(vres % 256) && AreRecords(rs[1..], lines)
  {
    var m, m1 := Opened(vres), Begun(vres);
    FirstEol(ts, vres, n);
    RootReached(ts.white, 0);
    LinesConvert(ts, m1, lines);
    var m2 := Run(ts, m1, LineStream(lines)).0;
    RunIsOk(ts, m1, LineStream(lines));
    PadWritesNothing(ts, m2, pad);
    RunAppend(ts, m, Zeros(n) + [true], LineStream(lines));
    RunAppend(ts, m, Zeros(n) + [true] + LineStream(lines), Zeros(pad));
    var first, rs := [PageStart(vres % 256)], Run(ts, m1, LineStream(lines)).1;
    assert first + rs + [] == first + rs && (first + rs)[1..] == rs;
  }
}

/** A page with one line too dense: bytes that the converter's ring cannot take, for every number of pending bits
    above the one that is always safe. */
module FaxOverflow {
  import opened Bits
  import opened HufTree
  import opened HufTables
  import opened SffStream
  import opened HufMachine
  import opened HufLine
  import opened HufPage
  import opened HufBound
  import opened HufRoom
  import opened FaxFill

  // ---- bytes by code bits --------------------------------------------------------------------

  /** The bytes of a line's record: its code bits and eleven zeros, as far as they fill bytes, and the length. */
  function Needed(bits: nat): nat {
    var n := (bits + 11) / 8;
    n + if n > MAXSHORT then 3 else 1
  }

  function NeededBy(lines: seq<CodedLine>): nat {
    if lines == [] then 0 else Needed(|Flat(lines[0].codes)|) + NeededBy(lines[1..])
  }

  /** The bytes that a page's lines take are determined by their code bits. */
  lemma {:induction false} RecordsNeed(rs: seq<SffRecord>, lines: seq<CodedLine>)
    requires AreRecords(rs, lines)
    ensures LineBytes(rs) == NeededBy(lines)
    decreases |rs|
  {
    if rs != [] {
      var k :| 4 <= k <= 11 && Unpack(rs[0].data) == Flat(lines[0].codes) + Zeros(k);
      assert 8 * |rs[0].data| == |Flat(lines[0].codes)| + k;
      forall i | 0 <= i < |rs[1..]|
        ensures rs[1..][i].Line? && IsPayload(rs[1..][i].data, Flat(lines[1..][i].codes))
      {
        assert rs[1..][i] == rs[i + 1] && lines[1..][i] == lines[i + 1];
      }
      RecordsNeed(rs[1..], lines[1..]);
    }
  }

  function Many(l: CodedLine, k: nat): (lines: seq<CodedLine>)
    ensures |lines| == k && forall x | x in lines :: x == l
  {
    if k == 0 then [] else [l] + Many(l, k - 1)
  }

  lemma NeedFirst(l: CodedLine, rest: seq<CodedLine>)
    ensures NeededBy([l] + rest) == Needed(|Flat(l.codes)|) + NeededBy(rest)
    ensures |LineStream([l] + rest)| == |Flat(l.codes)| + l.fill + 1 + |LineStream(rest)|
  {
    assert ([l] + rest)[0] == l && ([l] + rest)[1..] == rest;
  }

  lemma {:induction false} ManyNeed(l: CodedLine, k: nat, rest: seq<CodedLine>, bytes: nat, bits: nat)
    requires bytes == Needed(|Flat(l.codes)|) && bits == |Flat(l.codes)| + l.fill + 1
    ensures NeededBy(Many(l, k) + rest) == k * bytes + NeededBy(rest)
    ensures |LineStream(Many(l, k) + rest)| == k * bits + |LineStream(rest)|
  {
    if k == 0 {
      assert Many(l, k) + rest == rest;
    } else {
      ManyNeed(l, k - 1, rest, bytes, bits);
      NeedFirst(l, Many(l, k - 1) + rest);
      assert Many(l, k) + rest == [l] + (Many(l, k - 1) + rest);
      OneMore(k, bytes);
      OneMore(k, bits);
    }
  }

  lemma OneMore(k: nat, c: nat)
    ensures k * c == (k - 1) * c + c
  {
  }

  // ---- dense lines ---------------------------------------------------------------------------

  /** The make-up codes of 64 and 1664 white dots. */
  const MAKEUP64 := [true, true, false, true, true]
  const MAKEUP1664 := [false, true, true, false, false, false]

  /** Trees with these two codes. */
  predicate HasMakeups(ts: Trees) {
    && IsCode(ts.white, 0, MAKEUP64) && RunLength(ts.white, 0, MAKEUP64) >= TCLIM
    && IsCode(ts.white, 0, MAKEUP1664) && RunLength(ts.white, 0, MAKEUP1664) >= TCLIM
  }

  /** Code words of `5 * a + 6 * b` bits, all white. */
  function Makeups(a: nat, b: nat): seq<seq<bool>> {
    if a > 0 then [MAKEUP64] + Makeups(a - 1, b)
    else if b > 0 then [MAKEUP1664] + Makeups(a, b - 1)
    else []
  }

  lemma {:induction false} MakeupsAreLine(ts: Trees, a: nat, b: nat)
    requires HasMakeups(ts)
    ensures IsLine(ts, true, Makeups(a, b)) && |Flat(Makeups(a, b))| == 5 * a + 6 * b
  {
    var codes := Makeups(a, b);
    if a > 0 {
      MakeupsAreLine(ts, a - 1, b);
      assert codes[0] == MAKEUP64 && codes[1..] == Makeups(a - 1, b);
    } else if b > 0 {
      MakeupsAreLine(ts, a, b - 1);
      assert codes[0] == MAKEUP1664 && codes[1..] == Makeups(a, b - 1);
    }
  }

  /** A line with any number of code bits from 20 on. */
  function Dense(bits: nat): CodedLine
    requires bits >= 20
  {
    CodedLine(Makeups(bits / 5 - bits % 5, bits % 5), 11)
  }

  lemma DenseIsLine(ts: Trees, bits: nat)
    requires HasMakeups(ts) && bits >= 20
    ensures IsLine(ts, true, Dense(bits).codes) && |Flat(Dense(bits).codes)| == bits
  {
    MakeupsAreLine(ts, bits / 5 - bits % 5, bits % 5);
  }

  // ---- the page ------------------------------------------------------------------------------

  /** A dense line, and then some lines of 17 bits and some of 12. */
  function WorstLines(pending: nat, dense: nat, empty: nat): seq<CodedLine>
    requires pending > PENDING
  {
    [Dense(pending - 8)] + TailLines(dense, empty)
  }

  function TailLines(dense: nat, empty: nat): seq<CodedLine> {
    Many(CodedLine(Makeups(1, 0), 11), dense) + (Many(CodedLine([], 11), empty) + [])
  }

  lemma TailNeeds(ts: Trees, dense: nat, empty: nat)
    requires HasMakeups(ts)
    ensures NeededBy(TailLines(dense, empty)) == 3 * dense + 2 * empty
    ensures |LineStream(TailLines(dense, empty))| == 17 * dense + 12 * empty
  {
    MakeupsAreLine(ts, 1, 0);
    ManyNeed(CodedLine([], 11), empty, [], 2, 12);
    ManyNeed(CodedLine(Makeups(1, 0), 11), dense, Many(CodedLine([], 11), empty) + [], 3, 17);
  }

  lemma WorstLinesAreLines(ts: Trees, pending: nat, dense: nat, empty: nat)
    requires HasMakeups(ts) && pending > PENDING
    ensures AllLines(ts, WorstLines(pending, dense, empty))
  {
    DenseIsLine(ts, pending - 8);
    MakeupsAreLine(ts, 1, 0);
    forall l | l in TailLines(dense, empty)
      ensures IsLine(ts, true, l.codes) && l.fill >= 11
    {
    }
  }

  lemma DenseNeeds(ts: Trees, bits: nat, rest: seq<CodedLine>)
    requires HasMakeups(ts) && bits >= 20
    ensures NeededBy([Dense(bits)] + rest) == Needed(bits) + NeededBy(rest)
    ensures |LineStream([Dense(bits)] + rest)| == bits + 12 + |LineStream(rest)|
  {
    DenseIsLine(ts, bits);
    NeedFirst(Dense(bits), rest);
  }

  lemma WorstLinesNeed(ts: Trees, pending: nat, dense: nat, empty: nat)
    requires HasMakeups(ts) && pending > PENDING
    ensures NeededBy(WorstLines(pending, dense, empty)) == Needed(pending - 8) + 3 * dense + 2 * empty
    ensures |LineStream(WorstLines(pending, dense, empty))| == pending + 4 + 17 * dense + 12 * empty
  {
    TailNeeds(ts, dense, empty);
    DenseNeeds(ts, pending - 8, TailLines(dense, empty));
  }

  lemma BegunIsOk(ts: Trees, vres: nat)
    requires BothWellFormed(ts)
    ensures Ok(ts, Begun(vres)) && Fresh(Begun(vres))
  {
    RootReached(ts.white, 0);
  }

  lemma {:induction false} EndsInOne(lines: seq<CodedLine>)
    requires lines != []
    ensures LineStream(lines) != [] && LineStream(lines)[|LineStream(lines)| - 1]
    decreases |lines|
  {
    var first, rest := Flat(lines[0].codes) + Zeros(lines[0].fill) + [true], LineStream(lines[1..]);
    assert LineStream(lines) == first + rest;
    if lines[1..] != [] {
      EndsInOne(lines[1..]);
    }
  }

  /** The bits behind the first line's code words and eight of its zeros, without the last one bit of the page. */
  function ChunkBits(lines: seq<CodedLine>): seq<bool>
    requires lines != [] && lines[0].fill >= 11
  {
    var skip, s := |Flat(lines[0].codes)| + 8, LineStream(lines);
    s[skip..|s| - 1]
  }

  lemma StreamParts(lines: seq<CodedLine>)
    requires lines != [] && lines[0].fill >= 11
    ensures LineStream(lines) == (Flat(lines[0].codes) + Zeros(8)) + (ChunkBits(lines) + [true])
  {
    EndsInOne(lines);
    var s, before := LineStream(lines), Flat(lines[0].codes) + Zeros(8);
    assert s[..|before|] == before;
    assert s == s[..|before|] + (s[|before|..|s| - 1] + [s[|s| - 1]]);
  }

  lemma OneEndsNoLine(ts: Trees, m: Machine)
    requires BothWellFormed(ts) && Ok(ts, m)
    ensures LineBytes(Run(ts, m, [true]).1) == 0
  {
    StepKeeps(ts, m, true);
    RunCons(ts, m, [true]);
    assert [true][1..] == [];
    var rs := Step(ts, m, true).1;
    assert rs + [] == rs && (rs == [] || rs == [rs[0]]);
  }

  /** All lines of a page are written within the bits that come behind eight zeros of its first line. */
  lemma ChunkTakesAll(ts: Trees, m: Machine, lines: seq<CodedLine>)
    requires BothWellFormed(ts) && Fresh(m) && Ok(ts, m) && AllLines(ts, lines) && lines != []
    ensures var m1 := Run(ts, m, Flat(lines[0].codes) + Zeros(8)).0;
            && Ok(ts, m1) && Recording(m1) && Recorded(m1) == |Flat(lines[0].codes)| + 8
            && LineBytes(Run(ts, m1, ChunkBits(lines)).1) == NeededBy(lines)
  {
    var before, bits := Flat(lines[0].codes) + Zeros(8), ChunkBits(lines);
    ZerosRecorded(ts, m, lines[0].codes, 8);
    LinesConvert(ts, m, lines);
    RecordsNeed(Run(ts, m, LineStream(lines)).1, lines);
    StreamParts(lines);
    var m1 := Run(ts, m, before).0;
    RunAppend(ts, m, before, bits + [true]);
    var rs := Run(ts, m1, bits + [true]).1;
    assert [] + rs == rs;
    LastAddsNothing(ts, m1, bits);
  }

  lemma LastAddsNothing(ts: Trees, m: Machine, bits: seq<bool>)
    requires BothWellFormed(ts) && Ok(ts, m)
    ensures LineBytes(Run(ts, m, bits + [true]).1) == LineBytes(Run(ts, m, bits).1)
  {
    RunAppend(ts, m, bits, [true]);
    var m1 := Run(ts, m, bits).0;
    OneEndsNoLine(ts, m1);
    LineBytesAppend(Run(ts, m, bits).1, Run(ts, m1, [true]).1);
  }

  // ---- the exact number ----------------------------------------------------------------------

  /** Some bits after the first end-of-line code of a document. */
  ghost function After(ts: Trees, vres: nat, before: seq<bool>): (m: Machine)
    requires BothWellFormed(ts)
    ensures Ok(ts, m)
  {
    BegunIsOk(ts, vres);
    RunIsOk(ts, Begun(vres), before);
    Run(ts, Begun(vres), before).0
  }

  /** A chunk with the end of a page that fills the read buffer with these bits. */
  lemma ChunkOf(ts: Trees, m: Machine, bits: seq<bool>)
    requires BothWellFormed(ts) && Ok(ts, m) && m.lineValid && |bits| == CHUNKBITS
    ensures var c := Chunk(Pack(bits), PageEnd);
            && |c.data| == FAX_FILTER_BUFFER_SIZE
            && |EncodeAll(ChunkRun(ts, m, c).1)| == LineBytes(Run(ts, m, bits).1) + PAGEBYTES
  {
    PackBack(bits);
    var (m1, rs) := Run(ts, m, bits);
    RunPages(ts, m, bits);
    EncodeAllAppend(rs, [PageStart(m1.vres % 256)]);
    assert [PageStart(m1.vres % 256)][1..] == [];
    assert EncodeAll([PageStart(m1.vres % 256)]) == Encode(PageStart(m1.vres % 256)) + [];
  }

  lemma Overflows(ts: Trees, vres: nat, pending: nat, dense: nat, empty: nat) returns (before: seq<bool>, c: Chunk)
    requires BothWellFormed(ts) && HasMakeups(ts) && pending > PENDING
    requires 17 * dense + 12 * empty == CHUNKBITS - 3 && 3 * dense + 2 * empty >= 1411
    ensures Recording(After(ts, vres, before)) && Recorded(After(ts, vres, before)) == pending
    ensures |c.data| == FAX_FILTER_BUFFER_SIZE && !ChunkFits(ts, After(ts, vres, before), c)
  {
    var lines := WorstLines(pending, dense, empty);
    BegunIsOk(ts, vres);
    WorstChunk(ts, pending, dense, empty);
    before := Flat(lines[0].codes) + Zeros(8);
    ChunkTakesAll(ts, Begun(vres), lines);
    ChunkOf(ts, After(ts, vres, before), ChunkBits(lines));
    c := Chunk(Pack(ChunkBits(lines)), PageEnd);
  }

  lemma WorstChunk(ts: Trees, pending: nat, dense: nat, empty: nat)
    requires HasMakeups(ts) && pending > PENDING
    requires 17 * dense + 12 * empty == CHUNKBITS - 3 && 3 * dense + 2 * empty >= 1411
    ensures var lines := WorstLines(pending, dense, empty);
            && AllLines(ts, lines) && lines[0].fill >= 11 && |Flat(lines[0].codes)| == pending - 8
            && |ChunkBits(lines)| == CHUNKBITS && NeededBy(lines) >= 2031
  {
    var lines := WorstLines(pending, dense, empty);
    WorstLinesAreLines(ts, pending, dense, empty);
    WorstLinesNeed(ts, pending, dense, empty);
    DenseIsLine(ts, pending - 8);
    assert lines[0] == Dense(pending - 8);
  }

  /** In every state of a page with so many bits of a line pending, any chunk that the read buffer holds fits. */
  ghost predicate AlwaysFits(ts: Trees, pending: nat)
    requires BothWellFormed(ts)
  {
    forall vres: nat, before: seq<bool>, c: Chunk ::
      var m := After(ts, vres, before);
      Recording(m) && Recorded(m) == pending && |c.data| <= FAX_FILTER_BUFFER_SIZE ==> ChunkFits(ts, m, c)
  }

  lemma FitsExactly(ts: Trees, pending: nat, dense: nat, empty: nat)
    requires BothWellFormed(ts) && HasMakeups(ts)
    requires 17 * dense + 12 * empty == CHUNKBITS - 3 && 3 * dense + 2 * empty >= 1411
    ensures AlwaysFits(ts, pending) <==> pending <= PENDING
  {
    if pending <= PENDING {
      forall vres: nat, before: seq<bool>, c: Chunk |
        && Recording(After(ts, vres, before)) && Recorded(After(ts, vres, before)) == pending
        && |c.data| <= FAX_FILTER_BUFFER_SIZE
        ensures ChunkFits(ts, After(ts, vres, before), c)
      {
        ChunkBound(ts, After(ts, vres, before), c);
      }
    } else {
      var before, c := Overflows(ts, 0, pending, dense, empty);
    }
  }

  lemma TablesHaveMakeups()
    ensures HasMakeups(HufTrees)
  {
    var t, w := HufTrees.white, MAKEUP64;
    assert t[0] == WhiteNode(0) && t[5] == WhiteNode(5) && t[11] == WhiteNode(11);
  }

  /** With the converter's code tables the number is exact: with one pending bit more there is a page of which bytes
      are lost. */
  lemma HeadroomExactly(pending: nat)
    ensures BothWellFormed(HufTrees)
    ensures AlwaysFits(HufTrees, pending) <==> pending <= PENDING
  {
    TablesWellFormed();
    TablesHaveMakeups();
    FitsExactly(HufTrees, pending, 469, 2);
  }

  /** A line with more code bits than the line buffer has room for is written behind its end. */
  lemma LongLineOverflows(vres: nat, bits: nat)
    requires bits > LINEBITS
    ensures BothWellFormed(HufTrees) && Ok(HufTrees, Begun(vres)) && AllLines(HufTrees, [Dense(bits)])
    ensures !LinesFit(HufTrees, Begun(vres), LineStream([Dense(bits)]))
  {
    TablesWellFormed();
    TablesHaveMakeups();
    LongOverflows(HufTrees, vres, bits);
  }

  lemma LongOverflows(ts: Trees, vres: nat, bits: nat)
    requires BothWellFormed(ts) && HasMakeups(ts) && bits > LINEBITS
    ensures Ok(ts, Begun(vres)) && AllLines(ts, [Dense(bits)])
    ensures !LinesFit(ts, Begun(vres), LineStream([Dense(bits)]))
  {
    BegunIsOk(ts, vres);
    DenseIsLine(ts, bits);
    assert Dense(bits) in [Dense(bits)];
    LinesFitExactly(ts, Begun(vres), [Dense(bits)]);
  }
}

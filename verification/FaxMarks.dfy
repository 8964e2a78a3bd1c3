/** The page starts and the end of a fax document, whatever the reader reports. */
module FaxMarks {
  import opened Bits
  import opened HufTree
  import opened SffStream
  import opened HufMachine
  import opened HufPage
  import opened FaxFill

  // ---- where a document begins ---------------------------------------------------------------

  /** The zeros at the end of a bit string. */
  function EndZeros(bits: seq<bool>): (n: nat)
    ensures n <= |bits|
  {
    if bits == [] || bits[|bits| - 1] then 0 else 1 + EndZeros(bits[..|bits| - 1])
  }

  /** An end-of-line code: a one behind eleven zeros or more. */
  ghost predicate HasEol(bits: seq<bool>) {
    exists i :: 0 <= i < |bits| && bits[i] && EndZeros(bits[..i]) >= 11
  }

  lemma EolMore(bits: seq<bool>, bit: bool)
    ensures EndZeros(bits + [bit]) == if bit then 0 else EndZeros(bits) + 1
    ensures HasEol(bits + [bit]) <==> HasEol(bits) || (bit && EndZeros(bits) >= 11)
  {
    var all := bits + [bit];
    assert all[..|bits|] == bits;
    forall i | 0 <= i < |bits|
      ensures all[i] == bits[i] && all[..i] == bits[..i]
    {
    }
    if HasEol(bits) {
      var i :| 0 <= i < |bits| && bits[i] && EndZeros(bits[..i]) >= 11;
      assert all[i] && EndZeros(all[..i]) >= 11;
    }
    if bit && EndZeros(bits) >= 11 {
      assert all[|bits|] && EndZeros(all[..|bits|]) >= 11;
    }
  }

  /** Before the first end-of-line code the machine only counts zeros; with it the document has begun. */
  ghost predicate Begins(m: Machine, bits: seq<bool>) {
    (m.lineValid <==> HasEol(bits)) && (!m.lineValid ==> m.zeros == EndZeros(bits))
  }

  /** The records of some bits that are not lines: the page start, if the document begins with them. */
  function Marks(rs: seq<SffRecord>): seq<SffRecord> {
    if rs == [] then [] else (if rs[0].Line? then [] else [rs[0]]) + Marks(rs[1..])
  }

  lemma {:induction false} MarksAppend(a: seq<SffRecord>, b: seq<SffRecord>)
    ensures Marks(a + b) == Marks(a) + Marks(b)
  {
    if a == [] {
      assert a + b == b;
    } else {
      assert (a + b)[1..] == a[1..] + b;
      MarksAppend(a[1..], b);
    }
  }

  lemma CountBegins(m: Machine, bit: bool, before: seq<bool>)
    requires Begins(m, before)
    ensures Begins(CountBit(m, bit).0, before + [bit])
  {
    EolMore(before, bit);
  }

  lemma CountMarks(m: Machine, bit: bool)
    ensures var (m', rs) := CountBit(m, bit);
            && m'.vres == m.vres && (m.lineValid ==> m'.lineValid)
            && rs == if !m.lineValid && m'.lineValid then [PageStart(m.vres % 256)] else []
  {
  }

  lemma WalkMarks(ts: Trees, m: Machine, bit: bool)
    requires BothWellFormed(ts) && Ok(ts, m) && Recording(m)
    ensures var (m1, rs) := WalkBit(ts, RecordBit(m, bit), bit);
            m1.lineValid && m1.vres == m.vres && Marks(rs) == []
  {
  }

  lemma StepMarks(ts: Trees, m: Machine, bit: bool)
    requires BothWellFormed(ts) && Ok(ts, m)
    ensures var (m', rs) := Step(ts, m, bit);
            && m'.vres == m.vres && (m.lineValid ==> m'.lineValid)
            && Marks(rs) == if !m.lineValid && m'.lineValid then [PageStart(m.vres % 256)] else []
  {
    var m1, rs1: seq<SffRecord> := m, [];
    if Recording(m) {
      WalkMarks(ts, m, bit);
      m1, rs1 := WalkBit(ts, RecordBit(m, bit), bit).0, WalkBit(ts, RecordBit(m, bit), bit).1;
    }
    CountMarks(m1, bit);
    MarksAppend(rs1, CountBit(m1, bit).1);
  }

  lemma StepBegins(ts: Trees, m: Machine, bit: bool, before: seq<bool>)
    requires BothWellFormed(ts) && Ok(ts, m) && Begins(m, before)
    ensures Begins(Step(ts, m, bit).0, before + [bit])
  {
    var m1 := m;
    if Recording(m) {
      WalkMarks(ts, m, bit);
      m1 := WalkBit(ts, RecordBit(m, bit), bit).0;
    }
    CountBegins(m1, bit, before);
  }

  lemma {:induction false} RunMarks(ts: Trees, m: Machine, bits: seq<bool>)
    requires BothWellFormed(ts) && Ok(ts, m)
    ensures var (m', rs) := Run(ts, m, bits);
            && m'.vres == m.vres && (m.lineValid ==> m'.lineValid)
            && Marks(rs) == if !m.lineValid && m'.lineValid then [PageStart(m.vres % 256)] else []
    decreases |bits|
  {
    if bits != [] {
      var (m1, rs1) := Step(ts, m, bits[0]);
      RunCons(ts, m, bits);
      StepMarks(ts, m, bits[0]);
      RunMarks(ts, m1, bits[1..]);
      MarksAppend(rs1, Run(ts, m1, bits[1..]).1);
    }
  }

  lemma {:induction false} RunBegins(ts: Trees, m: Machine, bits: seq<bool>, before: seq<bool>, all: seq<bool>)
    requires BothWellFormed(ts) && Ok(ts, m) && Begins(m, before) && all == before + bits
    ensures Begins(Run(ts, m, bits).0, all)
    decreases |bits|
  {
    if bits == [] {
      assert all == before;
    } else {
      RunCons(ts, m, bits);
      StepBegins(ts, m, bits[0], before);
      assert before + [bits[0]] + bits[1..] == all;
      RunBegins(ts, Step(ts, m, bits[0]).0, bits[1..], before + [bits[0]], all);
    }
  }

  // ---- page starts and the end of the document -----------------------------------------------

  function AllBits(cs: seq<Chunk>): seq<bool> {
    if cs == [] then [] else AllBits(cs[..|cs| - 1]) + Unpack(cs[|cs| - 1].data)
  }

  /** The resolution that was reported last, or that of the opening. */
  function Resolution(vres: nat, cs: seq<Chunk>): nat {
    if cs == [] then vres
    else
      match cs[|cs| - 1].info
      case NextFile(Some(res)) => res
      case _ => Resolution(vres, cs[..|cs| - 1])
  }

  /** The page start at the first end-of-line code, if it comes in the last of the chunks. */
  ghost function FirstStart(vres: nat, cs: seq<Chunk>): seq<SffRecord>
    requires cs != []
  {
    var before := cs[..|cs| - 1];
    if HasEol(AllBits(cs)) && !HasEol(AllBits(before)) then [PageStart(Resolution(vres, before) % 256)] else []
  }

  /** What the end of a page, of a file, or of the last file writes. */
  function EndMark(vres: nat, cs: seq<Chunk>): seq<SffRecord>
    requires cs != []
  {
    var info := cs[|cs| - 1].info;
    if info == Okay then [] else if info == LastPageEnd then [DocumentEnd]
    else [PageStart(Resolution(vres, cs) % 256)]
  }

  /** What a document should hold besides its lines: a page start for the first end-of-line code and one for the end
      of every page and file but the last, with the resolution that holds then, and its end with the last file. */
  ghost function MarksOf(vres: nat, cs: seq<Chunk>): seq<SffRecord> {
    if cs == [] then [] else MarksOf(vres, cs[..|cs| - 1]) + FirstStart(vres, cs) + EndMark(vres, cs)
  }

  /** How the machine stands behind some chunks. */
  ghost predicate Stands(m: Machine, vres: nat, cs: seq<Chunk>) {
    Begins(m, AllBits(cs)) && m.vres == Resolution(vres, cs)
  }

  lemma ChunkMarks(ts: Trees, m: Machine, c: Chunk)
    requires BothWellFormed(ts) && Ok(ts, m)
    ensures var (m1, rs1) := Run(ts, m, Unpack(c.data));
            && Marks(ChunkRun(ts, m, c).1) == Marks(rs1) + AfterInfo(m1, c.info).1
            && ChunkRun(ts, m, c).0 == AfterInfo(m1, c.info).0
  {
    var (m1, rs1) := Run(ts, m, Unpack(c.data));
    var rs2 := AfterInfo(m1, c.info).1;
    MarksAppend(rs1, rs2);
    assert rs2 == [] || (rs2 == [rs2[0]] && rs2[1..] == []);
  }

  lemma InfoStands(m: Machine, vres: nat, cs: seq<Chunk>, bits: seq<bool>)
    requires cs != [] && Begins(m, bits) && m.vres == Resolution(vres, cs[..|cs| - 1])
    ensures var (m', rs) := AfterInfo(m, cs[|cs| - 1].info);
            Begins(m', bits) && m'.vres == Resolution(vres, cs) && rs == EndMark(vres, cs)
  {
    var m' := AfterInfo(m, cs[|cs| - 1].info).0;
    assert m'.lineValid == m.lineValid && m'.zeros == m.zeros;
  }

  lemma FirstStartIs(vres: nat, cs: seq<Chunk>, m: Machine, m1: Machine)
    requires cs != [] && Begins(m, AllBits(cs[..|cs| - 1])) && Begins(m1, AllBits(cs))
    requires m.vres == Resolution(vres, cs[..|cs| - 1]) && (m.lineValid ==> m1.lineValid)
    ensures FirstStart(vres, cs) == if !m.lineValid && m1.lineValid then [PageStart(m.vres % 256)] else []
  {
  }

  lemma ChunkStands(ts: Trees, m: Machine, vres: nat, cs: seq<Chunk>)
    requires BothWellFormed(ts) && Ok(ts, m) && cs != [] && Stands(m, vres, cs[..|cs| - 1])
    ensures var (m', rs) := ChunkRun(ts, m, cs[|cs| - 1]);
            Stands(m', vres, cs) && Marks(rs) == FirstStart(vres, cs) + EndMark(vres, cs)
  {
    var c := cs[|cs| - 1];
    var before, bits := AllBits(cs[..|cs| - 1]), AllBits(cs);
    assert bits == before + Unpack(c.data);
    RunBegins(ts, m, Unpack(c.data), before, bits);
    RunMarks(ts, m, Unpack(c.data));
    RunIsOk(ts, m, Unpack(c.data));
    var m1 := Run(ts, m, Unpack(c.data)).0;
    ChunkMarks(ts, m, c);
    FirstStartIs(vres, cs, m, m1);
    InfoStands(m1, vres, cs, bits);
  }

  lemma MarksMore(rs1: seq<SffRecord>, rs2: seq<SffRecord>, vres: nat, cs: seq<Chunk>)
    requires cs != [] && Marks(rs1) == MarksOf(vres, cs[..|cs| - 1])
    requires Marks(rs2) == FirstStart(vres, cs) + EndMark(vres, cs)
    ensures Marks(rs1 + rs2) == MarksOf(vres, cs)
  {
    MarksAppend(rs1, rs2);
  }

  /** For every list of chunks the records hold exactly that. */
  lemma {:induction false} MarksExactly(ts: Trees, vres: nat, cs: seq<Chunk>)
    requires BothWellFormed(ts)
    ensures Ok(ts, Opened(vres))
    ensures var (m, rs) := ChunksRun(ts, Opened(vres), cs); Stands(m, vres, cs) && Marks(rs) == MarksOf(vres, cs)
    decreases |cs|
  {
    OpenedIsOk(ts, vres);
    if cs != [] {
      var k := |cs| - 1;
      MarksExactly(ts, vres, cs[..k]);
      var (m1, rs1) := ChunksRun(ts, Opened(vres), cs[..k]);
      ChunksRunSnoc(ts, Opened(vres), cs, k);
      assert cs[..k + 1] == cs;
      ChunkStands(ts, m1, vres, cs);
      MarksMore(rs1, ChunkRun(ts, m1, cs[k]).1, vres, cs);
    }
  }
}

/** What a fax document of several pages and files becomes. */
module FaxPages {
  import opened Bits
  import opened Sequences
  import opened HufTree
  import opened SffStream
  import opened HufMachine
  import opened HufLine
  import opened HufPage
  import opened FaxFill
  import opened FaxDocument

  // ---- documents of several pages and files --------------------------------------------------

  /** A page as it is read: pieces, and a last one with what the reader reports at its end.  Its bits are fill, an
      end-of-line code, lines and up to ten padding zeros. */
  datatype FaxPage = FaxPage(pieces: seq<seq<byte>>, rest: seq<byte>, info: Info,
                             n: nat, lines: seq<CodedLine>, pad: nat)

  predicate IsPage(ts: Trees, p: FaxPage) {
    && AllLines(ts, p.lines) && p.n >= 11 && p.pad <= 10 && p.info != Okay
    && Unpack(Joined(p.pieces) + p.rest) == PageStream(p.n, p.lines, p.pad)
  }

  /** Only the last page ends the document. */
  predicate ArePages(ts: Trees, pages: seq<FaxPage>) {
    && pages != [] && (forall p | p in pages :: IsPage(ts, p))
    && forall k :: 0 <= k < |pages| ==> (pages[k].info == LastPageEnd <==> k == |pages| - 1)
  }

  function DocumentChunks(pages: seq<FaxPage>): seq<Chunk> {
    if pages == [] then []
    else PageChunks(pages[0].pieces, pages[0].rest, pages[0].info) + DocumentChunks(pages[1..])
  }

  function NextResolution(vres: nat, info: Info): nat {
    match info
    case NextFile(Some(res)) => res
    case _ => vres
  }

  /** The padding of a page and the end-of-line code of the next make an empty line. */
  function LeadIn(pad: nat, p: FaxPage): seq<CodedLine> {
    [CodedLine([], pad + p.n)] + p.lines
  }

  /** The records of pages, the first of which has the given lines: every page has its start, with the resolution
      that its file was reported with, and a record for each line; behind the last is the document's end. */
  ghost predicate IsDocument(rs: seq<SffRecord>, vres: nat, lines: seq<CodedLine>, pages: seq<FaxPage>)
    requires pages != []
    decreases |pages|, 1
  {
    var n := |lines| + 1;
    && |rs| > n && rs[0] == PageStart(vres % 256) && AreRecords(rs[1..n], lines)
    && Follows(rs[n..], vres, pages)
  }

  /** What comes behind the first of the pages. */
  ghost predicate Follows(rs: seq<SffRecord>, vres: nat, pages: seq<FaxPage>)
    requires pages != []
    decreases |pages|, 0
  {
    if |pages| == 1 then rs == [DocumentEnd]
    else IsDocument(rs, NextResolution(vres, pages[0].info), LeadIn(pages[0].pad, pages[1]), pages[1..])
  }

  /** Behind the first end-of-line code the resolution is only passed on. */
  lemma {:induction false} ResolutionIsFree(ts: Trees, m: Machine, bits: seq<bool>, res: nat)
    requires BothWellFormed(ts) && Ok(ts, m) && m.lineValid
    ensures Ok(ts, m.(vres := res))
    ensures Run(ts, m.(vres := res), bits) == (Run(ts, m, bits).0.(vres := res), Run(ts, m, bits).1)
    decreases |bits|
  {
    if bits != [] {
      var m1 := Step(ts, m, bits[0]).0;
      StepKeeps(ts, m, bits[0]);
      FreeStep(ts, m, bits[0], res);
      ResolutionIsFree(ts, m1, bits[1..], res);
    }
  }

  lemma FreeStep(ts: Trees, m: Machine, bit: bool, res: nat)
    requires BothWellFormed(ts) && Ok(ts, m) && m.lineValid
    ensures Ok(ts, m.(vres := res))
    ensures Step(ts, m.(vres := res), bit) == (Step(ts, m, bit).0.(vres := res), Step(ts, m, bit).1)
  {
    if Recording(m) {
      FreeWalk(ts, RecordBit(m, bit), bit, res);
      assert RecordBit(m.(vres := res), bit) == RecordBit(m, bit).(vres := res);
    }
  }

  lemma FreeRun(m: Machine, run: int, res: nat)
    ensures AddRun(m.(vres := res), run) == AddRun(m, run).(vres := res)
    ensures AddRun(m, run).vres == m.vres && AddRun(m, run).lineValid == m.lineValid
  {
  }

  lemma FreeWalk(ts: Trees, m: Machine, bit: bool, res: nat)
    requires Inside(ts, m)
    ensures WalkBit(ts, m.(vres := res), bit) == (WalkBit(ts, m, bit).0.(vres := res), WalkBit(ts, m, bit).1)
    ensures WalkBit(ts, m, bit).0.vres == m.vres && WalkBit(ts, m, bit).0.lineValid == m.lineValid
  {
    var t := ts.Of(m.white);
    var next := Child(t[m.node], bit);
    if next < |t| {
      FreeRun(m.(node := next), t[next].token, res);
    }
  }

  /** Between two pages: some padding zeros behind an end-of-line code. */
  ghost predicate Turned(ts: Trees, f: Machine, m: Machine, pad: nat)
    requires BothWellFormed(ts)
  {
    Fresh(f) && Ok(ts, f) && Ok(ts, m) && m == Run(ts, f, Zeros(pad)).0 && Run(ts, f, Zeros(pad)).1 == []
  }

  lemma TurnedStays(ts: Trees, f: Machine, m: Machine, pad: nat, res: nat)
    requires BothWellFormed(ts) && Turned(ts, f, m, pad)
    ensures Turned(ts, f.(vres := res), m.(vres := res), pad)
  {
    ResolutionIsFree(ts, f, Zeros(pad), res);
    RunIsOk(ts, f, Zeros(pad));
    ResolutionIsFree(ts, m, [], res);
  }

  /** A page's lines and its padding, from an end-of-line code on. */
  lemma LinesTurn(ts: Trees, m: Machine, lines: seq<CodedLine>, pad: nat) returns (f: Machine)
    requires BothWellFormed(ts) && Fresh(m) && Ok(ts, m) && AllLines(ts, lines) && pad <= 10
    ensures var (m', rs) := Run(ts, m, LineStream(lines) + Zeros(pad));
            Turned(ts, f, m', pad) && AreRecords(rs, lines) && m'.vres == m.vres
  {
    LinesConvert(ts, m, lines);
    f := Run(ts, m, LineStream(lines)).0;
    var rs := Run(ts, m, LineStream(lines)).1;
    RunIsOk(ts, m, LineStream(lines));
    PadWritesNothing(ts, f, pad);
    RunIsOk(ts, f, Zeros(pad));
    RunAppend(ts, m, LineStream(lines), Zeros(pad));
    assert rs + [] == rs;
    SameResolution(ts, m, LineStream(lines) + Zeros(pad));
  }

  lemma {:induction false} SameResolution(ts: Trees, m: Machine, bits: seq<bool>)
    requires BothWellFormed(ts) && Ok(ts, m)
    ensures Run(ts, m, bits).0.vres == m.vres
    decreases |bits|
  {
    if bits != [] {
      RunCons(ts, m, bits);
      StepResolution(ts, m, bits[0]);
      SameResolution(ts, Step(ts, m, bits[0]).0, bits[1..]);
    }
  }

  lemma StepResolution(ts: Trees, m: Machine, bit: bool)
    requires Inside(ts, m)
    ensures Step(ts, m, bit).0.vres == m.vres
  {
    if Recording(m) {
      FreeWalk(ts, RecordBit(m, bit), bit, 0);
    }
  }

  lemma FirstPage(ts: Trees, vres: nat, p: FaxPage) returns (f: Machine, rs: seq<SffRecord>)
    requires BothWellFormed(ts) && IsPage(ts, p)
    ensures Ok(ts, Opened(vres)) && AreRecords(rs, p.lines)
    ensures var (m, all) := Run(ts, Opened(vres), PageStream(p.n, p.lines, p.pad));
            Turned(ts, f, m, p.pad) && m.vres == vres && all == [PageStart(vres % 256)] + rs
  {
    FirstEol(ts, vres, p.n);
    RootReached(ts.white, 0);
    f := LinesTurn(ts, Begun(vres), p.lines, p.pad);
    var start, behind := Zeros(p.n) + [true], LineStream(p.lines) + Zeros(p.pad);
    rs := Run(ts, Begun(vres), behind).1;
    RunAppend(ts, Opened(vres), start, behind);
    assert PageStream(p.n, p.lines, p.pad) == start + behind;
  }

  lemma LaterPage(ts: Trees, f: Machine, m: Machine, pad: nat, p: FaxPage) returns (f': Machine)
    requires BothWellFormed(ts) && Turned(ts, f, m, pad) && IsPage(ts, p)
    ensures var (m', rs) := Run(ts, m, PageStream(p.n, p.lines, p.pad));
            Turned(ts, f', m', p.pad) && m'.vres == m.vres && AreRecords(rs, LeadIn(pad, p))
  {
    var lines, page := LeadIn(pad, p), PageStream(p.n, p.lines, p.pad);
    LeadInBits(pad, p);
    f' := LinesTurn(ts, f, lines, p.pad);
    RunAppend(ts, f, Zeros(pad), page);
    assert [] + Run(ts, m, page).1 == Run(ts, m, page).1;
    SameResolution(ts, m, page);
  }

  lemma LeadInBits(pad: nat, p: FaxPage)
    ensures LineStream(LeadIn(pad, p)) + Zeros(p.pad) == Zeros(pad) + PageStream(p.n, p.lines, p.pad)
  {
    assert LeadIn(pad, p)[1..] == p.lines && Flat([]) == [];
    assert Zeros(pad) + Zeros(p.n) == Zeros(pad + p.n);
  }

  /** The records from the end of the first page's bits on. */
  ghost function Ending(ts: Trees, m: Machine, pages: seq<FaxPage>): seq<SffRecord>
    requires BothWellFormed(ts) && Ok(ts, m) && pages != []
  {
    AfterInfo(m, pages[0].info).1 + ChunksRun(ts, AfterInfo(m, pages[0].info).0, DocumentChunks(pages[1..])).1
  }

  lemma PageThenRest(ts: Trees, m: Machine, pages: seq<FaxPage>, page: seq<bool>)
    requires BothWellFormed(ts) && Ok(ts, m) && ArePages(ts, pages)
    requires page == PageStream(pages[0].n, pages[0].lines, pages[0].pad)
    ensures Ok(ts, Run(ts, m, page).0)
    ensures ChunksRun(ts, m, DocumentChunks(pages)).1 == Run(ts, m, page).1 + Ending(ts, Run(ts, m, page).0, pages)
  {
    var p := pages[0];
    var cs := PageChunks(p.pieces, p.rest, p.info);
    assert IsPage(ts, p);
    RunIsOk(ts, m, page);
    PageRun(ts, m, p.pieces, p.rest, p.info);
    ChunksSplit(ts, m, cs, DocumentChunks(pages[1..]));
    var (m1, rs1) := Run(ts, m, page);
    var rs3 := ChunksRun(ts, AfterInfo(m1, p.info).0, DocumentChunks(pages[1..])).1;
    Regroup(rs1, AfterInfo(m1, p.info).1, rs3);
  }

  lemma RestArePages(ts: Trees, pages: seq<FaxPage>)
    requires ArePages(ts, pages) && |pages| > 1
    ensures ArePages(ts, pages[1..]) && pages[0].info != LastPageEnd && IsPage(ts, pages[0])
  {
    var rest := pages[1..];
    assert forall p | p in rest :: p in pages;
    forall k | 0 <= k < |rest|
      ensures rest[k].info == LastPageEnd <==> k == |rest| - 1
    {
      assert rest[k] == pages[k + 1];
    }
  }

  lemma InfoTurns(ts: Trees, f: Machine, m: Machine, pad: nat, info: Info)
    requires BothWellFormed(ts) && Turned(ts, f, m, pad) && info != Okay
    ensures var (m', rs) := AfterInfo(m, info);
            var res := NextResolution(m.vres, info);
            && Turned(ts, f.(vres := res), m', pad) && m'.vres == res
            && rs == [if info == LastPageEnd then DocumentEnd else PageStart(res % 256)]
  {
    TurnedStays(ts, f, m, pad, NextResolution(m.vres, info));
    TurnedResolution(ts, f, m, pad);
  }

  lemma TurnedResolution(ts: Trees, f: Machine, m: Machine, pad: nat)
    requires BothWellFormed(ts) && Turned(ts, f, m, pad)
    ensures f.vres == m.vres
  {
    SameResolution(ts, f, Zeros(pad));
  }

  /** The first page's records, with the start before them, and what comes behind make up a document. */
  lemma DocumentMore(start: seq<SffRecord>, page: seq<SffRecord>, rest: seq<SffRecord>, vres: nat,
                     lines: seq<CodedLine>, pages: seq<FaxPage>)
    requires pages != [] && start == [PageStart(vres % 256)] && AreRecords(page, lines) && Follows(rest, vres, pages)
    ensures IsDocument(start + page + rest, vres, lines, pages)
  {
    var rs, n := start + page + rest, |lines| + 1;
    assert rs[0] == start[0] && rs[1..n] == page && rs[n..] == rest;
  }

  /** From the end of a page's bits on. */
  lemma {:induction false} Behind(ts: Trees, f: Machine, m: Machine, pages: seq<FaxPage>)
    requires BothWellFormed(ts) && ArePages(ts, pages) && Turned(ts, f, m, pages[0].pad)
    ensures Follows(Ending(ts, m, pages), m.vres, pages)
    decreases |pages|, 0
  {
    var p := pages[0];
    assert IsPage(ts, p);
    InfoTurns(ts, f, m, p.pad, p.info);
    var (m2, rs2) := AfterInfo(m, p.info);
    if |pages| > 1 {
      RestArePages(ts, pages);
      LaterPages(ts, f.(vres := m2.vres), m2, p.pad, pages[1..]);
    } else {
      assert rs2 + [] == rs2;
    }
  }

  lemma {:induction false} LaterPages(ts: Trees, f: Machine, m: Machine, pad: nat, pages: seq<FaxPage>)
    requires BothWellFormed(ts) && ArePages(ts, pages) && Turned(ts, f, m, pad)
    ensures IsDocument([PageStart(m.vres % 256)] + ChunksRun(ts, m, DocumentChunks(pages)).1, m.vres,
                       LeadIn(pad, pages[0]), pages)
    decreases |pages|, 1
  {
    var p, start := pages[0], [PageStart(m.vres % 256)];
    assert IsPage(ts, p);
    var f' := LaterPage(ts, f, m, pad, p);
    var page := PageStream(p.n, p.lines, p.pad);
    PageThenRest(ts, m, pages, page);
    var (m1, rs1) := Run(ts, m, page);
    Behind(ts, f', m1, pages);
    DocumentMore(start, rs1, Ending(ts, m1, pages), m.vres, LeadIn(pad, p), pages);
    Regroup(start, rs1, Ending(ts, m1, pages));
  }

  /** A document of any number of pages and files, each page read in any pieces, becomes this. */
  lemma DocumentConverts(ts: Trees, vres: nat, pages: seq<FaxPage>)
    requires BothWellFormed(ts) && ArePages(ts, pages)
    ensures Ok(ts, Opened(vres))
    ensures IsDocument(ChunksRun(ts, Opened(vres), DocumentChunks(pages)).1, vres, pages[0].lines, pages)
  {
    var p, m := pages[0], Opened(vres);
    assert IsPage(ts, p);
    var f, rs := FirstPage(ts, vres, p);
    var page := PageStream(p.n, p.lines, p.pad);
    PageThenRest(ts, m, pages, page);
    var m1 := Run(ts, m, page).0;
    Behind(ts, f, m1, pages);
    DocumentMore([PageStart(vres % 256)], rs, Ending(ts, m1, pages), vres, p.lines, pages);
  }
}

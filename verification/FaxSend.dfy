/** Documents of several pages and files that lose nothing on their way to the line. */
module FaxSend {
  import opened Bits
  import opened HufTree
  import opened HufMachine
  import opened HufLine
  import opened HufPage
  import opened HufRoom
  import opened FaxFill
  import opened FaxDocument
  import opened FaxRoom
  import opened FaxPages

  predicate ShortPages(pages: seq<FaxPage>) {
    forall p | p in pages :: ShortLines(p.lines) && ShortPieces(p.pieces) && |p.rest| <= FAX_FILTER_BUFFER_SIZE
  }

  lemma LaterWithin(ts: Trees, f: Machine, m: Machine, pad: nat, p: FaxPage)
    requires BothWellFormed(ts) && Turned(ts, f, m, pad) && IsPage(ts, p) && ShortLines(p.lines)
    ensures Within(ts, m, PageStream(p.n, p.lines, p.pad), PENDING)
  {
    var lines := LeadIn(pad, p);
    LinesWithin(ts, f, lines, PENDING);
    LinesConvert(ts, f, lines);
    RunIsOk(ts, f, LineStream(lines));
    WithinShort(ts, Run(ts, f, LineStream(lines)).0, Zeros(p.pad), PENDING);
    WithinAppend(ts, f, LineStream(lines), Zeros(p.pad), PENDING);
    LeadInBits(pad, p);
    WithinAppend(ts, f, Zeros(pad), PageStream(p.n, p.lines, p.pad), PENDING);
  }

  /** A page and what comes behind it. */
  lemma PageThenRestFit(ts: Trees, m: Machine, pages: seq<FaxPage>, m1: Machine)
    requires BothWellFormed(ts) && Ok(ts, m) && ArePages(ts, pages) && ShortPages(pages)
    requires var p := pages[0];
             && Within(ts, m, PageStream(p.n, p.lines, p.pad), PENDING)
             && m1 == Run(ts, m, PageStream(p.n, p.lines, p.pad)).0 && Ok(ts, m1)
    requires ChunksLines(ts, AfterInfo(m1, pages[0].info).0, DocumentChunks(pages[1..]))
    requires ChunksFit(ts, AfterInfo(m1, pages[0].info).0, DocumentChunks(pages[1..]))
    ensures ChunksLines(ts, m, DocumentChunks(pages)) && ChunksFit(ts, m, DocumentChunks(pages))
  {
    var p := pages[0];
    assert p in pages && IsPage(ts, p);
    var cs := PageChunks(p.pieces, p.rest, p.info);
    PageFits(ts, m, p.pieces, p.rest, p.info);
    PageRun(ts, m, p.pieces, p.rest, p.info);
    ChunksSplit(ts, m, cs, DocumentChunks(pages[1..]));
  }

  lemma {:induction false} BehindFits(ts: Trees, f: Machine, m: Machine, pages: seq<FaxPage>)
    requires BothWellFormed(ts) && ArePages(ts, pages) && ShortPages(pages) && Turned(ts, f, m, pages[0].pad)
    ensures var m2 := AfterInfo(m, pages[0].info).0;
            && Ok(ts, m2) && ChunksLines(ts, m2, DocumentChunks(pages[1..]))
            && ChunksFit(ts, m2, DocumentChunks(pages[1..]))
    decreases |pages|, 0
  {
    var p := pages[0];
    assert IsPage(ts, p);
    InfoTurns(ts, f, m, p.pad, p.info);
    if |pages| > 1 {
      RestArePages(ts, pages);
      assert forall q | q in pages[1..] :: q in pages;
      var m2 := AfterInfo(m, p.info).0;
      LaterFit(ts, f.(vres := m2.vres), m2, p.pad, pages[1..]);
    }
  }

  lemma {:induction false} LaterFit(ts: Trees, f: Machine, m: Machine, pad: nat, pages: seq<FaxPage>)
    requires BothWellFormed(ts) && ArePages(ts, pages) && ShortPages(pages) && Turned(ts, f, m, pad)
    ensures ChunksLines(ts, m, DocumentChunks(pages)) && ChunksFit(ts, m, DocumentChunks(pages))
    decreases |pages|, 1
  {
    var p := pages[0];
    assert p in pages && IsPage(ts, p);
    LaterWithin(ts, f, m, pad, p);
    var f' := LaterPage(ts, f, m, pad, p);
    var m1 := Run(ts, m, PageStream(p.n, p.lines, p.pad)).0;
    BehindFits(ts, f', m1, pages);
    PageThenRestFit(ts, m, pages, m1);
  }

  /** Pages whose lines have at most CODEBITS code bits, read in pieces that fit the read buffer, overflow neither the
      line buffer nor the ring. */
  lemma DocumentFits(ts: Trees, vres: nat, pages: seq<FaxPage>)
    requires BothWellFormed(ts) && ArePages(ts, pages) && ShortPages(pages)
    ensures Ok(ts, Opened(vres))
    ensures ChunksLines(ts, Opened(vres), DocumentChunks(pages)) && ChunksFit(ts, Opened(vres), DocumentChunks(pages))
  {
    var p := pages[0];
    assert p in pages && IsPage(ts, p);
    PageWithin(ts, vres, p.n, p.lines, p.pad, PENDING);
    var f, rs := FirstPage(ts, vres, p);
    var m1 := Run(ts, Opened(vres), PageStream(p.n, p.lines, p.pad)).0;
    BehindFits(ts, f, m1, pages);
    PageThenRestFit(ts, Opened(vres), pages, m1);
  }

  lemma {:induction false} EndsWithDocument(ts: Trees, pages: seq<FaxPage>, at: nat)
    requires ArePages(ts, pages) && at <= |DocumentChunks(pages)|
    ensures EndsFile(DocumentChunks(pages)[..at]) <==> at == |DocumentChunks(pages)|
    decreases |pages|
  {
    var p, all := pages[0], DocumentChunks(pages);
    assert IsPage(ts, p);
    var cs, others := PageChunks(p.pieces, p.rest, p.info), DocumentChunks(pages[1..]);
    PageEndsAtLast(p.pieces, p.rest, p.info, if at <= |cs| then at else 0);
    if |pages| == 1 {
      assert all == cs;
    } else {
      RestArePages(ts, pages);
      EndsWithDocument(ts, pages[1..], if at <= |cs| then 0 else at - |cs|);
      EndsBehind(cs, others, at);
    }
  }

  lemma EndsBehind(cs: seq<Chunk>, others: seq<Chunk>, at: nat)
    requires at <= |cs| + |others|
    ensures EndsFile((cs + others)[..at]) <==> if at <= |cs| then EndsFile(cs[..at]) else EndsFile(others[..at - |cs|])
  {
    if at <= |cs| {
      assert (cs + others)[..at] == cs[..at];
    } else {
      assert (cs + others)[..at] == cs + others[..at - |cs|];
    }
  }

  /** Send such a document.  After enough blocks it is finished, and then the blocks make up its file, from which a
      reader gets every page's start and lines and the document's end. */
  method SendPages(fax: FaxConversion, vRes: nat, pages: seq<FaxPage>, sizes: seq<nat>) returns (out: seq<byte>)
    requires fax.sffFilter.InBounds() && BothWellFormed(fax.sffFilter.trees)
    requires ArePages(fax.sffFilter.trees, pages) && ShortPages(pages)
    modifies fax, fax.sffFilter, fax.sffFilter.queue, fax.sffFilter.queue.qdata, fax.sffFilter.auxBuff
    ensures var file := FileOf(fax.sffFilter.trees, vRes, DocumentChunks(pages));
            && ReadFile(file).Some? && IsDocument(ReadFile(file).value, vRes, pages[0].lines, pages)
            && (EnoughBlocks(sizes, |file|) ==> fax.finishedFaxFile > 1)
            && (fax.finishedFaxFile > 1 ==> out == file)
  {
    ghost var ts, chunks := fax.sffFilter.trees, DocumentChunks(pages);
    DocumentFits(ts, vRes, pages);
    DocumentConverts(ts, vRes, pages);
    ChunksAreFramed(ts, Opened(vRes), chunks);
    FileReadsBack(ChunksRun(ts, Opened(vRes), chunks).1);
    var at;
    out, at := SendDocument(fax, vRes, DocumentChunks(pages), sizes);
    EndsWithDocument(ts, pages, at);
    EndsWithDocument(ts, pages, |chunks|);
    assert chunks[..|chunks|] == chunks;
  }
}

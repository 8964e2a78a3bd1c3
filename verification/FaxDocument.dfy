/** A whole fax document on its way to the line: what CFaxSend hands to the connection, block by block, and
    what a reader of structured fax files makes of it. */
module FaxDocument {
  import opened Bits
  import opened Options
  import opened HufTree
  import opened SffStream
  import opened HufMachine
  import opened HufLine
  import opened HufPage
  import opened FaxFill

  /** The records of a file of version 1, from the place of the first page on that its header names. */
  function ReadFile(s: seq<byte>): Option<seq<SffRecord>> {
    if |s| < 20 || s[..4] != [0x53, 0x66, 0x66, 0x66] || s[4] != 1 then None
    else
      var at := s[10] as int + 256 * (s[11] as int);
      if at < 20 || at > |s| then None else Read(s[at..])
  }

  lemma HeaderSays(header: seq<byte>)
    requires header == FILEHEADER
    ensures |header| == 28 && header[4] == 1 && header[10] == 28 && header[11] == 0
    ensures header[..4] == [0x53, 0x66, 0x66, 0x66]
  {
  }

  lemma ReadsFrom(s: seq<byte>, header: seq<byte>, rest: seq<byte>)
    requires s == header + rest && |header| == 28 && header[4] == 1 && header[10] == 28 && header[11] == 0
    requires header[..4] == [0x53, 0x66, 0x66, 0x66]
    ensures ReadFile(s) == Read(rest)
  {
    assert s[..4] == header[..4] && s[28..] == rest;
  }

  lemma FileReadsBack(rs: seq<SffRecord>)
    requires AllFramed(rs)
    ensures ReadFile(FILEHEADER + EncodeAll(rs)) == Some(rs)
  {
    HeaderSays(FILEHEADER);
    ReadsFrom(FILEHEADER + EncodeAll(rs), FILEHEADER, EncodeAll(rs));
    ReadEncoded(rs);
  }

  /** All records of any chunks whose lines fit the line buffer can be split off again. */
  lemma {:induction false} ChunksAreFramed(ts: Trees, m: Machine, cs: seq<Chunk>)
    requires BothWellFormed(ts) && Ok(ts, m) && ChunksLines(ts, m, cs)
    ensures AllFramed(ChunksRun(ts, m, cs).1)
    decreases |cs|
  {
    if cs != [] {
      RunIsFramed(ts, m, Unpack(cs[0].data));
      ChunksAreFramed(ts, ChunkRun(ts, m, cs[0]).0, cs[1..]);
    }
  }

  /** The file that a document's chunks become. */
  ghost function FileOf(ts: Trees, vres: nat, chunks: seq<Chunk>): seq<byte>
    requires BothWellFormed(ts)
  {
    OpenedIsOk(ts, vres);
    FILEHEADER + EncodeAll(ChunksRun(ts, Opened(vres), chunks).1)
  }

  // ---- sending -------------------------------------------------------------------------------

  /** The blocks handed out so far and the ring together hold all that was written. */
  ghost predicate Underway(fax: FaxConversion, m: Machine, was: seq<byte>, chunks: seq<Chunk>, at: nat, out: seq<byte>)
    requires BothWellFormed(fax.sffFilter.trees) && Ok(fax.sffFilter.trees, m)
    reads fax, fax.sffFilter, fax.sffFilter.queue, fax.sffFilter.queue.qdata, fax.sffFilter.auxBuff
  {
    && fax.Sent(m, was, chunks, at, out)
    && (fax.finishedFaxFile > 0 <==> EndsFile(chunks[..at]))
    && (fax.finishedFaxFile > 1 ==> fax.sffFilter.Contents() == [])
  }

  /** A block of chunks that fit. */
  method SendFitting(fax: FaxConversion, chunks: seq<Chunk>, maxLen: nat) returns (n: nat, data: seq<byte>)
    requires fax.sffFilter.Valid() && ChunksLines(fax.sffFilter.trees, fax.sffFilter.State(), chunks)
    requires ChunksFit(fax.sffFilter.trees, fax.sffFilter.State(), chunks)
    modifies fax, fax.sffFilter, fax.sffFilter.queue, fax.sffFilter.queue.qdata, fax.sffFilter.auxBuff
    ensures fax.Sent(old(fax.sffFilter.State()), old(fax.sffFilter.Contents()), chunks, n, data)
    ensures |data| <= maxLen && (old(fax.finishedFaxFile) > 0 ==> n == 0)
    ensures fax.finishedFaxFile
         == AfterSend(old(fax.finishedFaxFile), chunks[..n], fax.sffFilter.Contents() == [])
    ensures old(fax.finishedFaxFile) > 1 ==> data == [] && fax.sffFilter.Contents() == old(fax.sffFilter.Contents())
    ensures maxLen > 0 && data == [] ==> fax.finishedFaxFile > 1 || (n == |chunks| && fax.finishedFaxFile == 0)
  {
    n, data := fax.SendSFF(chunks, maxLen);
  }

  /** Send one more block. */
  method SendBlock(fax: FaxConversion, chunks: seq<Chunk>, at: nat, out: seq<byte>, maxLen: nat,
                   ghost m: Machine, ghost was: seq<byte>)
    returns (at': nat, out': seq<byte>)
    requires BothWellFormed(fax.sffFilter.trees) && Ok(fax.sffFilter.trees, m)
    requires ChunksLines(fax.sffFilter.trees, m, chunks) && ChunksFit(fax.sffFilter.trees, m, chunks)
    requires Underway(fax, m, was, chunks, at, out)
    modifies fax, fax.sffFilter, fax.sffFilter.queue, fax.sffFilter.queue.qdata, fax.sffFilter.auxBuff
    ensures at <= at' <= |chunks| && Underway(fax, m, was, chunks, at', out')
    ensures out <= out' && |out'| <= |out| + maxLen
    ensures old(fax.finishedFaxFile) > 1 ==> fax.finishedFaxFile > 1
    ensures maxLen > 0 && |out'| == |out| ==>
              fax.finishedFaxFile > 1 || (at' == |chunks| && fax.finishedFaxFile == 0)
  {
    ghost var ring, finished := fax.sffFilter.Contents(), fax.finishedFaxFile;
    StillFit(fax.sffFilter.trees, m, chunks, at);
    var n, data := SendFitting(fax, chunks[at..], maxLen);
    at', out' := at + n, out + data;
    SentMore(fax, m, was, chunks, at, n, out, ring, data, at', out');
    FinishedMore(finished, fax.finishedFaxFile, chunks, at, n, at', fax.sffFilter.Contents() == []);
  }

  lemma StillFit(ts: Trees, m: Machine, chunks: seq<Chunk>, at: nat)
    requires BothWellFormed(ts) && Ok(ts, m) && at <= |chunks|
    requires ChunksLines(ts, m, chunks) && ChunksFit(ts, m, chunks)
    ensures var m1 := ChunksRun(ts, m, chunks[..at]).0;
            ChunksLines(ts, m1, chunks[at..]) && ChunksFit(ts, m1, chunks[at..])
  {
    assert chunks == chunks[..at] + chunks[at..];
    ChunksSplit(ts, m, chunks[..at], chunks[at..]);
  }

  lemma FinishedMore(finished: nat, finished': nat, chunks: seq<Chunk>, at: nat, n: nat, at': nat, empty: bool)
    requires at + n == at' <= |chunks| && (finished > 0 <==> EndsFile(chunks[..at])) && (finished > 0 ==> n == 0)
    requires finished' == AfterSend(finished, chunks[at..][..n], empty)
    ensures finished' > 0 <==> EndsFile(chunks[..at'])
    ensures finished' > 1 ==> empty || finished > 1
    ensures finished > 1 ==> finished' > 1
    ensures n == |chunks[at..]| ==> at' == |chunks|
  {
    CutMore(chunks, at, n);
  }

  lemma SentMore(fax: FaxConversion, m: Machine, was: seq<byte>, chunks: seq<Chunk>, at: nat, n: nat,
                 out: seq<byte>, ring: seq<byte>, data: seq<byte>, at': nat, out': seq<byte>)
    requires BothWellFormed(fax.sffFilter.trees) && Ok(fax.sffFilter.trees, m) && at + n == at' <= |chunks|
    requires out' == out + data
    requires out + ring == was + EncodeAll(ChunksRun(fax.sffFilter.trees, m, chunks[..at]).1)
    requires fax.Sent(ChunksRun(fax.sffFilter.trees, m, chunks[..at]).0, ring, chunks[at..], n, data)
    ensures fax.sffFilter.Valid()
    ensures fax.sffFilter.State() == ChunksRun(fax.sffFilter.trees, m, chunks[..at']).0
    ensures out' + fax.sffFilter.Contents() == was + EncodeAll(ChunksRun(fax.sffFilter.trees, m, chunks[..at']).1)
  {
    var ring' := fax.sffFilter.Contents();
    BlockMore(fax.sffFilter.trees, m, chunks, at, n, was, out, ring, data, ring');
    assert chunks[..at'] == chunks[..at + n] && out' + ring' == out + data + ring';
  }

  lemma BlockMore(ts: Trees, m: Machine, chunks: seq<Chunk>, at: nat, n: nat, was: seq<byte>,
                  out: seq<byte>, ring: seq<byte>, data: seq<byte>, ring': seq<byte>)
    requires BothWellFormed(ts) && Ok(ts, m) && at + n <= |chunks|
    requires out + ring == was + EncodeAll(ChunksRun(ts, m, chunks[..at]).1)
    requires var m1 := ChunksRun(ts, m, chunks[..at]).0;
             data + ring' == ring + EncodeAll(ChunksRun(ts, m1, chunks[at..][..n]).1)
    ensures var m1 := ChunksRun(ts, m, chunks[..at]).0;
            ChunksRun(ts, m, chunks[..at + n]).0 == ChunksRun(ts, m1, chunks[at..][..n]).0
    ensures out + data + ring' == was + EncodeAll(ChunksRun(ts, m, chunks[..at + n]).1)
  {
    var (m1, rs1) := ChunksRun(ts, m, chunks[..at]);
    var rs2 := ChunksRun(ts, m1, chunks[at..][..n]).1;
    CutMore(chunks, at, n);
    ChunksSplit(ts, m, chunks[..at], chunks[at..][..n]);
    EncodeAllAppend(rs1, rs2);
    BytesMore(out, ring, data, ring', was, EncodeAll(rs1), EncodeAll(rs2));
  }

  lemma BytesMore(out: seq<byte>, ring: seq<byte>, data: seq<byte>, ring': seq<byte>,
                  was: seq<byte>, e1: seq<byte>, e2: seq<byte>)
    requires out + ring == was + e1 && data + ring' == ring + e2
    ensures out + data + ring' == was + (e1 + e2)
  {
    assert out + data + ring' == out + (data + ring');
    assert out + (ring + e2) == out + ring + e2;
    assert was + e1 + e2 == was + (e1 + e2);
  }

  lemma CutMore(chunks: seq<Chunk>, at: nat, n: nat)
    requires at + n <= |chunks|
    ensures chunks[..at + n] == chunks[..at] + chunks[at..][..n]
    ensures EndsFile(chunks[..at + n]) <==> if n == 0 then EndsFile(chunks[..at]) else EndsFile(chunks[at..][..n])
    ensures n == 0 ==> !EndsFile(chunks[at..][..n])
  {
  }

  /** Every block brings a byte at least, until the document is finished. */
  ghost predicate Progress(fax: FaxConversion, sizes: seq<nat>, i: nat, out: seq<byte>)
    requires i <= |sizes|
    reads fax
  {
    fax.finishedFaxFile > 1 || ((forall k :: 0 <= k < i ==> sizes[k] > 0) ==> |out| >= i)
  }

  method SendBlocks(fax: FaxConversion, chunks: seq<Chunk>, sizes: seq<nat>, ghost m: Machine, ghost was: seq<byte>)
    returns (out: seq<byte>, at: nat)
    requires BothWellFormed(fax.sffFilter.trees) && Ok(fax.sffFilter.trees, m)
    requires ChunksLines(fax.sffFilter.trees, m, chunks) && ChunksFit(fax.sffFilter.trees, m, chunks)
    requires Underway(fax, m, was, chunks, 0, [])
    modifies fax, fax.sffFilter, fax.sffFilter.queue, fax.sffFilter.queue.qdata, fax.sffFilter.auxBuff
    ensures at <= |chunks| && Underway(fax, m, was, chunks, at, out)
    ensures EndsFile(chunks) ==> Progress(fax, sizes, |sizes|, out)
  {
    out, at := [], 0;
    var i := 0;
    while i < |sizes|
      invariant 0 <= i <= |sizes| && at <= |chunks|
      invariant Underway(fax, m, was, chunks, at, out)
      invariant EndsFile(chunks) ==> Progress(fax, sizes, i, out)
    {
      at, out := SendBlock(fax, chunks, at, out, sizes[i], m, was);
      assert at == |chunks| ==> chunks[..at] == chunks;
      i := i + 1;
    }
  }

  /** The first chunks give no more than all of them. */
  lemma FirstGiveLess(ts: Trees, m: Machine, chunks: seq<Chunk>, at: nat)
    requires BothWellFormed(ts) && Ok(ts, m) && at <= |chunks|
    ensures |EncodeAll(ChunksRun(ts, m, chunks[..at]).1)| <= |EncodeAll(ChunksRun(ts, m, chunks).1)|
  {
    assert chunks == chunks[..at] + chunks[at..];
    ChunksSplit(ts, m, chunks[..at], chunks[at..]);
    var (m1, rs1) := ChunksRun(ts, m, chunks[..at]);
    EncodeAllAppend(rs1, ChunksRun(ts, m1, chunks[at..]).1);
  }

  lemma NoMoreThanAll(ts: Trees, m: Machine, was: seq<byte>, chunks: seq<Chunk>, at: nat, out: seq<byte>,
                      ring: seq<byte>)
    requires BothWellFormed(ts) && Ok(ts, m) && at <= |chunks|
    requires out + ring == was + EncodeAll(ChunksRun(ts, m, chunks[..at]).1)
    ensures |out| <= |was| + |EncodeAll(ChunksRun(ts, m, chunks).1)|
  {
    FirstGiveLess(ts, m, chunks, at);
    assert |out| + |ring| == |was| + |EncodeAll(ChunksRun(ts, m, chunks[..at]).1)| by {
      assert |out + ring| == |out| + |ring|;
    }
  }

  /** Blocks of some size each, more of them than bytes. */
  predicate EnoughBlocks(sizes: seq<nat>, bytes: nat) {
    |sizes| > bytes && forall k :: 0 <= k < |sizes| ==> sizes[k] > 0
  }

  lemma EnoughEnds(fax: FaxConversion, m: Machine, was: seq<byte>, chunks: seq<Chunk>, at: nat, out: seq<byte>,
                   sizes: seq<nat>)
    requires BothWellFormed(fax.sffFilter.trees) && Ok(fax.sffFilter.trees, m)
    requires fax.Sent(m, was, chunks, at, out) && Progress(fax, sizes, |sizes|, out)
    ensures EnoughBlocks(sizes, |was + EncodeAll(ChunksRun(fax.sffFilter.trees, m, chunks).1)|) ==>
              fax.finishedFaxFile > 1
  {
    NoMoreThanAll(fax.sffFilter.trees, m, was, chunks, at, out, fax.sffFilter.Contents());
  }

  lemma SentWhole(ts: Trees, m: Machine, chunks: seq<Chunk>, at: nat, out: seq<byte>)
    requires BothWellFormed(ts) && Ok(ts, m) && at <= |chunks| && ChunksLines(ts, m, chunks)
    requires out + [] == FILEHEADER + EncodeAll(ChunksRun(ts, m, chunks[..at]).1)
    ensures out == FILEHEADER + EncodeAll(ChunksRun(ts, m, chunks[..at]).1)
    ensures ReadFile(out) == Some(ChunksRun(ts, m, chunks[..at]).1)
  {
    FirstAreFramed(ts, m, chunks, at);
    FileReadsBack(ChunksRun(ts, m, chunks[..at]).1);
    assert out + [] == out;
  }

  lemma FirstAreFramed(ts: Trees, m: Machine, chunks: seq<Chunk>, at: nat)
    requires BothWellFormed(ts) && Ok(ts, m) && at <= |chunks| && ChunksLines(ts, m, chunks)
    ensures AllFramed(ChunksRun(ts, m, chunks[..at]).1)
  {
    assert chunks == chunks[..at] + chunks[at..];
    ChunksSplit(ts, m, chunks[..at], chunks[at..]);
    ChunksAreFramed(ts, m, chunks[..at]);
  }

  /** Send a document in blocks of at most the given sizes.  Once the conversion reports the end, the blocks
      make up a file from which a reader gets the records of all chunks taken, in order; and if the last file ends,
      it reports the end after no more blocks than the file has bytes, and one. */
  method SendDocument(fax: FaxConversion, vRes: nat, chunks: seq<Chunk>, sizes: seq<nat>)
    returns (out: seq<byte>, at: nat)
    requires fax.sffFilter.InBounds() && BothWellFormed(fax.sffFilter.trees)
    requires (OpenedIsOk(fax.sffFilter.trees, vRes);
              && ChunksLines(fax.sffFilter.trees, Opened(vRes), chunks)
              && ChunksFit(fax.sffFilter.trees, Opened(vRes), chunks))
    modifies fax, fax.sffFilter, fax.sffFilter.queue, fax.sffFilter.queue.qdata, fax.sffFilter.auxBuff
    ensures at <= |chunks| && Ok(fax.sffFilter.trees, Opened(vRes))
    ensures fax.finishedFaxFile > 1 ==>
              && EndsFile(chunks[..at])
              && out == FileOf(fax.sffFilter.trees, vRes, chunks[..at])
              && ReadFile(out) == Some(ChunksRun(fax.sffFilter.trees, Opened(vRes), chunks[..at]).1)
    ensures EndsFile(chunks) && EnoughBlocks(sizes, |FileOf(fax.sffFilter.trees, vRes, chunks)|) ==>
              fax.finishedFaxFile > 1
  {
    ghost var m, header := Opened(vRes), FILEHEADER;
    OpenedIsOk(fax.sffFilter.trees, vRes);
    fax.OpenSend(vRes);
    fax.SentNone(m, header, chunks);
    out, at := SendBlocks(fax, chunks, sizes, m, header);
    if EndsFile(chunks) {
      EnoughEnds(fax, m, header, chunks, at, out, sizes);
    }
    if fax.finishedFaxFile > 1 {
      SentWhole(fax.sffFilter.trees, m, chunks, at, out);
    }
  }

  // ---- a raw G3 file -------------------------------------------------------------------------

  /** A page is read in pieces, and with the last the reader reports its end. */
  function PageChunks(pieces: seq<seq<byte>>, rest: seq<byte>, info: Info): seq<Chunk> {
    if pieces == [] then [Chunk(rest, info)] else [Chunk(pieces[0], Okay)] + PageChunks(pieces[1..], rest, info)
  }

  function Joined(pieces: seq<seq<byte>>): seq<byte> {
    if pieces == [] then [] else pieces[0] + Joined(pieces[1..])
  }

  /** It does not matter into which pieces it is cut. */
  lemma {:induction false} PageRun(ts: Trees, m: Machine, pieces: seq<seq<byte>>, rest: seq<byte>, info: Info)
    requires BothWellFormed(ts) && Ok(ts, m)
    ensures var (m1, rs1) := Run(ts, m, Unpack(Joined(pieces) + rest));
            && ChunksRun(ts, m, PageChunks(pieces, rest, info)).0 == AfterInfo(m1, info).0
            && ChunksRun(ts, m, PageChunks(pieces, rest, info)).1 == rs1 + AfterInfo(m1, info).1
    decreases |pieces|
  {
    if pieces == [] {
      assert [] + rest == rest;
      OneChunk(ts, m, Chunk(rest, info));
    } else {
      var c, others := Chunk(pieces[0], Okay), PageChunks(pieces[1..], rest, info);
      var cs, bytes := PageChunks(pieces, rest, info), Joined(pieces[1..]) + rest;
      assert cs[0] == c && cs[1..] == others;
      assert Joined(pieces) + rest == pieces[0] + bytes;
      UnpackAppend(pieces[0], bytes);
      RunAppend(ts, m, Unpack(pieces[0]), Unpack(bytes));
      var (m1, rs1) := Run(ts, m, Unpack(pieces[0]));
      assert rs1 + [] == rs1;
      PageRun(ts, m1, pieces[1..], rest, info);
      var (m2, rs2) := Run(ts, m1, Unpack(bytes));
      assert rs1 + (rs2 + AfterInfo(m2, info).1) == rs1 + rs2 + AfterInfo(m2, info).1;
    }
  }

  /** A raw file is read in pieces, and then there is nothing more to read. */
  function G3Chunks(pieces: seq<seq<byte>>): seq<Chunk> {
    PageChunks(pieces, [], LastPageEnd)
  }

  /** It does not matter into which pieces the file is cut. */
  lemma PiecesDoNotMatter(ts: Trees, m: Machine, pieces: seq<seq<byte>>)
    requires BothWellFormed(ts) && Ok(ts, m)
    ensures ChunksRun(ts, m, G3Chunks(pieces)).1 == Run(ts, m, Unpack(Joined(pieces))).1 + [DocumentEnd]
  {
    PageRun(ts, m, pieces, [], LastPageEnd);
    assert Joined(pieces) + [] == Joined(pieces);
  }

  /** A raw G3 page, read in any pieces, becomes a file of one page start, one record for each of its lines
      in order and with its code bits, and the document's end. */
  lemma G3Document(ts: Trees, vres: nat, pieces: seq<seq<byte>>, n: nat, lines: seq<CodedLine>, pad: nat)
    requires BothWellFormed(ts) && AllLines(ts, lines) && n >= 11 && pad <= 10
    requires Unpack(Joined(pieces)) == PageStream(n, lines, pad)
    ensures Ok(ts, Opened(vres))
    ensures var rs := ChunksRun(ts, Opened(vres), G3Chunks(pieces)).1;
            && |rs| == |lines| + 2 && rs[0] == PageStart(vres % 256) && rs[|rs| - 1] == DocumentEnd
            && AreRecords(rs[1..|rs| - 1], lines)
            && (ChunksLines(ts, Opened(vres), G3Chunks(pieces)) ==>
                  ReadFile(FILEHEADER + EncodeAll(rs)) == Some(rs))
  {
    PageConverts(ts, vres, n, lines, pad);
    PiecesDoNotMatter(ts, Opened(vres), pieces);
    var page := Run(ts, Opened(vres), Unpack(Joined(pieces))).1;
    assert (page + [DocumentEnd])[1..|page|] == page[1..];
    var cs := G3Chunks(pieces);
    if ChunksLines(ts, Opened(vres), cs) {
      ChunksAreFramed(ts, Opened(vres), cs);
      FileReadsBack(ChunksRun(ts, Opened(vres), cs).1);
    }
  }
}

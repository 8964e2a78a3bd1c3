/** When a fax loses bytes: what keeps every page within the converter's ring, and pages that overflow it. */
module FaxRoom {
  import opened Bits
  import opened HufTree
  import opened SffStream
  import opened HufMachine
  import opened HufLine
  import opened HufPage
  import opened HufRoom
  import opened FaxFill
  import opened FaxDocument

  // ---- pages that lose nothing ---------------------------------------------------------------

  /** The most code bits of a line that never leaves too many bits pending. */
  const CODEBITS := PENDING - 10

  predicate ShortPieces(pieces: seq<seq<byte>>) {
    forall p | p in pieces :: |p| <= FAX_FILTER_BUFFER_SIZE
  }

  predicate ShortLines(lines: seq<CodedLine>) {
    forall l | l in lines :: |Flat(l.codes)| <= CODEBITS
  }

  /** A page in pieces, from where its bits stay within what may be pending. */
  lemma {:induction false} PageFits(ts: Trees, m: Machine, pieces: seq<seq<byte>>, rest: seq<byte>, info: Info)
    requires BothWellFormed(ts) && Ok(ts, m) && ShortPieces(pieces) && |rest| <= FAX_FILTER_BUFFER_SIZE
    requires Within(ts, m, Unpack(Joined(pieces) + rest), PENDING)
    ensures ChunksLines(ts, m, PageChunks(pieces, rest, info)) && ChunksFit(ts, m, PageChunks(pieces, rest, info))
    decreases |pieces|
  {
    WithinHeld(ts, m, Unpack(Joined(pieces) + rest), PENDING);
    if pieces == [] {
      assert [] + rest == rest;
      var c := Chunk(rest, info);
      assert [c][1..] == [];
      WithinFits(ts, m, Unpack(rest), PENDING);
      ChunkBound(ts, m, c);
    } else {
      var c, others := Chunk(pieces[0], Okay), PageChunks(pieces[1..], rest, info);
      var bytes := Joined(pieces[1..]) + rest;
      assert PageChunks(pieces, rest, info)[0] == c && PageChunks(pieces, rest, info)[1..] == others;
      assert Joined(pieces) + rest == pieces[0] + bytes;
      UnpackAppend(pieces[0], bytes);
      WithinAppend(ts, m, Unpack(pieces[0]), Unpack(bytes), PENDING);
      WithinFits(ts, m, Unpack(pieces[0]), PENDING);
      ChunkBound(ts, m, c);
      PageFits(ts, ChunkRun(ts, m, c).0, pieces[1..], rest, info);
    }
  }

  /** A raw page whose lines have at most CODEBITS code bits, read in pieces that fit the read buffer, neither
      overflows the line buffer nor loses a byte to a full ring. */
  lemma RawPageFits(ts: Trees, vres: nat, pieces: seq<seq<byte>>, n: nat, lines: seq<CodedLine>, pad: nat)
    requires BothWellFormed(ts) && AllLines(ts, lines) && n >= 11 && pad <= 10
    requires Unpack(Joined(pieces)) == PageStream(n, lines, pad) && ShortPieces(pieces) && ShortLines(lines)
    ensures Ok(ts, Opened(vres))
    ensures ChunksLines(ts, Opened(vres), G3Chunks(pieces)) && ChunksFit(ts, Opened(vres), G3Chunks(pieces))
  {
    PageWithin(ts, vres, n, lines, pad, PENDING);
    assert Joined(pieces) + [] == Joined(pieces);
    PageFits(ts, Opened(vres), pieces, [], LastPageEnd);
  }

  /** The document's end comes with the last chunk only. */
  lemma {:induction false} PageEndsAtLast(pieces: seq<seq<byte>>, rest: seq<byte>, info: Info, at: nat)
    requires at <= |PageChunks(pieces, rest, info)| && info != Okay
    ensures EndsFile(PageChunks(pieces, rest, info)[..at]) <==>
              info == LastPageEnd && at == |PageChunks(pieces, rest, info)|
    decreases |pieces|
  {
    var cs := PageChunks(pieces, rest, info);
    if pieces != [] && at > 0 {
      PageEndsAtLast(pieces[1..], rest, info, at - 1);
      assert cs[..at] == [cs[0]] + PageChunks(pieces[1..], rest, info)[..at - 1];
    }
  }

  /** The file of a page: its start, a record for each line with its code bits, and the document's end. */
  ghost predicate IsPageFile(file: seq<byte>, vres: nat, lines: seq<CodedLine>) {
    var r := ReadFile(file);
    && r.Some? && |r.value| == |lines| + 2
    && r.value[0] == PageStart(vres % 256) && r.value[|lines| + 1] == DocumentEnd
    && AreRecords(r.value[1..|lines| + 1], lines)
  }

  lemma PageFile(ts: Trees, vres: nat, pieces: seq<seq<byte>>, n: nat, lines: seq<CodedLine>, pad: nat)
    requires BothWellFormed(ts) && AllLines(ts, lines) && n >= 11 && pad <= 10
    requires Unpack(Joined(pieces)) == PageStream(n, lines, pad) && ShortPieces(pieces) && ShortLines(lines)
    ensures IsPageFile(FileOf(ts, vres, G3Chunks(pieces)), vres, lines)
  {
    RawPageFits(ts, vres, pieces, n, lines, pad);
    G3Document(ts, vres, pieces, n, lines, pad);
  }

  /** Send such a page.  After enough blocks it is finished, and then the blocks make up its file. */
  method SendRawPage(fax: FaxConversion, vRes: nat, pieces: seq<seq<byte>>, sizes: seq<nat>,
                     ghost n: nat, ghost lines: seq<CodedLine>, ghost pad: nat)
    returns (out: seq<byte>)
    requires fax.sffFilter.InBounds() && BothWellFormed(fax.sffFilter.trees)
    requires AllLines(fax.sffFilter.trees, lines) && n >= 11 && pad <= 10
    requires Unpack(Joined(pieces)) == PageStream(n, lines, pad) && ShortPieces(pieces) && ShortLines(lines)
    modifies fax, fax.sffFilter, fax.sffFilter.queue, fax.sffFilter.queue.qdata, fax.sffFilter.auxBuff
    ensures var file := FileOf(fax.sffFilter.trees, vRes, G3Chunks(pieces));
            && IsPageFile(file, vRes, lines)
            && (EnoughBlocks(sizes, |file|) ==> fax.finishedFaxFile > 1)
            && (fax.finishedFaxFile > 1 ==> out == file)
  {
    ghost var ts := fax.sffFilter.trees;
    RawPageFits(ts, vRes, pieces, n, lines, pad);
    var at;
    out, at := SendDocument(fax, vRes, G3Chunks(pieces), sizes);
    AtLast(pieces, at);
    PageFile(ts, vRes, pieces, n, lines, pad);
  }

  lemma AtLast(pieces: seq<seq<byte>>, at: nat)
    requires at <= |G3Chunks(pieces)|
    ensures EndsFile(G3Chunks(pieces))
    ensures EndsFile(G3Chunks(pieces)[..at]) ==> G3Chunks(pieces)[..at] == G3Chunks(pieces)
  {
    var cs := G3Chunks(pieces);
    PageEndsAtLast(pieces, [], LastPageEnd, at);
    PageEndsAtLast(pieces, [], LastPageEnd, |cs|);
    assert cs[..|cs|] == cs;
  }
}

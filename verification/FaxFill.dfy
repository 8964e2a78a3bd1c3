/** CBasicFaxConversion: topping up the converter's ring with chunks of fax data, and sending from it. */
module FaxFill {
  import opened Bits
  import opened Options
  import opened HufTree
  import opened SffStream
  import opened HufMachine
  import opened HufBound
  import opened HufRoom
  import opened DataQueue
  import opened Huf2Sff

  const FAX_FILTER_BUFFER_SIZE := 1000
  const CAPI_BUFFER_SIZE := 2048

  /** What the reader reports with a chunk: more of the page, its end, the end of a file that another
      one follows (with its resolution, if that is known), or the end of the last file. */
  datatype Info = Okay | PageEnd | NextFile(res: Option<nat>) | LastPageEnd

  datatype Chunk = Chunk(data: seq<byte>, info: Info)

  // ---- what a chunk means --------------------------------------------------------------------

  function AfterInfo(m: Machine, info: Info): (Machine, seq<SffRecord>) {
    match info
    case Okay => (m, [])
    case PageEnd => (m, [PageStart(m.vres % 256)])
    case NextFile(None) => (m, [PageStart(m.vres % 256)])
    case NextFile(Some(res)) => (m.(vres := res), [PageStart(res % 256)])
    case LastPageEnd => (m, [DocumentEnd])
  }

  ghost function ChunkRun(ts: Trees, m: Machine, c: Chunk): (r: (Machine, seq<SffRecord>))
    requires BothWellFormed(ts) && Ok(ts, m)
    ensures Ok(ts, r.0)
  {
    RunIsOk(ts, m, Unpack(c.data));
    var (m1, rs1) := Run(ts, m, Unpack(c.data));
    var (m2, rs2) := AfterInfo(m1, c.info);
    (m2, rs1 + rs2)
  }

  ghost function ChunksRun(ts: Trees, m: Machine, cs: seq<Chunk>): (r: (Machine, seq<SffRecord>))
    requires BothWellFormed(ts) && Ok(ts, m)
    ensures Ok(ts, r.0)
    decreases |cs|
  {
    if cs == [] then (m, [])
    else
      var (m1, rs1) := ChunkRun(ts, m, cs[0]);
      var (m2, rs2) := ChunksRun(ts, m1, cs[1..]);
      (m2, rs1 + rs2)
  }

  /** Few enough bits of a line are pending that any chunk has room in the half of the ring that is kept free. */
  predicate Headroom(m: Machine) {
    m.eolFound || Recorded(m) <= if m.lineValid then PENDING else 0
  }

  /** The lines of all chunks fit the line buffer. */
  ghost predicate ChunksLines(ts: Trees, m: Machine, cs: seq<Chunk>)
    requires BothWellFormed(ts) && Ok(ts, m)
    decreases |cs|
  {
    cs == [] || (LinesFit(ts, m, Unpack(cs[0].data)) && ChunksLines(ts, ChunkRun(ts, m, cs[0]).0, cs[1..]))
  }

  /** A chunk writes no more than the half of the ring that is kept free. */
  ghost predicate ChunkFits(ts: Trees, m: Machine, c: Chunk)
    requires BothWellFormed(ts) && Ok(ts, m)
  {
    |EncodeAll(ChunkRun(ts, m, c).1)| <= CAPI_BUFFER_SIZE
  }

  ghost predicate ChunksFit(ts: Trees, m: Machine, cs: seq<Chunk>)
    requires BothWellFormed(ts) && Ok(ts, m)
    decreases |cs|
  {
    cs == [] || (ChunkFits(ts, m, cs[0]) && ChunksFit(ts, ChunkRun(ts, m, cs[0]).0, cs[1..]))
  }

  /** Such a chunk, and no other, loses no byte whatever less than half a ring holds. */
  lemma LosesNothingExactly(ts: Trees, m: Machine, c: Chunk)
    requires BothWellFormed(ts) && Ok(ts, m)
    ensures var bytes := EncodeAll(ChunkRun(ts, m, c).1);
            ChunkFits(ts, m, c) <==>
            forall ring: seq<byte> | |ring| < CAPI_BUFFER_SIZE :: Offer(ring, bytes) == ring + bytes
  {
    var bytes, ring: seq<byte> := EncodeAll(ChunkRun(ts, m, c).1), seq(CAPI_BUFFER_SIZE - 1, _ => 0);
    assert Offer(ring, bytes) == ring + bytes <==> |bytes| <= CAPI_BUFFER_SIZE;
  }

  /** With headroom any chunk that the read buffer holds is one. */
  lemma ChunkBound(ts: Trees, m: Machine, c: Chunk)
    requires BothWellFormed(ts) && Ok(ts, m) && Headroom(m) && |c.data| <= FAX_FILTER_BUFFER_SIZE
    ensures ChunkFits(ts, m, c)
  {
    var bits := Unpack(c.data);
    var (m1, rs1) := Run(ts, m, bits);
    RunPages(ts, m, bits);
    EncodeAllAppend(rs1, AfterInfo(m1, c.info).1);
    InfoBound(m1, c.info);
    if m.lineValid {
      RoomForLines(ts, m, bits);
    } else {
      RunBound(ts, m, bits);
    }
  }

  lemma InfoBound(m: Machine, info: Info)
    ensures |EncodeAll(AfterInfo(m, info).1)| <= PAGEBYTES
  {
    var rs := AfterInfo(m, info).1;
    if rs != [] {
      EncodeOne(rs[0]);
    }
  }

  /** Taking chunks in two goes. */
  lemma {:induction false} ChunksSplit(ts: Trees, m: Machine, a: seq<Chunk>, b: seq<Chunk>)
    requires BothWellFormed(ts) && Ok(ts, m)
    ensures var (m1, rs1) := ChunksRun(ts, m, a);
            && ChunksRun(ts, m, a + b).0 == ChunksRun(ts, m1, b).0
            && ChunksRun(ts, m, a + b).1 == rs1 + ChunksRun(ts, m1, b).1
            && (ChunksLines(ts, m, a + b) <==> ChunksLines(ts, m, a) && ChunksLines(ts, m1, b))
            && (ChunksFit(ts, m, a + b) <==> ChunksFit(ts, m, a) && ChunksFit(ts, m1, b))
    decreases |a|
  {
    if a == [] {
      assert a + b == b;
    } else {
      var (m1, rs1) := ChunkRun(ts, m, a[0]);
      assert (a + b)[0] == a[0] && (a + b)[1..] == a[1..] + b;
      ChunksSplit(ts, m1, a[1..], b);
      var (m2, rs2) := ChunksRun(ts, m1, a[1..]);
      assert rs1 + (rs2 + ChunksRun(ts, m2, b).1) == rs1 + rs2 + ChunksRun(ts, m2, b).1;
    }
  }

  /** One chunk more. */
  lemma ChunksRunSnoc(ts: Trees, m: Machine, cs: seq<Chunk>, k: nat)
    requires BothWellFormed(ts) && Ok(ts, m) && k < |cs|
    ensures var (m1, rs1) := ChunksRun(ts, m, cs[..k]);
            && (ChunksLines(ts, m, cs) ==> LinesFit(ts, m1, Unpack(cs[k].data)))
            && (ChunksFit(ts, m, cs) ==> ChunkFits(ts, m1, cs[k]))
            && ChunksRun(ts, m, cs[..k + 1]).0 == ChunkRun(ts, m1, cs[k]).0
            && ChunksRun(ts, m, cs[..k + 1]).1 == rs1 + ChunkRun(ts, m1, cs[k]).1
  {
    assert cs == cs[..k] + cs[k..] && cs[k..][0] == cs[k] && cs[..k + 1] == cs[..k] + [cs[k]];
    ChunksSplit(ts, m, cs[..k], cs[k..]);
    ChunksSplit(ts, m, cs[..k], [cs[k]]);
    OneChunk(ts, ChunksRun(ts, m, cs[..k]).0, cs[k]);
  }

  lemma OneChunk(ts: Trees, m: Machine, c: Chunk)
    requires BothWellFormed(ts) && Ok(ts, m)
    ensures ChunksRun(ts, m, [c]) == ChunkRun(ts, m, c)
  {
    assert [c][1..] == [];
    assert ChunkRun(ts, m, c).1 + [] == ChunkRun(ts, m, c).1;
  }

  /** How many of the chunks end a page. */
  function Pages(cs: seq<Chunk>): nat {
    if cs == [] then 0 else Pages(cs[..|cs| - 1]) + if cs[|cs| - 1].info == Okay then 0 else 1
  }

  predicate EndsFile(cs: seq<Chunk>) {
    cs != [] && cs[|cs| - 1].info == LastPageEnd
  }

  /** `m_finishedFaxFile`: 0 while chunks come, 1 once the last file has ended, 2 once all is handed out. */
  function AfterHandOut(finished: nat, empty: bool): nat {
    if finished == 1 && empty then 2 else finished
  }

  function AfterSend(finished: nat, cs: seq<Chunk>, empty: bool): nat {
    AfterHandOut(if finished == 0 && EndsFile(cs) then 1 else finished, empty)
  }

  class FaxConversion {
    const sffFilter: Filter
    var pageCount: nat
    var finishedFaxFile: nat

    constructor (filter: Filter)
      ensures sffFilter == filter && pageCount == 0 && finishedFaxFile == 0
    {
      sffFilter, pageCount, finishedFaxFile := filter, 0, 0;
    }

    /** Hand a chunk's bytes to the converter. */
    method PutChunk(data: seq<byte>)
      requires sffFilter.Valid() && LinesFit(sffFilter.trees, sffFilter.State(), Unpack(data))
      modifies sffFilter, sffFilter.queue`qwrite, sffFilter.queue.qdata, sffFilter.auxBuff
      ensures sffFilter.Valid()
      ensures sffFilter.State() == Run(sffFilter.trees, old(sffFilter.State()), Unpack(data)).0
      ensures sffFilter.Contents() == Offer(old(sffFilter.Contents()),
                EncodeAll(Run(sffFilter.trees, old(sffFilter.State()), Unpack(data)).1))
    {
      ghost var ts, was, m := sffFilter.trees, sffFilter.Contents(), sffFilter.State();
      var i := 0;
      while i < |data|
        invariant 0 <= i <= |data| && sffFilter.Valid()
        invariant LinesFit(ts, sffFilter.State(), Unpack(data[i..]))
        invariant sffFilter.State() == Run(ts, m, Unpack(data[..i])).0
        invariant sffFilter.Contents() == Offer(was, EncodeAll(Run(ts, m, Unpack(data[..i])).1))
      {
        ghost var m1, bits := sffFilter.State(), BitsOf(data[i], 8);
        ghost var rs := Run(ts, m, Unpack(data[..i])).1;
        ByteSplit(data, i);
        LinesFitSplit(ts, m1, bits, Unpack(data[i + 1..]));
        RunAppend(ts, m, Unpack(data[..i]), bits);
        OfferAppend(was, EncodeAll(rs), EncodeAll(Run(ts, m1, bits).1));
        EncodeAllAppend(rs, Run(ts, m1, bits).1);
        sffFilter.PutChar(data[i]);
        i := i + 1;
      }
      assert data[..|data|] == data;
    }

    /** Convert one chunk and act on what came with it. */
    method TakeChunk(c: Chunk)
      requires sffFilter.Valid() && LinesFit(sffFilter.trees, sffFilter.State(), Unpack(c.data))
      modifies this, sffFilter, sffFilter.queue`qwrite, sffFilter.queue.qdata, sffFilter.auxBuff
      ensures sffFilter.Valid()
      ensures sffFilter.State() == ChunkRun(sffFilter.trees, old(sffFilter.State()), c).0
      ensures sffFilter.Contents() == Offer(old(sffFilter.Contents()),
                EncodeAll(ChunkRun(sffFilter.trees, old(sffFilter.State()), c).1))
      ensures pageCount == old(pageCount) + if c.info == Okay then 0 else 1
      ensures finishedFaxFile == old(finishedFaxFile) + if c.info == LastPageEnd then 1 else 0
    {
      ghost var ts, was, m := sffFilter.trees, sffFilter.Contents(), sffFilter.State();
      PutChunk(c.data);
      ghost var (m1, rs1) := Run(ts, m, Unpack(c.data));
      ghost var rs2 := AfterInfo(m1, c.info).1;
      FinishChunk(c.info);
      OfferAppend(was, EncodeAll(rs1), EncodeAll(rs2));
      EncodeAllAppend(rs1, rs2);
    }

    /** The converter after some chunks: its state, and what the ring took of the bytes written. */
    ghost predicate Holds(m: Machine, was: seq<byte>, cs: seq<Chunk>)
      requires BothWellFormed(sffFilter.trees) && Ok(sffFilter.trees, m) && |was| < QUEUESIZE
      reads sffFilter, sffFilter.queue, sffFilter.queue.qdata, sffFilter.auxBuff
    {
      && sffFilter.Valid()
      && sffFilter.State() == ChunksRun(sffFilter.trees, m, cs).0
      && sffFilter.Contents() == Offer(was, EncodeAll(ChunksRun(sffFilter.trees, m, cs).1))
    }

    /** Every byte written since `was` is in the ring. */
    ghost predicate Complete(m: Machine, was: seq<byte>, cs: seq<Chunk>)
      requires BothWellFormed(sffFilter.trees) && Ok(sffFilter.trees, m)
      reads sffFilter, sffFilter.queue, sffFilter.queue.qdata
    {
      && sffFilter.InBounds()
      && sffFilter.Contents() == was + EncodeAll(ChunksRun(sffFilter.trees, m, cs).1)
    }

    /** The first `n` of the chunks are taken; if they all fit, no byte is lost. */
    ghost predicate Taken(m: Machine, was: seq<byte>, chunks: seq<Chunk>, n: nat)
      requires BothWellFormed(sffFilter.trees) && Ok(sffFilter.trees, m) && |was| < QUEUESIZE
      reads sffFilter, sffFilter.queue, sffFilter.queue.qdata, sffFilter.auxBuff
    {
      && n <= |chunks| && Holds(m, was, chunks[..n])
      && (ChunksFit(sffFilter.trees, m, chunks) ==> Complete(m, was, chunks[..n]))
    }

    method TakeNext(chunks: seq<Chunk>, n: nat, ghost m: Machine, ghost was: seq<byte>)
      requires BothWellFormed(sffFilter.trees) && Ok(sffFilter.trees, m) && n < |chunks| && |was| < QUEUESIZE
      requires ChunksLines(sffFilter.trees, m, chunks) && Taken(m, was, chunks, n)
      requires |sffFilter.Contents()| < CAPI_BUFFER_SIZE
      modifies this, sffFilter, sffFilter.queue`qwrite, sffFilter.queue.qdata, sffFilter.auxBuff
      ensures Taken(m, was, chunks, n + 1)
      ensures finishedFaxFile == old(finishedFaxFile) + if chunks[n].info == LastPageEnd then 1 else 0
      ensures pageCount == old(pageCount) + if chunks[n].info == Okay then 0 else 1
    {
      ghost var ts, m1, ring := sffFilter.trees, sffFilter.State(), sffFilter.Contents();
      ghost var rs := ChunksRun(ts, m, chunks[..n]).1;
      ghost var more := ChunkRun(ts, m1, chunks[n]).1;
      ChunksRunSnoc(ts, m, chunks, n);
      TakeChunk(chunks[n]);
      OfferMore(was, rs, more);
      if ChunksFit(ts, m, chunks) {
        EncodeMore(was, rs, more);
      }
    }

    lemma TakenNone(m: Machine, was: seq<byte>, chunks: seq<Chunk>)
      requires sffFilter.Valid() && m == sffFilter.State() && was == sffFilter.Contents()
      ensures Taken(m, was, chunks, 0)
    {
      assert chunks[..0] == [] && was + [] == was;
    }

    /** The pages counted since there were `pages`, and whether the last file has ended. */
    predicate Counted(pages: nat, cs: seq<Chunk>)
      reads this
    {
      pageCount == pages + Pages(cs) && finishedFaxFile == if EndsFile(cs) then 1 else 0
    }

    /** One round of the loop. */
    method ReadNext(chunks: seq<Chunk>, n: nat, ghost m: Machine, ghost was: seq<byte>, ghost pages: nat)
      returns (size: nat)
      requires BothWellFormed(sffFilter.trees) && Ok(sffFilter.trees, m) && n < |chunks| && |was| < QUEUESIZE
      requires ChunksLines(sffFilter.trees, m, chunks) && Taken(m, was, chunks, n)
      requires |sffFilter.Contents()| < CAPI_BUFFER_SIZE && Counted(pages, chunks[..n]) && finishedFaxFile == 0
      modifies this, sffFilter, sffFilter.queue`qwrite, sffFilter.queue.qdata, sffFilter.auxBuff
      ensures Taken(m, was, chunks, n + 1) && Counted(pages, chunks[..n + 1])
      ensures finishedFaxFile > 0 <==> chunks[n].info == LastPageEnd
      ensures size == |sffFilter.Contents()|
    {
      PagesMore(chunks, n);
      TakeNext(chunks, n, m, was);
      size := sffFilter.queue.Fill();
    }

    method FillUp(chunks: seq<Chunk>) returns (n: nat)
      requires sffFilter.Valid() && ChunksLines(sffFilter.trees, sffFilter.State(), chunks)
      requires finishedFaxFile == 0
      modifies this, sffFilter, sffFilter.queue`qwrite, sffFilter.queue.qdata, sffFilter.auxBuff
      ensures Taken(old(sffFilter.State()), old(sffFilter.Contents()), chunks, n)
      ensures |sffFilter.Contents()| >= CAPI_BUFFER_SIZE || finishedFaxFile > 0 || n == |chunks|
      ensures Counted(old(pageCount), chunks[..n])
    {
      n := 0;
      ghost var was, m, pages := sffFilter.Contents(), sffFilter.State(), pageCount;
      TakenNone(m, was, chunks);
      var size := sffFilter.queue.Fill();
      while size < CAPI_BUFFER_SIZE && n < |chunks|
        invariant n <= |chunks| && Taken(m, was, chunks, n)
        invariant size == |sffFilter.Contents()| && Counted(pages, chunks[..n]) && finishedFaxFile == 0
        decreases |chunks| - n
      {
        size := ReadNext(chunks, n, m, was, pages);
        n := n + 1;
        if chunks[n - 1].info == LastPageEnd {
          return;
        }
      }
    }

    /** Read chunks until half the ring is filled or the last file ends; chunks that fit lose no byte. */
    method FillSffFilter(chunks: seq<Chunk>) returns (n: nat)
      requires sffFilter.Valid() && ChunksLines(sffFilter.trees, sffFilter.State(), chunks)
      modifies this, sffFilter, sffFilter.queue`qwrite, sffFilter.queue.qdata, sffFilter.auxBuff
      ensures Taken(old(sffFilter.State()), old(sffFilter.Contents()), chunks, n)
      ensures |sffFilter.Contents()| >= CAPI_BUFFER_SIZE || finishedFaxFile > 0 || n == |chunks|
      ensures if old(finishedFaxFile) > 0 then
                n == 0 && finishedFaxFile == old(finishedFaxFile) && pageCount == old(pageCount)
              else Counted(old(pageCount), chunks[..n])
    {
      n := 0;
      if finishedFaxFile > 0 {
        TakenNone(sffFilter.State(), sffFilter.Contents(), chunks);
      } else {
        n := FillUp(chunks);
      }
    }

    /** The start of a document. */
    method OpenSend(vRes: nat)
      requires sffFilter.InBounds() && BothWellFormed(sffFilter.trees)
      modifies this, sffFilter, sffFilter.queue, sffFilter.queue.qdata
      ensures sffFilter.Valid() && sffFilter.State() == Opened(vRes) && sffFilter.Contents() == FILEHEADER
      ensures pageCount == 0 && finishedFaxFile == 0
    {
      finishedFaxFile, pageCount := 0, 0;
      sffFilter.Open(vRes);
    }

    /** The first `n` of the chunks are taken, and `data` was handed out since the ring held `was`. */
    ghost predicate Sent(m: Machine, was: seq<byte>, chunks: seq<Chunk>, n: nat, data: seq<byte>)
      requires BothWellFormed(sffFilter.trees) && Ok(sffFilter.trees, m)
      reads sffFilter, sffFilter.queue, sffFilter.queue.qdata, sffFilter.auxBuff
    {
      && n <= |chunks| && sffFilter.Valid()
      && sffFilter.State() == ChunksRun(sffFilter.trees, m, chunks[..n]).0
      && data + sffFilter.Contents() == was + EncodeAll(ChunksRun(sffFilter.trees, m, chunks[..n]).1)
    }

    /** Hand out up to `maxLen` bytes; with the last of them the document is finished. */
    method HandOut(maxLen: nat) returns (data: seq<byte>)
      requires sffFilter.Valid()
      modifies this`finishedFaxFile, sffFilter.queue`qread
      ensures sffFilter.Valid() && sffFilter.State() == old(sffFilter.State())
      ensures data + sffFilter.Contents() == old(sffFilter.Contents()) && |data| <= maxLen
      ensures maxLen > 0 ==> (data == [] <==> old(sffFilter.Contents()) == [])
      ensures finishedFaxFile == AfterHandOut(old(finishedFaxFile), sffFilter.Contents() == [])
    {
      data := [];
      var size := sffFilter.queue.Fill();
      if size > 0 {
        data := sffFilter.queue.Get(maxLen);
      }
      size := sffFilter.queue.Fill();
      if finishedFaxFile == 1 && size == 0 {
        finishedFaxFile := 2;
      }
    }

    /** Top up the ring and hand out up to `maxLen` bytes from it: the oldest that waited, and then what the ring took
        of the records of the chunks read now. */
    method SendSFF(chunks: seq<Chunk>, maxLen: nat) returns (n: nat, data: seq<byte>)
      requires sffFilter.Valid() && ChunksLines(sffFilter.trees, sffFilter.State(), chunks)
      modifies this, sffFilter, sffFilter.queue, sffFilter.queue.qdata, sffFilter.auxBuff
      ensures sffFilter.Valid() && n <= |chunks| && |data| <= maxLen
      ensures sffFilter.State() == ChunksRun(sffFilter.trees, old(sffFilter.State()), chunks[..n]).0
      ensures data + sffFilter.Contents() == Offer(old(sffFilter.Contents()),
                EncodeAll(ChunksRun(sffFilter.trees, old(sffFilter.State()), chunks[..n]).1))
      ensures ChunksFit(sffFilter.trees, old(sffFilter.State()), chunks) ==>
                Sent(old(sffFilter.State()), old(sffFilter.Contents()), chunks, n, data)
      ensures finishedFaxFile
           == AfterSend(old(finishedFaxFile), chunks[..n], sffFilter.Contents() == [])
      ensures old(finishedFaxFile) > 0 ==> n == 0
      ensures old(finishedFaxFile) > 1 ==> data == [] && sffFilter.Contents() == old(sffFilter.Contents())
      ensures maxLen > 0 && data == [] ==> finishedFaxFile > 1 || (n == |chunks| && finishedFaxFile == 0)
    {
      n, data := 0, [];
      ghost var was, m := sffFilter.Contents(), sffFilter.State();
      if finishedFaxFile < 2 {
        n := FillSffFilter(chunks);
        ghost var ring := sffFilter.Contents();
        data := HandOut(maxLen);
        assert data + sffFilter.Contents() == ring;
      } else {
        SentNone(m, was, chunks);
      }
    }

    lemma SentNone(m: Machine, was: seq<byte>, chunks: seq<Chunk>)
      requires sffFilter.Valid() && m == sffFilter.State() && was == sffFilter.Contents()
      ensures Sent(m, was, chunks, 0, [])
      ensures [] + was == Offer(was, EncodeAll(ChunksRun(sffFilter.trees, m, chunks[..0]).1))
    {
      assert chunks[..0] == [] && was + [] == was && [] + was == was;
    }

    method StartPage()
      requires sffFilter.Valid()
      modifies this`pageCount, sffFilter.queue`qwrite, sffFilter.queue.qdata
      ensures sffFilter.Valid() && sffFilter.State() == old(sffFilter.State())
      ensures sffFilter.Contents()
           == Offer(old(sffFilter.Contents()), EncodeAll([PageStart(sffFilter.State().vres % 256)]))
      ensures pageCount == old(pageCount) + 1
    {
      pageCount := pageCount + 1;
      sffFilter.PutPageHeader(false);
      EncodeOne(PageStart(sffFilter.defaultVRes % 256));
    }

    /** Act on what the reader reported with a chunk. */
    method FinishChunk(info: Info)
      requires sffFilter.Valid()
      modifies this, sffFilter`defaultVRes, sffFilter.queue`qwrite, sffFilter.queue.qdata
      ensures sffFilter.Valid()
      ensures sffFilter.State() == AfterInfo(old(sffFilter.State()), info).0
      ensures sffFilter.Contents()
           == Offer(old(sffFilter.Contents()), EncodeAll(AfterInfo(old(sffFilter.State()), info).1))
      ensures pageCount == old(pageCount) + if info == Okay then 0 else 1
      ensures finishedFaxFile == old(finishedFaxFile) + if info == LastPageEnd then 1 else 0
    {
      match info
      case Okay =>
      case PageEnd => StartPage();
      case NextFile(res) =>
        if res.Some? {
          sffFilter.SetVRes(res.value);
        }
        StartPage();
      case LastPageEnd =>
        pageCount := pageCount + 1;
        sffFilter.PutPageHeader(true);
        EncodeOne(DocumentEnd);
        finishedFaxFile := finishedFaxFile + 1;
    }
  }

  lemma PagesMore(cs: seq<Chunk>, n: nat)
    requires n < |cs|
    ensures Pages(cs[..n + 1]) == Pages(cs[..n]) + if cs[n].info == Okay then 0 else 1
    ensures EndsFile(cs[..n + 1]) <==> cs[n].info == LastPageEnd
  {
    assert cs[..n + 1][..n] == cs[..n];
  }

  lemma OfferMore(was: seq<byte>, rs: seq<SffRecord>, more: seq<SffRecord>)
    requires |was| < QUEUESIZE
    ensures Offer(Offer(was, EncodeAll(rs)), EncodeAll(more)) == Offer(was, EncodeAll(rs + more))
  {
    OfferAppend(was, EncodeAll(rs), EncodeAll(more));
    EncodeAllAppend(rs, more);
  }

  lemma EncodeMore(was: seq<byte>, rs: seq<SffRecord>, more: seq<SffRecord>)
    ensures was + EncodeAll(rs) + EncodeAll(more) == was + EncodeAll(rs + more)
  {
    EncodeAllAppend(rs, more);
  }

  lemma ByteSplit(data: seq<byte>, i: nat)
    requires i < |data|
    ensures Unpack(data[i..]) == BitsOf(data[i], 8) + Unpack(data[i + 1..])
    ensures Unpack(data[..i + 1]) == Unpack(data[..i]) + BitsOf(data[i], 8)
  {
    assert data[i..][1..] == data[i + 1..];
    assert data[..i + 1] == data[..i] + [data[i]];
    UnpackFull(data[..i], data[i]);
    assert Shifted(data[i], 8) == BitsOf(data[i], 8);
  }
}

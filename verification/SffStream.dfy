/** Structured fax files: the records the converter writes and a reader that splits them again. */
module SffStream {
  import opened Bits
  import opened Options
  import opened Sequences

  /** A coded line, the start of a page with its vertical resolution, or the end of the document. */
  datatype SffRecord = Line(data: seq<byte>) | PageStart(vres: byte) | DocumentEnd

  const MAXSHORT := 216
  const PAGE := 254

  /** SFF_HEADER: "Sfff", version 1, page offset 28, "(c) AVM ". */
  const FILEHEADER: seq<byte> := [
    0x53, 0x66, 0x66, 0x66, 1, 0, 0, 0, 0, 0, 28, 0, 0, 0, 0, 0, 0, 0, 0, 0,
    0x28, 0x63, 0x29, 0x20, 0x41, 0x56, 0x4D, 0x20]

  /** SFF_PAGE: resolution, coding and a line width of 1728 dots. */
  function PageHeader(vres: byte): seq<byte> {
    [vres, 0, 0, 0, 0xC0, 0x06, 0, 0, 0, 0, 0, 0, 0, 0, 0, 0]
  }

  function LinePrefix(len: nat): seq<byte> {
    if len > MAXSHORT then [0, len % 256, len / 256 % 256] else [len]
  }

  function Encode(r: SffRecord): seq<byte> {
    match r
    case Line(data) => LinePrefix(|data|) + data
    case PageStart(vres) => [PAGE, 16] + PageHeader(vres)
    case DocumentEnd => [PAGE, 0]
  }

  function EncodeAll(rs: seq<SffRecord>): seq<byte> {
    if rs == [] then [] else Encode(rs[0]) + EncodeAll(rs[1..])
  }

  /** A line must hold a byte, or its length would read as an escape, and at most a word's worth. */
  predicate Framed(r: SffRecord) {
    r.Line? ==> 1 <= |r.data| < 0x1_0000
  }

  predicate AllFramed(rs: seq<SffRecord>) {
    forall r | r in rs :: Framed(r)
  }

  /** A page start says standard horizontal resolution, Modified Huffman coding and lines of 1728 dots. */
  predicate IsPageHeader(s: seq<byte>)
    requires |s| >= 18
  {
    s[3] == 0 && s[4] == 0 && s[6] as int + 256 * (s[7] as int) == 1728
  }

  /** The first record of a stream, and how many bytes it takes. */
  function ReadOne(s: seq<byte>): (r: Option<(SffRecord, nat)>)
    ensures r.Some? ==> 0 < r.value.1 <= |s|
  {
    if |s| < 2 then None
    else if s[0] == PAGE then
      if s[1] == 0 then Some((DocumentEnd, 2))
      else if s[1] == 16 && |s| >= 18 && IsPageHeader(s) then Some((PageStart(s[2]), 18))
      else None
    else if s[0] == 0 then
      if |s| < 3 then None
      else
        var len := s[1] as int + 256 * (s[2] as int);
        if |s| < 3 + len then None else Some((Line(s[3..3 + len]), 3 + len))
    else if s[0] <= MAXSHORT && |s| >= 1 + s[0] then Some((Line(s[1..1 + s[0]]), 1 + s[0]))
    else None
  }

  function Read(s: seq<byte>): Option<seq<SffRecord>> {
    if s == [] then Some([])
    else
      match ReadOne(s)
      case None => None
      case Some((r, n)) =>
        match Read(s[n..])
        case None => None
        case Some(rs) => Some([r] + rs)
  }

  lemma ReadOneEncoded(r: SffRecord, rest: seq<byte>)
    requires Framed(r)
    ensures ReadOne(Encode(r) + rest) == Some((r, |Encode(r)|))
  {
    var s := Encode(r) + rest;
    match r
    case PageStart(_) =>
    case DocumentEnd =>
    case Line(data) =>
      var p := |LinePrefix(|data|)|;
      assert s[p..p + |data|] == data;
  }

  /** Framing is unambiguous: the reader gets back exactly the records written. */
  lemma {:induction false} ReadEncoded(rs: seq<SffRecord>)
    requires AllFramed(rs)
    ensures Read(EncodeAll(rs)) == Some(rs)
  {
    if rs != [] {
      var rest := EncodeAll(rs[1..]);
      ReadOneEncoded(rs[0], rest);
      assert (Encode(rs[0]) + rest)[|Encode(rs[0])|..] == rest;
      ReadEncoded(rs[1..]);
      assert rs == [rs[0]] + rs[1..];
    }
  }

  lemma {:induction false} EncodeAllAppend(a: seq<SffRecord>, b: seq<SffRecord>)
    ensures EncodeAll(a + b) == EncodeAll(a) + EncodeAll(b)
  {
    if a == [] {
      assert a + b == b;
    } else {
      assert (a + b)[0] == a[0] && (a + b)[1..] == a[1..] + b;
      EncodeAllAppend(a[1..], b);
      Regroup(Encode(a[0]), EncodeAll(a[1..]), EncodeAll(b));
    }
  }
}

/** The Ogg duration scan: it walks the pages of a byte buffer and answers the last granule position over the
    sample rate, and it inverts the page encoding of RFC 3533, section 6. */
module OggScan {
  import opened Options

  type Byte = b: nat | b < 256

  const MAGIC: seq<Byte> := [0x4F, 0x67, 0x67, 0x53]
  const VORBIS: seq<Byte> := [0x01, 0x76, 0x6F, 0x72, 0x62, 0x69, 0x73]
  const OPUS: seq<Byte> := [0x4F, 0x70, 0x75, 0x73, 0x48, 0x65, 0x61, 0x64]
  const HEADER_SIZE := 27
  const MAX_PAGES := 200_000
  const OPUS_RATE := 48_000

  /** The granule position of a page on which no packet ends. */
  const NO_GRANULE := 0xFFFF_FFFF_FFFF_FFFF

  /** Samples over samples per second. */
  datatype Duration = Duration(samples: nat, rate: nat)

  datatype Scan = Scan(lastGranule: Option<nat>, rate: Option<nat>, preSkip: nat, isOpus: bool, pages: nat)

  const START := Scan(None, None, 0, false, 0)

  function FromLittleEndian(bytes: seq<Byte>): nat {
    if bytes == [] then 0 else bytes[0] + 256 * FromLittleEndian(bytes[1..])
  }

  function Sum(lengths: seq<Byte>): nat {
    if lengths == [] then 0 else lengths[0] + Sum(lengths[1..])
  }

  predicate StartsWith(s: seq<Byte>, prefix: seq<Byte>) { |s| >= |prefix| && s[..|prefix|] == prefix }

  /** What the bytes at the start of `data` are to the scan. */
  datatype Read = NoPage | CutShort | Page(granule: nat, body: seq<Byte>, size: nat)

  function ReadPage(data: seq<Byte>): (r: Read)
    ensures r.Page? ==> HEADER_SIZE <= r.size <= |data|
  {
    if |data| < HEADER_SIZE || data[..4] != MAGIC then NoPage
    else
      var tableEnd := HEADER_SIZE + data[26];
      if tableEnd > |data| then NoPage
      else
        var end := tableEnd + Sum(data[HEADER_SIZE..tableEnd]);
        if end > |data| then CutShort
        else Page(FromLittleEndian(data[6..14]), data[tableEnd..end], end)
  }

  /** The first page's body may identify the codec. */
  function Identify(st: Scan, body: seq<Byte>): Scan {
    if StartsWith(body, VORBIS) && |body| >= 16 then st.(rate := Some(FromLittleEndian(body[12..16])))
    else if StartsWith(body, OPUS) && |body| >= 12 then
      st.(isOpus := true, preSkip := FromLittleEndian(body[10..12]), rate := Some(OPUS_RATE))
    else st
  }

  function Take(st: Scan, granule: nat, body: seq<Byte>): Scan {
    var identified := if st.pages == 0 then Identify(st, body) else st;
    identified.(lastGranule := if granule != NO_GRANULE then Some(granule) else st.lastGranule, pages := st.pages + 1)
  }

  function SaturatingSub(a: nat, b: nat): nat { if a < b then 0 else a - b }

  function Finish(st: Scan): Option<Duration> {
    if st.lastGranule.None? || st.rate.None? then None
    else
      var samples := if st.isOpus then SaturatingSub(st.lastGranule.value, st.preSkip) else st.lastGranule.value;
      Some(Duration(samples, st.rate.value))
  }

  function ScanPages(data: seq<Byte>, st: Scan): Option<Duration>
    decreases |data|
  {
    match ReadPage(data)
    case NoPage => Finish(st)
    case CutShort => None
    case Page(granule, body, size) =>
      var next := Take(st, granule, body);
      if next.pages > MAX_PAGES then Finish(next) else ScanPages(data[size..], next)
  }

  /** `ogg_duration_scan`: it terminates and never reads out of range. */
  method OggDurationScan(data: seq<Byte>) returns (duration: Option<Duration>)
    ensures duration == ScanPages(data, START)
  {
    var i, st := 0, START;
    assert data[0..] == data;
    ghost var goal := ScanPages(data, st);
    while i + HEADER_SIZE <= |data| && data[i..i + 4] == MAGIC
      invariant i <= |data|
      invariant ScanPages(data[i..], st) == goal
      decreases |data| - i
    {
      var granule := FromLittleEndian(data[i + 6..i + 14]);
      var tableEnd := i + HEADER_SIZE + data[i + 26];
      if tableEnd > |data| {
        ReadPageAt(data, i);
        return Finish(st);
      }
      var bodyEnd := tableEnd + Sum(data[i + HEADER_SIZE..tableEnd]);
      if bodyEnd > |data| {
        ReadPageAt(data, i);
        return None;
      }
      ScanPageAt(data, i, st, granule, tableEnd, bodyEnd);
      st := Take(st, granule, data[tableEnd..bodyEnd]);
      i := bodyEnd;
      if st.pages > MAX_PAGES { return Finish(st); }
    }
    ScanStopsAt(data, i, st);
    duration := Finish(st);
  }

  lemma ScanStopsAt(data: seq<Byte>, i: nat, st: Scan)
    requires i <= |data| && !(i + HEADER_SIZE <= |data| && data[i..i + 4] == MAGIC)
    ensures ScanPages(data[i..], st) == Finish(st)
  {
    if i + HEADER_SIZE <= |data| { assert data[i..][..4] == data[i..i + 4]; }
  }

  /** A whole page at index `i`: one turn of the walk. */
  lemma ScanPageAt(data: seq<Byte>, i: nat, st: Scan, granule: nat, tableEnd: nat, bodyEnd: nat)
    requires i + HEADER_SIZE <= |data| && data[i..i + 4] == MAGIC
    requires granule == FromLittleEndian(data[i + 6..i + 14]) && tableEnd == i + HEADER_SIZE + data[i + 26] <= |data|
    requires bodyEnd == tableEnd + Sum(data[i + HEADER_SIZE..tableEnd]) <= |data|
    ensures var next := Take(st, granule, data[tableEnd..bodyEnd]);
      ScanPages(data[i..], st) == if next.pages > MAX_PAGES then Finish(next) else ScanPages(data[bodyEnd..], next)
  {
    ReadPageAt(data, i);
  }

  /** Reading a page by index is reading the buffer from there on. */
  lemma ReadPageAt(data: seq<Byte>, i: nat)
    requires i + HEADER_SIZE <= |data| && data[i..i + 4] == MAGIC
    ensures var tableEnd := i + HEADER_SIZE + data[i + 26];
      ReadPage(data[i..]) ==
        if tableEnd > |data| then NoPage
        else
          var end := tableEnd + Sum(data[i + HEADER_SIZE..tableEnd]);
          if end > |data| then CutShort else Page(FromLittleEndian(data[i + 6..i + 14]), data[tableEnd..end], end - i)
    ensures ReadPage(data[i..]).Page? ==> data[i..][ReadPage(data[i..]).size..] == data[i + ReadPage(data[i..]).size..]
  {
    var rest := data[i..];
    var tableEnd := i + HEADER_SIZE + data[i + 26];
    assert rest[..4] == data[i..i + 4] && rest[6..14] == data[i + 6..i + 14] && rest[26] == data[i + 26];
    if tableEnd <= |data| {
      assert rest[HEADER_SIZE..tableEnd - i] == data[i + HEADER_SIZE..tableEnd];
      var end := tableEnd + Sum(data[i + HEADER_SIZE..tableEnd]);
      if end <= |data| { assert rest[tableEnd - i..end - i] == data[tableEnd..end]; }
    }
  }

  // ---- the encoding ---------------------------------------------------------------------------------

  function Power256(k: nat): nat { if k == 0 then 1 else 256 * Power256(k - 1) }

  function LittleEndian(n: nat, k: nat): (bytes: seq<Byte>)
    ensures |bytes| == k
  {
    if k == 0 then [] else [n % 256] + LittleEndian(n / 256, k - 1)
  }

  lemma {:induction false} LittleEndianRoundTrip(n: nat, k: nat)
    requires n < Power256(k)
    ensures FromLittleEndian(LittleEndian(n, k)) == n
  {
    if k > 0 { LittleEndianRoundTrip(n / 256, k - 1); }
  }

  /** A page: `lacing` is its segment table, and the other fields are opaque to the scan. */
  datatype OggPage = OggPage(
    version: Byte, headerType: Byte, granule: nat, serial: nat, sequence: nat, checksum: nat,
    lacing: seq<Byte>, body: seq<Byte>)

  predicate WellFormed(p: OggPage) {
    p.granule < Power256(8) && |p.lacing| < 256 && |p.body| == Sum(p.lacing)
  }

  function Header(p: OggPage): (bytes: seq<Byte>)
    requires WellFormed(p)
    ensures |bytes| == HEADER_SIZE
  {
    MAGIC + [p.version, p.headerType] + LittleEndian(p.granule, 8) + LittleEndian(p.serial, 4)
    + LittleEndian(p.sequence, 4) + LittleEndian(p.checksum, 4) + [|p.lacing|]
  }

  function Encode(p: OggPage): seq<Byte>
    requires WellFormed(p)
  {
    Header(p) + p.lacing + p.body
  }

  predicate AllWellFormed(pages: seq<OggPage>) { forall i :: 0 <= i < |pages| ==> WellFormed(pages[i]) }

  function EncodeAll(pages: seq<OggPage>): seq<Byte>
    requires AllWellFormed(pages)
  {
    if pages == [] then [] else Encode(pages[0]) + EncodeAll(pages[1..])
  }

  /** The identification headers: section 4.2.2 of the Vorbis I specification, section 5.1 of RFC 7845. */
  datatype Codec =
    | Vorbis(fixed: seq<Byte>, rate: nat, more: seq<Byte>)
    | Opus(version: Byte, channels: Byte, preSkip: nat, more: seq<Byte>)

  predicate ValidCodec(c: Codec) {
    match c
    case Vorbis(fixed, rate, _) => |fixed| == 5 && rate < Power256(4)
    case Opus(_, _, preSkip, _) => preSkip < Power256(2)
  }

  function CodecHeader(c: Codec): seq<Byte> {
    match c
    case Vorbis(fixed, rate, more) => VORBIS + fixed + LittleEndian(rate, 4) + more
    case Opus(version, channels, preSkip, more) => OPUS + [version, channels] + LittleEndian(preSkip, 2) + more
  }

  // ---- the scan inverts the encoding ----------------------------------------------------------------

  /** A body is as long as its segments together. */
  lemma {:induction false} SegmentsAddUp(lengths: seq<Byte>, more: seq<Byte>, b: Byte)
    ensures Sum([]) == 0 && Sum([b]) == b && Sum(lengths + more) == Sum(lengths) + Sum(more)
  {
    assert [b][1..] == [];
    if lengths == [] {
      assert lengths + more == more;
    } else {
      assert (lengths + more)[1..] == lengths[1..] + more;
      SegmentsAddUp(lengths[1..], more, b);
    }
  }

  function Ascii(text: string): seq<Byte>
    requires forall i :: 0 <= i < |text| ==> text[i] as int < 256
  {
    seq(|text|, i requires 0 <= i < |text| => text[i] as int)
  }

  /** The capture pattern and the codec headers as the specifications spell them; no granule position is the
      largest number of eight bytes. */
  lemma SpelledOut(p: OggPage, codec: Codec)
    requires WellFormed(p) && ValidCodec(codec)
    ensures Encode(p)[..4] == Ascii("OggS")
    ensures codec.Vorbis? ==> CodecHeader(codec)[..7] == [1] + Ascii("vorbis")
    ensures codec.Opus? ==> CodecHeader(codec)[..8] == Ascii("OpusHead")
    ensures NO_GRANULE + 1 == Power256(8)
  {
    assert Encode(p)[..4] == MAGIC;
    if codec.Vorbis? { assert CodecHeader(codec)[..7] == VORBIS; } else { assert CodecHeader(codec)[..8] == OPUS; }
  }

  lemma HeaderFields(p: OggPage)
    requires WellFormed(p)
    ensures var h := Header(p); h[..4] == MAGIC && FromLittleEndian(h[6..14]) == p.granule && h[26] == |p.lacing|
  {
    LittleEndianRoundTrip(p.granule, 8);
    assert Header(p)[6..14] == LittleEndian(p.granule, 8);
  }

  /** Reading an encoded page gives it back, whatever follows. */
  lemma ReadEncoded(p: OggPage, rest: seq<Byte>)
    requires WellFormed(p)
    ensures ReadPage(Encode(p) + rest) == Page(p.granule, p.body, |Encode(p)|)
    ensures (Encode(p) + rest)[|Encode(p)|..] == rest
  {
    HeaderFields(p);
    var data := Encode(p) + rest;
    var tableEnd := HEADER_SIZE + |p.lacing|;
    assert data[..HEADER_SIZE] == Header(p);
    assert data[..4] == Header(p)[..4] && data[6..14] == Header(p)[6..14] && data[26] == Header(p)[26];
    assert data[HEADER_SIZE..tableEnd] == p.lacing;
    assert data[tableEnd..tableEnd + |p.body|] == p.body;
  }

  /** What is left when the scan stops for good: too short for a page, or no page magic, or a segment table
      that runs past the end. */
  predicate IsTail(tail: seq<Byte>) { ReadPage(tail).NoPage? }

  /** The scan's state after pages, up to the page limit. */
  function TakeAll(st: Scan, pages: seq<OggPage>): Scan
    decreases |pages|
  {
    if pages == [] then st
    else
      var next := Take(st, pages[0].granule, pages[0].body);
      if next.pages > MAX_PAGES then next else TakeAll(next, pages[1..])
  }

  lemma {:induction false} ScanEncoded(pages: seq<OggPage>, tail: seq<Byte>, st: Scan)
    requires AllWellFormed(pages) && IsTail(tail)
    ensures ScanPages(EncodeAll(pages) + tail, st) == Finish(TakeAll(st, pages))
  {
    if pages == [] {
      assert EncodeAll(pages) + tail == tail;
    } else {
      var rest := EncodeAll(pages[1..]) + tail;
      assert EncodeAll(pages) + tail == Encode(pages[0]) + rest;
      ReadEncoded(pages[0], rest);
      ScanEncoded(pages[1..], tail, Take(st, pages[0].granule, pages[0].body));
    }
  }

  /** The last granule position that is one. */
  function LastGranule(pages: seq<OggPage>): Option<nat> {
    if pages == [] then None
    else if pages[|pages| - 1].granule != NO_GRANULE then Some(pages[|pages| - 1].granule)
    else LastGranule(pages[..|pages| - 1])
  }

  /** It is the granule position of page `i`, and every later page has none; without such a page none has. */
  lemma {:induction false} LastGranuleIsLast(pages: seq<OggPage>) returns (i: int)
    ensures -1 <= i < |pages| && forall j :: i < j < |pages| ==> pages[j].granule == NO_GRANULE
    ensures LastGranule(pages) == if i < 0 then None else Some(pages[i].granule)
    ensures i >= 0 ==> pages[i].granule != NO_GRANULE
  {
    i := |pages| - 1;
    if pages != [] && pages[i].granule == NO_GRANULE { i := LastGranuleIsLast(pages[..i]); }
  }

  lemma {:induction false} LastGranuleFromFront(pages: seq<OggPage>)
    requires pages != []
    ensures LastGranule(pages) ==
      if LastGranule(pages[1..]).Some? then LastGranule(pages[1..]) else LastGranule(pages[..1])
  {
    var n := |pages| - 1;
    if n > 0 && pages[n].granule == NO_GRANULE {
      LastGranuleFromFront(pages[..n]);
      assert pages[..n][1..] == pages[1..][..n - 1] && pages[..n][..1] == pages[..1];
    }
  }

  lemma LastGranuleOfOne(pages: seq<OggPage>)
    requires |pages| == 1
    ensures LastGranule(pages) == if pages[0].granule != NO_GRANULE then Some(pages[0].granule) else None
  {
    assert LastGranule(pages[..0]) == None;
  }

  /** The pages the scan looks at: the limit lets one more through than it says. */
  function Scanned(pages: seq<OggPage>): seq<OggPage> {
    if |pages| > 200_001 then pages[..200_001] else pages
  }

  /** Past the first page only the granule positions matter. */
  lemma {:induction false} TakeAllIsLastGranule(st: Scan, pages: seq<OggPage>)
    requires 0 < st.pages && st.pages + |pages| <= MAX_PAGES + 1
    ensures var last := if LastGranule(pages).Some? then LastGranule(pages) else st.lastGranule;
      TakeAll(st, pages) == st.(lastGranule := last, pages := st.pages + |pages|)
    decreases |pages|
  {
    if pages != [] {
      var next := Take(st, pages[0].granule, pages[0].body);
      LastGranuleOfOne(pages[..1]);
      LastGranuleFromFront(pages);
      if next.pages <= MAX_PAGES {
        TakeAllIsLastGranule(next, pages[1..]);
      } else {
        assert pages[1..] == [] && pages[..1] == pages;
      }
    }
  }

  lemma {:induction false} TakeAllStopsAtLimit(st: Scan, pages: seq<OggPage>)
    requires st.pages <= MAX_PAGES
    ensures |pages| > MAX_PAGES + 1 - st.pages ==> TakeAll(st, pages) == TakeAll(st, pages[..MAX_PAGES + 1 - st.pages])
    decreases |pages|
  {
    var n := MAX_PAGES + 1 - st.pages;
    if |pages| > n {
      var next := Take(st, pages[0].granule, pages[0].body);
      if next.pages <= MAX_PAGES {
        TakeAllStopsAtLimit(next, pages[1..]);
        assert pages[..n][1..] == pages[1..][..n - 1];
      }
    }
  }

  function Expected(codec: Codec, pages: seq<OggPage>): Option<Duration> {
    if LastGranule(pages).None? then None
    else match codec
      case Vorbis(_, rate, _) => Some(Duration(LastGranule(pages).value, rate))
      case Opus(_, _, preSkip, _) => 
        var samples := LastGranule(pages).value;
        Some(Duration(if samples < preSkip then 0 else samples - preSkip, 48_000))
  }

  lemma IdentifyCodec(codec: Codec, st: Scan)
    requires ValidCodec(codec)
    ensures Identify(st, CodecHeader(codec)) == match codec
      case Vorbis(_, rate, _) => st.(rate := Some(rate))
      case Opus(_, _, preSkip, _) => st.(isOpus := true, preSkip := preSkip, rate := Some(48_000))
  {
    var h := CodecHeader(codec);
    match codec
    case Vorbis(fixed, rate, more) =>
      LittleEndianRoundTrip(rate, 4);
      assert h[..7] == VORBIS && h[12..16] == LittleEndian(rate, 4);
    case Opus(version, channels, preSkip, more) =>
      LittleEndianRoundTrip(preSkip, 2);
      assert h[..8] == OPUS && h[10..12] == LittleEndian(preSkip, 2);
      assert h[0] == OPUS[0] != VORBIS[0];
  }

  /** The state after a non-empty list of pages within the limit. */
  lemma TakeAllFromStart(pages: seq<OggPage>)
    requires 0 < |pages| <= MAX_PAGES + 1
    ensures TakeAll(START, pages) ==
      Identify(START, pages[0].body).(lastGranule := LastGranule(pages), pages := |pages|)
  {
    var first := Take(START, pages[0].granule, pages[0].body);
    LastGranuleFromFront(pages);
    LastGranuleOfOne(pages[..1]);
    TakeAllIsLastGranule(first, pages[1..]);
    assert TakeAll(START, pages) == TakeAll(first, pages[1..]);
  }

  lemma FinishIsExpected(codec: Codec, pages: seq<OggPage>)
    requires 0 < |pages| <= MAX_PAGES + 1 && ValidCodec(codec) && pages[0].body == CodecHeader(codec)
    ensures Finish(TakeAll(START, pages)) == Expected(codec, pages)
  {
    TakeAllFromStart(pages);
    IdentifyCodec(codec, START);
  }

  /** The scan inverts the encoding: for every non-empty list of well-formed pages whose first body is a
      Vorbis or Opus identification header, followed by anything that is not a page, the answer is the last
      real granule position of the pages scanned, less the pre-skip for Opus, over the rate. */
  lemma ScanInvertsEncoding(codec: Codec, pages: seq<OggPage>, tail: seq<Byte>)
    requires pages != [] && AllWellFormed(pages) && IsTail(tail)
    requires ValidCodec(codec) && pages[0].body == CodecHeader(codec)
    ensures ScanPages(EncodeAll(pages) + tail, START) == Expected(codec, Scanned(pages))
  {
    ScanEncoded(pages, tail, START);
    TakeAllStopsAtLimit(START, pages);
    FinishIsExpected(codec, Scanned(pages));
  }
}

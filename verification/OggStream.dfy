/** Whole Ogg streams: the packets that reading page after page returns, and how it ends. */
module OggStream {
  import opened Machine
  import opened OggPages
  import opened OggReader

  /** Where a reader stands: a page being cut, if any, at a segment of it. */
  ghost predicate Fits(page: Option<Page>, segment: nat) {
    page.Some? ==>
      && |page.value.payload| == Size(page.value.segments)
      && (page.value.segments != [] ==> segment < |page.value.segments|)
  }

  lemma NextFits(stream: seq<bv8>, page: Option<Page>, segment: nat, check: bool)
    requires Fits(page, segment)
    ensures var (r, rest, next, to) := NextPacket(stream, page, segment, check);
      r.Packet? ==> Fits(next, to) && Left(rest, next, to) < Left(stream, page, segment)
  {
  }

  /** Bytes and segments still to be read. */
  function Left(stream: seq<bv8>, page: Option<Page>, segment: nat): nat {
    256 * |stream| + if page.Some? && segment < |page.value.segments| then |page.value.segments| - segment else 0
  }

  /** The packets that successive calls return, and the result that ends them. */
  ghost function ReadAll(stream: seq<bv8>, page: Option<Page>, segment: nat, check: bool): (seq<seq<bv8>>, PacketResult)
    requires Fits(page, segment)
    decreases Left(stream, page, segment)
  {
    NextFits(stream, page, segment, check);
    var (r, rest, next, to) := NextPacket(stream, page, segment, check);
    if !r.Packet? then ([], r)
    else
      var (packets, end) := ReadAll(rest, next, to, check);
      ([r.bytes] + packets, end)
  }

  /** A call finds no segments exactly when the page at hand, or the one it reads, has none. */
  lemma NoSegmentsIff(stream: seq<bv8>, page: Option<Page>, segment: nat, check: bool)
    requires Fits(page, segment)
    ensures NextPacket(stream, page, segment, check).0 == NoSegments <==>
      match page
      case Some(p) => p.segments == []
      case None => ReadPage(stream, check).Ok? && ReadPage(stream, check).value.segments == []
  {
  }

  /** Without the checksum test a page is read as with it. */
  lemma UncheckedToo(stream: seq<bv8>, check: bool)
    requires ReadPage(stream, true).Ok?
    ensures ReadPage(stream, check) == ReadPage(stream, true)
  {
  }

  // ---- Reading what was written ----

  ghost predicate ArePages(pages: seq<(Page, bv8)>) {
    forall i :: 0 <= i < |pages| ==> IsPage(pages[i].0, pages[i].1)
  }

  ghost function EncodeAll(pages: seq<(Page, bv8)>): seq<bv8>
    requires ArePages(pages)
    decreases pages
  {
    if pages == [] then []
    else
      assert IsPage(pages[0].0, pages[0].1);
      Encode(pages[0].0, pages[0].1) + EncodeAll(pages[1..])
  }

  /** The packets of the pages up to the first without segments. */
  function PacketsUpToEmpty(pages: seq<(Page, bv8)>): seq<seq<bv8>>
    requires forall i :: 0 <= i < |pages| ==> |pages[i].0.payload| == Size(pages[i].0.segments)
    decreases pages
  {
    if pages == [] || pages[0].0.segments == [] then []
    else Packets(pages[0].0.segments, pages[0].0.payload, 0) + PacketsUpToEmpty(pages[1..])
  }

  /** Between pages the old segment does not matter. */
  lemma NoPageAtHand(stream: seq<bv8>, segment: nat, check: bool)
    ensures ReadAll(stream, None, segment, check) == ReadAll(stream, None, 0, check)
  {
  }

  /** One packet is cut from a page; at its end reading goes on behind it. */
  lemma OneCut(stream: seq<bv8>, p: Page, segment: nat, check: bool) returns (packet: seq<bv8>, to: nat)
    requires segment < |p.segments| && |p.payload| == Size(p.segments)
    ensures segment < to <= |p.segments|
    ensures Packets(p.segments, p.payload, segment) == [packet] + Packets(p.segments, p.payload, to)
    ensures to == |p.segments| ==> Packets(p.segments, p.payload, to) == []
    ensures var after := if to == |p.segments| then ReadAll(stream, None, 0, check)
                         else ReadAll(stream, Some(p), to, check);
      ReadAll(stream, Some(p), segment, check) == ([packet] + after.0, after.1)
  {
    var (r, next, end) := Cut(p, segment);
    CutsArePackets(p, segment);
    NextFits(stream, Some(p), segment, check);
    NoPageAtHand(stream, end, check);
    packet, to := r.bytes, end;
  }

  /** The rest of a page is cut into its packets, then reading goes on behind it. */
  lemma {:induction false} PageIsCut(stream: seq<bv8>, p: Page, segment: nat, check: bool)
    requires segment < |p.segments| && |p.payload| == Size(p.segments)
    ensures var (packets, end) := ReadAll(stream, None, 0, check);
      ReadAll(stream, Some(p), segment, check) == (Packets(p.segments, p.payload, segment) + packets, end)
    decreases |p.segments| - segment
  {
    var packet, to := OneCut(stream, p, segment, check);
    var packets := ReadAll(stream, None, 0, check).0;
    Regrouped(packet, Packets(p.segments, p.payload, to), packets);
    if to < |p.segments| {
      PageIsCut(stream, p, to, check);
    }
  }

  lemma Regrouped<T>(a: T, b: seq<T>, c: seq<T>)
    ensures [a] + (b + c) == ([a] + b) + c && [] + c == c
  {
  }

  lemma FirstPage(p: Page, count: bv8, rest: seq<bv8>, check: bool)
    requires IsPage(p, count)
    ensures var r := ReadAll(Encode(p, count) + rest, None, 0, check);
      if p.segments == [] then r == ([], NoSegments) else r == ReadAll(rest, Some(p), 0, check)
  {
    PageRoundTrip(p, count, rest);
    UncheckedToo(Encode(p, count) + rest, check);
  }

  /** A page without segments, its checksum right: reading a packet from it fails. */
  lemma EmptyPageFails(p: Page, rest: seq<bv8>, segment: nat, check: bool)
    requires IsPage(p, 0)
    ensures NextPacket(Encode(p, 0) + rest, None, segment, check) == (NoSegments, rest, Some(p), 0)
  {
    PageRoundTrip(p, 0, rest);
    UncheckedToo(Encode(p, 0) + rest, check);
  }

  /**
   * Reading written pages to the end returns their packets in order, up to the first page without
   * segments; it ends with that failure if there is such a page, and with the stream otherwise.
   */
  lemma {:induction false} PagesAreRead(pages: seq<(Page, bv8)>, check: bool)
    requires ArePages(pages)
    ensures forall i :: 0 <= i < |pages| ==> |pages[i].0.payload| == Size(pages[i].0.segments)
    ensures ReadAll(EncodeAll(pages), None, 0, check) ==
      (PacketsUpToEmpty(pages),
       if exists i :: 0 <= i < |pages| && pages[i].0.segments == [] then NoSegments else Failed(EndOfStream))
    decreases pages
  {
    forall i | 0 <= i < |pages| ensures |pages[i].0.payload| == Size(pages[i].0.segments) {
      assert IsPage(pages[i].0, pages[i].1);
    }
    if pages == [] {
    } else {
      var (p, count) := pages[0];
      var rest := EncodeAll(pages[1..]);
      assert IsPage(p, count);
      forall i | 0 <= i < |pages[1..]| ensures IsPage(pages[1..][i].0, pages[1..][i].1) {
        assert IsPage(pages[i + 1].0, pages[i + 1].1);
      }
      FirstPage(p, count, rest, check);
      if p.segments != [] {
        PageIsCut(rest, p, 0, check);
        PagesAreRead(pages[1..], check);
        SomeEmpty(pages);
      }
    }
  }

  lemma SomeEmpty(pages: seq<(Page, bv8)>)
    requires pages != [] && pages[0].0.segments != []
    ensures (exists i :: 0 <= i < |pages| && pages[i].0.segments == []) <==>
      exists i :: 0 <= i < |pages[1..]| && pages[1..][i].0.segments == []
  {
    if i :| 0 <= i < |pages| && pages[i].0.segments == [] {
      assert pages[1..][i - 1].0.segments == [];
    }
  }
}

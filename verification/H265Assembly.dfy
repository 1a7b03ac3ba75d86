/** Gathering the NAL units of an H.265 stream into samples, one picture to a timed sample. */
module H265Assembly {
  import opened Machine

  /** A unit and its bytes, which begin with the two-byte header its kind is read from. */
  datatype Nal = Nal(kind: nat, data: seq<u8>)

  datatype Metadata = Metadata(userTimestamp: nat, frameId: nat)

  datatype End = EndOfStream | ReadError

  /** A sample holds units; a timed one is a picture, and may carry the metadata of an SEI before it. */
  datatype Outcome =
    | Sample(nals: seq<Nal>, timed: bool, trailer: Option<Metadata>)
    | Failed(end: End, lost: seq<Nal>)

  predicate IsSlice(n: Nal) {
    n.kind < 32
  }

  predicate IsParameterSet(n: Nal) {
    n.kind == 32 || n.kind == 33 || n.kind == 34
  }

  predicate IsSei(n: Nal) {
    n.kind == 39 || n.kind == 40
  }

  /** The flag of the first slice of a picture; a unit too short to hold it counts as one. */
  predicate StartsPicture(n: Nal) {
    |n.data| < 3 || n.data[2] >= 0x80
  }

  /** What a read on its way knows: how it is set up, what it has gathered, the metadata it has met. */
  datatype Reading = Reading(unit: seq<Nal>, haveVCL: bool, meta: Option<Metadata>)

  function Noted(r: Reading, n: Nal, parse: Nal -> Option<Metadata>): Reading {
    if n.kind == 39 && parse(n).Some? then r.(meta := parse(n)) else r
  }

  function Gathered(r: Reading, n: Nal): Reading {
    r.(unit := r.unit + [n], haveVCL := r.haveVCL || IsSlice(n))
  }

  /** Whether the unit waits for the next read: it begins another access unit. */
  predicate BeginsNext(r: Reading, n: Nal) {
    r.haveVCL && if IsSlice(n) then StartsPicture(n) else n.kind != 40
  }

  /** Whether the read returns at this unit, having gathered it if it is to be. */
  predicate Returns(r: Reading, n: Nal, flush: bool) {
    if IsSei(n) then !r.haveVCL && r.unit == []
    else if IsParameterSet(n) then false
    else if IsSlice(n) then flush
    else !r.haveVCL
  }

  function Met(r: Reading, n: Nal, parse: Nal -> Option<Metadata>): Reading {
    if IsSei(n) then (if r.haveVCL then r else Noted(r, n, parse)) else Gathered(r, n)
  }

  function Finish(r: Reading): (Outcome, Option<Metadata>) {
    if r.haveVCL then (Sample(r.unit, true, r.meta), None) else (Sample(r.unit, false, None), r.meta)
  }

  /** One read: its outcome, what is left of the input, and the metadata left for the next picture. */
  function Read(r: Reading, input: seq<Nal>, end: End, flush: bool, parse: Nal -> Option<Metadata>):
    (Outcome, seq<Nal>, Option<Metadata>)
    decreases input
  {
    if input == [] then
      if end == EndOfStream && r.haveVCL then (Finish(r).0, [], Finish(r).1)
      else (Failed(end, r.unit), [], r.meta)
    else
      var n := input[0];
      if BeginsNext(r, n) then (Finish(r).0, input, Finish(r).1)
      else
        var m := Met(r, n, parse);
        if Returns(r, n, flush) then (Finish(m).0, input[1..], Finish(m).1)
        else Read(m, input[1..], end, flush, parse)
  }

  function NextSample(input: seq<Nal>, end: End, flush: bool, meta: Option<Metadata>, parse: Nal -> Option<Metadata>):
    (Outcome, seq<Nal>, Option<Metadata>)
  {
    Read(Reading([], false, meta), input, end, flush, parse)
  }

  /** The units that are passed on. */
  function WithoutSei(input: seq<Nal>): seq<Nal>
    decreases input
  {
    if input == [] then []
    else (if IsSei(input[0]) then [] else [input[0]]) + WithoutSei(input[1..])
  }

  function Units(o: Outcome): seq<Nal> {
    if o.Sample? then o.nals else o.lost
  }

  // ---- What one read returns ----

  /** Parameter sets, then the slices of one picture: a first one, and those that continue it. */
  ghost predicate IsPicture(s: seq<Nal>) {
    exists k :: 0 <= k < |s| && PictureAt(s, k)
  }

  ghost predicate PictureAt(s: seq<Nal>, k: nat)
    requires k < |s|
  {
    && (forall i :: 0 <= i < k ==> IsParameterSet(s[i]))
    && IsSlice(s[k])
    && (forall i :: k < i < |s| ==> IsSlice(s[i]) && !StartsPicture(s[i]))
  }

  ghost predicate Consistent(r: Reading) {
    if r.haveVCL then IsPicture(r.unit) else forall i :: 0 <= i < |r.unit| ==> IsParameterSet(r.unit[i])
  }

  lemma MetKeepsConsistent(r: Reading, n: Nal, parse: Nal -> Option<Metadata>, flush: bool)
    requires Consistent(r) && !BeginsNext(r, n)
    ensures !(Returns(r, n, flush) && !r.haveVCL && !IsSlice(n) && !IsSei(n)) ==> Consistent(Met(r, n, parse))
  {
    var m := Met(r, n, parse);
    if IsSlice(n) {
      if r.haveVCL {
        var k :| 0 <= k < |r.unit| && PictureAt(r.unit, k);
        assert PictureAt(m.unit, k);
      } else {
        assert PictureAt(m.unit, |r.unit|);
      }
    }
  }

  /**
   * A read takes a prefix of the input and returns its units but the SEI, in order; it makes
   * progress; a timed sample is one picture, whole unless a slice at a time is asked for.
   */
  lemma {:induction false} ReadReturns(
    r: Reading, input: seq<Nal>, end: End, flush: bool, parse: Nal -> Option<Metadata>)
    requires Consistent(r)
    ensures var (o, rest, _) := Read(r, input, end, flush, parse);
      && Units(o) + WithoutSei(rest) == r.unit + WithoutSei(input)
      && |rest| <= |input| && (|rest| == |input| && input != [] ==> r.haveVCL)
      && (o.Sample? && o.timed ==> IsPicture(o.nals))
      && (o.Sample? && o.timed && !flush && rest != [] ==> !IsSlice(rest[0]) || StartsPicture(rest[0]))
      && (o.Sample? && !o.timed ==> forall i :: 0 <= i < |o.nals| ==> !IsSlice(o.nals[i]))
      && (o.Failed? ==> o.end == end && rest == [])
      && (o.Failed? && end == EndOfStream ==> forall i :: 0 <= i < |o.lost| ==> IsParameterSet(o.lost[i]))
    decreases input
  {
    if input != [] && !BeginsNext(r, input[0]) {
      var n := input[0];
      var m := Met(r, n, parse);
      MetKeepsConsistent(r, n, parse, flush);
      assert r.unit + WithoutSei(input) == m.unit + WithoutSei(input[1..]);
      if !Returns(r, n, flush) {
        ReadReturns(m, input[1..], end, flush, parse);
      }
    }
  }

  /** The metadata of the last prefix SEI that carries some. */
  function LastNoted(meta: Option<Metadata>, s: seq<Nal>, parse: Nal -> Option<Metadata>): Option<Metadata>
    decreases s
  {
    if s == [] then meta
    else LastNoted(if s[0].kind == 39 && parse(s[0]).Some? then parse(s[0]) else meta, s[1..], parse)
  }

  /** A picture takes the metadata noted last up to it; any other outcome leaves it for the next. */
  lemma {:induction false} ReadTakesMetadata(
    r: Reading, input: seq<Nal>, end: End, flush: bool, parse: Nal -> Option<Metadata>)
    ensures var (o, rest, left) := Read(r, input, end, flush, parse);
      && |rest| <= |input|
      && var noted := LastNoted(r.meta, input[..|input| - |rest|], parse);
      if o.Sample? && o.timed then o.trailer == noted && left == None
      else left == noted && (o.Sample? ==> o.trailer == None)
    decreases input
  {
    var (o, rest, left) := Read(r, input, end, flush, parse);
    if input != [] && !BeginsNext(r, input[0]) {
      var n := input[0];
      var m := Met(r, n, parse);
      if Returns(r, n, flush) {
        assert input[..1][1..] == [];
      } else {
        ReadTakesMetadata(m, input[1..], end, flush, parse);
        assert input[..|input| - |rest|][1..] == input[1..][..|input| - 1 - |rest|];
      }
    }
  }

  // ---- The whole stream ----

  /** All reads, up to the one that fails. */
  function ReadAll(input: seq<Nal>, end: End, flush: bool, meta: Option<Metadata>, parse: Nal -> Option<Metadata>):
    seq<Outcome>
    decreases |input|
  {
    ReadReturns(Reading([], false, meta), input, end, flush, parse);
    var (o, rest, left) := NextSample(input, end, flush, meta, parse);
    if o.Failed? then [o] else [o] + ReadAll(rest, end, flush, left, parse)
  }

  function AllUnits(outcomes: seq<Outcome>): seq<Nal>
    decreases outcomes
  {
    if outcomes == [] then [] else Units(outcomes[0]) + AllUnits(outcomes[1..])
  }

  /**
   * Reading a stream to its end passes on every unit but the SEI, once and in order; only parameter
   * sets that no picture follows stay behind, with the read that fails.
   */
  lemma {:induction false} StreamIsKept(
    input: seq<Nal>, end: End, flush: bool, meta: Option<Metadata>, parse: Nal -> Option<Metadata>)
    ensures var all := ReadAll(input, end, flush, meta, parse); AllUnits(all) == WithoutSei(input) && Ends(all, end)
    decreases |input|
  {
    var (o, rest, left) := NextSample(input, end, flush, meta, parse);
    ReadReturns(Reading([], false, meta), input, end, flush, parse);
    if o.Failed? {
      assert [o][1..] == [];
    } else {
      StreamIsKept(rest, end, flush, left, parse);
      EndsLater(o, ReadAll(rest, end, flush, left, parse), end);
    }
  }

  /** The last read is the one that fails, and at the end of the stream loses only parameter sets. */
  ghost predicate Ends(all: seq<Outcome>, end: End) {
    && all != []
    && (forall i :: 0 <= i < |all| ==> (all[i].Failed? <==> i == |all| - 1))
    && all[|all| - 1].end == end
    && (end == EndOfStream ==> forall n :: n in all[|all| - 1].lost ==> IsParameterSet(n))
  }

  lemma EndsLater(o: Outcome, all: seq<Outcome>, end: End)
    requires !o.Failed? && Ends(all, end)
    ensures Ends([o] + all, end) && AllUnits([o] + all) == Units(o) + AllUnits(all)
  {
    assert ([o] + all)[1..] == all;
  }

  /** Each timed sample of a stream is one picture. */
  lemma {:induction false} TimedSamplesArePictures(
    input: seq<Nal>, end: End, flush: bool, meta: Option<Metadata>, parse: Nal -> Option<Metadata>)
    ensures forall o :: o in ReadAll(input, end, flush, meta, parse) && o.Sample? && o.timed ==> IsPicture(o.nals)
    decreases |input|
  {
    var (o, rest, left) := NextSample(input, end, flush, meta, parse);
    ReadReturns(Reading([], false, meta), input, end, flush, parse);
    if !o.Failed? {
      TimedSamplesArePictures(rest, end, flush, left, parse);
    }
  }
}

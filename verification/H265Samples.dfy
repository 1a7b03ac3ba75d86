/** The samples that are not pictures, and pictures a slice at a time. */
module H265Samples {
  import opened Machine
  import opened H265Assembly

  predicate AllParameterSets(s: seq<Nal>) {
    forall i :: 0 <= i < |s| ==> IsParameterSet(s[i])
  }

  /** Parameter sets and then one unit that is no slice, no parameter set and no SEI. */
  predicate EndsWithOther(s: seq<Nal>) {
    && s != [] && AllParameterSets(s[..|s| - 1])
    && var n := s[|s| - 1]; !IsSlice(n) && !IsParameterSet(n) && !IsSei(n)
  }

  /** Parameter sets and then slices, only the last unit being one if a slice at a time is asked for. */
  predicate SlicesAtEnd(s: seq<Nal>, flush: bool) {
    s != [] && IsSlice(s[|s| - 1]) && (flush ==> AllParameterSets(s[..|s| - 1]))
  }

  /** Once a slice is met the sample is timed, and the last unit of what is gathered a slice. */
  lemma {:induction false} TimedEnds(
    r: Reading, input: seq<Nal>, end: End, flush: bool, parse: Nal -> Option<Metadata>)
    requires r.haveVCL && SlicesAtEnd(r.unit, false)
    ensures var (o, rest, _) := Read(r, input, end, flush, parse);
      |rest| <= |input| && (o.Sample? ==> o.timed && SlicesAtEnd(o.nals, false))
    decreases input
  {
    if input != [] && !BeginsNext(r, input[0]) {
      var m := Met(r, input[0], parse);
      if !Returns(r, input[0], flush) {
        TimedEnds(m, input[1..], end, flush, parse);
      }
    }
  }

  /** A read that has met no slice and no SEI at its start. */
  lemma {:induction false} ReadEnds(
    r: Reading, input: seq<Nal>, end: End, flush: bool, parse: Nal -> Option<Metadata>)
    requires !r.haveVCL && AllParameterSets(r.unit)
    requires r.unit == [] ==> input == [] || !IsSei(input[0])
    ensures var (o, rest, _) := Read(r, input, end, flush, parse);
      o.Sample? ==> if o.timed then SlicesAtEnd(o.nals, flush) else EndsWithOther(o.nals)
    decreases input
  {
    if input != [] {
      var n := input[0];
      var m := Met(r, n, parse);
      if IsSlice(n) && !flush {
        TimedEnds(m, input[1..], end, flush, parse);
      } else if !Returns(r, n, flush) {
        ReadEnds(m, input[1..], end, flush, parse);
      }
    }
  }

  /**
   * What a call returns: at a SEI unit an empty sample, which takes that unit alone; otherwise, if it does
   * not fail, a picture - one slice of it if a slice at a time is asked for - or, untimed, a unit that is
   * none of these, either after parameter sets.
   */
  lemma SampleShapes(input: seq<Nal>, end: End, flush: bool, meta: Option<Metadata>, parse: Nal -> Option<Metadata>)
    ensures var (o, rest, _) := NextSample(input, end, flush, meta, parse);
      if input != [] && IsSei(input[0]) then o == Sample([], false, None) && rest == input[1..]
      else o.Sample? ==> if o.timed then SlicesAtEnd(o.nals, flush) else EndsWithOther(o.nals)
  {
    if !(input != [] && IsSei(input[0])) {
      ReadEnds(Reading([], false, meta), input, end, flush, parse);
    }
  }

  /** The parameter sets of types 32 to 34 (table 7-1 of ITU-T H.265). */
  predicate AreParameterSets(vps: Nal, sps: Nal, pps: Nal) {
    vps.kind == 32 && sps.kind == 33 && pps.kind == 34
  }

  /** A stream as encoders write it: its parameter sets and the slice behind them are one picture. */
  lemma TypicalPicture(vps: Nal, sps: Nal, pps: Nal, slice: Nal, parse: Nal -> Option<Metadata>, flush: bool)
    requires AreParameterSets(vps, sps, pps) && slice.kind <= 31
    ensures NextSample([vps, sps, pps, slice], EndOfStream, flush, None, parse)
      == (Sample([vps, sps, pps, slice], true, None), [], None)
  {
    var r0 := Reading([], false, None);
    var r1 := Reading([vps], false, None);
    var r2 := Reading([vps, sps], false, None);
    var r3 := Reading([vps, sps, pps], false, None);
    var r4 := Reading([vps, sps, pps, slice], true, None);
    assert Met(r0, vps, parse) == r1 && Met(r1, sps, parse) == r2 && Met(r2, pps, parse) == r3;
    assert Met(r3, slice, parse) == r4;
    assert Read(r3, [slice], EndOfStream, flush, parse) == (Sample(r4.unit, true, None), [], None);
    assert Read(r2, [pps, slice], EndOfStream, flush, parse) == Read(r3, [pps, slice][1..], EndOfStream, flush, parse);
    assert Read(r1, [sps, pps, slice], EndOfStream, flush, parse)
      == Read(r2, [sps, pps, slice][1..], EndOfStream, flush, parse);
  }

  /** SEI units, prefix and suffix alike, join no sample: read first they leave it empty. */
  lemma SeiStandsAlone(sei: Nal, rest: seq<Nal>, end: End, flush: bool, parse: Nal -> Option<Metadata>)
    requires sei.kind == 39 || sei.kind == 40
    ensures NextSample([sei] + rest, end, flush, None, parse)
      == (Sample([], false, None), rest, if sei.kind == 39 then parse(sei) else None)
  {
    assert ([sei] + rest)[0] == sei && ([sei] + rest)[1..] == rest;
  }
}

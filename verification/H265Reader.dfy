/** Reading H.265 samples: the provider's loop, and the buffer that joins the units of a sample. */
module H265Reader {
  import opened Machine
  import opened H265Assembly

  const START_CODE: seq<u8> := [0, 0, 0, 1]

  /** A unit added to a sample: always in Annex B form, or only once another joins it. */
  datatype Added = Added(annexB: bool, data: seq<u8>)

  function Join(units: seq<Added>): seq<u8>
    decreases units
  {
    if units == [] then [] else Join(units[..|units| - 1]) + START_CODE + units[|units| - 1].data
  }

  /** The bytes of a sample: its units in Annex B form, but for a lone raw unit. */
  function Layout(units: seq<Added>): seq<u8> {
    if |units| == 1 && !units[0].annexB then units[0].data else Join(units)
  }

  /** Keeps a lone unit as it is and builds the joined form only when it is needed. */
  class AccessUnitBuilder {
    var rawFirst: Option<seq<u8>>
    var data: seq<u8>
    ghost var units: seq<Added>

    ghost predicate Valid()
      reads this
    {
      if rawFirst.Some? then data == [] && units == [Added(false, rawFirst.value)]
      else data == Join(units) && (|units| == 1 ==> units[0].annexB)
    }

    constructor ()
      ensures Valid() && units == []
    {
      rawFirst, data, units := None, [], [];
    }

    method Append(nal: seq<u8>)
      requires Valid()
      modifies this
      ensures Valid() && units == old(units) + [Added(false, nal)]
    {
      JoinIsEmpty(units);
      units := units + [Added(false, nal)];
      if rawFirst.None? && |data| == 0 {
        rawFirst := Some(nal);
        return;
      }
      Materialize();
      data := data + START_CODE + nal;
      JoinNext(old(units), Added(false, nal));
    }

    method AppendAnnexB(nal: seq<u8>)
      requires Valid()
      modifies this
      ensures Valid() && units == old(units) + [Added(true, nal)]
    {
      units := units + [Added(true, nal)];
      Materialize();
      data := data + START_CODE + nal;
      JoinNext(old(units), Added(true, nal));
    }

    method Materialize()
      modifies this`rawFirst, this`data
      ensures rawFirst.None?
      ensures data == if old(rawFirst).Some? then START_CODE + old(rawFirst).value else old(data)
    {
      if rawFirst.None? && |data| != 0 {
        return;
      }
      var joined: seq<u8> := [];
      if rawFirst.Some? {
        joined := joined + START_CODE + rawFirst.value;
        rawFirst := None;
      }
      data := joined;
    }

    method Bytes() returns (bytes: seq<u8>)
      requires Valid()
      ensures bytes == Layout(units)
    {
      if rawFirst.Some? {
        return rawFirst.value;
      }
      return data;
    }
  }

  lemma JoinNext(units: seq<Added>, u: Added)
    ensures Join(units + [u]) == Join(units) + START_CODE + u.data
    ensures |units| == 1 ==> Join(units) == START_CODE + units[0].data
  {
    assert (units + [u])[..|units|] == units;
    if |units| == 1 {
      assert units[..0] == [];
      assert [] + START_CODE + units[0].data == START_CODE + units[0].data;
    }
  }

  /** The units in Annex B form, first to last (annex B of ITU-T H.265). */
  function Framed(units: seq<Added>): seq<u8>
    decreases units
  {
    if units == [] then [] else START_CODE + units[0].data + Framed(units[1..])
  }

  /** Each unit is laid out behind a start code, in order; only a lone raw unit has none. */
  lemma LayoutIsFramed(units: seq<Added>)
    ensures Layout(units) == if |units| == 1 && !units[0].annexB then units[0].data else Framed(units)
  {
    JoinIsFramed(units);
  }

  lemma {:induction false} JoinIsFramed(units: seq<Added>)
    ensures Join(units) == Framed(units)
    decreases |units|
  {
    if units == [] {
    } else {
      var before, last := units[..|units| - 1], units[|units| - 1];
      JoinIsFramed(before);
      FramedOneMore(before, last);
      assert before + [last] == units;
    }
  }

  lemma {:induction false} FramedOneMore(units: seq<Added>, u: Added)
    ensures Framed(units + [u]) == Framed(units) + START_CODE + u.data
    decreases units
  {
    if units == [] {
      assert ([] + [u])[1..] == [];
      assert Framed([u]) == START_CODE + u.data + [];
    } else {
      assert (units + [u])[1..] == units[1..] + [u];
      FramedOneMore(units[1..], u);
    }
  }

  lemma JoinIsEmpty(units: seq<Added>)
    ensures Join(units) == [] <==> units == []
  {
  }

  lemma LayoutIsEmpty(units: seq<Added>)
    requires forall u :: u in units ==> u.annexB
    ensures Layout(units) == [] <==> units == []
  {
  }

  // ---- The provider ----

  /** What a call returns: the bytes of a sample, whether it lasts a frame, its trailer; or an error. */
  datatype Result = Media(data: seq<u8>, timed: bool, trailer: Option<Metadata>) | Error(end: End)

  function Tagged(nals: seq<Nal>): (r: seq<Added>)
    ensures |r| == |nals|
  {
    seq(|nals|, i requires 0 <= i < |nals| => Added(IsParameterSet(nals[i]), nals[i].data))
  }

  function ResultOf(o: Outcome): Result {
    match o
    case Sample(nals, timed, trailer) => Media(Layout(Tagged(nals)), timed, trailer)
    case Failed(end, _) => Error(end)
  }

  /** Whether a read goes on, has its last unit, or has failed. */
  datatype Progress = More | Last | Stopped

  class SampleProvider {
    var rest: seq<Nal>
    var pendingNal: Option<Nal>
    var pendingMetadata: Option<Metadata>
    const end: End
    const singleSliceFlush: bool
    const parse: Nal -> Option<Metadata>

    /** What is still to be read, the unit put back first. */
    function Input(): seq<Nal>
      reads this
    {
      (if pendingNal.Some? then [pendingNal.value] else []) + rest
    }

    constructor (stream: seq<Nal>, end: End, singleSliceFlush: bool, parse: Nal -> Option<Metadata>)
      ensures Input() == stream && pendingMetadata.None?
      ensures this.end == end && this.singleSliceFlush == singleSliceFlush && this.parse == parse
    {
      rest, this.end, this.singleSliceFlush, this.parse := stream, end, singleSliceFlush, parse;
      pendingNal, pendingMetadata := None, None;
    }

    method NextNAL() returns (nal: Option<Nal>)
      modifies this`rest, this`pendingNal
      ensures nal == (if old(Input()) == [] then None else Some(old(Input())[0])) && pendingNal.None?
      ensures Input() == if old(Input()) == [] then [] else old(Input())[1..]
    {
      if pendingNal.Some? {
        nal := pendingNal;
        pendingNal := None;
      } else if |rest| == 0 {
        nal := None;
      } else {
        nal := Some(rest[0]);
        rest := rest[1..];
      }
    }

    method NextSample() returns (result: Result)
      modifies this
      ensures var (o, input, meta) :=
          H265Assembly.NextSample(old(Input()), end, singleSliceFlush, old(pendingMetadata), parse);
        result == ResultOf(o) && Input() == input && pendingMetadata == meta
    {
      ghost var all := Read(Reading([], false, pendingMetadata), Input(), end, singleSliceFlush, parse);
      var builder := new AccessUnitBuilder();
      var haveVCL, progress := false, More;
      ghost var unit: seq<Nal> := [];
      while progress == More
        invariant fresh(builder) && builder.Valid() && builder.units == Tagged(unit)
        invariant progress == More && !haveVCL ==> forall n :: n in unit ==> IsParameterSet(n)
        invariant Stands(progress, Reading(unit, haveVCL, pendingMetadata), Input(), all)
        decreases progress == More, |Input()|
      {
        progress, haveVCL, unit := ReadUnit(builder, haveVCL, unit);
      }
      if progress == Stopped {
        return Error(end);
      }
      result := Finish(builder, haveVCL);
    }

    /** How a read stands, given what it comes to in all. */
    ghost predicate Stands(
      progress: Progress, r: Reading, input: seq<Nal>, all: (Outcome, seq<Nal>, Option<Metadata>))
    {
      match progress
      case More => Read(r, input, end, singleSliceFlush, parse) == all
      case Last => all == (H265Assembly.Finish(r).0, input, H265Assembly.Finish(r).1)
      case Stopped => all.0.Failed? && all.0.end == end && all.1 == input && all.2 == r.meta
    }

    /** One round of the loop. */
    method ReadUnit(builder: AccessUnitBuilder, haveVCL: bool, ghost unit: seq<Nal>)
      returns (progress: Progress, have: bool, ghost grown: seq<Nal>)
      requires builder.Valid() && builder.units == Tagged(unit)
      requires !haveVCL ==> forall n :: n in unit ==> IsParameterSet(n)
      modifies this, builder
      ensures builder.Valid() && builder.units == Tagged(grown)
      ensures progress == More ==> |Input()| < |old(Input())|
      ensures progress == More && !have ==> forall n :: n in grown ==> IsParameterSet(n)
      ensures var all :=
          Read(Reading(unit, haveVCL, old(pendingMetadata)), old(Input()), end, singleSliceFlush, parse);
        Stands(progress, Reading(grown, have, pendingMetadata), Input(), all)
    {
      have, grown := haveVCL, unit;
      ghost var input := Input();
      var next := NextNAL();
      if next.None? {
        progress := if end == EndOfStream && haveVCL then Last else Stopped;
        return;
      }
      var nal := next.value;
      if haveVCL && (if IsSlice(nal) then StartsPicture(nal) else nal.kind != 40) {
        PutBack(nal);
        assert Input() == input;
        progress := Last;
        return;
      }
      progress, have, grown := Add(builder, nal, haveVCL, unit);
      assert [nal] + Input() == input;
    }

    /** A unit that begins no other sample. */
    method Add(builder: AccessUnitBuilder, nal: Nal, haveVCL: bool, ghost unit: seq<Nal>)
      returns (progress: Progress, have: bool, ghost grown: seq<Nal>)
      requires builder.Valid() && builder.units == Tagged(unit) && !BeginsNext(Reading(unit, haveVCL, None), nal)
      requires !haveVCL ==> forall n :: n in unit ==> IsParameterSet(n)
      modifies this`pendingMetadata, builder
      ensures builder.Valid() && builder.units == Tagged(grown)
      ensures progress == More && !have ==> forall n :: n in grown ==> IsParameterSet(n)
      ensures var all :=
          Read(Reading(unit, haveVCL, old(pendingMetadata)), [nal] + Input(), end, singleSliceFlush, parse);
        Stands(progress, Reading(grown, have, pendingMetadata), Input(), all)
    {
      ghost var r := Reading(unit, haveVCL, pendingMetadata);
      var finished := Take(builder, nal, haveVCL, unit);
      grown := Met(r, nal, parse).unit;
      have := haveVCL || IsSlice(nal);
      progress := if finished then Last else More;
      assert ([nal] + Input())[1..] == Input();
    }

    method PutBack(nal: Nal)
      requires pendingNal.None?
      modifies this`pendingNal
      ensures Input() == [nal] + old(Input())
    {
      pendingNal := Some(nal);
    }

    method Finish(builder: AccessUnitBuilder, haveVCL: bool) returns (result: Result)
      requires builder.Valid()
      modifies this`pendingMetadata
      ensures result == Media(Layout(builder.units), haveVCL, if haveVCL then old(pendingMetadata) else None)
      ensures pendingMetadata == if haveVCL then None else old(pendingMetadata)
    {
      var data := builder.Bytes();
      if !haveVCL {
        return Media(data, false, None);
      }
      result := Media(data, true, pendingMetadata);
      pendingMetadata := None;
    }

    /** One unit of the sample being read; whether it is the last. */
    method Take(builder: AccessUnitBuilder, nal: Nal, haveVCL: bool, ghost unit: seq<Nal>) returns (finished: bool)
      requires builder.Valid() && builder.units == Tagged(unit)
      requires !haveVCL ==> forall n :: n in unit ==> IsParameterSet(n)
      modifies this`pendingMetadata, builder
      ensures var r := Reading(unit, haveVCL, old(pendingMetadata));
        && builder.Valid() && builder.units == Tagged(Met(r, nal, parse).unit)
        && pendingMetadata == Met(r, nal, parse).meta
        && finished == Returns(r, nal, singleSliceFlush)
    {
      if IsSei(nal) {
        finished := TakeSei(builder, nal, haveVCL);
        return;
      }
      if IsParameterSet(nal) {
        builder.AppendAnnexB(nal.data);
        return false;
      }
      builder.Append(nal.data);
      return if IsSlice(nal) then singleSliceFlush else !haveVCL;
    }

    /** A SEI unit joins no sample: metadata is noted before a picture's slices, and ends an empty read. */
    method TakeSei(builder: AccessUnitBuilder, nal: Nal, haveVCL: bool) returns (finished: bool)
      requires builder.Valid() && (!haveVCL ==> forall u :: u in builder.units ==> u.annexB)
      modifies this`pendingMetadata
      ensures pendingMetadata ==
        if nal.kind == 39 && !haveVCL && parse(nal).Some? then parse(nal) else old(pendingMetadata)
      ensures finished == (!haveVCL && builder.units == [])
    {
      if nal.kind == 39 && !haveVCL && parse(nal).Some? {
        pendingMetadata := parse(nal);
      }
      var data := builder.Bytes();
      if haveVCL {
        return false;
      }
      LayoutIsEmpty(builder.units);
      return |data| == 0;
    }
  }
}

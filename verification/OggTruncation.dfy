/** Streams that end within a page, and pages read without their checksum. */
module OggTruncation {
  import opened OggPages

  /** A page as it is laid out, its checksum right or wrong. */
  ghost predicate Parts(header: seq<bv8>, segments: seq<bv8>, payload: seq<bv8>) {
    |header| == HEADER_LENGTH && |segments| == header[26] as nat && |payload| == Size(segments)
  }

  /** Without the checksum test every page whose parts are there is read into them. */
  lemma UncheckedReadsParts(header: seq<bv8>, segments: seq<bv8>, payload: seq<bv8>, rest: seq<bv8>)
    requires Parts(header, segments, payload)
    ensures ReadPage(header + segments + payload + rest, false) == Ok(PageOf(header, segments, payload), rest)
  {
    assert header + segments + payload + rest == header + (segments + payload + rest);
    assert segments + payload + rest == segments + (payload + rest);
    Splits(header, segments + payload + rest);
    Splits(segments, payload + rest);
    Splits(payload, rest);
  }

  /** What is left of a page after its first k bytes were all there was. */
  function CutOff(header: seq<bv8>, segments: seq<bv8>, payload: seq<bv8>, k: nat): seq<bv8>
    requires k <= |header| + |segments| + |payload|
  {
    (header + segments + payload)[..k]
  }

  /**
   * A page cut off is not read: the stream ended unexpectedly, unless it was cut at a border of header,
   * segment table and payload, where it ends as if nothing were missing.
   */
  lemma CutOffFails(header: seq<bv8>, segments: seq<bv8>, payload: seq<bv8>, k: nat, check: bool)
    requires Parts(header, segments, payload) && k < |header| + |segments| + |payload|
    ensures ReadPage(CutOff(header, segments, payload, k), check) ==
      Err(if k == 0 || k == |header| || k == |header| + |segments| then EndOfStream else UnexpectedEnd, [])
  {
    var input := CutOff(header, segments, payload, k);
    if k < HEADER_LENGTH {
    } else if k < HEADER_LENGTH + |segments| {
      InTable(header, segments, payload, k);
      Splits(header, segments[..k - HEADER_LENGTH]);
    } else {
      InPayload(header, segments, payload, k);
      var part := payload[..k - HEADER_LENGTH - |segments|];
      Splits(header, segments + part);
      Splits(segments, part);
    }
  }

  lemma InTable(header: seq<bv8>, segments: seq<bv8>, payload: seq<bv8>, k: nat)
    requires |header| <= k < |header| + |segments|
    ensures CutOff(header, segments, payload, k) == header + segments[..k - |header|]
  {
  }

  lemma InPayload(header: seq<bv8>, segments: seq<bv8>, payload: seq<bv8>, k: nat)
    requires |header| + |segments| <= k <= |header| + |segments| + |payload|
    ensures CutOff(header, segments, payload, k) == header + (segments + payload[..k - |header| - |segments|])
  {
  }
}

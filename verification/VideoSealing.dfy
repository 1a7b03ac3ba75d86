/** Which samples are sealed and opened, told from the start codes and slice types of the sample alone. */
module VideoSealing {
  import opened Machine
  import opened VideoFraming
  import opened VideoEncryption

  /** Byte x starts the first slice unit of the sample. */
  ghost predicate FirstSlice(data: bytes, isSlice: u8 -> bool, x: nat) {
    && StartsNALU(data, x) && isSlice(data[x])
    && forall y: nat :: y < x && StartsNALU(data, y) ==> !isSlice(data[y])
  }

  /** The first slice unit has more than the two bytes of its header that stay in the clear. */
  ghost predicate SliceAt(data: bytes, isSlice: u8 -> bool, x: nat) {
    FirstSlice(data, isSlice, x) && x + 2 < |data|
  }

  ghost predicate HasSlice(data: bytes, isSlice: u8 -> bool) {
    exists x: nat :: SliceAt(data, isSlice, x)
  }

  /** A header found from x on belongs to a slice unit before which there is none from x on. */
  lemma {:induction false} HeaderOfSlice(data: bytes, isSlice: u8 -> bool, x: nat) returns (idx: nat)
    requires HeaderFrom(data, isSlice, x) > 0
    ensures x <= idx && HeaderFrom(data, isSlice, x) == idx + 2
    ensures StartsNALU(data, idx) && isSlice(data[idx])
    ensures forall y: nat :: x <= y < idx && StartsNALU(data, y) ==> !isSlice(data[y])
    decreases |data| - x
  {
    if StartsNALU(data, x) && isSlice(data[x]) {
      idx := x;
    } else {
      idx := HeaderOfSlice(data, isSlice, x + 1);
    }
  }

  lemma HeaderIffSlice(data: bytes, isSlice: u8 -> bool)
    ensures HasHeader(data, isSlice) <==> HasSlice(data, isSlice)
    ensures HasSlice(data, isSlice) ==> |data| >= 4
    ensures forall x: nat :: SliceAt(data, isSlice, x) ==> HeaderLength(data, isSlice) == x + 2
  {
    forall x: nat | SliceAt(data, isSlice, x) ensures HeaderLength(data, isSlice) == x + 2 {
      HeaderIs(data, isSlice, 0, x);
    }
    if HasHeader(data, isSlice) {
      var x := HeaderOfSlice(data, isSlice, 0);
      assert SliceAt(data, isSlice, x);
    }
  }

  /** What is sealed of a sample whose first slice unit starts at x. */
  function SealedFrom(sample: bytes, x: nat, kid: u8, a: Aead, iv: bytes): bytes
    requires x + 2 <= |sample|
  {
    var header := sample[..x + 2];
    header + Escaped(a.seal(iv, sample[x + 2..], header) + iv + [IV_LENGTH, kid], 0)
  }

  /**
   * A sample is sealed if and only if it has a slice unit of more than two bytes: all of it but what comes
   * up to the second byte of the first one. Every other sample is passed through as it is.
   */
  lemma SealsSlices(sample: bytes, kid: u8, a: Aead, iv: bytes, isSlice: u8 -> bool)
    ensures var r := Encrypted(sample, kid, Some(a), Some(iv), isSlice);
      && (forall x: nat :: SliceAt(sample, isSlice, x) ==> r == Sample(SealedFrom(sample, x, kid, a, iv)))
      && (!HasSlice(sample, isSlice) ==> r == Sample(sample))
    ensures Encrypted(sample, kid, Some(a), None, isSlice) ==
      if HasSlice(sample, isSlice) then Failed(NoRandomness) else Sample(sample)
    ensures Encrypted(sample, kid, None, Some(iv), isSlice) == Failed(CipherRequired)
  {
    HeaderIffSlice(sample, isSlice);
  }

  /** So is what is opened, unless the sample ends with the trailer of an injected frame. */
  lemma OpensSlices(sample: bytes, sif: Option<bytes>, a: Aead, isSlice: u8 -> bool)
    ensures var r := Decrypted(sample, sif, Some(a), isSlice);
      if |sample| >= 4 && SifMatches(sample, sif) then r == Dropped
      else
        && (!HasSlice(sample, isSlice) ==> r == Sample(sample))
        && forall x: nat :: SliceAt(sample, isSlice, x) ==>
          r == Opened(sample, sample[..x + 2], Unescaped(sample[x + 2..], 0), a)
  {
    HeaderIffSlice(sample, isSlice);
  }

  /** The bytes of an opened portion, whoever laid them out: text, iv, the length of iv, a key id. */
  function Portion(text: bytes, iv: bytes, kid: u8): bytes
    requires |iv| < 0x100
  {
    text + iv + [|iv| as u8, kid]
  }

  /**
   * Opening finds text and iv by the length in the trailer, whatever that length: it fails on an empty
   * iv or a text that is not authentic, and gives back a sample too short to have been sealed.
   */
  lemma TrailerTellsNonce(sample: bytes, header: bytes, text: bytes, iv: bytes, kid: u8, a: Aead)
    requires |iv| < 0x100
    ensures Opened(sample, header, Portion(text, iv, kid), a) ==
      if |text| + |iv| < IV_LENGTH then Sample(sample)
      else if iv == [] then Failed(NonceLength)
      else if a.open(iv, text, header).None? then Failed(NotAuthentic)
      else Sample(header + a.open(iv, text, header).value)
  {
    var portion := Portion(text, iv, kid);
    var ivStart := |portion| - 2 - |iv|;
    assert portion[|portion| - 2] == |iv|;
    assert portion[..ivStart] == text && portion[ivStart..|portion| - 2] == iv;
  }

  /** A trailer that names more bytes than there are is the one other error. */
  lemma TrailerTooLong(sample: bytes, header: bytes, portion: bytes, a: Aead)
    ensures Opened(sample, header, portion, a) == Failed(IncorrectIVLength) <==>
      |portion| >= 2 + IV_LENGTH && portion[|portion| - 2] > |portion| - 2
  {
  }

  /**
   * When a frame is dropped, too short, or without a key: its trailer counts before its key id unless it
   * is empty, and an empty one drops whatever has a key and four bytes.
   */
  lemma FrameOutcomes(provider: Keys, cipherOf: bytes -> Aead, sif: Option<bytes>, isSlice: u8 -> bool, payload: bytes)
    ensures var r := DecryptedFrame(provider, cipherOf, sif, isSlice, payload);
      var n := |payload|;
      && (r == Failed(FrameTooShort) <==> n < 2)
      && (r == Dropped <==>
           n >= 2 && SifMatches(payload, sif) && (sif != Some([]) || (n >= 4 && payload[n - 1] in provider.keys)))
      && (r == Failed(NoKey) <==>
           n >= 2 && payload[n - 1] !in provider.keys && !(sif != Some([]) && SifMatches(payload, sif)))
  {
  }

  /** The unit types of H.264 slices, whatever the three bits before them (section 7.3.1 of ITU-T H.264). */
  lemma H264SliceTypes(top: nat, unitType: nat)
    requires top < 8 && unitType < 32
    ensures IsH264Slice(32 * top + unitType) <==> unitType == 1 || unitType == 5
  {
  }

  /** Those of H.265 slices, whatever the bits around them (section 7.3.1.2 of ITU-T H.265). */
  lemma H265SliceTypes(forbidden: nat, unitType: nat, layer: nat)
    requires forbidden < 2 && unitType < 64 && layer < 2
    ensures IsH265Slice(128 * forbidden + 2 * unitType + layer) <==> unitType <= 9 || 16 <= unitType <= 21
  {
  }
}

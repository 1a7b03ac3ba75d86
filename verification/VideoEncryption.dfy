/**
 * Encrypting and decrypting whole video samples and frames. The cipher is any pair of functions in
 * which Open inverts Seal; the initialisation vector is an input.
 */
module VideoEncryption {
  import opened Machine
  import opened VideoFraming

  const IV_LENGTH: u8 := 12
  const MAX_KEY_INDEX := 255

  /** seal and open take the initialisation vector, the text and the additional data. */
  datatype Aead = Aead(seal: (bytes, bytes, bytes) -> bytes, open: (bytes, bytes, bytes) -> Option<bytes>)

  ghost predicate OpenInvertsSeal(a: Aead) {
    forall iv, text, aad {:trigger a.seal(iv, text, aad)} ::
      |iv| == IV_LENGTH ==> a.open(iv, a.seal(iv, text, aad), aad) == Some(text)
  }

  datatype Error =
    CipherRequired | NoRandomness | IncorrectIVLength | NonceLength | NotAuthentic
    | KeyIndexOutOfRange | NoKey | FrameTooShort

  /** Dropped is the nil result without an error, for a frame the server injected. */
  datatype Outcome = Sample(data: bytes) | Dropped | Failed(error: Error)

  predicate HasHeader(sample: bytes, isSlice: u8 -> bool) {
    0 < HeaderLength(sample, isSlice) < |sample|
  }

  /** Samples too short or without a slice are passed through. */
  predicate PassesThrough(sample: bytes, isSlice: u8 -> bool) {
    |sample| < 4 || !HasHeader(sample, isSlice)
  }

  predicate SifMatches(sample: bytes, sif: Option<bytes>) {
    sif.Some? && |sample| >= |sif.value| && sample[|sample| - |sif.value|..] == sif.value
  }

  function Encrypted(sample: bytes, kid: u8, cipher: Option<Aead>, iv: Option<bytes>, isSlice: u8 -> bool): Outcome {
    if cipher.None? then Failed(CipherRequired)
    else if PassesThrough(sample, isSlice) then Sample(sample)
    else if iv.None? then Failed(NoRandomness)
    else
      var u := HeaderLength(sample, isSlice);
      var text := cipher.value.seal(iv.value, sample[u..], sample[..u]);
      Sample(sample[..u] + Escaped(text + iv.value + [IV_LENGTH, kid], 0))
  }

  function Decrypted(sample: bytes, sif: Option<bytes>, cipher: Option<Aead>, isSlice: u8 -> bool): Outcome {
    if cipher.None? then Failed(CipherRequired)
    else if |sample| < 4 then Sample(sample)
    else if SifMatches(sample, sif) then Dropped
    else if !HasHeader(sample, isSlice) then Sample(sample)
    else
      var u := HeaderLength(sample, isSlice);
      Opened(sample, sample[..u], Unescaped(sample[u..], 0), cipher.value)
  }

  /** Opening an unescaped portion: text, initialisation vector, its length, key id. */
  function Opened(sample: bytes, header: bytes, portion: bytes, cipher: Aead): Outcome {
    if |portion| < 2 + IV_LENGTH then Sample(sample)
    else
      var ivLength := portion[|portion| - 2];
      if ivLength > |portion| - 2 then Failed(IncorrectIVLength)
      else if ivLength == 0 then Failed(NonceLength)
      else
        var ivStart := |portion| - 2 - ivLength;
        match cipher.open(portion[ivStart..|portion| - 2], portion[..ivStart], header)
        case None => Failed(NotAuthentic)
        case Some(plain) => Sample(header + plain)
  }

  method EncryptVideoSample(sample: bytes, kid: u8, cipher: Option<Aead>, iv: Option<bytes>, isSlice: u8 -> bool)
    returns (r: Outcome)
    ensures r == Encrypted(sample, kid, cipher, iv, isSlice)
  {
    if cipher.None? {
      return Failed(CipherRequired);
    }
    if |sample| < 4 {
      return Sample(sample);
    }
    var n := FindUnencryptedBytes(sample, isSlice);
    if n <= 0 || n >= |sample| {
      return Sample(sample);
    }
    var frameHeader, plainText := sample[..n], sample[n..];
    if iv.None? {
      return Failed(NoRandomness);
    }
    var cipherText := cipher.value.seal(iv.value, plainText, frameHeader);
    var escaped := WriteRBSP(cipherText + iv.value + [IV_LENGTH, kid]);
    return Sample(frameHeader + escaped);
  }

  method DecryptVideoSample(sample: bytes, sif: Option<bytes>, cipher: Option<Aead>, isSlice: u8 -> bool)
    returns (r: Outcome)
    ensures r == Decrypted(sample, sif, cipher, isSlice)
  {
    if cipher.None? {
      return Failed(CipherRequired);
    }
    if |sample| < 4 {
      return Sample(sample);
    }
    if SifMatches(sample, sif) {
      return Dropped;
    }
    var n := FindUnencryptedBytes(sample, isSlice);
    if n <= 0 || n >= |sample| {
      return Sample(sample);
    }
    var portion := sample[n..];
    var needs := NeedsRBSPUnescaping(portion);
    if needs {
      portion := ParseRBSP(portion);
    } else {
      NothingToUnescape(portion, 0);
    }
    return Opened(sample, sample[..n], portion, cipher.value);
  }

  // ---- Round trips ----

  /** Encrypting keeps the header where the scan finds it. */
  lemma EncryptionKeepsHeader(sample: bytes, kid: u8, a: Aead, iv: bytes, isSlice: u8 -> bool)
    requires !PassesThrough(sample, isSlice)
    ensures var u := HeaderLength(sample, isSlice);
      var enc := Encrypted(sample, kid, Some(a), Some(iv), isSlice);
      && enc.Sample? && |enc.data| > u + |iv|
      && HeaderLength(enc.data, isSlice) == u && enc.data[..u] == sample[..u]
      && Unescaped(enc.data[u..], 0) == a.seal(iv, sample[u..], sample[..u]) + iv + [IV_LENGTH, kid]
      && enc.data[|enc.data| - 1] == kid
  {
    var u := HeaderLength(sample, isSlice);
    var enc := Encrypted(sample, kid, Some(a), Some(iv), isSlice).data;
    var portion := a.seal(iv, sample[u..], sample[..u]) + iv + [IV_LENGTH, kid];
    EscapedPortion(portion, kid);
    EncryptedParts(sample[..u], portion, enc);
    HeaderFoundAgain(sample, enc, isSlice, 0);
  }

  lemma EscapedPortion(portion: bytes, kid: u8)
    requires portion != [] && portion[|portion| - 1] == kid
    ensures var escaped := Escaped(portion, 0);
      |escaped| >= |portion| && escaped[|escaped| - 1] == kid && Unescaped(escaped, 0) == portion
  {
    LastByteSurvives(portion, 0);
    UnescapeInverts(portion, 0);
    assert [] + Escaped(portion, 0) == Escaped(portion, 0) && [] + portion == portion;
  }

  lemma EncryptedParts(header: bytes, portion: bytes, enc: bytes)
    requires enc == header + Escaped(portion, 0)
    ensures enc[..|header|] == header && enc[|header|..] == Escaped(portion, 0)
  {
  }

  lemma OpenedInverts(sample: bytes, header: bytes, plain: bytes, kid: u8, a: Aead, iv: bytes)
    requires OpenInvertsSeal(a) && |iv| == IV_LENGTH
    ensures Opened(sample, header, a.seal(iv, plain, header) + iv + [IV_LENGTH, kid], a) == Sample(header + plain)
  {
    var text := a.seal(iv, plain, header);
    var portion := text + iv + [IV_LENGTH, kid];
    var ivStart := |portion| - 2 - IV_LENGTH;
    assert portion[|portion| - 2] == IV_LENGTH;
    assert portion[..ivStart] == text && portion[ivStart..|portion| - 2] == iv;
  }

  /** Decryption returns the sample, pass-through ones included, unless a trailer marks it injected. */
  lemma SampleRoundTrip(sample: bytes, kid: u8, a: Aead, iv: bytes, sif: Option<bytes>, isSlice: u8 -> bool)
    requires OpenInvertsSeal(a) && |iv| == IV_LENGTH
    ensures var enc := Encrypted(sample, kid, Some(a), Some(iv), isSlice);
      && enc.Sample?
      && Decrypted(enc.data, sif, Some(a), isSlice)
         == if |enc.data| >= 4 && SifMatches(enc.data, sif) then Dropped else Sample(sample)
  {
    if !PassesThrough(sample, isSlice) {
      EncryptionKeepsHeader(sample, kid, a, iv, isSlice);
      var u := HeaderLength(sample, isSlice);
      var enc := Encrypted(sample, kid, Some(a), Some(iv), isSlice).data;
      OpenedInverts(enc, sample[..u], sample[u..], kid, a, iv);
      assert sample[..u] + sample[u..] == sample;
    }
  }

  // ---- Frames and keys ----

  /** The key provider at the time of a call. */
  datatype Keys = Keys(current: nat, keys: map<nat, bytes>)

  class FrameEncryptor {
    const cipherOf: bytes -> Aead
    const isSlice: u8 -> bool
    var block: Aead
    var keyIndex: nat

    constructor (provider: Keys, cipherOf: bytes -> Aead, isSlice: u8 -> bool)
      requires provider.current in provider.keys
      ensures this.cipherOf == cipherOf && this.isSlice == isSlice
      ensures keyIndex == provider.current && block == cipherOf(provider.keys[provider.current])
    {
      this.cipherOf, this.isSlice := cipherOf, isSlice;
      keyIndex := provider.current;
      block := cipherOf(provider.keys[provider.current]);
    }

    /**
     * The key index is read without a lock; the cached block serves as long as the index stays. others
     * are the keys other callers rotate to before this one has the lock, later is the key provider then.
     */
    method EncryptFrame(provider: Keys, later: Keys, others: seq<(nat, bytes)>, payload: bytes, iv: Option<bytes>)
      returns (r: Outcome)
      modifies this
      ensures provider.current > MAX_KEY_INDEX ==> r == Failed(KeyIndexOutOfRange)
      ensures provider.current > MAX_KEY_INDEX || old(keyIndex) == provider.current ==>
        keyIndex == old(keyIndex) && block == old(block)
      ensures old(keyIndex) == provider.current <= MAX_KEY_INDEX ==>
        r == Encrypted(payload, provider.current, Some(old(block)), iv, isSlice)
      ensures old(keyIndex) != provider.current <= MAX_KEY_INDEX ==>
        RotatedTo(provider.current, later, RotatedBy(others, old(Cache())), Cache(), payload, iv, r)
    {
      var idx := provider.current;
      if idx > MAX_KEY_INDEX {
        return Failed(KeyIndexOutOfRange);
      }
      if keyIndex == idx {
        r := EncryptVideoSample(payload, idx, Some(block), iv, isSlice);
        return;
      }
      Others(others);
      r := RotateAndEncrypt(later, idx, payload, iv);
    }

    ghost function Cache(): (nat, Aead)
      reads this
    {
      (keyIndex, block)
    }

    /** The cache after other callers, each under the lock in turn, rotated it to those keys. */
    ghost function RotatedBy(others: seq<(nat, bytes)>, cache: (nat, Aead)): (nat, Aead) {
      if others == [] then cache
      else (others[|others| - 1].0, cipherOf(others[|others| - 1].1))
    }

    /** Under the lock: the cache, if it has come to hold the index, or else the provider's key for it. */
    ghost predicate RotatedTo(
      idx: u8, later: Keys, before: (nat, Aead), after: (nat, Aead), payload: bytes, iv: Option<bytes>, r: Outcome)
    {
      if before.0 == idx then after == before && r == Encrypted(payload, idx, Some(before.1), iv, isSlice)
      else if idx !in later.keys then after == before && r == Failed(NoKey)
      else
        && after == (idx as nat, cipherOf(later.keys[idx]))
        && r == Encrypted(payload, idx, Some(after.1), iv, isSlice)
    }

    /** What other callers do to the cache before this one has the lock. */
    method Others(others: seq<(nat, bytes)>)
      modifies this
      ensures Cache() == RotatedBy(others, old(Cache()))
    {
      for i := 0 to |others|
        invariant Cache() == RotatedBy(others[..i], old(Cache()))
      {
        keyIndex, block := others[i].0, cipherOf(others[i].1);
      }
      assert others[..|others|] == others;
    }

    /** The slow path: a second look under the lock, and a fetch if the cache still holds another index. */
    method RotateAndEncrypt(later: Keys, idx: u8, payload: bytes, iv: Option<bytes>) returns (r: Outcome)
      modifies this
      ensures RotatedTo(idx, later, old(Cache()), Cache(), payload, iv, r)
    {
      if keyIndex != idx {
        if idx !in later.keys {
          return Failed(NoKey);
        }
        block := cipherOf(later.keys[idx]);
        keyIndex := idx;
      }
      r := EncryptVideoSample(payload, idx, Some(block), iv, isSlice);
    }
  }

  /** What decrypting a frame comes to: a cipher for the key now held at the frame's key id. */
  function DecryptedFrame(
    provider: Keys, cipherOf: bytes -> Aead, sif: Option<bytes>, isSlice: u8 -> bool, payload: bytes): Outcome
  {
    if |payload| < 2 then Failed(FrameTooShort)
    else if sif != Some([]) && SifMatches(payload, sif) then Dropped
    else
      var kid := payload[|payload| - 1];
      if kid !in provider.keys then Failed(NoKey)
      else Decrypted(payload, sif, Some(cipherOf(provider.keys[kid])), isSlice)
  }

  class FrameDecryptor {
    const cipherOf: bytes -> Aead
    const isSlice: u8 -> bool
    const sif: Option<bytes>
    var cache: map<nat, (Aead, bytes)>

    ghost predicate Valid()
      reads this
    {
      forall k :: k in cache ==> cache[k].0 == cipherOf(cache[k].1)
    }

    constructor (cipherOf: bytes -> Aead, isSlice: u8 -> bool, sif: Option<bytes>)
      ensures Valid() && this.cipherOf == cipherOf && this.isSlice == isSlice && this.sif == sif
    {
      this.cipherOf, this.isSlice, this.sif := cipherOf, isSlice, sif;
      cache := map[];
    }

    /** The cache never shows: a refreshed key is noticed by its bytes. */
    method DecryptFrame(provider: Keys, payload: bytes) returns (r: Outcome)
      requires Valid()
      modifies this
      ensures Valid() && r == DecryptedFrame(provider, cipherOf, sif, isSlice, payload)
    {
      if |payload| < 2 {
        return Failed(FrameTooShort);
      }
      if sif != Some([]) && SifMatches(payload, sif) {
        return Dropped;
      }
      var kid := payload[|payload| - 1];
      if kid !in provider.keys {
        return Failed(NoKey);
      }
      var block := CachedBlock(kid, provider.keys[kid]);
      r := DecryptVideoSample(payload, sif, Some(block), isSlice);
    }

    method CachedBlock(kid: nat, currentKey: bytes) returns (block: Aead)
      requires Valid()
      modifies this
      ensures Valid() && block == cipherOf(currentKey)
      ensures kid in cache && cache[kid] == (block, currentKey)
      ensures forall k :: k in old(cache) && k != kid ==> k in cache && cache[k] == old(cache[k])
    {
      if kid in cache && cache[kid].1 == currentKey {
        return cache[kid].0;
      }
      block := cipherOf(currentKey);
      cache := cache[kid := (block, currentKey)];
    }
  }

  /**
   * A frame sealed with the key held at its key id decrypts to itself, for the key id is read back
   * from the escaped frame. A frame passed through has some other last byte there: it comes back
   * exactly when a key happens to be held at that index, and is an error otherwise.
   */
  lemma FrameRoundTrip(provider: Keys, cipherOf: bytes -> Aead, sif: Option<bytes>, isSlice: u8 -> bool,
                       payload: bytes, kid: u8, iv: bytes)
    requires kid in provider.keys && |iv| == IV_LENGTH
    requires forall key :: OpenInvertsSeal(cipherOf(key))
    requires var enc := Encrypted(payload, kid, Some(cipherOf(provider.keys[kid])), Some(iv), isSlice);
      enc.Sample? && !SifMatches(enc.data, sif)
    ensures var enc := Encrypted(payload, kid, Some(cipherOf(provider.keys[kid])), Some(iv), isSlice);
      DecryptedFrame(provider, cipherOf, sif, isSlice, enc.data) ==
        if !PassesThrough(payload, isSlice) then Sample(payload)
        else if |payload| < 2 then Failed(FrameTooShort)
        else if payload[|payload| - 1] in provider.keys then Sample(payload)
        else Failed(NoKey)
  {
    var a := cipherOf(provider.keys[kid]);
    if !PassesThrough(payload, isSlice) {
      SampleRoundTrip(payload, kid, a, iv, sif, isSlice);
      EncryptionKeepsHeader(payload, kid, a, iv, isSlice);
    } else if |payload| >= 2 && payload[|payload| - 1] in provider.keys {
      var b := cipherOf(provider.keys[payload[|payload| - 1]]);
      assert Encrypted(payload, kid, Some(b), Some(iv), isSlice) == Sample(payload);
      SampleRoundTrip(payload, kid, b, iv, sif, isSlice);
    }
  }
}

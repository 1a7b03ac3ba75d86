/**
 * End-to-end encrypted H.264 and H.265 samples: RBSP escaping and the NALU scan that locates the
 * header left in the clear.
 */
module VideoFraming {
  import opened Machine

  type bytes = seq<u8>

  // ---- RBSP escaping ----

  /** The escaped form of data after zeros consecutive zero bytes. */
  function Escaped(data: bytes, zeros: nat): bytes {
    if data == [] then []
    else if data[0] <= 3 && zeros >= 2 then [3, data[0]] + Escaped(data[1..], if data[0] == 0 then 1 else 0)
    else [data[0]] + Escaped(data[1..], if data[0] == 0 then zeros + 1 else 0)
  }

  predicate EscapeAt(data: bytes, i: nat) {
    i + 2 < |data| && data[i] == 0 && data[i+1] == 0 && data[i+2] == 3
  }

  /** The bytes unescaped from index i on. */
  function Unescaped(data: bytes, i: nat): bytes
    requires i <= |data|
    decreases |data| - i
  {
    if i == |data| then []
    else if EscapeAt(data, i) then [0, 0] + Unescaped(data, i + 3)
    else [data[i]] + Unescaped(data, i + 1)
  }

  ghost predicate HasEscape(data: bytes) {
    exists i :: EscapeAt(data, i)
  }

  /** Three bytes a decoder would take for a start code or its prefix (section 7.4.1 of ITU-T H.264). */
  predicate StartCodeAt(data: bytes, i: nat) {
    i + 2 < |data| && data[i] == 0 && data[i+1] == 0 && data[i+2] <= 2
  }

  ghost predicate StartCodeFree(data: bytes) {
    forall i: nat :: !StartCodeAt(data, i)
  }

  method WriteRBSP(data: bytes) returns (out: bytes)
    ensures out == Escaped(data, 0)
  {
    var zeros := 0;
    out := [];
    for i := 0 to |data|
      invariant out + Escaped(data[i..], zeros) == Escaped(data, 0)
    {
      var b := data[i];
      EscapedOneMore(out, data, i, zeros);
      if b <= 3 && zeros >= 2 {
        out := out + [3];
        zeros := 0;
      }
      out := out + [b];
      zeros := if b == 0 then zeros + 1 else 0;
    }
  }

  lemma EscapedOneMore(out: bytes, data: bytes, i: nat, zeros: nat)
    requires i < |data|
    ensures var b := data[i];
      out + Escaped(data[i..], zeros) ==
        if b <= 3 && zeros >= 2 then out + [3] + [b] + Escaped(data[i + 1..], if b == 0 then 1 else 0)
        else out + [b] + Escaped(data[i + 1..], if b == 0 then zeros + 1 else 0)
  {
    assert data[i..][1..] == data[i + 1..];
  }

  method ParseRBSP(data: bytes) returns (out: bytes)
    ensures out == Unescaped(data, 0)
  {
    out := [];
    var i := 0;
    while i < |data|
      invariant i <= |data| && out + Unescaped(data, i) == Unescaped(data, 0)
    {
      if EscapeAt(data, i) {
        out := out + [0, 0];
        i := i + 3;
      } else {
        out := out + [data[i]];
        i := i + 1;
      }
    }
  }

  method NeedsRBSPUnescaping(data: bytes) returns (needs: bool)
    ensures needs <==> HasEscape(data)
  {
    var i := 0;
    while i < |data| - 2
      invariant forall j: nat :: j < i ==> !EscapeAt(data, j)
    {
      if EscapeAt(data, i) {
        return true;
      }
      i := i + 1;
    }
    return false;
  }

  // ---- Laws of the escaping ----

  function Zeros(n: nat): bytes {
    if n == 0 then [] else if n == 1 then [0] else [0, 0]
  }

  lemma EscapeShift(prefix: bytes, data: bytes, i: nat)
    requires i < |data|
    ensures EscapeAt(prefix + data, |prefix| + i) <==> EscapeAt(data, i)
    ensures (prefix + data)[|prefix| + i] == data[i]
  {
  }

  lemma {:induction false} UnescapedShift(prefix: bytes, data: bytes, i: nat)
    requires i <= |data|
    ensures Unescaped(prefix + data, |prefix| + i) == Unescaped(data, i)
    decreases |data| - i
  {
    if i < |data| {
      EscapeShift(prefix, data, i);
      UnescapedShift(prefix, data, if EscapeAt(data, i) then i + 3 else i + 1);
    }
  }

  /** A prefix without zeros in its last byte does not interact with what follows. */
  lemma UnescapedPrefix(prefix: bytes, data: bytes)
    requires prefix == [0, 0, 3] || (prefix != [] && |prefix| <= 3 && prefix[|prefix| - 1] != 0)
    requires |prefix| == 3 ==> prefix[..2] == [0, 0]
    ensures Unescaped(prefix + data, 0) == (if prefix == [0, 0, 3] then [0, 0] else prefix) + Unescaped(data, 0)
  {
    var all := prefix + data;
    UnescapedShift(prefix, data, 0);
    assert forall i :: 0 <= i < |prefix| ==> all[i] == prefix[i];
    if prefix == [0, 0, 3] {
      assert EscapeAt(all, 0);
    } else if |prefix| == 1 {
      assert !EscapeAt(all, 0);
    } else if |prefix| == 2 {
      assert !EscapeAt(all, 0) && !EscapeAt(all, 1);
      assert Unescaped(all, 0) == [all[0]] + ([all[1]] + Unescaped(all, 2));
    } else {
      assert !EscapeAt(all, 0) && !EscapeAt(all, 1) && !EscapeAt(all, 2);
      assert Unescaped(all, 1) == [all[1]] + ([all[2]] + Unescaped(all, 3));
      assert Unescaped(all, 0) == [all[0]] + Unescaped(all, 1);
    }
  }

  /** How one more byte is escaped. */
  datatype Step = Held | Stuffed | StuffedLast | Plain

  function StepOf(b: u8, zeros: nat): Step {
    if zeros >= 2 && b <= 3 then (if b == 0 then Stuffed else StuffedLast)
    else if b == 0 then Held else Plain
  }

  /** The bytes a step settles, and the zeros it leaves in front of the rest. */
  function Settles(b: u8, zeros: nat): bytes {
    match StepOf(b, zeros)
    case Held => []
    case Stuffed => [0, 0, 3]
    case StuffedLast => [0, 0, 3, b]
    case Plain => Zeros(zeros) + [b]
  }

  function Leaves(b: u8, zeros: nat): nat {
    match StepOf(b, zeros)
    case Held => zeros + 1
    case Stuffed => 1
    case StuffedLast => 0
    case Plain => 0
  }

  lemma EscapedStep(data: bytes, zeros: nat)
    requires data != [] && zeros <= 2
    ensures Leaves(data[0], zeros) <= 2
    ensures Zeros(zeros) + Escaped(data, zeros)
      == Settles(data[0], zeros) + (Zeros(Leaves(data[0], zeros)) + Escaped(data[1..], Leaves(data[0], zeros)))
  {
    var rest := Escaped(data[1..], Leaves(data[0], zeros));
    assert Escaped(data, zeros) == Written(data[0], zeros) + rest;
    StepBytes(data[0], zeros, rest);
  }

  /** The bytes a step writes. */
  function Written(b: u8, zeros: nat): bytes {
    if b <= 3 && zeros >= 2 then [3, b] else [b]
  }

  lemma StepBytes(b: u8, zeros: nat, rest: bytes)
    requires zeros <= 2
    ensures Zeros(zeros) + (Written(b, zeros) + rest) == Settles(b, zeros) + (Zeros(Leaves(b, zeros)) + rest)
  {
  }

  /** Unescaping inverts escaping, up to two zero bytes having been written before. */
  lemma {:induction false} UnescapeInverts(data: bytes, zeros: nat)
    requires zeros <= 2
    ensures Unescaped(Zeros(zeros) + Escaped(data, zeros), 0) == Zeros(zeros) + data
    decreases |data|
  {
    if data == [] {
      assert Zeros(zeros) + Escaped(data, zeros) == Zeros(zeros) == Zeros(zeros) + data;
      UnescapedZeros(zeros);
    } else {
      EscapedStep(data, zeros);
      var next := Leaves(data[0], zeros);
      UnescapeInverts(data[1..], next);
      UnescapeStep(data[0], zeros, Zeros(next) + Escaped(data[1..], next), data[1..]);
      assert data == [data[0]] + data[1..];
    }
  }

  lemma UnescapeStep(b: u8, zeros: nat, rest: bytes, tail: bytes)
    requires zeros <= 2 && Unescaped(rest, 0) == Zeros(Leaves(b, zeros)) + tail
    ensures Unescaped(Settles(b, zeros) + rest, 0) == Zeros(zeros) + ([b] + tail)
  {
    match StepOf(b, zeros)
    case Held =>
      assert [] + rest == rest;
    case Stuffed =>
      UnescapedPrefix([0, 0, 3], rest);
    case StuffedLast => UnescapeStuffedLast(b, rest, tail);
    case Plain => UnescapePlain(b, zeros, rest, tail);
  }

  lemma UnescapeStuffedLast(b: u8, rest: bytes, tail: bytes)
    requires b > 0 && Unescaped(rest, 0) == [] + tail
    ensures Unescaped([0, 0, 3, b] + rest, 0) == [0, 0] + ([b] + tail)
  {
    assert [0, 0, 3, b] + rest == [0, 0, 3] + ([b] + rest);
    UnescapedPrefix([0, 0, 3], [b] + rest);
    UnescapedPrefix([b], rest);
  }

  lemma UnescapePlain(b: u8, zeros: nat, rest: bytes, tail: bytes)
    requires zeros <= 2 && b > 0 && (zeros == 2 ==> b > 3) && Unescaped(rest, 0) == [] + tail
    ensures Unescaped(Zeros(zeros) + [b] + rest, 0) == Zeros(zeros) + ([b] + tail)
  {
    UnescapedPrefix(Zeros(zeros) + [b], rest);
  }

  lemma UnescapedZeros(zeros: nat)
    requires zeros <= 2
    ensures Unescaped(Zeros(zeros), 0) == Zeros(zeros)
  {
    if zeros == 2 {
      assert Unescaped([0, 0], 1) == [0] + Unescaped([0, 0], 2);
    }
  }

  /** No start code and no start code prefix survives escaping. */
  lemma {:induction false} EscapedIsStartCodeFree(data: bytes, zeros: nat)
    requires zeros <= 2
    ensures StartCodeFree(Zeros(zeros) + Escaped(data, zeros))
    decreases |data|
  {
    if data == [] {
      assert Zeros(zeros) + Escaped(data, zeros) == Zeros(zeros);
    } else {
      EscapedStep(data, zeros);
      var next := Leaves(data[0], zeros);
      EscapedIsStartCodeFree(data[1..], next);
      StartCodeFreeAfter(Settles(data[0], zeros), Zeros(next) + Escaped(data[1..], next));
    }
  }

  /** A prefix that ends in a nonzero byte, or in nothing, keeps the rest free of start codes. */
  lemma StartCodeFreeAfter(prefix: bytes, rest: bytes)
    requires StartCodeFree(rest) && StartCodeFree(prefix)
    requires prefix != [] ==> prefix[|prefix| - 1] != 0
    ensures StartCodeFree(prefix + rest)
  {
    forall i: nat ensures !StartCodeAt(prefix + rest, i) {
      if i >= |prefix| {
        assert StartCodeAt(prefix + rest, i) <==> StartCodeAt(rest, i - |prefix|);
      } else {
        assert StartCodeAt(prefix, i) || prefix[|prefix| - 1] != 0;
      }
    }
  }

  /** Two zero bytes and a byte of at most 3: what escaping breaks up. */
  predicate NeedsEscapeAt(data: bytes, i: nat) {
    i + 2 < |data| && data[i] == 0 && data[i+1] == 0 && data[i+2] <= 3
  }

  /** Nothing else is escaped: bytes without such a place stay as they are. */
  lemma {:induction false} NothingToEscape(data: bytes, zeros: nat)
    requires zeros <= 2 && forall i: nat :: !NeedsEscapeAt(Zeros(zeros) + data, i)
    ensures Escaped(data, zeros) == data
    decreases |data|
  {
    if data == [] {
    } else {
      var all := Zeros(zeros) + data;
      assert zeros == 2 ==> !NeedsEscapeAt(all, 0);
      var next := if data[0] == 0 then zeros + 1 else 0;
      EscapesLater(data, zeros, next);
      NothingToEscape(data[1..], next);
    }
  }

  lemma EscapesLater(data: bytes, zeros: nat, next: nat)
    requires zeros <= 2 && data != [] && next == (if data[0] == 0 then zeros + 1 else 0) && next <= 2
    requires forall i: nat :: !NeedsEscapeAt(Zeros(zeros) + data, i)
    ensures forall i: nat :: !NeedsEscapeAt(Zeros(next) + data[1..], i)
  {
    var all, rest := Zeros(zeros) + data, Zeros(next) + data[1..];
    var skipped := zeros + 1 - next;
    forall i: nat ensures !NeedsEscapeAt(rest, i) {
      assert NeedsEscapeAt(rest, i) ==> NeedsEscapeAt(all, i + skipped);
    }
  }

  /** The last byte is never escaped away, so a trailing key id can be read from the escaped form. */
  lemma {:induction false} LastByteSurvives(data: bytes, zeros: nat)
    requires data != []
    ensures |Escaped(data, zeros)| >= |data|
    ensures Escaped(data, zeros)[|Escaped(data, zeros)| - 1] == data[|data| - 1]
  {
    if |data| > 1 {
      LastByteSurvives(data[1..], if data[0] <= 3 && zeros >= 2 then (if data[0] == 0 then 1 else 0)
                                  else if data[0] == 0 then zeros + 1 else 0);
    }
  }

  /** Skipping the unescape of data without an escape changes nothing. */
  lemma {:induction false} NothingToUnescape(data: bytes, i: nat)
    requires i <= |data| && !HasEscape(data)
    ensures Unescaped(data, i) == data[i..]
    decreases |data| - i
  {
    if i < |data| {
      assert !EscapeAt(data, i);
      NothingToUnescape(data, i + 1);
    }
  }

  /** Two zero bytes and an emulation prevention byte (section 7.4.1 of ITU-T H.264). */
  predicate EmulationAt(data: bytes, i: nat) {
    i + 2 < |data| && data[i] == 0 && data[i+1] == 0 && data[i+2] == 3
  }

  /**
   * Unescaping removes the third byte of the first 00 00 03, whatever follows it, and goes on behind it;
   * bytes without one it leaves as they are.
   */
  lemma UnescapesFirst(before: bytes, after: bytes)
    requires forall j: nat :: j < |before| ==> !EmulationAt(before + [0, 0, 3] + after, j)
    ensures Unescaped(before + [0, 0, 3] + after, 0) == before + [0, 0] + Unescaped(after, 0)
  {
    var data := before + [0, 0, 3] + after;
    forall j: nat | j < |before| ensures !EscapeAt(data, j) {
      assert !EmulationAt(data, j);
    }
    UnescapedUpTo(data, 0, |before|);
    EscapeThere(before, after, data);
    UnescapedShift(before + [0, 0, 3], after, 0);
  }

  lemma EscapeThere(before: bytes, after: bytes, data: bytes)
    requires data == before + [0, 0, 3] + after
    ensures EscapeAt(data, |before|) && data[0..|before|] == before
  {
  }

  lemma UnescapesNothing(data: bytes)
    requires forall j: nat :: !EmulationAt(data, j)
    ensures Unescaped(data, 0) == data
  {
    forall j: nat ensures !EscapeAt(data, j) {
      assert !EmulationAt(data, j);
    }
    NothingToUnescape(data, 0);
  }

  lemma {:induction false} UnescapedUpTo(data: bytes, x: nat, i: nat)
    requires x <= i <= |data| && forall j: nat :: j < i ==> !EscapeAt(data, j)
    ensures Unescaped(data, x) == data[x..i] + Unescaped(data, i)
    decreases i - x
  {
    if x < i {
      UnescapedUpTo(data, x + 1, i);
    }
  }

  // ---- The NALU scan ----

  /** Byte x is the first after a start code 00 00 01; the four-byte form ends in one. */
  predicate StartsNALU(data: bytes, x: nat) {
    3 <= x < |data| && data[x-3] == 0 && data[x-2] == 0 && data[x-1] == 1
  }

  method FindNALUIndices(data: bytes) returns (indices: seq<nat>)
    ensures forall x: nat :: x in indices <==> StartsNALU(data, x)
    ensures forall j, k :: 0 <= j < k < |indices| ==> indices[j] < indices[k]
  {
    indices := [];
    var i := 0;
    while i < |data| - 3
      invariant i <= |data|
      invariant forall x :: x in indices ==> StartsNALU(data, x) && x <= i
      invariant forall x: nat :: StartsNALU(data, x) && x !in indices ==> x >= i + 3
      invariant forall j, k :: 0 <= j < k < |indices| ==> indices[j] < indices[k]
      invariant forall j :: 0 <= j < |indices| ==> indices[j] <= i
    {
      if i < |data| - 4 && data[i] == 0 && data[i+1] == 0 && data[i+2] == 0 && data[i+3] == 1 {
        assert forall x :: x in indices ==> x < i + 4;
        indices := indices + [i + 4];
        i := i + 4;
        continue;
      }
      if data[i] == 0 && data[i+1] == 0 && data[i+2] == 1 {
        assert forall x :: x in indices ==> x < i + 3;
        indices := indices + [i + 3];
        i := i + 3;
        continue;
      }
      i := i + 1;
    }
  }

  /** How many bytes stay in the clear: through the second byte of the first slice NALU, or -1. */
  function HeaderLength(data: bytes, isSlice: u8 -> bool): int {
    HeaderFrom(data, isSlice, 0)
  }

  function HeaderFrom(data: bytes, isSlice: u8 -> bool, x: nat): int
    decreases |data| - x
  {
    if x >= |data| then -1
    else if StartsNALU(data, x) && isSlice(data[x]) then x + 2
    else HeaderFrom(data, isSlice, x + 1)
  }

  predicate IsH264Slice(b: u8) {
    b % 32 == 1 || b % 32 == 5
  }

  predicate IsH265Slice(b: u8) {
    var naluType := b / 2 % 64;
    naluType <= 9 || 16 <= naluType <= 21
  }

  method FindUnencryptedBytes(data: bytes, isSlice: u8 -> bool) returns (n: int)
    ensures n == HeaderLength(data, isSlice)
  {
    var indices := FindNALUIndices(data);
    for k := 0 to |indices|
      invariant forall j :: 0 <= j < k ==> StartsNALU(data, indices[j]) && !isSlice(data[indices[j]])
    {
      var idx := indices[k];
      assert idx in indices;
      if isSlice(data[idx]) {
        forall x: nat | x < idx && StartsNALU(data, x) ensures !isSlice(data[x]) {
          var j :| 0 <= j < |indices| && indices[j] == x;
        }
        HeaderIs(data, isSlice, 0, idx);
        return idx + 2;
      }
    }
    NoHeader(data, isSlice, 0);
    return -1;
  }

  method FindH264UnencryptedBytes(data: bytes) returns (n: int)
    ensures n == HeaderLength(data, IsH264Slice)
  {
    n := FindUnencryptedBytes(data, IsH264Slice);
  }

  method FindH265UnencryptedBytes(data: bytes) returns (n: int)
    ensures n == HeaderLength(data, IsH265Slice)
  {
    n := FindUnencryptedBytes(data, IsH265Slice);
  }

  lemma {:induction false} HeaderIs(data: bytes, isSlice: u8 -> bool, x: nat, idx: nat)
    requires x <= idx && StartsNALU(data, idx) && isSlice(data[idx])
    requires forall y: nat :: x <= y < idx && StartsNALU(data, y) ==> !isSlice(data[y])
    ensures HeaderFrom(data, isSlice, x) == idx + 2
    decreases idx - x
  {
    if x < idx {
      HeaderIs(data, isSlice, x + 1, idx);
    }
  }

  lemma {:induction false} NoHeader(data: bytes, isSlice: u8 -> bool, x: nat)
    requires forall y: nat :: x <= y && StartsNALU(data, y) ==> !isSlice(data[y])
    ensures HeaderFrom(data, isSlice, x) == -1
    decreases |data| - x
  {
    if x < |data| {
      NoHeader(data, isSlice, x + 1);
    }
  }

  /** The header is found again in any bytes that keep it and go on after it. */
  lemma {:induction false} HeaderFoundAgain(data: bytes, other: bytes, isSlice: u8 -> bool, x: nat)
    requires 0 < HeaderFrom(data, isSlice, x) <= |data| && HeaderFrom(data, isSlice, x) <= |other|
    requires other[..HeaderFrom(data, isSlice, x)] == data[..HeaderFrom(data, isSlice, x)]
    ensures HeaderFrom(other, isSlice, x) == HeaderFrom(data, isSlice, x)
    decreases |data| - x
  {
    HeaderBeyond(data, isSlice, x);
    var u := HeaderFrom(data, isSlice, x);
    assert forall i :: 0 <= i < u ==> other[i] == other[..u][i] == data[..u][i] == data[i];
    assert StartsNALU(other, x) <==> StartsNALU(data, x);
    if !(StartsNALU(data, x) && isSlice(data[x])) {
      HeaderFoundAgain(data, other, isSlice, x + 1);
    }
  }

  lemma {:induction false} HeaderBeyond(data: bytes, isSlice: u8 -> bool, x: nat)
    requires HeaderFrom(data, isSlice, x) > 0
    ensures HeaderFrom(data, isSlice, x) >= x + 2
    decreases |data| - x
  {
    if !(StartsNALU(data, x) && isSlice(data[x])) {
      HeaderBeyond(data, isSlice, x + 1);
    }
  }
}

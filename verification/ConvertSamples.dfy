// Changing the byte width of audio samples inside one buffer: little-endian, with
// 32-bit longs and signed chars.
module ConvertSamples {
  type byte = bv8
  type long = bv32

  // -------------------------------------------------------------- what is computed

  /** Byte j of sample k, for samples of w bytes. */
  function At(s: seq<byte>, w: int, k: int, j: int): byte
    requires 0 <= w * k + j < |s|
  {
    s[w * k + j]
  }

  function Kept(frames: int): (n: int)
    ensures n >= 0
  {
    if frames < 0 then 0 else frames
  }

  /** Sample k keeps its most significant bytes; new low bytes are zero. */
  predicate Resized(before: seq<byte>, after: seq<byte>, from: int, to: int, k: int)
    requires 0 < from <= 4 && 0 < to <= 4 && 0 <= k && from * k + from <= |before| && to * k + to <= |after|
  {
    forall j {:trigger At(after, to, k, j)} :: 0 <= j < to ==>
      At(after, to, k, j) == if j < to - from then 0 else At(before, from, k, j + from - to)
  }

  predicate Fits(s: seq<byte>, from: int, to: int, n: int) {
    0 < from <= 4 && 0 < to <= 4 && 0 <= n && from * n <= |s| && to * n <= |s|
  }

  ghost predicate AllResized(before: seq<byte>, s: seq<byte>, from: int, to: int, lo: int, hi: int)
    requires |s| == |before| && Fits(s, from, to, hi)
  {
    forall k :: 0 <= lo <= k < hi && from * k + from <= |s| && to * k + to <= |s| ==> Resized(before, s, from, to, k)
  }

  /** The first `frames` samples are resized as if into a separate buffer, and no other byte changes. */
  ghost predicate Converted(before: seq<byte>, after: seq<byte>, frames: int, from: int, to: int) {
    && |after| == |before| && Fits(before, from, to, Kept(frames))
    && AllResized(before, after, from, to, 0, Kept(frames))
    && (forall i :: to * Kept(frames) <= i < |after| ==> after[i] == before[i])
  }

  // ------------------------------------------------------------- longs, bit by bit

  function Extended(b: byte): long {
    if b & 0x80 == 0 then b as long else b as long | 0xFFFF_FF00
  }

  /** A short, loaded low byte first and sign-extended. */
  function ExtendedShort(lo: byte, hi: byte): long {
    (Extended(hi) << 8) | lo as long
  }

  function Load(b0: byte, b1: byte, b2: byte, b3: byte): long {
    b0 as long | (b1 as long << 8) | (b2 as long << 16) | (b3 as long << 24)
  }

  function Char(x: long): byte {
    (x & 0xFF) as byte
  }

  /** The arithmetic shift right of a signed long. */
  function Sar8(x: long): long {
    (x >> 8) | if x & 0x8000_0000 == 0 then 0 else 0xFF00_0000
  }

  /** The bytes of a long in memory, low byte first. */
  function Stored(x: long): (byte, byte, byte, byte) {
    (Char(x), Char(x >> 8), Char(x >> 16), Char(x >> 24))
  }

  /** Masking each shifted char before it is joined leaves no trace of the others' sign bits. */
  lemma AssembledLong(c: byte, b: byte, a: byte)
    ensures Stored(((Extended(a) << 24) | ((Extended(b) << 16) & 0x00FF_0000)) | ((Extended(c) << 8) & 0x0000_FF00))
            == (0, c, b, a)
  {
  }

  lemma ShiftedLong(b0: byte, b1: byte, b2: byte, b3: byte)
    ensures var a := Sar8(Load(b0, b1, b2, b3));
            (Char(a), Char(Sar8(a)), Char(Sar8(Sar8(a)))) == (b1, b2, b3)
  {
  }

  lemma ShiftedShort(lo: byte, hi: byte)
    ensures Stored(ExtendedShort(lo, hi) << 16) == (0, 0, lo, hi)
  {
  }

  // -------------------------------------------------------------- proving the loops

  lemma SampleFits(s: seq<byte>, w: int, n: int, k: int)
    requires 0 < w <= 4 && 0 <= k < n && w * n <= |s|
    ensures 0 <= w * k && w * k + w <= |s| && w * k + w <= w * n
  {
  }

  ghost predicate OnlySample(s: seq<byte>, t: seq<byte>, w: int, k: int) {
    |s| == |t| && forall i :: 0 <= i < |s| && !(w * k <= i < w * k + w) ==> s[i] == t[i]
  }

  lemma StaysResized(before: seq<byte>, s: seq<byte>, t: seq<byte>, from: int, to: int, written: int, k: int)
    requires |s| == |before| && 0 < from <= 4 && 0 < to <= 4 && 0 <= k && from * k + from <= |s| && to * k + to <= |s|
    requires OnlySample(s, t, to, written) && k != written && Resized(before, s, from, to, k)
    ensures Resized(before, t, from, to, k)
  {
    forall j {:trigger At(t, to, k, j)} | 0 <= j < to
      ensures At(t, to, k, j) == At(s, to, k, j)
    {
      if to == 1 {} else if to == 2 {} else if to == 3 {} else {}
    }
  }

  lemma NothingResized(s: seq<byte>, from: int, to: int, n: int)
    requires Fits(s, from, to, n)
    ensures AllResized(s, s, from, to, n, n)
  {
  }

  /** Converting one more sample, at either end of the ones done. */
  lemma OneMore(before: seq<byte>, s: seq<byte>, t: seq<byte>, from: int, to: int, lo: int, hi: int, n: int, k: int)
    requires |s| == |before| && Fits(s, from, to, n) && 0 <= lo <= hi <= n && Fits(s, from, to, hi)
    requires AllResized(before, s, from, to, lo, hi) && OnlySample(s, t, to, k)
    requires 0 <= k < n && (k == lo - 1 || k == hi) && from * k + from <= |s| && to * k + to <= |s|
    requires Resized(before, t, from, to, k)
    ensures Fits(t, from, to, if k == hi then hi + 1 else hi)
    ensures AllResized(before, t, from, to, if k == hi then lo else k, if k == hi then hi + 1 else hi)
  {
    var lo', hi' := if k == hi then lo else k, if k == hi then hi + 1 else hi;
    SampleFits(s, from, n, k);
    SampleFits(s, to, n, k);
    forall i | lo' <= i < hi' && from * i + from <= |s| && to * i + to <= |s|
      ensures Resized(before, t, from, to, i)
    {
      if i != k { StaysResized(before, s, t, from, to, k, i); }
    }
  }

  // ------------------------------------------------------------- widening, backwards

  method Int16To24InPlace(buffer: array<byte>, frames: int)
    requires 3 * Kept(frames) <= buffer.Length
    modifies buffer
    ensures Converted(old(buffer[..]), buffer[..], frames, 2, 3)
  {
    hide AllResized;
    ghost var before := buffer[..];
    NothingResized(before, 2, 3, Kept(frames));
    var input, output, left := frames * 2, frames * 3, frames - 1;
    while left >= 0
      invariant left < frames && input == 2 * (left + 1) && output == 3 * (left + 1)
      invariant AllResized(before, buffer[..], 2, 3, Kept(left + 1), Kept(frames))
      invariant forall i :: 0 <= i < buffer.Length && (i < output || 3 * frames <= i) ==> buffer[i] == before[i]
    {
      ghost var was := buffer[..];
      output, input := output - 3, input - 2;
      buffer[output + 2] := buffer[input + 1];
      buffer[output + 1] := buffer[input];
      buffer[output] := 0;
      assert At(buffer[..], 3, left, 0) == 0 && At(buffer[..], 3, left, 1) == At(before, 2, left, 0)
             && At(buffer[..], 3, left, 2) == At(before, 2, left, 1);
      OneMore(before, was, buffer[..], 2, 3, left + 1, frames, frames, left);
      left := left - 1;
    }
  }

  method Int24To32InPlace(buffer: array<byte>, frames: int)
    requires 4 * Kept(frames) <= buffer.Length
    modifies buffer
    ensures Converted(old(buffer[..]), buffer[..], frames, 3, 4)
  {
    hide AllResized;
    ghost var before := buffer[..];
    NothingResized(before, 3, 4, Kept(frames));
    var input, output, left := frames * 3, frames * 4, frames - 1;
    while left >= 0
      invariant left < frames && input == 3 * (left + 1) && output == 4 * (left + 1)
      invariant AllResized(before, buffer[..], 3, 4, Kept(left + 1), Kept(frames))
      invariant forall i :: 0 <= i < buffer.Length && (i < output || 4 * frames <= i) ==> buffer[i] == before[i]
    {
      ghost var was := buffer[..];
      var a := Assemble(buffer[input - 3], buffer[input - 2], buffer[input - 1]);
      output := output - 4;
      Store(buffer, output, a);
      input := input - 3;
      assert At(buffer[..], 4, left, 0) == 0 && At(buffer[..], 4, left, 1) == At(before, 3, left, 0)
             && At(buffer[..], 4, left, 2) == At(before, 3, left, 1)
                && At(buffer[..], 4, left, 3) == At(before, 3, left, 2);
      OneMore(before, was, buffer[..], 3, 4, left + 1, frames, frames, left);
      left := left - 1;
    }
  }

  method Int16To32InPlace(buffer: array<byte>, frames: int)
    requires 4 * Kept(frames) <= buffer.Length
    modifies buffer
    ensures Converted(old(buffer[..]), buffer[..], frames, 2, 4)
  {
    hide AllResized;
    ghost var before := buffer[..];
    NothingResized(before, 2, 4, Kept(frames));
    var input, output, left := frames * 2, frames * 4, frames - 1;
    while left >= 0
      invariant left < frames && input == 2 * (left + 1) && output == 4 * (left + 1)
      invariant AllResized(before, buffer[..], 2, 4, Kept(left + 1), Kept(frames))
      invariant forall i :: 0 <= i < buffer.Length && (i < output || 4 * frames <= i) ==> buffer[i] == before[i]
    {
      ghost var was := buffer[..];
      output, input := output - 4, input - 2;
      var a := ShiftUp(buffer[input], buffer[input + 1]);
      Store(buffer, output, a);
      assert At(buffer[..], 4, left, 0) == 0 && At(buffer[..], 4, left, 1) == 0
             && At(buffer[..], 4, left, 2) == At(before, 2, left, 0)
                && At(buffer[..], 4, left, 3) == At(before, 2, left, 1);
      OneMore(before, was, buffer[..], 2, 4, left + 1, frames, frames, left);
      left := left - 1;
    }
  }

  method Assemble(lsb: byte, mid: byte, msb: byte) returns (a: long)
    ensures Stored(a) == (0, lsb, mid, msb)
  {
    a := Extended(msb) << 24;
    var b := (Extended(mid) << 16) & 0x00FF_0000;
    a := a | b;
    var c := (Extended(lsb) << 8) & 0x0000_FF00;
    a := a | c;
    AssembledLong(lsb, mid, msb);
  }

  method ShiftUp(lo: byte, hi: byte) returns (a: long)
    ensures Stored(a) == (0, 0, lo, hi)
  {
    a := ExtendedShort(lo, hi) << 16;
    ShiftedShort(lo, hi);
  }

  method Store(buffer: array<byte>, at: nat, x: long)
    requires at + 4 <= buffer.Length
    modifies buffer
    ensures (buffer[at], buffer[at + 1], buffer[at + 2], buffer[at + 3]) == Stored(x)
    ensures forall i :: 0 <= i < buffer.Length && !(at <= i < at + 4) ==> buffer[i] == old(buffer[i])
  {
    buffer[at], buffer[at + 1], buffer[at + 2], buffer[at + 3] := Char(x), Char(x >> 8), Char(x >> 16), Char(x >> 24);
  }

  // ------------------------------------------------------------- narrowing, forwards

  method Int24To16InPlace(buffer: array<byte>, frames: int)
    requires 3 * Kept(frames) <= buffer.Length
    modifies buffer
    ensures Converted(old(buffer[..]), buffer[..], frames, 3, 2)
  {
    hide AllResized;
    ghost var before := buffer[..];
    NothingResized(before, 3, 2, 0);
    var input, output, left := 0, 0, frames - 1;
    ghost var k := 0;
    while left >= 0
      invariant k == Kept(frames) - Kept(left + 1) && input == 3 * k && output == 2 * k
      invariant AllResized(before, buffer[..], 3, 2, 0, k)
      invariant forall i :: output <= i < buffer.Length ==> buffer[i] == before[i]
    {
      ghost var was := buffer[..];
      buffer[output] := buffer[input + 1];
      buffer[output + 1] := buffer[input + 2];
      assert At(buffer[..], 2, k, 0) == At(before, 3, k, 1) && At(buffer[..], 2, k, 1) == At(before, 3, k, 2);
      OneMore(before, was, buffer[..], 3, 2, 0, k, frames, k);
      input, output, left, k := input + 3, output + 2, left - 1, k + 1;
    }
  }

  method Store24(buffer: array<byte>, at: nat, x: long)
    requires at + 3 <= buffer.Length
    modifies buffer
    ensures (buffer[at], buffer[at + 1], buffer[at + 2]) == (Char(x), Char(Sar8(x)), Char(Sar8(Sar8(x))))
    ensures forall i :: 0 <= i < buffer.Length && !(at <= i < at + 3) ==> buffer[i] == old(buffer[i])
  {
    var a := x;
    buffer[at] := Char(a);
    a := Sar8(a);
    buffer[at + 1] := Char(a);
    a := Sar8(a);
    buffer[at + 2] := Char(a);
  }

  method Int32To24InPlace(buffer: array<byte>, frames: int)
    requires 4 * Kept(frames) <= buffer.Length
    modifies buffer
    ensures Converted(old(buffer[..]), buffer[..], frames, 4, 3)
  {
    hide AllResized;
    ghost var before := buffer[..];
    NothingResized(before, 4, 3, 0);
    var input, output, left := 0, 0, frames - 1;
    ghost var k := 0;
    while left >= 0
      invariant k == Kept(frames) - Kept(left + 1) && input == 4 * k && output == 3 * k
      invariant AllResized(before, buffer[..], 4, 3, 0, k)
      invariant forall i :: output <= i < buffer.Length ==> buffer[i] == before[i]
    {
      ghost var was := buffer[..];
      ShiftedLong(buffer[input], buffer[input + 1], buffer[input + 2], buffer[input + 3]);
      Store24(buffer, output, Sar8(Load(buffer[input], buffer[input + 1], buffer[input + 2], buffer[input + 3])));
      assert At(buffer[..], 3, k, 0) == At(before, 4, k, 1) && At(buffer[..], 3, k, 1) == At(before, 4, k, 2)
             && At(buffer[..], 3, k, 2) == At(before, 4, k, 3);
      OneMore(before, was, buffer[..], 4, 3, 0, k, frames, k);
      input, output, left, k := input + 4, output + 3, left - 1, k + 1;
    }
  }

  method Int32To16InPlace(buffer: array<byte>, frames: int)
    requires 4 * Kept(frames) <= buffer.Length
    modifies buffer
    ensures Converted(old(buffer[..]), buffer[..], frames, 4, 2)
  {
    hide AllResized;
    ghost var before := buffer[..];
    NothingResized(before, 4, 2, 0);
    var input, output, left := 0, 0, frames - 1;
    ghost var k := 0;
    while left >= 0
      invariant k == Kept(frames) - Kept(left + 1) && input == 4 * k && output == 2 * k
      invariant AllResized(before, buffer[..], 4, 2, 0, k)
      invariant forall i :: output <= i < buffer.Length ==> buffer[i] == before[i]
    {
      ghost var was := buffer[..];
      buffer[output], buffer[output + 1] := buffer[input + 2], buffer[input + 3];
      assert At(buffer[..], 2, k, 0) == At(before, 4, k, 2) && At(buffer[..], 2, k, 1) == At(before, 4, k, 3);
      OneMore(before, was, buffer[..], 4, 2, 0, k, frames, k);
      input, output, left, k := input + 4, output + 2, left - 1, k + 1;
    }
  }

  // ----------------------------------------------------------------------- theorems

  /** Widening and then narrowing back restores every sample. */
  lemma NarrowingUndoesWidening(a: seq<byte>, b: seq<byte>, c: seq<byte>, frames: int, narrow: int, wide: int)
    requires (narrow, wide) in {(2, 3), (3, 4), (2, 4)}
    requires Converted(a, b, frames, narrow, wide) && Converted(b, c, frames, wide, narrow)
    ensures c[..narrow * Kept(frames)] == a[..narrow * Kept(frames)]
  {
    forall i | 0 <= i < narrow * Kept(frames)
      ensures c[i] == a[i]
    {
      SampleOf(i, narrow, Kept(frames));
      ByteOutAndBack(a, b, c, frames, narrow, wide, i / narrow, i % narrow);
    }
  }

  lemma ByteOutAndBack(a: seq<byte>, b: seq<byte>, c: seq<byte>, frames: int, narrow: int, wide: int, k: int, j: int)
    requires (narrow, wide) in {(2, 3), (3, 4), (2, 4)} && 0 <= k < Kept(frames) && 0 <= j < narrow
    requires Converted(a, b, frames, narrow, wide) && Converted(b, c, frames, wide, narrow)
    ensures 0 <= narrow * k + j < |a| == |c| && c[narrow * k + j] == a[narrow * k + j]
  {
    SampleFits(a, narrow, Kept(frames), k);
    SampleFits(a, wide, Kept(frames), k);
    assert Resized(a, b, narrow, wide, k) && Resized(b, c, wide, narrow, k);
    assert At(c, narrow, k, j) == At(b, wide, k, j + wide - narrow) == At(a, narrow, k, j);
  }

  lemma ThereAndBack(a: seq<byte>, b: seq<byte>, c: seq<byte>, frames: int, narrow: int, wide: int, i: nat)
    requires (narrow, wide) in {(2, 3), (3, 4), (2, 4)} && i < wide * Kept(frames)
    requires Converted(a, b, frames, wide, narrow) && Converted(b, c, frames, narrow, wide)
    ensures |a| == |c| && i < |a| && c[i] == if i % wide < wide - narrow then 0 else a[i]
  {
    hide Converted;
    SampleOf(i, wide, Kept(frames));
    ByteThereAndBack(a, b, c, frames, narrow, wide, i / wide, i % wide);
  }

  lemma ByteThereAndBack(a: seq<byte>, b: seq<byte>, c: seq<byte>, frames: int, narrow: int, wide: int, k: int, j: int)
    requires (narrow, wide) in {(2, 3), (3, 4), (2, 4)} && 0 <= k < Kept(frames) && 0 <= j < wide
    requires Converted(a, b, frames, wide, narrow) && Converted(b, c, frames, narrow, wide)
    ensures 0 <= wide * k + j < |a| == |c|
    ensures c[wide * k + j] == if j < wide - narrow then 0 else a[wide * k + j]
  {
    SampleFits(a, narrow, Kept(frames), k);
    SampleFits(a, wide, Kept(frames), k);
    assert Resized(a, b, wide, narrow, k) && Resized(b, c, narrow, wide, k);
    assert At(c, wide, k, j) == c[wide * k + j] && At(a, wide, k, j) == a[wide * k + j];
    if j >= wide - narrow {
      assert At(c, wide, k, j) == At(b, narrow, k, j + narrow - wide);
    }
  }

  /** Narrowing and then widening restores the buffer's samples exactly when the dropped bytes were zero. */
  lemma WideningUndoesNarrowing(a: seq<byte>, b: seq<byte>, c: seq<byte>, frames: int, narrow: int, wide: int)
    requires (narrow, wide) in {(2, 3), (3, 4), (2, 4)}
    requires Converted(a, b, frames, wide, narrow) && Converted(b, c, frames, narrow, wide)
    ensures c[..wide * Kept(frames)] == a[..wide * Kept(frames)]
            <==> forall i :: 0 <= i < wide * Kept(frames) && i % wide < wide - narrow ==> a[i] == 0
  {
    forall i | 0 <= i < wide * Kept(frames)
      ensures |a| == |c| && i < |a| && c[i] == if i % wide < wide - narrow then 0 else a[i]
    {
      ThereAndBack(a, b, c, frames, narrow, wide, i);
    }
    hide Converted, Kept;
    var n := wide * Kept(frames);
    if forall i :: 0 <= i < n && i % wide < wide - narrow ==> a[i] == 0 {
      assert forall i :: 0 <= i < n ==> c[i] == a[i];
    }
    if c[..n] == a[..n] {
      assert forall i :: 0 <= i < n ==> c[..n][i] == c[i] && a[..n][i] == a[i];
    }
  }

  /** Two widening steps are one. */
  lemma WideningComposes(a: seq<byte>, b: seq<byte>, c: seq<byte>, direct: seq<byte>, frames: int)
    requires Converted(a, b, frames, 2, 3) && Converted(b, c, frames, 3, 4) && Converted(a, direct, frames, 2, 4)
    ensures c == direct
  {
    forall i | 0 <= i < |c|
      ensures c[i] == direct[i]
    {
      if i < 4 * Kept(frames) {
        var k, j := i / 4, i % 4;
        assert Resized(a, b, 2, 3, k) && Resized(b, c, 3, 4, k) && Resized(a, direct, 2, 4, k);
        assert At(c, 4, k, j) == if j < 1 then 0 else At(b, 3, k, j - 1);
        assert At(direct, 4, k, j) == direct[i];
      }
    }
  }

  function Signed(b: byte): int {
    if b >= 128 then b as int - 256 else b as int
  }

  /** The number that the bytes of a sample stand for: little-endian, in two's complement. */
  function Amplitude(b: seq<byte>): int
    requires 2 <= |b| <= 4
  {
    if |b| == 2 then b[0] as int + 256 * Signed(b[1])
    else if |b| == 3 then b[0] as int + 256 * b[1] as int + 65_536 * Signed(b[2])
    else b[0] as int + 256 * b[1] as int + 65_536 * b[2] as int + 16_777_216 * Signed(b[3])
  }

  /** Widening multiplies every sample by 256 a byte; narrowing divides it, rounding down. */
  lemma AmplitudesScale(before: seq<byte>, after: seq<byte>, frames: int, from: int, to: int, k: int)
    requires 2 <= from <= 4 && 2 <= to <= 4 && from != to && Converted(before, after, frames, from, to)
    requires 0 <= k < frames
    ensures from * k + from <= |before| && to * k + to <= |after|
    ensures var x, y := Amplitude(before[from * k..from * k + from]), Amplitude(after[to * k..to * k + to]);
            && (to == from + 1 ==> y == 256 * x) && (to == from + 2 ==> y == 65_536 * x)
            && (to == from - 1 ==> y == x / 256) && (to == from - 2 ==> y == x / 65_536)
  {
    SampleFits(before, from, Kept(frames), k);
    SampleFits(after, to, Kept(frames), k);
    assert Resized(before, after, from, to, k);
    var b, a := before[from * k..from * k + from], after[to * k..to * k + to];
    forall j | 0 <= j < to
      ensures a[j] == if j < to - from then 0 else b[j + from - to]
    {
      assert At(after, to, k, j) == a[j];
    }
    ScaledBytes(b, a);
  }

  lemma ScaledBytes(b: seq<byte>, a: seq<byte>)
    requires 2 <= |b| <= 4 && 2 <= |a| <= 4 && |a| != |b|
    requires forall j :: 0 <= j < |a| ==> a[j] == if j < |a| - |b| then 0 else b[j + |b| - |a|]
    ensures var x, y := Amplitude(b), Amplitude(a);
            && (|a| == |b| + 1 ==> y == 256 * x) && (|a| == |b| + 2 ==> y == 65_536 * x)
            && (|a| == |b| - 1 ==> y == x / 256) && (|a| == |b| - 2 ==> y == x / 65_536)
  {
  }

  /** The conversions are functions: an input and a count leave only one possible buffer. */
  lemma OneResult(a: seq<byte>, b: seq<byte>, b': seq<byte>, frames: int, from: int, to: int)
    requires 0 < from <= 4 && 0 < to <= 4 && Converted(a, b, frames, from, to) && Converted(a, b', frames, from, to)
    ensures b == b'
  {
    forall i | 0 <= i < |b|
      ensures b[i] == b'[i]
    {
      if i < to * Kept(frames) {
        var k, j := i / to, i % to;
        SampleOf(i, to, Kept(frames));
        SampleFits(a, from, Kept(frames), k);
        SampleFits(a, to, Kept(frames), k);
        assert Resized(a, b, from, to, k) && Resized(a, b', from, to, k);
        assert At(b, to, k, j) == b[i] && At(b', to, k, j) == b'[i];
      }
    }
  }

  lemma SampleOf(i: int, w: int, n: int)
    requires 0 < w <= 4 && 0 <= i < w * n
    ensures 0 <= i / w < n && w * (i / w) + i % w == i
  {
    if w == 1 {} else if w == 2 {} else if w == 3 {} else {}
  }

  // -------------------------------------------------------------------- byte order

  predicate Swappable(byteWidth: int) {
    2 <= byteWidth <= 4
  }

  predicate Flipped(before: seq<byte>, after: seq<byte>, w: int, k: int)
    requires 0 < w <= 4 && 0 <= k && w * k + w <= |before| && |after| == |before|
  {
    forall j {:trigger At(after, w, k, j)} :: 0 <= j < w ==> At(after, w, k, j) == At(before, w, k, w - 1 - j)
  }

  /** Every whole sample of two to four bytes has them in the opposite order; nothing else changes. */
  ghost predicate Reversed(before: seq<byte>, after: seq<byte>, byteWidth: int, frames: int) {
    |after| == |before| &&
    if !Swappable(byteWidth) then after == before
    else
      && byteWidth * Kept(frames) <= |before|
      && AllFlipped(before, after, byteWidth, Kept(frames))
      && forall i :: byteWidth * Kept(frames) <= i < |before| ==> after[i] == before[i]
  }

  ghost predicate AllFlipped(before: seq<byte>, s: seq<byte>, w: int, hi: int)
    requires |s| == |before| && 0 < w <= 4 && 0 <= hi && w * hi <= |s|
  {
    forall k :: 0 <= k < hi && w * k + w <= |s| ==> Flipped(before, s, w, k)
  }

  lemma NothingFlipped(s: seq<byte>, w: int)
    requires 0 < w <= 4
    ensures AllFlipped(s, s, w, 0)
  {
  }

  /** Swapping inside one more sample. */
  lemma OneMoreFlipped(before: seq<byte>, s: seq<byte>, t: seq<byte>, w: int, n: int, k: int)
    requires |s| == |before| && 0 < w <= 4 && 0 <= k < n && w * n <= |s| && w * k <= |s| && AllFlipped(before, s, w, k)
    requires OnlySample(s, t, w, k) && w * k + w <= |t| && Flipped(before, t, w, k)
    ensures w * (k + 1) <= |t| && AllFlipped(before, t, w, k + 1)
  {
    forall i | 0 <= i < k + 1 && w * i + w <= |t|
      ensures Flipped(before, t, w, i)
    {
      if i != k { StaysFlipped(before, s, t, w, k, i); }
    }
  }

  lemma StaysFlipped(before: seq<byte>, s: seq<byte>, t: seq<byte>, w: int, written: int, k: int)
    requires |s| == |before| && 0 < w <= 4 && 0 <= k && w * k + w <= |s|
    requires OnlySample(s, t, w, written) && k != written && Flipped(before, s, w, k)
    ensures Flipped(before, t, w, k)
  {
    forall j {:trigger At(t, w, k, j)} | 0 <= j < w
      ensures At(t, w, k, j) == At(s, w, k, j)
    {
      if w == 1 {} else if w == 2 {} else if w == 3 {} else {}
    }
  }

  method ReverseEndian2(buffer: array<byte>, frames: int)
    requires 2 * Kept(frames) <= buffer.Length
    modifies buffer
    ensures Reversed(old(buffer[..]), buffer[..], 2, frames)
  {
    hide AllFlipped;
    ghost var before := buffer[..];
    NothingFlipped(before, 2);
    var a, left := 0, frames - 1;
    ghost var k := 0;
    while left >= 0
      invariant k == Kept(frames) - Kept(left + 1) && a == 2 * k
      invariant AllFlipped(before, buffer[..], 2, k)
      invariant forall i :: a <= i < buffer.Length ==> buffer[i] == before[i]
    {
      ghost var was := buffer[..];
      buffer[a], buffer[a + 1] := buffer[a + 1], buffer[a];
      assert At(buffer[..], 2, k, 0) == At(before, 2, k, 1) && At(buffer[..], 2, k, 1) == At(before, 2, k, 0);
      OneMoreFlipped(before, was, buffer[..], 2, frames, k);
      a, left, k := a + 2, left - 1, k + 1;
    }
  }

  method ReverseEndian3(buffer: array<byte>, frames: int)
    requires 3 * Kept(frames) <= buffer.Length
    modifies buffer
    ensures Reversed(old(buffer[..]), buffer[..], 3, frames)
  {
    hide AllFlipped;
    ghost var before := buffer[..];
    NothingFlipped(before, 3);
    var a, left := 0, frames - 1;
    ghost var k := 0;
    while left >= 0
      invariant k == Kept(frames) - Kept(left + 1) && a == 3 * k
      invariant AllFlipped(before, buffer[..], 3, k)
      invariant forall i :: a <= i < buffer.Length ==> buffer[i] == before[i]
    {
      ghost var was := buffer[..];
      buffer[a], buffer[a + 2] := buffer[a + 2], buffer[a];
      assert At(buffer[..], 3, k, 0) == At(before, 3, k, 2) && At(buffer[..], 3, k, 1) == At(before, 3, k, 1)
           && At(buffer[..], 3, k, 2) == At(before, 3, k, 0);
      OneMoreFlipped(before, was, buffer[..], 3, frames, k);
      a, left, k := a + 3, left - 1, k + 1;
    }
  }

  method ReverseEndian4(buffer: array<byte>, frames: int)
    requires 4 * Kept(frames) <= buffer.Length
    modifies buffer
    ensures Reversed(old(buffer[..]), buffer[..], 4, frames)
  {
    hide AllFlipped;
    ghost var before := buffer[..];
    NothingFlipped(before, 4);
    var a, left := 0, frames - 1;
    ghost var k := 0;
    while left >= 0
      invariant k == Kept(frames) - Kept(left + 1) && a == 4 * k
      invariant AllFlipped(before, buffer[..], 4, k)
      invariant forall i :: a <= i < buffer.Length ==> buffer[i] == before[i]
    {
      ghost var was := buffer[..];
      buffer[a], buffer[a + 3] := buffer[a + 3], buffer[a];
      buffer[a + 1], buffer[a + 2] := buffer[a + 2], buffer[a + 1];
      assert At(buffer[..], 4, k, 0) == At(before, 4, k, 3) && At(buffer[..], 4, k, 1) == At(before, 4, k, 2)
               && At(buffer[..], 4, k, 2) == At(before, 4, k, 1) && At(buffer[..], 4, k, 3) == At(before, 4, k, 0);
      OneMoreFlipped(before, was, buffer[..], 4, frames, k);
      a, left, k := a + 4, left - 1, k + 1;
    }
  }

  method ReverseEndian(buffer: array<byte>, byteWidth: int, frames: int)
    requires Swappable(byteWidth) ==> byteWidth * Kept(frames) <= buffer.Length
    modifies buffer
    ensures Reversed(old(buffer[..]), buffer[..], byteWidth, frames)
  {
    if byteWidth == 2 {
      ReverseEndian2(buffer, frames);
    } else if byteWidth == 3 {
      ReverseEndian3(buffer, frames);
    } else if byteWidth == 4 {
      ReverseEndian4(buffer, frames);
    }
  }

  /** Reversing twice restores the buffer, for any width and count. */
  lemma ReversingTwice(a: seq<byte>, b: seq<byte>, c: seq<byte>, byteWidth: int, frames: int)
    requires Reversed(a, b, byteWidth, frames) && Reversed(b, c, byteWidth, frames)
    ensures c == a
  {
    if Swappable(byteWidth) {
      forall i | 0 <= i < |a|
        ensures c[i] == a[i]
      {
        if i < byteWidth * Kept(frames) {
          SampleOf(i, byteWidth, Kept(frames));
          FlippedTwice(a, b, c, byteWidth, Kept(frames), i / byteWidth, i % byteWidth);
        }
      }
    }
  }

  /** Byte by byte: what the bytes of a sample become, for each width that is reversed, and no other is. */
  lemma ReversedBytes(before: seq<byte>, after: seq<byte>, byteWidth: int, frames: int, i: nat)
    requires Reversed(before, after, byteWidth, frames) && i < |before|
    ensures byteWidth in {2, 3, 4} && i < byteWidth * frames ==>
              byteWidth * (i / byteWidth) + byteWidth - 1 - i % byteWidth < |before|
              && after[i] == before[byteWidth * (i / byteWidth) + byteWidth - 1 - i % byteWidth]
    ensures byteWidth !in {2, 3, 4} || i >= byteWidth * frames ==> after[i] == before[i]
  {
    if byteWidth in {2, 3, 4} && i < byteWidth * frames {
      var k, j := i / byteWidth, i % byteWidth;
      SampleOf(i, byteWidth, Kept(frames));
      SampleFits(before, byteWidth, Kept(frames), k);
      assert Flipped(before, after, byteWidth, k);
      assert At(after, byteWidth, k, j) == after[i];
    }
  }

  lemma FlippedTwice(a: seq<byte>, b: seq<byte>, c: seq<byte>, w: int, n: int, k: int, j: int)
    requires |a| == |b| == |c| && 2 <= w <= 4 && 0 <= k < n && 0 <= j < w && w * n <= |a|
    requires AllFlipped(a, b, w, n) && AllFlipped(b, c, w, n)
    ensures w * k + w <= |a| && c[w * k + j] == a[w * k + j]
  {
    SampleFits(a, w, n, k);
    assert Flipped(a, b, w, k) && Flipped(b, c, w, k);
    assert At(c, w, k, j) == At(b, w, k, w - 1 - j) == At(a, w, k, j);
  }
}

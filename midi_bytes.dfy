/// Byte-level reading of Standard MIDI Files (Standard MIDI Files 1.0, MIDI
/// Manufacturers Association): big-endian chunk fields, variable-length
/// quantities, and the Guitar Hero / Clone Hero pitch map (midi.c:11-55).
module MidiBytes {
  import opened Wrappers

  type Byte = b: int | 0 <= b < 256

  const Pow7: nat := 0x80
  const Pow14: nat := 0x4000
  const Pow21: nat := 0x20_0000
  const Pow28: nat := 0x1000_0000

  /** `be_u16`: two bytes, most significant first. */
  function BeU16(d: seq<Byte>, at: nat): (r: nat)
    requires at + 2 <= |d|
    ensures r < 0x1_0000
  {
    d[at] as nat * 0x100 + d[at + 1]
  }

  /** `be_u32`: four bytes, most significant first. */
  function BeU32(d: seq<Byte>, at: nat): (r: nat)
    requires at + 4 <= |d|
    ensures r < 0x1_0000_0000
  {
    d[at] as nat * 0x100_0000 + d[at + 1] as nat * 0x1_0000 + d[at + 2] as nat * 0x100 + d[at + 3]
  }

  /** The chunk-length encoding `be_u32` reads. */
  function U32Bytes(x: nat): (b: seq<Byte>)
    requires x < 0x1_0000_0000
    ensures |b| == 4
  {
    [x / 0x100_0000, (x / 0x1_0000) % 0x100, (x / 0x100) % 0x100, x % 0x100]
  }

  function U16Bytes(x: nat): (b: seq<Byte>)
    requires x < 0x1_0000
    ensures |b| == 2
  {
    [x / 0x100, x % 0x100]
  }

  /** `be_u32` inverts the big-endian encoding, wherever it sits in the buffer. */
  lemma BeU32RoundTrip(x: nat, pre: seq<Byte>, post: seq<Byte>)
    requires x < 0x1_0000_0000
    ensures BeU32(pre + U32Bytes(x) + post, |pre|) == x
  {
    var d, b := pre + U32Bytes(x) + post, U32Bytes(x);
    assert d[|pre|] == b[0] && d[|pre| + 1] == b[1] && d[|pre| + 2] == b[2] && d[|pre| + 3] == b[3];
    U32Digits(x);
  }

  /** The four base-256 digits of `x` make up `x`. */
  lemma U32Digits(x: nat)
    ensures (x / 0x100_0000) * 0x100_0000 + ((x / 0x1_0000) % 0x100) * 0x1_0000
          + ((x / 0x100) % 0x100) * 0x100 + x % 0x100 == x
  {
    var q1 := x / 0x100;
    var q2 := q1 / 0x100;
    var q3 := q2 / 0x100;
    assert x == q1 * 0x100 + x % 0x100;
    assert q1 == q2 * 0x100 + q1 % 0x100;
    assert q2 == q3 * 0x100 + q2 % 0x100;
    DivDiv(x);
  }

  lemma DivDiv(x: nat)
    ensures x / 0x1_0000 == (x / 0x100) / 0x100
    ensures x / 0x100_0000 == ((x / 0x100) / 0x100) / 0x100
  {
  }

  lemma BeU16RoundTrip(x: nat, pre: seq<Byte>, post: seq<Byte>)
    requires x < 0x1_0000
    ensures BeU16(pre + U16Bytes(x) + post, |pre|) == x
  {
    var d := pre + U16Bytes(x) + post;
    assert d[|pre|] == x / 0x100 && d[|pre| + 1] == x % 0x100;
  }

  /**
   * `read_vlq` from index `pos` of a track of length `|t|`, with `acc` read so
   * far and `budget` bytes left of the four it may read: the value and the
   * new cursor.
   */
  function VlqFrom(t: seq<Byte>, pos: nat, acc: nat, budget: nat): (nat, nat)
    decreases budget
  {
    if budget == 0 || pos >= |t| then (acc, pos)
    else
      var b := t[pos];
      var acc' := acc * Pow7 + b % Pow7;
      if b < 0x80 then (acc', pos + 1) else VlqFrom(t, pos + 1, acc', budget - 1)
  }

  function Vlq(t: seq<Byte>, pos: nat): (nat, nat) {
    VlqFrom(t, pos, 0, 4)
  }

  /** `read_vlq(data, len, &pos)`. */
  method ReadVlq(t: seq<Byte>, pos: nat) returns (v: nat, pos': nat)
    ensures (v, pos') == Vlq(t, pos)
  {
    v, pos' := 0, pos;
    var i := 0;
    while i < 4
      invariant 0 <= i <= 4
      invariant VlqFrom(t, pos', v, 4 - i) == Vlq(t, pos)
    {
      if pos' >= |t| {
        return;
      }
      var b := t[pos'];
      pos' := pos' + 1;
      v := v * Pow7 + b % Pow7;
      if b < 0x80 {
        break;
      }
      i := i + 1;
    }
  }

  lemma {:induction false} VlqFromBounds(t: seq<Byte>, pos: nat, acc: nat, budget: nat)
    ensures var (v, p) := VlqFrom(t, pos, acc, budget);
      && pos <= p <= pos + budget
      && (pos < |t| && budget > 0 ==> pos < p <= |t|)
      && (pos >= |t| || budget == 0 ==> p == pos && v == acc)
      && v < (acc + 1) * Pow(p - pos)
      && (forall k :: pos <= k < p - 1 ==> t[k] >= 0x80)
      && (p > pos && t[p - 1] >= 0x80 ==> p == |t| || p == pos + budget)
    decreases budget
  {
    if budget > 0 && pos < |t| {
      var b := t[pos];
      var acc' := acc * Pow7 + b % Pow7;
      if b >= 0x80 {
        VlqFromBounds(t, pos + 1, acc', budget - 1);
        var (v, p) := VlqFrom(t, pos + 1, acc', budget - 1);
        AccBound(acc, b, v, p - pos - 1);
      }
    }
  }

  /** One more 7-bit digit: a bound in `acc * 128 + digit` becomes one in `acc` with one more power. */
  lemma AccBound(acc: nat, b: Byte, v: nat, j: nat)
    requires v < (acc * Pow7 + b % Pow7 + 1) * Pow(j)
    ensures v < (acc + 1) * Pow(j + 1)
  {
    assert acc * Pow7 + b % Pow7 + 1 <= (acc + 1) * Pow7;
    PowMono(acc * Pow7 + b % Pow7 + 1, (acc + 1) * Pow7, j);
    assert (acc + 1) * Pow7 * Pow(j) == (acc + 1) * Pow(j + 1);
  }

  function Pow(k: nat): (r: nat)
    ensures r >= 1
  {
    if k == 0 then 1 else Pow7 * Pow(k - 1)
  }

  lemma PowMono(a: nat, b: nat, k: nat)
    requires a <= b
    ensures a * Pow(k) <= b * Pow(k)
  {
  }

  /**
   * `read_vlq` reads at most four bytes and never past the end of the track;
   * it moves when there is something to read; every byte before the last one
   * it read has bit 7 set, and it stops at the first byte with bit 7 clear
   * (or at the limit); the value fits in 28 bits.
   */
  lemma VlqBounds(t: seq<Byte>, pos: nat)
    ensures var (v, p) := Vlq(t, pos);
      && pos <= p <= pos + 4
      && (pos < |t| ==> pos < p <= |t|)
      && (pos >= |t| ==> p == pos && v == 0)
      && v < Pow28
      && (forall k :: pos <= k < p - 1 ==> t[k] >= 0x80)
      && (p > pos && t[p - 1] >= 0x80 ==> p == |t| || p == pos + 4)
  {
    VlqFromBounds(t, pos, 0, 4);
    var (v, p) := Vlq(t, pos);
    PowAtMost4(p - pos);
  }

  lemma PowAtMost4(k: nat)
    requires k <= 4
    ensures Pow(k) <= Pow28
  {
    assert Pow(4) == Pow28;
  }

  /** The standard variable-length encoding of a value below 2^28. */
  function EncodeVlq(v: nat): (e: seq<Byte>)
    requires v < Pow28
    ensures 1 <= |e| <= 4
  {
    if v < Pow7 then [v]
    else if v < Pow14 then [0x80 + v / Pow7, v % Pow7]
    else if v < Pow21 then [0x80 + v / Pow14, 0x80 + (v / Pow7) % Pow7, v % Pow7]
    else [0x80 + v / Pow21, 0x80 + (v / Pow14) % Pow7, 0x80 + (v / Pow7) % Pow7, v % Pow7]
  }

  lemma DivSplit(v: nat)
    ensures v == (v / Pow7) * Pow7 + v % Pow7
    ensures v / Pow14 == (v / Pow7) / Pow7
    ensures v / Pow21 == (v / Pow14) / Pow7
  {
  }

  /** `read_vlq` decodes the standard encoding of any value below 2^28. */
  lemma VlqRoundTrip(v: nat, rest: seq<Byte>)
    requires v < Pow28
    ensures Vlq(EncodeVlq(v) + rest, 0) == (v, |EncodeVlq(v)|)
  {
    var t := EncodeVlq(v) + rest;
    DivSplit(v);
    if v < Pow7 {
    } else if v < Pow14 {
      VlqTwo(v, t);
    } else if v < Pow21 {
      VlqThree(v, t);
    } else {
      VlqFour(v, t);
    }
  }

  lemma VlqTwo(v: nat, t: seq<Byte>)
    requires Pow7 <= v < Pow14 && |t| >= 2
    requires t[0] == 0x80 + v / Pow7 && t[1] == v % Pow7
    ensures VlqFrom(t, 0, 0, 4) == (v, 2)
  {
    DivSplit(v);
    assert VlqFrom(t, 1, v / Pow7, 3) == (v, 2);
  }

  lemma VlqThree(v: nat, t: seq<Byte>)
    requires Pow14 <= v < Pow21 && |t| >= 3
    requires t[0] == 0x80 + v / Pow14 && t[1] == 0x80 + (v / Pow7) % Pow7 && t[2] == v % Pow7
    ensures VlqFrom(t, 0, 0, 4) == (v, 3)
  {
    DivSplit(v);
    DivSplit(v / Pow7);
    var a1, a2 := v / Pow7, v / Pow14;
    assert VlqFrom(t, 2, a1, 2) == (v, 3);
    assert VlqFrom(t, 1, a2, 3) == (v, 3);
  }

  lemma VlqFour(v: nat, t: seq<Byte>)
    requires Pow21 <= v < Pow28 && |t| >= 4
    requires t[0] == 0x80 + v / Pow21 && t[1] == 0x80 + (v / Pow14) % Pow7
    requires t[2] == 0x80 + (v / Pow7) % Pow7 && t[3] == v % Pow7
    ensures VlqFrom(t, 0, 0, 4) == (v, 4)
  {
    DivSplit(v);
    DivSplit(v / Pow7);
    DivSplit(v / Pow14);
    var a1, a2, a3 := v / Pow7, v / Pow14, v / Pow21;
    assert a3 < Pow7;
    assert t[0] % Pow7 == a3 && t[1] % Pow7 == a2 % Pow7 && t[2] % Pow7 == a1 % Pow7;
    assert a2 == a3 * Pow7 + a2 % Pow7 && a1 == a2 * Pow7 + a1 % Pow7;
    assert VlqFrom(t, 3, a1, 1) == (v, 4);
    assert VlqFrom(t, 2, a2, 2) == (v, 4);
    assert VlqFrom(t, 1, a3, 3) == (v, 4);
  }

  /**
   * `gh_map_pitch`: the four five-note windows starting at 60 (Easy), 72
   * (Medium), 84 (Hard) and 96 (Expert); the difficulty and the lane.
   */
  function GhMapPitch(pitch: int): (r: Option<(nat, nat)>)
    ensures r.Some? <==> (60 <= pitch <= 64 || 72 <= pitch <= 76 || 84 <= pitch <= 88 || 96 <= pitch <= 100)
    ensures r.Some? ==> r.value.0 <= 3 && r.value.1 <= 4 && pitch == 60 + 12 * r.value.0 + r.value.1
  {
    if 60 <= pitch <= 64 then Some((0, pitch - 60))
    else if 72 <= pitch <= 76 then Some((1, pitch - 72))
    else if 84 <= pitch <= 88 then Some((2, pitch - 84))
    else if 96 <= pitch <= 100 then Some((3, pitch - 96))
    else None
  }

  /** The pitch every (difficulty, lane) pair maps from. */
  lemma GhMapPitchInverse(diff: nat, lane: nat)
    requires diff <= 3 && lane <= 4
    ensures GhMapPitch(60 + 12 * diff + lane) == Some((diff, lane))
  {
  }
}

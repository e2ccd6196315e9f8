/// The audio engine (audio.c): the mixing callback that sums the enabled
/// stems into a float stereo buffer while easing each stem's gain toward its
/// target, the latency-compensated audio clock, the stem name taken from a
/// file path, and the loop that turns decoded Opus frames into interleaved
/// stereo. Samples and gains are reals; the decoder is given as data.
module Audio {
  import opened Wrappers
  import opened CText

  /** The gain moves by at most this much per mixed frame (audio.c:38, 41). */
  const GainStep: real := 0.1

  /** The clock is held back by this many device buffers (config.h:90). */
  const LatencyBufferMult: int := 2

  /**
   * One decoded track (audio.h:7-16). `pcm` is `None` for a null buffer and
   * otherwise holds interleaved left/right samples, two per frame.
   */
  datatype Stem = Stem(
    name: string,
    pcm: Option<seq<real>>,
    frames: nat,
    pos: nat,
    gain: real,
    targetGain: real,
    enabled: bool,
    isPlayerTrack: bool)

  /** The stem's read position is inside it and its buffer covers every frame. */
  predicate StemOk(s: Stem) {
    s.pos <= s.frames && (s.pcm.Some? ==> 2 * s.frames <= |s.pcm.value|)
  }

  ghost predicate AllOk(ss: seq<Stem>) {
    forall j :: 0 <= j < |ss| ==> StemOk(ss[j])
  }

  /** audio.c:11-15. */
  function Clamp1(x: real): (r: real)
    ensures -1.0 <= r <= 1.0
    ensures -1.0 <= x <= 1.0 ==> r == x
    ensures x < -1.0 ==> r == -1.0
    ensures x > 1.0 ==> r == 1.0
  {
    if x < -1.0 then -1.0 else if x > 1.0 then 1.0 else x
  }

  function Dist(a: real, b: real): (d: real)
    ensures d >= 0.0
  {
    if a < b then b - a else a - b
  }

  /** audio.c:37-43: one step of the gain toward its target. */
  function Approach(g: real, t: real): real {
    if g < t then (if g + GainStep > t then t else g + GainStep)
    else if g > t then (if g - GainStep < t then t else g - GainStep)
    else g
  }

  /** audio.c:37-43 as statements. */
  method StepGain(gain: real, target: real) returns (g: real)
    ensures g == Approach(gain, target)
  {
    g := gain;
    if g < target {
      g := g + GainStep;
      if g > target {
        g := target;
      }
    } else if g > target {
      g := g - GainStep;
      if g < target {
        g := target;
      }
    }
  }

  /** The step never overshoots, moves at most 0.1, and closes the gap by 0.1 or to zero. */
  lemma ApproachProps(g: real, t: real)
    ensures var r := Approach(g, t);
      && (g <= t ==> g <= r <= t)
      && (t <= g ==> t <= r <= g)
      && Dist(r, g) <= GainStep
      && Dist(r, t) == if Dist(g, t) <= GainStep then 0.0 else Dist(g, t) - GainStep
  {
  }

  /** A stem contributes to the frame: enabled, with samples, not yet at its end (audio.c:31-34). */
  predicate Live(s: Stem) {
    s.enabled && s.pcm.Some? && s.pos < s.frames
  }

  /** The stem after one frame: a live stem moves its gain and advances by one frame. */
  function StemNext(s: Stem): (r: Stem) {
    if Live(s) then s.(pos := s.pos + 1, gain := Approach(s.gain, s.targetGain)) else s
  }

  /**
   * What the stem adds to the left and right channel of the frame
   * (audio.c:45-47). The samples at `pos` exist whenever `StemOk` holds,
   * which every engine state keeps; the guard only makes the function total.
   */
  function Contribution(s: Stem): (real, real) {
    if Live(s) && 2 * s.pos + 1 < |s.pcm.value| then
      var g := Approach(s.gain, s.targetGain);
      (s.pcm.value[2 * s.pos] * g, s.pcm.value[2 * s.pos + 1] * g)
    else (0.0, 0.0)
  }

  /** The left channel summed over the first `k` stems. */
  function MixL(ss: seq<Stem>, k: nat): real
    requires k <= |ss|
  {
    if k == 0 then 0.0 else MixL(ss, k - 1) + Contribution(ss[k - 1]).0
  }

  function MixR(ss: seq<Stem>, k: nat): real
    requires k <= |ss|
  {
    if k == 0 then 0.0 else MixR(ss, k - 1) + Contribution(ss[k - 1]).1
  }

  function NextStems(ss: seq<Stem>): (r: seq<Stem>)
    ensures |r| == |ss|
  {
    seq(|ss|, j requires 0 <= j < |ss| => StemNext(ss[j]))
  }

  /** The stems after `f` mixed frames. */
  function After(ss: seq<Stem>, f: nat): (r: seq<Stem>)
    ensures |r| == |ss|
  {
    if f == 0 then ss else NextStems(After(ss, f - 1))
  }

  /** The two clamped samples of one frame (audio.c:50-51). */
  function FrameOut(ss: seq<Stem>): seq<real> {
    [Clamp1(MixL(ss, |ss|)), Clamp1(MixR(ss, |ss|))]
  }

  /** The interleaved output of `f` frames. */
  function Output(ss: seq<Stem>, f: nat): (r: seq<real>)
    ensures |r| == 2 * f
  {
    if f == 0 then [] else Output(ss, f - 1) + FrameOut(After(ss, f - 1))
  }

  /** Mixing keeps every stem's cursor inside it. */
  lemma NextStemsOk(ss: seq<Stem>)
    requires AllOk(ss)
    ensures AllOk(NextStems(ss))
  {
  }

  lemma {:induction false} AfterOk(ss: seq<Stem>, f: nat)
    requires AllOk(ss)
    ensures AllOk(After(ss, f))
  {
    if f > 0 {
      AfterOk(ss, f - 1);
      NextStemsOk(After(ss, f - 1));
    }
  }

  /** One frame moves only live stems, by one frame, and changes nothing but position and gain. */
  lemma NextStemsEffect(ss: seq<Stem>, j: nat)
    requires j < |ss|
    ensures var a, b := ss[j], NextStems(ss)[j];
      && b.pos == (if Live(a) then a.pos + 1 else a.pos)
      && b.gain == (if Live(a) then Approach(a.gain, a.targetGain) else a.gain)
      && b == a.(pos := b.pos, gain := b.gain)
  {
  }

  /** After `f` frames an enabled stem with samples is at `min(pos + f, frames)`; any other stem has not moved. */
  lemma {:induction false} AfterPos(ss: seq<Stem>, f: nat, j: nat)
    requires j < |ss| && StemOk(ss[j])
    ensures var a, b := ss[j], After(ss, f)[j];
      && b.pos == (if a.enabled && a.pcm.Some? then Min(a.pos + f, a.frames) else a.pos)
      && b.pcm == a.pcm && b.frames == a.frames && b.enabled == a.enabled && b.targetGain == a.targetGain
      && b.name == a.name && b.isPlayerTrack == a.isPlayerTrack
  {
    if f > 0 {
      AfterPos(ss, f - 1, j);
      NextStemsEffect(After(ss, f - 1), j);
    }
  }

  function Min(a: int, b: int): int {
    if a < b then a else b
  }

  /**
   * While it plays, a stem's gain closes the distance to its target by 0.1
   * per frame: after `f` frames the gap is the old gap less `0.1 * k`, never
   * below zero, where `k` counts the frames the stem actually played.
   */
  lemma {:induction false} AfterGain(ss: seq<Stem>, f: nat, j: nat)
    requires j < |ss| && StemOk(ss[j])
    ensures var a, b := ss[j], After(ss, f)[j];
      var k := if a.enabled && a.pcm.Some? then Min(f, a.frames - a.pos) else 0;
      Dist(b.gain, b.targetGain) == Gap(Dist(a.gain, a.targetGain), k)
  {
    var a := ss[j];
    if f > 0 {
      AfterGain(ss, f - 1, j);
      AfterPos(ss, f - 1, j);
      var c := After(ss, f - 1)[j];
      NextStemsEffect(After(ss, f - 1), j);
      if Live(c) {
        ApproachProps(c.gain, c.targetGain);
        GapStep(Dist(a.gain, a.targetGain), Min(f - 1, a.frames - a.pos));
      }
    }
  }

  /** What is left of a gap `d` after `k` steps of 0.1. */
  function Gap(d: real, k: nat): (r: real)
    requires d >= 0.0
    ensures r >= 0.0
  {
    if d <= GainStep * (k as real) then 0.0 else d - GainStep * (k as real)
  }

  lemma GapStep(d: real, k: nat)
    requires d >= 0.0
    ensures (if Gap(d, k) <= GainStep then 0.0 else Gap(d, k) - GainStep) == Gap(d, k + 1)
  {
  }

  /** Every output sample lies in [-1, 1]. */
  lemma {:induction false} OutputBounded(ss: seq<Stem>, f: nat)
    ensures forall x :: 0 <= x < |Output(ss, f)| ==> -1.0 <= Output(ss, f)[x] <= 1.0
  {
    if f > 0 {
      OutputBounded(ss, f - 1);
      var o := Output(ss, f);
      assert o == Output(ss, f - 1) + FrameOut(After(ss, f - 1));
      forall x | 0 <= x < |o|
        ensures -1.0 <= o[x] <= 1.0
      {
        if x < 2 * (f - 1) {
          assert o[x] == Output(ss, f - 1)[x];
        }
      }
    }
  }

  /** audio.c:23: `memset` of the whole stream. */
  method ZeroFill(out: array<real>)
    modifies out
    ensures forall x :: 0 <= x < out.Length ==> out[x] == 0.0
  {
    var x := 0;
    while x < out.Length
      invariant 0 <= x <= out.Length
      invariant forall y :: 0 <= y < x ==> out[y] == 0.0
    {
      out[x] := 0.0;
      x := x + 1;
    }
  }

  /** `AudioEngine` (audio.h:18-27); `stems.Length` is `stem_count`. */
  class AudioEngine {
    var stems: array<Stem>
    var sampleRate: int
    var channels: int
    var framesPlayed: nat
    var bufferSize: int
    var started: bool

    /** `audio_init` opens a float stereo device; every stem's cursor is inside it. */
    ghost predicate Valid()
      reads this, stems
    {
      channels == 2 && AllOk(stems[..])
    }

    /**
     * audio.c:162-187 after the device opened with `freq` and `samples`:
     * zeroed, two channels, the device's rate and buffer size, no stems.
     */
    constructor (freq: int, samples: int)
      ensures Valid() && stems.Length == 0
      ensures sampleRate == freq && bufferSize == samples
      ensures framesPlayed == 0 && !started
    {
      stems := new Stem[0];
      sampleRate := freq;
      channels := 2;
      framesPlayed := 0;
      bufferSize := samples;
      started := false;
    }

    /** The inner stem loop of `audio_cb` (audio.c:28-49): one frame of every stem. */
    method MixFrame() returns (l: real, r: real)
      requires Valid()
      modifies stems
      ensures Valid()
      ensures stems[..] == NextStems(old(stems[..]))
      ensures l == MixL(old(stems[..]), stems.Length) && r == MixR(old(stems[..]), stems.Length)
    {
      ghost var ss := stems[..];
      l, r := 0.0, 0.0;
      var i := 0;
      while i < stems.Length
        invariant 0 <= i <= stems.Length
        invariant forall j :: 0 <= j < i ==> stems[j] == StemNext(ss[j])
        invariant forall j :: i <= j < stems.Length ==> stems[j] == ss[j]
        invariant l == MixL(ss, i) && r == MixR(ss, i)
      {
        var s := stems[i];
        if s.enabled && s.pcm.Some? && s.pos < s.frames {
          var g := StepGain(s.gain, s.targetGain);
          var idx := s.pos * 2;
          l := l + s.pcm.value[idx] * g;
          r := r + s.pcm.value[idx + 1] * g;
          stems[i] := s.(pos := s.pos + 1, gain := g);
        }
        i := i + 1;
      }
      assert stems[..] == NextStems(ss);
      NextStemsOk(ss);
    }

    /**
     * audio.c:17-54. Not started: the whole buffer is zeroed and nothing
     * else changes. Started: `len / (4 * channels)` frames are mixed, each
     * advancing the clock by one.
     */
    method Callback(out: array<real>, len: int)
      requires Valid() && 0 <= len && out.Length == len / 4
      modifies this, stems, out
      ensures Valid() && stems == old(stems) && started == old(started)
      ensures sampleRate == old(sampleRate) && channels == old(channels) && bufferSize == old(bufferSize)
      ensures !started ==>
        && (forall x :: 0 <= x < out.Length ==> out[x] == 0.0)
        && stems[..] == old(stems[..]) && framesPlayed == old(framesPlayed)
      ensures started ==>
        var n := len / (4 * channels);
        && stems[..] == After(old(stems[..]), n)
        && out[..2 * n] == Output(old(stems[..]), n)
        && (forall x :: 2 * n <= x < out.Length ==> out[x] == old(out[x]))
        && framesPlayed == old(framesPlayed) + n
    {
      var frames := len / (4 * channels);
      if !started {
        ZeroFill(out);
        return;
      }
      MixFrames(out, frames);
      framesPlayed := framesPlayed + frames;
    }

    /** audio.c:27-53 without the clock: mix `frames` frames into `out`. */
    method MixFrames(out: array<real>, frames: nat)
      requires Valid() && 2 * frames <= out.Length
      modifies stems, out
      ensures Valid()
      ensures stems[..] == After(old(stems[..]), frames)
      ensures out[..2 * frames] == Output(old(stems[..]), frames)
      ensures forall x :: 2 * frames <= x < out.Length ==> out[x] == old(out[x])
    {
      ghost var ss := stems[..];
      var f := 0;
      while f < frames
        invariant 0 <= f <= frames
        invariant Valid()
        invariant stems[..] == After(ss, f)
        invariant out[..2 * f] == Output(ss, f)
        invariant forall x :: 2 * f <= x < out.Length ==> out[x] == old(out[x])
      {
        MixInto(out, f);
        f := f + 1;
      }
    }

    /** One frame of audio.c:48-53: mix, advance, and write the clamped pair at frame `f`. */
    method MixInto(out: array<real>, f: nat)
      requires Valid() && 2 * f + 2 <= out.Length
      modifies stems, out
      ensures Valid()
      ensures stems[..] == NextStems(old(stems[..]))
      ensures out[..2 * f + 2] == old(out[..2 * f]) + FrameOut(old(stems[..]))
      ensures forall x :: 2 * f + 2 <= x < out.Length ==> out[x] == old(out[x])
    {
      ghost var before := out[..2 * f];
      var l, r := MixFrame();
      out[2 * f] := Clamp1(l);
      out[2 * f + 1] := Clamp1(r);
      assert out[..2 * f + 2] == before + [Clamp1(l), Clamp1(r)];
    }

    /** main.c:1154-1157 and 1293-1295: rewind every stem and the clock, then start. */
    method Restart()
      requires Valid()
      modifies this, stems
      ensures Valid() && stems == old(stems) && started && framesPlayed == 0
      ensures sampleRate == old(sampleRate) && channels == old(channels) && bufferSize == old(bufferSize)
      ensures forall j :: 0 <= j < stems.Length ==> stems[j] == old(stems[j]).(pos := 0)
    {
      var i := 0;
      while i < stems.Length
        modifies stems
        invariant 0 <= i <= stems.Length
        invariant forall j :: 0 <= j < i ==> stems[j] == old(stems[j]).(pos := 0)
        invariant forall j :: i <= j < stems.Length ==> stems[j] == old(stems[j])
      {
        stems[i] := stems[i].(pos := 0);
        i := i + 1;
      }
      framesPlayed := 0;
      started := true;
    }
  }

  /** Frames played less two device buffers, never negative (audio.c:57-59). */
  function Compensated(framesPlayed: nat, bufferSize: int): (c: nat)
    ensures framesPlayed <= bufferSize * LatencyBufferMult ==> c == 0
    ensures framesPlayed > bufferSize * LatencyBufferMult ==> c == framesPlayed - bufferSize * LatencyBufferMult
  {
    var c := framesPlayed - bufferSize * LatencyBufferMult;
    if c < 0 then 0 else c
  }

  /** audio.c:56-61: the playback clock in seconds. */
  function AudioTimeSec(framesPlayed: nat, bufferSize: int, sampleRate: int): (t: real)
    requires sampleRate > 0
    ensures t >= 0.0
  {
    (Compensated(framesPlayed, bufferSize) as real) / (sampleRate as real)
  }

  /** The clock reads zero until two buffers have played, and never runs backward. */
  lemma AudioTimeProps(f1: nat, f2: nat, bufferSize: int, sampleRate: int)
    requires sampleRate > 0 && f1 <= f2
    ensures f2 <= 2 * bufferSize ==> AudioTimeSec(f2, bufferSize, sampleRate) == 0.0
    ensures AudioTimeSec(f1, bufferSize, sampleRate) <= AudioTimeSec(f2, bufferSize, sampleRate)
  {
    var c1, c2 := Compensated(f1, bufferSize), Compensated(f2, bufferSize);
    assert c1 <= c2;
    DivMono(c1 as real, c2 as real, sampleRate as real);
  }

  /** Past the latency, the clock advances by exactly one sample period per frame. */
  lemma AudioTimeStep(f: nat, bufferSize: int, sampleRate: int)
    requires sampleRate > 0 && f >= 2 * bufferSize
    ensures AudioTimeSec(f + 1, bufferSize, sampleRate)
      == AudioTimeSec(f, bufferSize, sampleRate) + 1.0 / (sampleRate as real)
  {
  }

  lemma DivMono(a: real, b: real, c: real)
    requires a <= b && c > 0.0
    ensures a / c <= b / c
  {
  }

  /** The index of the last `c` in `s` (`strrchr`). */
  function LastIndex(s: string, c: char): (r: Option<nat>)
    ensures r.Some? ==> r.value < |s| && s[r.value] == c && c !in s[r.value + 1..]
    ensures r.None? <==> c !in s
  {
    if s == [] then None
    else if s[|s| - 1] == c then Some(|s| - 1)
    else
      var r := LastIndex(s[..|s| - 1], c);
      assert s == s[..|s| - 1] + [s[|s| - 1]];
      if r.Some? then assert s[r.value + 1..] == s[..|s| - 1][r.value + 1..] + [s[|s| - 1]]; r else r
  }

  function Take(s: string, n: nat): (r: string)
    ensures |r| <= n && r <= s
    ensures |s| <= n ==> r == s
  {
    if |s| <= n then s else s[..n]
  }

  /** The text after the last `/` of the path, or the whole path. */
  function BaseName(path: string): (b: string)
    ensures '/' !in b && |b| <= |path| && path[|path| - |b|..] == b
  {
    match LastIndex(path, '/')
    case Some(k) => path[k + 1..]
    case None => path
  }

  /**
   * audio.c:63-72: the base name copied into a 32-byte buffer (at most 31
   * characters), cut at its last `.`, then cut to 20 characters.
   */
  function StemName(path: string): (r: string)
    ensures |r| <= 20
    ensures r <= BaseName(path)
    ensures '/' !in r
  {
    var out := Take(BaseName(path), 31);
    var cut := match LastIndex(out, '.') case Some(k) => out[..k] case None => out;
    Take(cut, 20)
  }

  /** The last `c` of `pre + [c] + tail` is the one after `pre` when `tail` has none. */
  lemma {:induction false} LastIndexAt(pre: string, c: char, tail: string)
    requires c !in tail
    ensures LastIndex(pre + [c] + tail, c) == Some(|pre|)
    decreases |tail|
  {
    var s := pre + [c] + tail;
    if tail != [] {
      var t := tail[..|tail| - 1];
      assert s[..|s| - 1] == pre + [c] + t;
      assert tail == t + [tail[|tail| - 1]];
      LastIndexAt(pre, c, t);
    }
  }

  lemma BaseNameAt(dir: string, tail: string)
    requires '/' !in tail
    ensures BaseName(dir + ['/'] + tail) == tail
  {
    LastIndexAt(dir, '/', tail);
    assert (dir + ['/'] + tail)[|dir| + 1..] == tail;
  }

  lemma DotCutAt(stem: string, ext: string)
    requires '.' !in ext
    ensures LastIndex(stem + ['.'] + ext, '.') == Some(|stem|)
    ensures (stem + ['.'] + ext)[..|stem|] == stem
  {
    LastIndexAt(stem, '.', ext);
  }

  /** A file `dir/stem.ext` with a short stem and a dot-free extension is named by its stem. */
  lemma StemNameOfFile(dir: string, stem: string, ext: string)
    requires '/' !in stem && '/' !in ext && '.' !in ext
    requires |stem| <= 20 && |stem| + 1 + |ext| <= 31
    ensures StemName(dir + "/" + stem + "." + ext) == stem
  {
    var tail := stem + ['.'] + ext;
    assert dir + "/" + stem + "." + ext == dir + ['/'] + tail;
    BaseNameAt(dir, tail);
    DotCutAt(stem, ext);
  }

  /** A name without `/` or `.` and at most 20 characters is kept whole. */
  lemma StemNamePlain(path: string)
    requires '/' !in path && '.' !in path && |path| <= 20
    ensures StemName(path) == path
  {
  }

  /** One `op_read_float` result: `got` frames (0 at the end, negative on error) and the floats written. */
  datatype Read = Read(got: int, samples: seq<real>)

  /**
   * What `op_open_file`, `op_head` and `op_pcm_total` report, and the chunks
   * that follow; `openOk` is false when the file cannot be opened.
   */
  datatype Decoder = Decoder(openOk: bool, hasHead: bool, channelCount: int, pcmTotal: int, chunks: seq<Read>)

  /** The decoder writes `got` frames of `channels` floats each, at most one chunk. */
  predicate ReadsOk(chunks: seq<Read>, channels: int) {
    forall k :: 0 <= k < |chunks| ==>
      chunks[k].got <= Chunk && (chunks[k].got > 0 ==> chunks[k].got * channels <= |chunks[k].samples|)
  }

  /** 120 ms at 48 kHz: the frames asked of each read (audio.c:97). */
  const Chunk: int := 120 * 48

  /** Frame `i` of the read as a stereo pair: mono is copied to both sides, else channels 0 and 1 (audio.c:136-142). */
  function FramePair(samples: seq<real>, channels: int, i: nat): seq<real>
    requires 1 <= channels && (i + 1) * channels <= |samples|
  {
    if channels == 1 then [samples[i], samples[i]] else [samples[i * channels], samples[i * channels + 1]]
  }

  /** The first `n` frames of a read, as interleaved stereo. */
  function Interleave(samples: seq<real>, channels: int, n: nat): (r: seq<real>)
    requires 1 <= channels && n * channels <= |samples|
    ensures |r| == 2 * n
  {
    if n == 0 then []
    else
      assert (n - 1 + 1) * channels <= |samples|;
      Interleave(samples, channels, n - 1) + FramePair(samples, channels, n - 1)
  }

  /** Frame `i` of the interleaved read: left from channel 0, right from channel 1, or both from the mono channel. */
  lemma {:induction false} InterleaveAt(samples: seq<real>, channels: int, n: nat, i: nat)
    requires 1 <= channels && n * channels <= |samples| && i < n
    ensures var r := Interleave(samples, channels, n);
      && r[2 * i] == samples[i * channels]
      && r[2 * i + 1] == samples[if channels == 1 then i else i * channels + 1]
  {
    MulLe(n - 1, n, channels);
    if i < n - 1 {
      InterleaveAt(samples, channels, n - 1, i);
    }
  }

  /** A frame before the read's count lies inside the floats it wrote. */
  lemma FrameInRead(i: nat, n: nat, channels: nat, len: nat)
    requires i < n && n * channels <= len
    ensures i * channels + channels <= len
    ensures channels == 1 ==> i < len
  {
    MulLe(i + 1, n, channels);
    assert (i + 1) * channels == i * channels + channels;
  }

  lemma MulLe(a: nat, b: nat, c: nat)
    requires a <= b
    ensures a * c <= b * c
  {
  }

  /** The decoded stereo after chunks `k..`, appended to `acc`; a negative count is an error. */
  function DecodeFrom(path: string, chunks: seq<Read>, channels: int, k: nat, acc: seq<real>): Result<seq<real>>
    requires 1 <= channels && k <= |chunks| && ReadsOk(chunks, channels)
    decreases |chunks| - k
  {
    if k == |chunks| || chunks[k].got == 0 then Ok(acc)
    else if chunks[k].got < 0 then Err("opusfile: decode error " + FormatInt(chunks[k].got) + " on " + path)
    else DecodeFrom(path, chunks, channels, k + 1, acc + Interleave(chunks[k].samples, channels, chunks[k].got))
  }

  /** The capacity after the first doubling, doubled until it holds `need` frames. */
  function DoubleUntil(nc: nat, need: nat): (r: nat)
    requires nc > 0
    decreases need - nc
  {
    if nc >= need then nc else DoubleUntil(2 * nc, need)
  }

  /** audio.c:122-133: the capacity in frames once `need` frames must fit. */
  function GrownCap(cap: nat, need: nat): nat {
    if need <= cap then cap else DoubleUntil(if cap != 0 then 2 * cap else 48000 * 60, need)
  }

  /** The grown capacity holds `need`, never shrinks, and is less than twice `need` when doubling was needed. */
  lemma {:induction false} DoubleUntilProps(nc: nat, need: nat)
    requires nc > 0
    ensures var r := DoubleUntil(nc, need);
      r >= need && r >= nc && (r == nc || r < 2 * need)
    decreases need - nc
  {
    if nc < need {
      DoubleUntilProps(2 * nc, need);
    }
  }

  lemma GrownCapProps(cap: nat, need: nat)
    ensures GrownCap(cap, need) >= need && GrownCap(cap, need) >= cap
    ensures need > cap && cap > 0 ==> GrownCap(cap, need) == 2 * cap || GrownCap(cap, need) < 2 * need
  {
    if need > cap {
      DoubleUntilProps(if cap != 0 then 2 * cap else 48000 * 60, need);
    }
  }

  /** What `load_opus_file` leaves in the stem, or why it exits (audio.c:74-160). */
  function LoadedStem(path: string, d: Decoder): (r: Result<Stem>)
    requires 1 <= d.channelCount <= 8 ==> ReadsOk(d.chunks, d.channelCount)
  {
    if !d.openOk then Err("opusfile: cannot open " + path)
    else if !d.hasHead then Err("opusfile: no head " + path)
    else if d.channelCount <= 0 || d.channelCount > 8 then Err("opusfile: unsupported channels=" + FormatInt(d.channelCount))
    else
      match DecodeFrom(path, d.chunks, d.channelCount, 0, [])
      case Err(m) => Err(m)
      case Ok(pcm) => Ok(Stem(StemName(path), Some(pcm), |pcm| / 2, 0, 1.0, 1.0, true, false))
  }

  /** A loaded stem is rewound at full gain, enabled, and its buffer covers its frames. */
  lemma {:induction false} LoadedStemProps(path: string, d: Decoder)
    requires 1 <= d.channelCount <= 8 ==> ReadsOk(d.chunks, d.channelCount)
    ensures var r := LoadedStem(path, d);
      r.Ok? ==> (
        && StemOk(r.value) && r.value.pos == 0 && r.value.gain == 1.0 == r.value.targetGain
        && r.value.enabled && |r.value.pcm.value| == 2 * r.value.frames && r.value.name == StemName(path))
    ensures LoadedStem(path, d).Ok? ==> d.openOk && d.hasHead && 1 <= d.channelCount <= 8
  {
    if d.openOk && d.hasHead && 1 <= d.channelCount <= 8 {
      DecodeEven(path, d.chunks, d.channelCount, 0, []);
    }
  }

  /** Decoding only ever appends whole frames. */
  lemma {:induction false} DecodeEven(path: string, chunks: seq<Read>, channels: int, k: nat, acc: seq<real>)
    requires 1 <= channels && k <= |chunks| && ReadsOk(chunks, channels) && |acc| % 2 == 0
    ensures var r := DecodeFrom(path, chunks, channels, k, acc); r.Ok? ==> |r.value| % 2 == 0 && acc <= r.value
    decreases |chunks| - k
  {
    if k < |chunks| && chunks[k].got > 0 {
      var acc' := acc + Interleave(chunks[k].samples, channels, chunks[k].got);
      DecodeEven(path, chunks, channels, k + 1, acc');
    }
  }

  /** `realloc` to `size` floats: a new buffer that starts with the old one; `keep` of them matter. */
  method Realloc(a: array<real>, size: nat, ghost keep: nat) returns (b: array<real>)
    requires keep <= a.Length <= size
    ensures fresh(b) && b.Length == size && b[..keep] == a[..keep]
  {
    b := new real[size];
    var i := 0;
    while i < a.Length
      invariant 0 <= i <= a.Length
      invariant forall j :: 0 <= j < i ==> b[j] == a[j]
    {
      b[i] := a[i];
      i := i + 1;
    }
    assert b[..keep] == a[..keep];
  }

  /** The decoding after one read of `got > 0` frames goes on from the next read. */
  lemma DecodeStep(path: string, chunks: seq<Read>, channels: int, k: nat, acc: seq<real>, acc': seq<real>)
    requires 1 <= channels && k < |chunks| && ReadsOk(chunks, channels) && chunks[k].got > 0
    requires acc' == acc + Interleave(chunks[k].samples, channels, chunks[k].got)
    ensures DecodeFrom(path, chunks, channels, k, acc) == DecodeFrom(path, chunks, channels, k + 1, acc')
  {
  }

  lemma DecodeFail(path: string, chunks: seq<Read>, channels: int, k: nat, acc: seq<real>)
    requires 1 <= channels && k < |chunks| && ReadsOk(chunks, channels) && chunks[k].got < 0
    ensures DecodeFrom(path, chunks, channels, k, acc) == Err("opusfile: decode error " + FormatInt(chunks[k].got) + " on " + path)
  {
  }

  lemma DecodeEnd(path: string, chunks: seq<Read>, channels: int, k: nat, acc: seq<real>)
    requires 1 <= channels && k <= |chunks| && ReadsOk(chunks, channels)
    requires k == |chunks| || chunks[k].got == 0
    ensures DecodeFrom(path, chunks, channels, k, acc) == Ok(acc)
  {
  }

  /** audio.c:122-125: grow the capacity until `need` frames fit. */
  method GrowCap(cap: nat, need: nat) returns (nc: nat)
    requires need > cap
    ensures nc == GrownCap(cap, need)
  {
    nc := if cap != 0 then cap * 2 else 48000 * 60;
    while nc < need
      invariant nc > 0 && DoubleUntil(nc, need) == GrownCap(cap, need)
      decreases need - nc
    {
      nc := nc * 2;
    }
  }

  /** audio.c:136-142: the stereo pair of frame `i`. */
  method PickFrame(samples: seq<real>, channels: int, got: nat, i: nat) returns (l: real, r: real)
    requires 1 <= channels && i < got && got * channels <= |samples|
    ensures l == Interleave(samples, channels, got)[2 * i] && r == Interleave(samples, channels, got)[2 * i + 1]
  {
    InterleaveAt(samples, channels, got, i);
    FrameInRead(i, got, channels, |samples|);
    if channels == 1 {
      l, r := samples[i], samples[i];
    } else {
      var at := i * channels;
      l, r := samples[at], samples[at + 1];
    }
  }

  /** audio.c:135-145: interleave `got` frames of the read at frame `frames` of the buffer. */
  method CopyFrames(pcm: array<real>, frames: nat, rd: Read, channels: int)
    requires 1 <= channels && 0 < rd.got && rd.got * channels <= |rd.samples|
    requires 2 * (frames + rd.got) <= pcm.Length
    modifies pcm
    ensures pcm[..2 * (frames + rd.got)] == old(pcm[..2 * frames]) + Interleave(rd.samples, channels, rd.got)
  {
    ghost var full := Interleave(rd.samples, channels, rd.got);
    var base := 2 * frames;
    var i := 0;
    while i < rd.got
      invariant 0 <= i <= rd.got
      invariant forall x :: 0 <= x < base ==> pcm[x] == old(pcm[x])
      invariant forall x :: 0 <= x < 2 * i ==> pcm[base + x] == full[x]
    {
      InterleaveAt(rd.samples, channels, rd.got, i);
      var l, r := PickFrame(rd.samples, channels, rd.got, i);
      pcm[base + 2 * i] := l;
      pcm[base + 2 * i + 1] := r;
      i := i + 1;
    }
    assert pcm[..base + 2 * rd.got] == old(pcm[..base]) + full;
  }

  /** The read loop of `load_opus_file` (audio.c:104-147), from an initial capacity of `cap` frames. */
  method DecodeChunks(path: string, chunks: seq<Read>, inCh: int, cap0: nat) returns (err: Option<string>, pcm: array<real>, frames: nat)
    requires 1 <= inCh && ReadsOk(chunks, inCh) && cap0 > 0
    ensures fresh(pcm) && 2 * frames <= pcm.Length
    ensures err.None? ==> DecodeFrom(path, chunks, inCh, 0, []) == Ok(pcm[..2 * frames])
    ensures err.Some? ==> DecodeFrom(path, chunks, inCh, 0, []) == Err(err.value)
  {
    var cap := cap0;
    pcm := new real[2 * cap];
    frames := 0;
    var k := 0;
    ghost var acc: seq<real> := [];
    while k < |chunks|
      invariant 0 <= k <= |chunks| && frames <= cap && pcm.Length == 2 * cap
      invariant fresh(pcm) && acc == pcm[..2 * frames]
      invariant DecodeFrom(path, chunks, inCh, k, acc) == DecodeFrom(path, chunks, inCh, 0, [])
      decreases |chunks| - k
    {
      var got := chunks[k].got;
      if got == 0 {
        break;
      }
      if got < 0 {
        DecodeFail(path, chunks, inCh, k, acc);
        return Some("opusfile: decode error " + FormatInt(got) + " on " + path), pcm, frames;
      }
      var need := frames + got;
      if need > cap {
        var nc := GrowCap(cap, need);
        GrownCapProps(cap, need);
        pcm := Realloc(pcm, 2 * nc, 2 * frames);
        cap := nc;
      }
      CopyFrames(pcm, frames, chunks[k], inCh);
      ghost var acc' := acc + Interleave(chunks[k].samples, inCh, got);
      DecodeStep(path, chunks, inCh, k, acc, acc');
      frames, k, acc := need, k + 1, acc';
    }
    DecodeEnd(path, chunks, inCh, k, acc);
    err := None;
  }

  lemma LoadedOk(path: string, d: Decoder, p: seq<real>, frames: nat)
    requires d.openOk && d.hasHead && 1 <= d.channelCount <= 8 && ReadsOk(d.chunks, d.channelCount)
    requires DecodeFrom(path, d.chunks, d.channelCount, 0, []) == Ok(p) && |p| == 2 * frames
    ensures LoadedStem(path, d) == Ok(Stem(StemName(path), Some(p), frames, 0, 1.0, 1.0, true, false))
  {
    assert |p| / 2 == frames;
  }

  lemma LoadedFail(path: string, d: Decoder, m: string)
    requires d.openOk && d.hasHead && 1 <= d.channelCount <= 8 && ReadsOk(d.chunks, d.channelCount)
    requires DecodeFrom(path, d.chunks, d.channelCount, 0, []) == Err(m)
    ensures LoadedStem(path, d) == Err(m)
  {
  }

  /** audio.c:74-160 with the decoder given as data. */
  method LoadOpusFile(path: string, d: Decoder) returns (r: Result<Stem>)
    requires 1 <= d.channelCount <= 8 ==> ReadsOk(d.chunks, d.channelCount)
    ensures r == LoadedStem(path, d)
  {
    if !d.openOk {
      return Err("opusfile: cannot open " + path);
    }
    if !d.hasHead {
      return Err("opusfile: no head " + path);
    }
    var inCh := d.channelCount;
    if inCh <= 0 || inCh > 8 {
      return Err("opusfile: unsupported channels=" + FormatInt(inCh));
    }
    var totalEst: nat := if d.pcmTotal > 0 then d.pcmTotal else 0;
    var cap: nat := if totalEst != 0 then totalEst else 48000 * 180;
    var err, pcm, frames := DecodeChunks(path, d.chunks, inCh, cap);
    if err.Some? {
      LoadedFail(path, d, err.value);
      return Err(err.value);
    }
    var p := pcm[..2 * frames];
    LoadedOk(path, d, p, frames);
    r := Ok(Stem(StemName(path), Some(p), frames, 0, 1.0, 1.0, true, false));
  }
}

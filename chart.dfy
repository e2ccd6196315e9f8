/// The `.chart` text format of Clone Hero / Phase Shift (chart.c): a file of
/// `[Section]` headers and `key = value` lines, read one `fgets` buffer at a
/// time. `[Song]` gives the resolution and the offset, `[SyncTrack]` the
/// tempo changes (`B` with beats per minute times 1000), and the four
/// `...Single` sections the guitar notes (`N lane duration`; `N 5 0` forces
/// a strum). The notes come out as `NoteOn` records in seconds, on track 0.
module Chart {
  import opened Wrappers
  import opened CText
  import opened Vectors
  import opened MidiTypes
  import opened MidiBytes

  /** `TempoBPM`: from `tick` on, a quarter note lasts `usPerQn` microseconds. */
  datatype TempoBpm = TempoBpm(tick: int, usPerQn: int)

  /** The tick-based note `chart_parse` keeps until the end of the file. */
  datatype ChartNote = ChartNote(tick: int, lane: int, duration: int, diff: int, forced: bool)

  /** The variables of the line loop: section name, resolution, offset, tempos and notes so far. */
  datatype ParseState = ParseState(
    section: string,
    resolution: int,
    offset: real,
    tempos: seq<TempoBpm>,
    notes: seq<ChartNote>)

  const DefaultResolution: int := 192
  /** `char line[512]`. */
  const LineBuffer: nat := 512
  /** `char section[64]`: at most 63 characters and the terminator. */
  const SectionMax: nat := 63
  const IntMin: int := -0x8000_0000
  const IntMax: int := 0x7FFF_FFFF
  const TwoTo64: int := 0x1_0000_0000_0000_0000

  /** The state before the first line (chart.c:110-113). */
  const Initial := ParseState("", DefaultResolution, 0.0, [], [])

  // ---------------------------------------------------------------- trim

  /** The end of the text once the white space after index `a` is dropped. */
  function TrailEnd(s: string, a: nat, b: nat): (e: nat)
    requires a <= b <= |s|
    ensures a <= e <= b
    ensures forall k :: e <= k < b ==> IsSpace(s[k])
    ensures e == a || !IsSpace(s[e - 1])
    decreases b
  {
    if b > a && IsSpace(s[b - 1]) then TrailEnd(s, a, b - 1) else b
  }

  /**
   * `trim` (chart.c:86-100): the text without its leading and trailing
   * white space. Only white space is removed, and what is left neither
   * starts nor ends with white space.
   */
  function Trimmed(s: string): (r: string)
    ensures exists a :: CutAt(s, r, a)
    ensures r != [] ==> !IsSpace(r[0]) && !IsSpace(r[|r| - 1])
    ensures r == [] <==> forall k :: 0 <= k < |s| ==> IsSpace(s[k])
  {
    var a := SkipSpaces(s, 0);
    var e := TrailEnd(s, a, |s|);
    assert a < |s| ==> e > a;
    assert CutAt(s, s[a..e], a);
    s[a..e]
  }

  /** `r` is `s` with white space only cut from its front (the first `a` characters) and its back. */
  ghost predicate CutAt(s: string, r: string, a: int) {
    && 0 <= a <= |s| - |r| && s[a..a + |r|] == r
    && (forall k :: 0 <= k < a ==> IsSpace(s[k]))
    && (forall k :: a + |r| <= k < |s| ==> IsSpace(s[k]))
  }

  /** `trim` moves the start past white space, then the end back over it. */
  method Trim(s: string) returns (r: string)
    ensures r == Trimmed(s)
  {
    var a := 0;
    while a < |s| && IsSpace(s[a])
      invariant 0 <= a <= |s| && SkipSpaces(s, a) == SkipSpaces(s, 0)
    {
      a := a + 1;
    }
    if a == |s| {
      return [];
    }
    var e := |s| - 1;
    while e > a && IsSpace(s[e])
      invariant a <= e < |s| && TrailEnd(s, a, e + 1) == TrailEnd(s, a, |s|)
    {
      e := e - 1;
    }
    r := s[a..e + 1];
  }

  lemma SkipSpacesAtNonSpace(s: string)
    requires s != [] && !IsSpace(s[0])
    ensures SkipSpaces(s, 0) == 0
  {
  }

  lemma TrailEndAtNonSpace(s: string)
    requires s != [] && !IsSpace(s[|s| - 1])
    ensures TrailEnd(s, 0, |s|) == |s|
  {
  }

  /** Trimming twice is trimming once. */
  lemma TrimIdempotent(s: string)
    ensures Trimmed(Trimmed(s)) == Trimmed(s)
  {
    var t := Trimmed(s);
    if t != [] {
      SkipSpacesAtNonSpace(t);
      TrailEndAtNonSpace(t);
      assert t[0..|t|] == t;
    }
  }

  // ---------------------------------------------------------------- line syntax

  /** `strncpy(dst, src, n)` followed by a terminator at `n`. */
  function Prefix(s: string, n: nat): (r: string)
    ensures |r| <= n && |r| <= |s|
    ensures r == s[..|r|]
    ensures |s| <= n ==> r == s
  {
    if |s| <= n then s else s[..n]
  }

  /**
   * chart.c:135-143: the section named by a `[` line, the text up to the
   * first `]` cut to 63 characters; none when the line has no `]`.
   */
  function HeaderName(t: string): (r: Option<string>)
    requires t != [] && t[0] == '['
    ensures r.Some? <==> ']' in t
  {
    var e := Find(t, ']', 0);
    if e == |t| then None else Some(Prefix(t[1..e], SectionMax))
  }

  /** chart.c:188-192: the difficulty of a guitar section. */
  function SectionDiff(section: string): (d: Option<int>)
    ensures d.Some? ==> 0 <= d.value <= 3
  {
    if section == "ExpertSingle" then Some(3)
    else if section == "HardSingle" then Some(2)
    else if section == "MediumSingle" then Some(1)
    else if section == "EasySingle" then Some(0)
    else None
  }

  /**
   * `(int)(60000000.0 / (n / 1000.0))` (chart.c:173-177): the microseconds
   * per quarter note of `n` thousandths of a beat per minute, truncated
   * toward zero. A value out of `int` range (from `n == 0` or a tiny `n`)
   * is what the x86 conversion gives, `INT_MIN`.
   */
  function UsPerQnOfBpm(n: int): (us: int)
    ensures IntMin <= us <= IntMax
  {
    var q := if n > 0 then 60000000000 / n else if n < 0 then -(60000000000 / -n) else IntMax + 1;
    if IntMin <= q <= IntMax then q else IntMin
  }

  /** `atoi(value + 2)`: the number after `B` and one more character. */
  function BpmArg(value: string): int {
    if |value| >= 2 then Atoi(value[2..]) else 0
  }

  /** `sscanf(value, "N %d %d", &lane, &duration) == 2`: the lane and the duration. */
  function NoteFields(value: string): (r: Option<(int, int)>)
    requires value != [] && value[0] == 'N'
  {
    match ScanIntAt(value, 1)
    case None => None
    case Some((lane, e)) =>
      match ScanIntAt(value, e)
      case None => None
      case Some((dur, _)) => Some((lane, dur))
  }

  /**
   * chart.c:218-225: every note recorded so far at tick `tick` in
   * difficulty `diff` becomes a forced strum; nothing else changes.
   */
  function MarkForced(ns: seq<ChartNote>, tick: int, diff: int): (r: seq<ChartNote>)
    ensures |r| == |ns|
    ensures forall k :: 0 <= k < |ns| ==>
      r[k] == if ns[k].tick == tick && ns[k].diff == diff then ns[k].(forced := true) else ns[k]
  {
    if ns == [] then []
    else
      var x := ns[|ns| - 1];
      MarkForced(ns[..|ns| - 1], tick, diff)
        + [if x.tick == tick && x.diff == diff then x.(forced := true) else x]
  }

  // ---------------------------------------------------------------- one line

  /** chart.c:157-165: a `key = value` line of `[Song]`. */
  function SongLine(st: ParseState, key: string, value: string, atof: string -> real): ParseState {
    if key == "Resolution" then
      var r := Atoi(value);
      st.(resolution := if r <= 0 then DefaultResolution else r)
    else if key == "Offset" then st.(offset := atof(value))
    else st
  }

  /** chart.c:167-181: a `key = value` line of `[SyncTrack]`. */
  function SyncLine(st: ParseState, key: string, value: string): ParseState {
    if value != [] && value[0] == 'B' then
      st.(tempos := st.tempos + [TempoBpm(Atoi(key), UsPerQnOfBpm(BpmArg(value)))])
    else st
  }

  /** chart.c:194-226: a `key = value` line of a guitar section of difficulty `diff`. */
  function NoteLine(st: ParseState, diff: int, key: string, value: string): ParseState {
    if value != [] && value[0] == 'N' then
      match NoteFields(value)
      case None => st
      case Some((lane, dur)) =>
        if 0 <= lane <= 4 then st.(notes := st.notes + [ChartNote(Atoi(key), lane, dur, diff, false)])
        else if lane == 5 && dur == 0 then st.(notes := MarkForced(st.notes, Atoi(key), diff))
        else st
    else st
  }

  /** chart.c:156-229: a `key = value` line goes to the handler of the current section. */
  function PairLine(st: ParseState, key: string, value: string, atof: string -> real): ParseState {
    if st.section == "Song" then SongLine(st, key, value, atof)
    else if st.section == "SyncTrack" then SyncLine(st, key, value)
    else match SectionDiff(st.section)
      case Some(d) => NoteLine(st, d, key, value)
      case None => st
  }

  /**
   * One turn of the loop of chart.c:128-230 on the buffer `line`: blank
   * lines, comments and braces are skipped, a `[` line may change the
   * section, and a line with `=` is split around the first `=` into a
   * trimmed key and value.
   */
  function Step(st: ParseState, line: string, atof: string -> real): ParseState {
    var t := Trimmed(line);
    if t == [] || t[0] == '#' then st
    else if t[0] == '[' then
      match HeaderName(t)
      case Some(name) => st.(section := name)
      case None => st
    else if t == "{" || t == "}" then st
    else
      var eq := Find(t, '=', 0);
      if eq == |t| then st
      else PairLine(st, Trimmed(t[..eq]), Trimmed(t[eq + 1..]), atof)
  }

  /** The state after the first `i` buffers. */
  function RunTo(lines: seq<string>, i: nat, atof: string -> real): ParseState
    requires i <= |lines|
  {
    if i == 0 then Initial else Step(RunTo(lines, i - 1, atof), lines[i - 1], atof)
  }

  /** The state after the whole file, read in `fgets` buffers of 512. */
  function Run(content: string, atof: string -> real): ParseState {
    var lines := Lines(content, LineBuffer);
    RunTo(lines, |lines|, atof)
  }

  // ---------------------------------------------------------------- seconds

  /** One segment of `tick_to_sec`: `dt` ticks at `us` microseconds per quarter note. */
  function Seg(dt: int, us: int, res: int): real
    requires res > 0
  {
    (dt as real) * ((us as real) / 1000000.0 / (res as real))
  }

  /** The segments of chart.c:59-82 from tempo `i` on, the last change being at `cur` with `us`. */
  function SecFrom(tick: int, tv: seq<TempoBpm>, res: int, i: nat, cur: int, us: int): real
    requires res > 0 && i <= |tv|
    decreases |tv| - i
  {
    if i == |tv| || tv[i].tick > tick then Seg(tick - cur, us, res)
    else Seg(tv[i].tick - cur, us, res) + SecFrom(tick, tv, res, i + 1, tv[i].tick, tv[i].usPerQn)
  }

  /**
   * chart.c's `tick_to_sec` (chart.c:49-83), over the tempos in file order:
   * 120 beats per minute without tempos; otherwise the first tempo's speed
   * applies from tick 0, and each later one from its tick.
   */
  function ChartSec(tick: int, tv: seq<TempoBpm>, res: int): real
    requires res > 0
  {
    if tv == [] then (tick as real) / (res as real) * 0.5
    else SecFrom(tick, tv, res, 0, 0, tv[0].usPerQn)
  }

  /** chart.c:49-83, accumulating into `sec`. */
  method TickToSec(tick: int, res: int, tempos: Vector<TempoBpm>) returns (sec: real)
    requires res > 0 && tempos.Valid()
    ensures sec == ChartSec(tick, tempos.Items(), res)
  {
    ghost var tv := tempos.Items();
    if tempos.n == 0 {
      return (tick as real) / (res as real) * 0.5;
    }
    sec := 0.0;
    var cur := 0;
    var us := tempos.data[0].usPerQn;
    var i := 0;
    while i < tempos.n
      invariant 0 <= i <= tempos.n
      invariant sec + SecFrom(tick, tv, res, i, cur, us) == ChartSec(tick, tv, res)
    {
      var t := tempos.data[i];
      assert t == tv[i];
      if t.tick > tick {
        var delta := tick - cur;
        sec := sec + (delta as real) * ((us as real) / 1000000.0 / (res as real));
        return;
      }
      var delta := t.tick - cur;
      sec := sec + (delta as real) * ((us as real) / 1000000.0 / (res as real));
      cur := t.tick;
      us := t.usPerQn;
      i := i + 1;
    }
    var delta := tick - cur;
    sec := sec + (delta as real) * ((us as real) / 1000000.0 / (res as real));
  }

  /** Tempos in non-decreasing tick order, from tick 0 on, none with a negative speed. */
  ghost predicate Ordered(tv: seq<TempoBpm>) {
    && (forall i, j :: 0 <= i < j < |tv| ==> tv[i].tick <= tv[j].tick)
    && (forall i :: 0 <= i < |tv| ==> tv[i].tick >= 0 && tv[i].usPerQn >= 0)
  }

  lemma SegMono(a: int, b: int, us: int, res: int)
    requires res > 0 && a <= b && us >= 0
    ensures Seg(a, us, res) <= Seg(b, us, res)
  {
    var f := (us as real) / 1000000.0 / (res as real);
    assert f >= 0.0;
    assert (a as real) * f <= (b as real) * f;
  }

  lemma {:induction false} SecFromNonNegative(tick: int, tv: seq<TempoBpm>, res: int, i: nat, cur: int, us: int)
    requires res > 0 && i <= |tv| && Ordered(tv) && us >= 0 && cur <= tick
    requires i < |tv| ==> cur <= tv[i].tick
    ensures SecFrom(tick, tv, res, i, cur, us) >= 0.0
    decreases |tv| - i
  {
    SegMono(0, tick - cur, us, res);
    if i < |tv| && tv[i].tick <= tick {
      SegMono(0, tv[i].tick - cur, us, res);
      SecFromNonNegative(tick, tv, res, i + 1, tv[i].tick, tv[i].usPerQn);
    }
  }

  lemma {:induction false} SecFromMono(t1: int, t2: int, tv: seq<TempoBpm>, res: int, i: nat, cur: int, us: int)
    requires res > 0 && i <= |tv| && Ordered(tv) && us >= 0 && t1 <= t2
    requires i < |tv| ==> cur <= tv[i].tick
    ensures SecFrom(t1, tv, res, i, cur, us) <= SecFrom(t2, tv, res, i, cur, us)
    decreases |tv| - i
  {
    if i == |tv| || tv[i].tick > t2 {
      SegMono(t1 - cur, t2 - cur, us, res);
    } else if tv[i].tick > t1 {
      SegMono(t1 - cur, tv[i].tick - cur, us, res);
      SecFromNonNegative(t2, tv, res, i + 1, tv[i].tick, tv[i].usPerQn);
    } else {
      SecFromMono(t1, t2, tv, res, i + 1, tv[i].tick, tv[i].usPerQn);
    }
  }

  /** With ordered tempos, chart.c's `tick_to_sec` never goes back in time. */
  lemma ChartSecMonotone(t1: int, t2: int, tv: seq<TempoBpm>, res: int)
    requires res > 0 && Ordered(tv) && t1 <= t2
    ensures ChartSec(t1, tv, res) <= ChartSec(t2, tv, res)
  {
    if tv == [] {
      var f := 1.0 / (res as real) * 0.5;
      assert (t1 as real) / (res as real) * 0.5 == (t1 as real) * f;
      assert (t2 as real) / (res as real) * 0.5 == (t2 as real) * f;
      assert (t1 as real) * f <= (t2 as real) * f;
    } else {
      SecFromMono(t1, t2, tv, res, 0, 0, tv[0].usPerQn);
    }
  }

  /** Before any tempo change the speed is the first tempo's, from tick 0. */
  lemma ChartSecFirstSegment(tick: int, tv: seq<TempoBpm>, res: int)
    requires res > 0 && tv != [] && tick < tv[0].tick
    ensures ChartSec(tick, tv, res) == (tick as real) * ((tv[0].usPerQn as real) / 1000000.0 / (res as real))
  {
  }

  // ---------------------------------------------------------------- notes out

  /** `(uint64_t)tick`: the tick modulo 2^64. */
  function U64Tick(tick: int): (r: nat)
    ensures r < TwoTo64
    ensures tick >= 0 && tick < TwoTo64 ==> r == tick
  {
    tick % TwoTo64
  }

  /**
   * chart.c:235-260: the `NoteOn` of a chart note, its time shifted by the
   * offset and its sustain the time from its tick to its end tick.
   */
  function ToNoteOn(c: ChartNote, res: int, tv: seq<TempoBpm>, offset: real): NoteOn
    requires res > 0
  {
    var t := ChartSec(c.tick, tv, res);
    var e := ChartSec(c.tick + c.duration, tv, res);
    NoteOn(U64Tick(c.tick), t + offset, 60 + 12 * c.diff + c.lane, c.lane, c.diff,
           if c.forced then 96 else 100, 0, e - t)
  }

  function ToNotes(cs: seq<ChartNote>, res: int, tv: seq<TempoBpm>, offset: real): (r: seq<NoteOn>)
    requires res > 0
    ensures |r| == |cs|
    ensures forall k :: 0 <= k < |cs| ==> r[k] == ToNoteOn(cs[k], res, tv, offset)
  {
    seq(|cs|, k requires 0 <= k < |cs| => ToNoteOn(cs[k], res, tv, offset))
  }

  /** The notes `chart_parse` appends for the file contents `content`. */
  function ChartNotes(content: string, atof: string -> real): seq<NoteOn> {
    var st := Run(content, atof);
    RunWellFormed(content, atof);
    ToNotes(st.notes, st.resolution, st.tempos, st.offset)
  }

  /** The track name `chart_parse` adds (chart.c:264-271). */
  const GuitarName := TrackName(0, "PART GUITAR")

  // ---------------------------------------------------------------- invariants

  /**
   * What the loop keeps: a positive resolution, a section name of at most
   * 63 characters, and recorded notes on lanes 0..4 of difficulties 0..3.
   */
  ghost predicate WellFormed(st: ParseState) {
    && st.resolution > 0
    && |st.section| <= SectionMax
    && forall k :: 0 <= k < |st.notes| ==> 0 <= st.notes[k].lane <= 4 && 0 <= st.notes[k].diff <= 3
  }

  lemma NoteLineWellFormed(st: ParseState, d: int, key: string, value: string)
    requires WellFormed(st) && 0 <= d <= 3
    ensures WellFormed(NoteLine(st, d, key, value))
  {
    if value != [] && value[0] == 'N' && NoteFields(value).Some? {
      var (lane, dur) := NoteFields(value).value;
      if !(0 <= lane <= 4) && lane == 5 && dur == 0 {
        var m := MarkForced(st.notes, Atoi(key), d);
        forall k | 0 <= k < |m| ensures 0 <= m[k].lane <= 4 && 0 <= m[k].diff <= 3 {
          assert m[k].lane == st.notes[k].lane && m[k].diff == st.notes[k].diff;
        }
      }
    }
  }

  lemma PairLineWellFormed(st: ParseState, key: string, value: string, atof: string -> real)
    requires WellFormed(st)
    ensures WellFormed(PairLine(st, key, value, atof))
  {
    if st.section != "Song" && st.section != "SyncTrack" && SectionDiff(st.section).Some? {
      NoteLineWellFormed(st, SectionDiff(st.section).value, key, value);
    }
  }

  lemma StepWellFormed(st: ParseState, line: string, atof: string -> real)
    requires WellFormed(st)
    ensures WellFormed(Step(st, line, atof))
  {
    var t := Trimmed(line);
    if t != [] && t[0] != '#' && t[0] != '[' && t != "{" && t != "}" {
      var eq := Find(t, '=', 0);
      if eq < |t| {
        PairLineWellFormed(st, Trimmed(t[..eq]), Trimmed(t[eq + 1..]), atof);
      }
    }
  }

  lemma {:induction false} RunToWellFormed(lines: seq<string>, i: nat, atof: string -> real)
    requires i <= |lines|
    ensures WellFormed(RunTo(lines, i, atof))
  {
    if i > 0 {
      RunToWellFormed(lines, i - 1, atof);
      StepWellFormed(RunTo(lines, i - 1, atof), lines[i - 1], atof);
    }
  }

  /** The resolution after any file is positive. */
  lemma RunWellFormed(content: string, atof: string -> real)
    ensures WellFormed(Run(content, atof))
  {
    var lines := Lines(content, LineBuffer);
    RunToWellFormed(lines, |lines|, atof);
  }

  /** The value of a buffer that reads as a `Resolution = value` pair, whatever the section. */
  function ResolutionValue(line: string): Option<int> {
    var t := Trimmed(line);
    if t == [] || t[0] == '#' || t[0] == '[' || t == "{" || t == "}" then None
    else
      var eq := Find(t, '=', 0);
      if eq == |t| || Trimmed(t[..eq]) != "Resolution" then None
      else Some(Atoi(Trimmed(t[eq + 1..])))
  }

  /** The value of the last of the first `i` buffers that is a `Resolution` pair met in section `Song`. */
  function LastResolution(lines: seq<string>, i: nat, atof: string -> real): Option<int>
    requires i <= |lines|
  {
    if i == 0 then None
    else if RunTo(lines, i - 1, atof).section == "Song" && ResolutionValue(lines[i - 1]).Some? then
      ResolutionValue(lines[i - 1])
    else LastResolution(lines, i - 1, atof)
  }

  /** The resolution a `Resolution` value leaves: the value when positive, else 192. */
  function ResolutionOf(r: Option<int>): int {
    if r.Some? && r.value > 0 then r.value else DefaultResolution
  }

  /** Only a `Resolution` pair in `[Song]` changes the resolution, and it sets it to its value or 192. */
  lemma StepResolution(st: ParseState, line: string, atof: string -> real)
    ensures Step(st, line, atof).resolution ==
      if st.section == "Song" && ResolutionValue(line).Some? then ResolutionOf(ResolutionValue(line))
      else st.resolution
  {
  }

  lemma RunToStep(lines: seq<string>, i: nat, atof: string -> real)
    requires 0 < i <= |lines|
    ensures RunTo(lines, i, atof) == Step(RunTo(lines, i - 1, atof), lines[i - 1], atof)
  {
  }

  lemma LastResolutionStep(lines: seq<string>, i: nat, atof: string -> real)
    requires 0 < i <= |lines|
    ensures LastResolution(lines, i, atof) ==
      if RunTo(lines, i - 1, atof).section == "Song" && ResolutionValue(lines[i - 1]).Some? then
        ResolutionValue(lines[i - 1])
      else LastResolution(lines, i - 1, atof)
  {
  }

  /**
   * The resolution after the first `i` buffers: 192 when no `Resolution`
   * pair was met in `[Song]`, otherwise what the last such pair gave.
   */
  lemma {:induction false} RunToResolution(lines: seq<string>, i: nat, atof: string -> real)
    requires i <= |lines|
    ensures RunTo(lines, i, atof).resolution == ResolutionOf(LastResolution(lines, i, atof))
  {
    if i > 0 {
      var j: nat := i - 1;
      RunToStep(lines, i, atof);
      LastResolutionStep(lines, i, atof);
      RunToResolution(lines, j, atof);
      StepResolution(RunTo(lines, j, atof), lines[j], atof);
    }
  }

  /**
   * The resolution of a file: the last `Resolution` value given in
   * `[Song]` when it is positive, and 192 when it is not or when there is none.
   */
  lemma RunResolution(content: string, atof: string -> real)
    ensures var lines := Lines(content, LineBuffer);
      Run(content, atof).resolution == ResolutionOf(LastResolution(lines, |lines|, atof))
    ensures var lines := Lines(content, LineBuffer);
      LastResolution(lines, |lines|, atof).None? ==> Run(content, atof).resolution == 192
  {
    var lines := Lines(content, LineBuffer);
    RunToResolution(lines, |lines|, atof);
  }

  // ---------------------------------------------------------------- line properties

  /**
   * A header line sets the section to the text between `[` and the first
   * `]`, cut to 63 characters, and changes nothing else; without `]` the
   * line changes nothing.
   */
  lemma HeaderLine(st: ParseState, line: string, atof: string -> real)
    requires Trimmed(line) != [] && Trimmed(line)[0] == '['
    ensures var t := Trimmed(line);
      Step(st, line, atof) ==
        if ']' in t then
          var e := Find(t, ']', 0);
          st.(section := if e - 1 <= SectionMax then t[1..e] else t[1..1 + SectionMax])
        else st
  {
  }

  /** A `Resolution` line sets the resolution to its value, or to 192 when that is zero or below. */
  lemma ResolutionLine(st: ParseState, key: string, value: string, atof: string -> real)
    requires st.section == "Song" && key == "Resolution"
    ensures PairLine(st, key, value, atof).resolution == if Atoi(value) > 0 then Atoi(value) else 192
    ensures PairLine(st, key, value, atof).tempos == st.tempos
    ensures PairLine(st, key, value, atof).notes == st.notes
  {
  }

  /** For a rate of at least 28 (so that the result fits an `int`) and at most 60000000000, the tempo is 60000000000 / n microseconds per quarter note. */
  lemma BpmTempo(n: int)
    requires 28 <= n <= 60000000000
    ensures UsPerQnOfBpm(n) == 60000000000 / n
    ensures UsPerQnOfBpm(n) > 0
  {
    DivAntitone(60000000000, 28, n);
    DivAntitone(60000000000, n, 60000000000);
    assert 60000000000 / 28 == 2142857142;
  }

  lemma DivAntitone(x: nat, a: nat, b: nat)
    requires 0 < a <= b
    ensures x / b <= x / a
  {
    var qa, qb := x / a, x / b;
    MulMono(qb, a, b);
    if qb > qa {
      MulMono(a, qa + 1, qb);
    }
  }

  lemma MulMono(k: nat, a: nat, b: nat)
    requires a <= b
    ensures k * a <= k * b
  {
  }

  /** 120000 (120 beats per minute) is the default tempo of 500000 microseconds. */
  lemma BpmDefault()
    ensures UsPerQnOfBpm(120000) == 500000
  {
  }

  /**
   * A `N` line of a guitar section records a note on lanes 0..4, unforced
   * and with the section's difficulty; `N 5 0` marks the notes already
   * recorded at that tick and difficulty; anything else changes nothing.
   */
  lemma NoteLineEffect(st: ParseState, d: int, key: string, value: string)
    requires value != [] && value[0] == 'N' && NoteFields(value).Some?
    ensures var (lane, dur) := NoteFields(value).value;
      var r := NoteLine(st, d, key, value);
      && r.section == st.section && r.resolution == st.resolution && r.tempos == st.tempos
      && (0 <= lane <= 4 ==> r.notes == st.notes + [ChartNote(Atoi(key), lane, dur, d, false)])
      && (lane == 5 && dur == 0 ==> Marked(st.notes, r.notes, Atoi(key), d))
      && (!(0 <= lane <= 4) && !(lane == 5 && dur == 0) ==> r == st)
  {
  }

  /**
   * `after` is `before` with the notes at `tick` in difficulty `diff` forced,
   * and every other field of every note kept.
   */
  ghost predicate Marked(before: seq<ChartNote>, after: seq<ChartNote>, tick: int, diff: int) {
    && |after| == |before|
    && forall k :: 0 <= k < |before| ==>
         && after[k].forced == (before[k].forced || (before[k].tick == tick && before[k].diff == diff))
         && after[k].(forced := before[k].forced) == before[k]
  }

  /**
   * Every note `chart_parse` outputs maps back through `gh_map_pitch` to its
   * difficulty and lane, is on track 0, and has velocity 96 exactly when it
   * was forced (velocity 100 otherwise).
   */
  lemma ChartNotesPitch(c: ChartNote, res: int, tv: seq<TempoBpm>, offset: real)
    requires res > 0 && 0 <= c.lane <= 4 && 0 <= c.diff <= 3
    ensures var x := ToNoteOn(c, res, tv, offset);
      && GhMapPitch(x.pitch) == Some((c.diff, c.lane))
      && x.lane == c.lane && x.diff == c.diff && x.track == 0
      && (x.vel == 96 <==> c.forced) && (x.vel == 100 <==> !c.forced)
  {
    GhMapPitchInverse(c.diff, c.lane);
  }

  /** Every output note of a file maps back to the difficulty and lane it was written under. */
  lemma ChartNotesMapped(content: string, atof: string -> real, k: nat)
    requires k < |ChartNotes(content, atof)|
    ensures var x := ChartNotes(content, atof)[k];
      GhMapPitch(x.pitch) == Some((x.diff, x.lane)) && x.track == 0 && (x.vel == 96 || x.vel == 100)
  {
    var st := Run(content, atof);
    RunWellFormed(content, atof);
    ChartNotesPitch(st.notes[k], st.resolution, st.tempos, st.offset);
  }

  /** With ordered tempos, a note with a non-negative length has a non-negative sustain. */
  lemma SustainNonNegative(c: ChartNote, res: int, tv: seq<TempoBpm>, offset: real)
    requires res > 0 && Ordered(tv) && c.duration >= 0
    ensures ToNoteOn(c, res, tv, offset).durationSec >= 0.0
  {
    ChartSecMonotone(c.tick, c.tick + c.duration, tv, res);
  }

  // ---------------------------------------------------------------- the parser

  /** chart.c:218-225, in place over the recorded notes. */
  method MarkForcedInPlace(v: Vector<ChartNote>, tick: int, diff: int)
    requires v.Valid()
    modifies v.data
    ensures v.Valid() && v.Items() == MarkForced(old(v.Items()), tick, diff)
  {
    ghost var s := v.Items();
    var i := 0;
    while i < v.n
      invariant 0 <= i <= v.n && v.Valid()
      invariant forall k :: 0 <= k < i ==>
        v.data[k] == if s[k].tick == tick && s[k].diff == diff then s[k].(forced := true) else s[k]
      invariant forall k :: i <= k < v.n ==> v.data[k] == s[k]
    {
      if v.data[i].tick == tick && v.data[i].diff == diff {
        v.data[i] := v.data[i].(forced := true);
      }
      i := i + 1;
    }
    assert v.Items() == MarkForced(s, tick, diff);
  }

  /** A `key = value` line (chart.c:152-229). */
  method HandlePair(section: string, res: int, offset: real, key: string, value: string, atof: string -> real,
                    tempos: Vector<TempoBpm>, cs: Vector<ChartNote>)
    returns (res': int, offset': real)
    requires tempos.Valid() && cs.Valid()
    modifies tempos, tempos.data, cs, cs.data
    ensures tempos.Valid() && cs.Valid()
    ensures tempos.data == old(tempos.data) || fresh(tempos.data)
    ensures cs.data == old(cs.data) || fresh(cs.data)
    ensures ParseState(section, res', offset', tempos.Items(), cs.Items())
         == PairLine(ParseState(section, res, offset, old(tempos.Items()), old(cs.Items())), key, value, atof)
  {
    res', offset' := res, offset;
    if section == "Song" {
      if key == "Resolution" {
        res' := Atoi(value);
        if res' <= 0 {
          res' := DefaultResolution;
        }
      } else if key == "Offset" {
        offset' := atof(value);
      }
    } else if section == "SyncTrack" {
      var tick := Atoi(key);
      if value != [] && value[0] == 'B' {
        var n := if |value| >= 2 then Atoi(value[2..]) else 0;
        tempos.Push(TempoBpm(tick, UsPerQnOfBpm(n)));
      }
    } else if SectionDiff(section).Some? {
      var diff := SectionDiff(section).value;
      var tick := Atoi(key);
      if value != [] && value[0] == 'N' {
        var fields := NoteFields(value);
        if fields.Some? {
          var (lane, duration) := fields.value;
          if 0 <= lane <= 4 {
            cs.Push(ChartNote(tick, lane, duration, diff, false));
          } else if lane == 5 && duration == 0 {
            MarkForcedInPlace(cs, tick, diff);
          }
        }
      }
    }
  }

  /** One turn of the line loop (chart.c:129-229). */
  method HandleLine(section: string, res: int, offset: real, line: string, atof: string -> real,
                    tempos: Vector<TempoBpm>, cs: Vector<ChartNote>)
    returns (section': string, res': int, offset': real)
    requires tempos.Valid() && cs.Valid()
    modifies tempos, tempos.data, cs, cs.data
    ensures tempos.Valid() && cs.Valid()
    ensures tempos.data == old(tempos.data) || fresh(tempos.data)
    ensures cs.data == old(cs.data) || fresh(cs.data)
    ensures ParseState(section', res', offset', tempos.Items(), cs.Items())
         == Step(ParseState(section, res, offset, old(tempos.Items()), old(cs.Items())), line, atof)
  {
    section', res', offset' := section, res, offset;
    var t := Trim(line);
    if t == [] || t[0] == '#' {
      return;
    }
    if t[0] == '[' {
      var e := Find(t, ']', 0);
      if e < |t| {
        section' := Prefix(t[1..e], SectionMax);
      }
      return;
    }
    if t == "{" || t == "}" {
      return;
    }
    var eq := Find(t, '=', 0);
    if eq == |t| {
      return;
    }
    var key := Trim(t[..eq]);
    var value := Trim(t[eq + 1..]);
    res', offset' := HandlePair(section, res, offset, key, value, atof, tempos, cs);
  }

  /** The line loop of chart.c:128-230 over the `fgets` buffers `lines`. */
  method ParseLines(lines: seq<string>, atof: string -> real)
    returns (section: string, res: int, offset: real, tempos: Vector<TempoBpm>, cs: Vector<ChartNote>)
    ensures fresh(tempos) && fresh(tempos.data) && fresh(cs) && fresh(cs.data)
    ensures tempos.Valid() && cs.Valid()
    ensures ParseState(section, res, offset, tempos.Items(), cs.Items()) == RunTo(lines, |lines|, atof)
  {
    section, res, offset := "", DefaultResolution, 0.0;
    tempos := new Vector<TempoBpm>(64);
    cs := new Vector<ChartNote>(2048);
    var i := 0;
    while i < |lines|
      invariant 0 <= i <= |lines|
      invariant fresh(tempos) && fresh(tempos.data) && fresh(cs) && fresh(cs.data)
      invariant tempos.Valid() && cs.Valid()
      invariant ParseState(section, res, offset, tempos.Items(), cs.Items()) == RunTo(lines, i, atof)
    {
      section, res, offset := HandleLine(section, res, offset, lines[i], atof, tempos, cs);
      i := i + 1;
    }
  }

  lemma ToNotesSnoc(cs: seq<ChartNote>, j: nat, res: int, tv: seq<TempoBpm>, offset: real)
    requires res > 0 && j < |cs|
    ensures ToNotes(cs[..j + 1], res, tv, offset) == ToNotes(cs[..j], res, tv, offset) + [ToNoteOn(cs[j], res, tv, offset)]
  {
  }

  /** The conversion loop of chart.c:235-262: each recorded note, in order, is appended as a `NoteOn`. */
  method PushNotes(cs: Vector<ChartNote>, res: int, tempos: Vector<TempoBpm>, offset: real, notes: Vector<NoteOn>)
    requires res > 0 && cs.Valid() && tempos.Valid() && notes.Valid()
    modifies notes, notes.data
    ensures notes.Valid() && (notes.data == old(notes.data) || fresh(notes.data))
    ensures notes.Items() == old(notes.Items()) + ToNotes(cs.Items(), res, tempos.Items(), offset)
  {
    ghost var before := notes.Items();
    var j := 0;
    while j < cs.n
      invariant 0 <= j <= cs.n && notes.Valid()
      invariant notes.data == old(notes.data) || fresh(notes.data)
      invariant notes.Items() == before + ToNotes(cs.Items()[..j], res, tempos.Items(), offset)
    {
      var c := cs.data[j];
      var tSec := TickToSec(c.tick, res, tempos);
      var endSec := TickToSec(c.tick + c.duration, res, tempos);
      var durationSec := endSec - tSec;
      tSec := tSec + offset;
      var pitch := 60 + 12 * c.diff + c.lane;
      var x := NoteOn(U64Tick(c.tick), tSec, pitch, c.lane, c.diff, if c.forced then 96 else 100, 0, durationSec);
      assert c == cs.Items()[j] && x == ToNoteOn(c, res, tempos.Items(), offset);
      ToNotesSnoc(cs.Items(), j, res, tempos.Items(), offset);
      notes.Push(x);
      j := j + 1;
    }
    assert cs.Items()[..j] == cs.Items();
  }

  /**
   * `chart_parse` (chart.c:102-291) on the file contents, `None` when the
   * file cannot be opened: -1 and nothing changes; otherwise 0, the notes in
   * file order appended to `notes`, and "PART GUITAR" on track 0 appended to
   * `names` when it is given.
   */
  method ChartParse(file: Option<string>, atof: string -> real, notes: Vector<NoteOn>, names: Vector?<TrackName>)
    returns (rc: int)
    requires notes.Valid() && (names != null ==> names.Valid())
    modifies notes, notes.data
    modifies if names == null then {} else {names, names.data}
    ensures notes.Valid() && (names != null ==> names.Valid())
    ensures file.None? ==> rc == -1 && notes.Items() == old(notes.Items())
    ensures file.None? && names != null ==> names.Items() == old(names.Items())
    ensures file.Some? ==> rc == 0 && notes.Items() == old(notes.Items()) + ChartNotes(file.value, atof)
    ensures file.Some? && names != null ==> names.Items() == old(names.Items()) + [GuitarName]
  {
    if file.None? {
      return -1;
    }
    var lines := Lines(file.value, LineBuffer);
    var section, res, offset, tempos, cs := ParseLines(lines, atof);
    RunWellFormed(file.value, atof);
    PushNotes(cs, res, tempos, offset, notes);
    if names != null {
      names.Push(GuitarName);
    }
    return 0;
  }
}

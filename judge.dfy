/// The judging rules of the game loop in main.c, as functions on one value
/// of the loop's state: the chart being played and its cursor, the held fret
/// mask, the statistics, the ring of recent results that steers the guitar
/// stem's volume, the timing feedback, and the effect requests made so far.
/// The `Player` class below holds the same state in fields and performs them
/// step by step; the `Game` class of game.dfy drives it.
module Judge {
  import opened Wrappers
  import opened MidiTypes
  import Chords

  // ------------------------------------------------------------ constants (config.h:30-43, 104-108)

  const Perfect: real := 0.030
  const Good: real := 0.055
  const Bad: real := 0.120
  const PointsPerfect: int := 100
  const PointsGood: int := 70
  const PointsOk: int := 50
  const StreakDivisor: nat := 10

  /** main.c:1176 redefines the window of recent results to 5. */
  const PerfWindow: nat := 5

  const EffectMiss: int := 0
  const EffectOk: int := 1
  const EffectGood: int := 2
  const EffectPerfect: int := 3
  const EffectDuration: real := 0.2

  /** How long a timing message stays up (main.c:1614, 1623). */
  const FeedbackSeconds: real := 0.5

  /** `Stats` (terminal.h:14-19). */
  datatype Stats = Stats(score: int, streak: nat, hit: nat, miss: nat)

  const NoStats: Stats := Stats(0, 0, 0, 0)

  /** One `add_effect(lane, type, duration)` call. */
  datatype Fx = Fx(lane: int, kind: int, duration: real)

  /**
   * The loop's judging state: `chords` and `cursor`, `held`, `st`,
   * `recent_notes` and `perf_idx`, `timing_feedback` and `feedback_timer`,
   * the guitar stem's target gain (`None` when there is no guitar stem),
   * and the effects requested so far.
   */
  datatype Play = Play(chords: seq<Chord>, cursor: nat, held: bv8, st: Stats, recent: seq<int>,
                       perfIdx: nat, feedback: string, timer: real, guitar: Option<real>, fx: seq<Fx>)

  /**
   * What the loop keeps true: a song has at least one chord (main.c:1093
   * exits otherwise, and a track switch only takes a non-empty rebuild),
   * the cursor is at most past the last chord, and the ring holds five
   * results, 0 or 1, with its index inside it.
   */
  predicate WellFormed(p: Play) {
    |p.chords| > 0 && p.cursor <= |p.chords| && |p.recent| == PerfWindow && p.perfIdx < PerfWindow
    && forall i :: 0 <= i < |p.recent| ==> p.recent[i] == 0 || p.recent[i] == 1
  }

  /** The state at `start_game` (main.c:1169-1181). */
  function Start(chords: seq<Chord>, guitar: Option<real>): (p: Play)
    requires |chords| > 0
    ensures WellFormed(p) && p.cursor == 0 && p.st == NoStats && p.recent == [1, 1, 1, 1, 1]
  {
    Play(chords, 0, 0, NoStats, [1, 1, 1, 1, 1], 0, "", 0.0, guitar, [])
  }

  function Abs(x: real): real {
    if x < 0.0 then -x else x
  }

  // ------------------------------------------------------------ fret matching

  /** `1u << l` for a lane `l` of 0..7. */
  function Bit(l: int): bv8 {
    if l == 0 then 1 else if l == 1 then 2 else if l == 2 then 4 else if l == 3 then 8
    else if l == 4 then 16 else if l == 5 then 32 else if l == 6 then 64 else if l == 7 then 128 else 0
  }

  /** Bit `l` of a mask. */
  predicate Has(m: bv8, l: int) {
    0 <= l < 8 && m & Bit(l) != 0
  }

  /** The number of frets below `n` in a mask. */
  function Count(m: bv8, n: nat): nat
    requires n <= 5
  {
    if n == 0 then 0 else Count(m, n - 1) + (if Has(m, n - 1) then 1 else 0)
  }

  /** The highest fret below `n` in a mask, -1 for none. */
  function Highest(m: bv8, n: nat): (f: int)
    requires n <= 5
    ensures -1 <= f < n
    ensures f >= 0 ==> Has(m, f) && forall l :: f < l < n ==> !Has(m, l)
    ensures f == -1 <==> Count(m, n) == 0
  {
    if n == 0 then -1 else if Has(m, n - 1) then n - 1 else Highest(m, n - 1)
  }

  predicate NoneAbove(held: bv8, f: int) {
    forall l :: f < l < 5 ==> !Has(held, l)
  }

  /**
   * The fret rule (main.c:1431-1451, 1540-1569): a chord of one fret
   * matches when that fret is held and none above it; any other chord
   * matches only the exact mask.
   */
  predicate Matches(expected: bv8, held: bv8)
    ensures held == expected ==> Matches(expected, held)
    ensures Matches(expected, held) && Count(expected, 5) > 0 ==> Has(held, Highest(expected, 5))
  {
    if Count(expected, 5) == 1 then
      var f := Highest(expected, 5);
      Has(held, f) && NoneAbove(held, f)
    else held == expected
  }

  lemma {:induction false} CountSingle(m: bv8, f: nat, n: nat)
    requires n <= 5 && f < 5
    requires forall l :: 0 <= l < 5 ==> (Has(m, l) <==> l == f)
    ensures Count(m, n) == if f < n then 1 else 0
  {
    if n > 0 {
      CountSingle(m, f, n - 1);
    }
  }

  lemma {:induction false} CountTwo(m: bv8, a: nat, b: nat, n: nat)
    requires a < b < n <= 5 && Has(m, a) && Has(m, b)
    ensures Count(m, n) >= 2
  {
    if b < n - 1 {
      CountTwo(m, a, b, n - 1);
    } else {
      CountOne(m, a, n - 1);
    }
  }

  lemma {:induction false} CountOne(m: bv8, a: nat, n: nat)
    requires a < n <= 5 && Has(m, a)
    ensures Count(m, n) >= 1
  {
    if a < n - 1 {
      CountOne(m, a, n - 1);
    }
  }

  /** A single-fret chord: its fret must be held, lower frets are free, higher ones are not. */
  lemma MatchSingle(expected: bv8, held: bv8, f: nat)
    requires f < 5 && forall l :: 0 <= l < 5 ==> (Has(expected, l) <==> l == f)
    ensures Matches(expected, held) <==> Has(held, f) && forall l :: f < l < 5 ==> !Has(held, l)
  {
    CountSingle(expected, f, 5);
  }

  /** A chord of two or more frets matches only the exact mask. */
  lemma MatchChord(expected: bv8, held: bv8, a: nat, b: nat)
    requires a < b < 5 && Has(expected, a) && Has(expected, b)
    ensures Matches(expected, held) <==> held == expected
  {
    CountTwo(expected, a, b, 5);
  }

  /** The two fret-counting loops and the test that follows them (main.c:1540-1569). */
  method FretMatch(expected: bv8, held: bv8) returns (m: bool)
    ensures m == Matches(expected, held)
  {
    var noteCount := 0;
    var highestFret := -1;
    var l := 0;
    while l < 5
      invariant 0 <= l <= 5
      invariant noteCount == Count(expected, l) && highestFret == Highest(expected, l)
    {
      if Has(expected, l) {
        noteCount := noteCount + 1;
        highestFret := l;
      }
      l := l + 1;
    }
    if noteCount == 1 {
      var hasRequired := Has(held, highestFret);
      var invalidHigher := false;
      var k := highestFret + 1;
      while k < 5
        invariant highestFret + 1 <= k <= 5
        invariant forall j :: highestFret < j < k ==> !Has(held, j)
      {
        if Has(held, k) {
          invalidHigher := true;
          break;
        }
        k := k + 1;
      }
      m := hasRequired && !invalidHigher;
    } else {
      m := held == expected;
    }
  }

  // ------------------------------------------------------------ effects

  /** `add_effect` for every lane below `n` of a mask, lowest first (main.c:1473-1478); a chord uses `n` = 5. */
  function LaneFx(m: bv8, n: nat, kind: int, duration: real): seq<Fx>
    requires n <= 5
  {
    if n == 0 then []
    else LaneFx(m, n - 1, kind, duration) + (if Has(m, n - 1) then [Fx(n - 1, kind, duration)] else [])
  }

  /** One request per lane of the mask below `n`, in lane order, each of the given type and duration. */
  lemma {:induction false} LaneFxProps(m: bv8, n: nat, kind: int, duration: real)
    requires n <= 5
    ensures forall e :: (e in LaneFx(m, n, kind, duration)
                         <==> e.kind == kind && e.duration == duration && 0 <= e.lane < n && Has(m, e.lane))
    ensures forall i, j :: (0 <= i < j < |LaneFx(m, n, kind, duration)|
                            ==> LaneFx(m, n, kind, duration)[i].lane < LaneFx(m, n, kind, duration)[j].lane)
  {
    if n > 0 {
      LaneFxProps(m, n - 1, kind, duration);
      var before := LaneFx(m, n - 1, kind, duration);
      assert forall i :: 0 <= i < |before| ==> before[i] in before;
    }
  }

  /** The points of a hit by its distance from the chord (main.c:1461). */
  function Points(ad: real): int {
    if ad <= Perfect then PointsPerfect else if ad <= Good then PointsGood else PointsOk
  }

  /** A hit's score: its points times one plus a tenth of the streak, the hit included (main.c:1461-1462). */
  function HitScore(ad: real, streak: nat): int {
    Points(ad) * (1 + streak / StreakDivisor)
  }

  /** The effect type of a hit (main.c:1464-1471). */
  function HitKind(ad: real): int {
    if ad <= Perfect then EffectPerfect else if ad <= Good then EffectGood else EffectOk
  }

  // ------------------------------------------------------------ the ring of recent results

  function Sum(s: seq<int>): int {
    if s == [] then 0 else Sum(s[..|s| - 1]) + s[|s| - 1]
  }

  /**
   * The guitar stem's target gain for `hits` of the last five results
   * (main.c:1194-1209): full from 60 %, 0.1 below 40 %, linear between.
   */
  function GuitarTarget(hits: int): (g: real)
    ensures 0 <= hits <= PerfWindow ==> 0.1 <= g <= 1.0
    ensures hits >= 3 ==> g == 1.0
    ensures hits < 2 ==> g == 0.1
  {
    var rate := hits as real / PerfWindow as real;
    if rate >= 0.6 then 1.0
    else if rate < 0.4 then 0.1
    else 0.1 + (rate - 0.4) / 0.2 * 0.9
  }

  /** Over five results the target is 1.0 from three hits on and 0.1 below; two hits land on 0.1 exactly. */
  lemma GuitarTargetSteps(hits: int)
    requires 0 <= hits <= PerfWindow
    ensures GuitarTarget(hits) == if hits >= 3 then 1.0 else 0.1
  {
    if hits == 2 {
      assert hits as real / 5.0 == 0.4;
    }
  }

  lemma {:induction false} SumRing(s: seq<int>)
    requires forall i :: 0 <= i < |s| ==> s[i] == 0 || s[i] == 1
    ensures 0 <= Sum(s) <= |s|
  {
    if s != [] {
      SumRing(s[..|s| - 1]);
    }
  }

  /**
   * `recent_notes[perf_idx] = v; perf_idx = (perf_idx + 1) % 5;
   * update_guitar_volume()` (main.c:1457-1459, 1607-1610, 1677-1680).
   */
  function Recorded(p: Play, v: int): (q: Play)
    requires |p.recent| == PerfWindow && p.perfIdx < PerfWindow
    ensures |q.recent| == PerfWindow && q.perfIdx < PerfWindow && q.recent[p.perfIdx] == v
  {
    var r := p.recent[p.perfIdx := v];
    p.(recent := r, perfIdx := (p.perfIdx + 1) % PerfWindow,
       guitar := if p.guitar.Some? then Some(GuitarTarget(Sum(r))) else None)
  }

  /**
   * Recording keeps the ring's index in range, overwrites only the entry at
   * the index, and sets the guitar's target to 1.0 when at least three of
   * the five entries are hits and to 0.1 otherwise.
   */
  lemma RecordProps(p: Play, v: int)
    requires WellFormed(p) && (v == 0 || v == 1)
    ensures var q := Recorded(p, v);
      WellFormed(q) && q.perfIdx == (p.perfIdx + 1) % PerfWindow
      && (forall i :: 0 <= i < PerfWindow && i != p.perfIdx ==> q.recent[i] == p.recent[i])
      && (p.guitar.Some? ==> q.guitar == Some(if Sum(q.recent) >= 3 then 1.0 else 0.1))
      && (p.guitar.None? ==> q.guitar.None?)
      && q.(recent := p.recent, perfIdx := p.perfIdx, guitar := p.guitar) == p
  {
    var q := Recorded(p, v);
    SumRing(q.recent);
    GuitarTargetSteps(Sum(q.recent));
  }

  // ------------------------------------------------------------ judging a chord

  /** A hit on the chord at the cursor (main.c:1455-1481, 1571-1597). */
  function Hit(p: Play, ad: real): (r: Play)
    requires WellFormed(p) && p.cursor < |p.chords|
    ensures WellFormed(r) && r.cursor == p.cursor + 1 && r.chords == p.chords && r.held == p.held
    ensures r.st.hit == p.st.hit + 1 && r.st.streak == p.st.streak + 1 && r.st.miss == p.st.miss
    ensures r.recent[p.perfIdx] == 1 && |r.fx| >= |p.fx| && r.fx[..|p.fx|] == p.fx
  {
    var streak := p.st.streak + 1;
    var score := p.st.score + HitScore(ad, streak);
    var q := Recorded(p.(st := Stats(score, streak, p.st.hit + 1, p.st.miss)), 1);
    RecordProps(p.(st := Stats(score, streak, p.st.hit + 1, p.st.miss)), 1);
    q.(fx := p.fx + LaneFx(p.chords[p.cursor].mask, 5, HitKind(ad), EffectDuration), cursor := p.cursor + 1)
  }

  /** A miss: effects on the lanes of `lanes`, one more miss, the streak broken (main.c:1600-1610, 1670-1680). */
  function Miss(p: Play, lanes: bv8): (r: Play)
    requires WellFormed(p)
    ensures WellFormed(r) && r.cursor == p.cursor && r.chords == p.chords && r.held == p.held
    ensures r.st.miss == p.st.miss + 1 && r.st.streak == 0 && r.st.hit == p.st.hit && r.st.score == p.st.score
    ensures r.recent[p.perfIdx] == 0 && |r.fx| >= |p.fx| && r.fx[..|p.fx|] == p.fx
  {
    var q := Recorded(p.(st := p.st.(miss := p.st.miss + 1, streak := 0)), 0);
    RecordProps(p.(st := p.st.(miss := p.st.miss + 1, streak := 0)), 0);
    q.(fx := p.fx + LaneFx(lanes, 5, EffectMiss, EffectDuration))
  }

  /** A hit moves the cursor one chord on, adds one hit and one to the streak, and scores the chord. */
  lemma HitProps(p: Play, ad: real)
    requires WellFormed(p) && p.cursor < |p.chords|
    ensures var q := Hit(p, ad);
      WellFormed(q) && q.cursor == p.cursor + 1 && q.chords == p.chords && q.held == p.held
      && q.feedback == p.feedback && q.timer == p.timer
      && q.st == Stats(p.st.score + HitScore(ad, p.st.streak + 1), p.st.streak + 1, p.st.hit + 1, p.st.miss)
      && q.recent[p.perfIdx] == 1
  {
    var streak := p.st.streak + 1;
    RecordProps(p.(st := Stats(p.st.score + HitScore(ad, streak), streak, p.st.hit + 1, p.st.miss)), 1);
  }

  /** A miss adds one miss and breaks the streak, and leaves the cursor where it is. */
  lemma MissProps(p: Play, lanes: bv8)
    requires WellFormed(p)
    ensures var q := Miss(p, lanes);
      WellFormed(q) && q.cursor == p.cursor && q.chords == p.chords && q.held == p.held
      && q.feedback == p.feedback && q.timer == p.timer
      && q.st == Stats(p.st.score, 0, p.st.hit, p.st.miss + 1) && q.recent[p.perfIdx] == 0
  {
    RecordProps(p.(st := p.st.(miss := p.st.miss + 1, streak := 0)), 0);
  }

  /** The strum key at time `t` (main.c:1526-1627). */
  function Strummed(p: Play, t: real): (r: Play)
    requires WellFormed(p)
    ensures WellFormed(r) && r.chords == p.chords && r.held == p.held
    ensures r.st.hit <= p.st.hit + 1 && r.cursor == p.cursor + (r.st.hit - p.st.hit)
    ensures r.st.miss <= p.st.miss + 1 && (r.st.miss > p.st.miss ==> r.cursor == p.cursor)
  {
    if p.cursor < |p.chords| then
      var c := p.chords[p.cursor];
      var delta := c.tSec - t;
      var ad := Abs(delta);
      if ad <= Bad then
        if Matches(c.mask, p.held) then Hit(p, ad)
        else Miss(p, p.held ^ c.mask).(feedback := "WRONG FRETS", timer := FeedbackSeconds)
      else p.(feedback := if delta > 0.0 then "TOO EARLY" else "TOO LATE", timer := FeedbackSeconds)
    else p
  }

  /**
   * A strum that matches inside the window: one more hit and streak, the
   * chord's points times the new streak's multiplier on the score, and
   * the cursor on the next chord.
   */
  lemma StrumHit(p: Play, t: real)
    requires WellFormed(p) && p.cursor < |p.chords|
    requires Abs(p.chords[p.cursor].tSec - t) <= Bad && Matches(p.chords[p.cursor].mask, p.held)
    ensures var q := Strummed(p, t); var ad := Abs(p.chords[p.cursor].tSec - t);
      WellFormed(q) && q.cursor == p.cursor + 1 && q.chords == p.chords && q.held == p.held
      && q.st.hit == p.st.hit + 1 && q.st.streak == p.st.streak + 1 && q.st.miss == p.st.miss
      && q.st.score == p.st.score + Points(ad) * (1 + (p.st.streak + 1) / 10)
      && (ad <= Perfect ==> Points(ad) == 100) && (Perfect < ad <= Good ==> Points(ad) == 70)
      && (Good < ad ==> Points(ad) == 50)
      && q.recent[p.perfIdx] == 1
  {
    HitProps(p, Abs(p.chords[p.cursor].tSec - t));
  }

  /** Wrong frets inside the window: one more miss, the streak broken, the cursor where it was. */
  lemma StrumWrongFrets(p: Play, t: real)
    requires WellFormed(p) && p.cursor < |p.chords|
    requires Abs(p.chords[p.cursor].tSec - t) <= Bad && !Matches(p.chords[p.cursor].mask, p.held)
    ensures var q := Strummed(p, t);
      WellFormed(q) && q.cursor == p.cursor && q.chords == p.chords && q.held == p.held
      && q.st == Stats(p.st.score, 0, p.st.hit, p.st.miss + 1)
      && q.feedback == "WRONG FRETS" && q.timer == 0.5 && q.recent[p.perfIdx] == 0
  {
    MissProps(p, p.held ^ p.chords[p.cursor].mask);
  }

  /** Outside the window a strum only reports whether it came early or late. */
  lemma StrumOutside(p: Play, t: real)
    requires WellFormed(p) && p.cursor < |p.chords| && Abs(p.chords[p.cursor].tSec - t) > Bad
    ensures Strummed(p, t) == p.(feedback := if p.chords[p.cursor].tSec > t then "TOO EARLY" else "TOO LATE", timer := 0.5)
  {
  }

  /** Past the last chord a strum does nothing. */
  lemma StrumAfterEnd(p: Play, t: real)
    requires WellFormed(p) && p.cursor == |p.chords|
    ensures Strummed(p, t) == p
  {
  }

  /** Every strum keeps the state valid. */
  lemma StrumValid(p: Play, t: real)
    requires WellFormed(p)
    ensures WellFormed(Strummed(p, t)) && Strummed(p, t).chords == p.chords
  {
    if p.cursor < |p.chords| {
      var c := p.chords[p.cursor];
      if Abs(c.tSec - t) <= Bad {
        if Matches(c.mask, p.held) {
          StrumHit(p, t);
        } else {
          StrumWrongFrets(p, t);
        }
      }
    }
  }

  /**
   * A fret key pressed at time `t` (main.c:1406-1482): its frets join the
   * held mask, and when that changed the mask while the chord at the
   * cursor is a HOPO inside the window, a match hits it.
   */
  function Pressed(p: Play, frets: bv8, t: real): (r: Play)
    requires WellFormed(p)
    ensures WellFormed(r) && r.chords == p.chords && r.held == p.held | frets && r.st.miss == p.st.miss
    ensures r.st.hit <= p.st.hit + 1 && r.cursor == p.cursor + (r.st.hit - p.st.hit)
  {
    HopoStep(p.(held := p.held | frets), p.held, t)
  }

  /**
   * The HOPO check on a state whose held mask was `before` until the press:
   * a changed mask that matches the HOPO at the cursor inside the window
   * hits it (main.c:1419-1483).
   */
  function HopoStep(q: Play, before: bv8, t: real): (r: Play)
    requires WellFormed(q)
    ensures WellFormed(r) && r.chords == q.chords && r.held == q.held && r.st.miss == q.st.miss
    ensures r.st.hit <= q.st.hit + 1 && r.cursor == q.cursor + (r.st.hit - q.st.hit)
    ensures r.st.hit > q.st.hit ==> q.held != before && q.cursor < |q.chords| && q.chords[q.cursor].isHopo
    ensures r.st.hit == q.st.hit ==> r == q
  {
    if HopoHit(q, before, t) then Hit(q, Abs(q.chords[q.cursor].tSec - t)) else q
  }

  /** The held mask changed from `before` and matches the HOPO at the cursor inside the window. */
  predicate HopoHit(q: Play, before: bv8, t: real) {
    q.held != before && q.cursor < |q.chords| && q.chords[q.cursor].isHopo
    && Abs(q.chords[q.cursor].tSec - t) <= Bad && Matches(q.chords[q.cursor].mask, q.held)
  }

  /** A press that does not hit changes nothing but the held mask: a HOPO mismatch costs nothing. */
  lemma FretDownNoHit(p: Play, frets: bv8, t: real)
    requires WellFormed(p)
    requires p.cursor == |p.chords| || !p.chords[p.cursor].isHopo
      || Abs(p.chords[p.cursor].tSec - t) > Bad || !Matches(p.chords[p.cursor].mask, p.held | frets)
      || p.held | frets == p.held
    ensures Pressed(p, frets, t) == p.(held := p.held | frets)
  {
  }

  /** A press that hits a HOPO counts as a hit, as a strum would. */
  lemma FretDownHit(p: Play, frets: bv8, t: real)
    requires WellFormed(p) && p.cursor < |p.chords| && p.chords[p.cursor].isHopo && p.held | frets != p.held
    requires Abs(p.chords[p.cursor].tSec - t) <= Bad && Matches(p.chords[p.cursor].mask, p.held | frets)
    ensures var q := Pressed(p, frets, t);
      WellFormed(q) && q.cursor == p.cursor + 1 && q.held == p.held | frets && q.chords == p.chords
      && q.st.hit == p.st.hit + 1 && q.st.streak == p.st.streak + 1 && q.st.miss == p.st.miss
  {
    HitProps(p.(held := p.held | frets), Abs(p.chords[p.cursor].tSec - t));
  }

  /** Every press keeps the state well formed and the chords as they were. */
  lemma PressedWellFormed(p: Play, frets: bv8, t: real)
    requires WellFormed(p)
    ensures WellFormed(Pressed(p, frets, t)) && Pressed(p, frets, t).chords == p.chords
  {
    if p.cursor < |p.chords| && p.chords[p.cursor].isHopo && p.held | frets != p.held
      && Abs(p.chords[p.cursor].tSec - t) <= Bad && Matches(p.chords[p.cursor].mask, p.held | frets)
    {
      FretDownHit(p, frets, t);
    } else {
      FretDownNoHit(p, frets, t);
    }
  }

  /** Releasing frets only clears their bits (main.c:1629-1641). */
  function Released(p: Play, frets: bv8): (q: Play)
    ensures q.held & frets == 0 && q.held | p.held == p.held
    ensures forall l :: 0 <= l < 8 ==> (Has(q.held, l) <==> Has(p.held, l) && !Has(frets, l))
    ensures q == p.(held := q.held)
  {
    ReleaseBits(p.held, frets);
    p.(held := p.held & !frets)
  }

  lemma ReleaseBits(held: bv8, frets: bv8)
    ensures forall l :: 0 <= l < 8 ==> (Has(held & !frets, l) <==> Has(held, l) && !Has(frets, l))
  {
    forall l | 0 <= l < 8
      ensures Has(held & !frets, l) <==> Has(held, l) && !Has(frets, l)
    {
      ReleaseBit(held, frets, l);
    }
  }

  lemma ReleaseBit(held: bv8, frets: bv8, l: int)
    requires 0 <= l < 8
    ensures Has(held & !frets, l) <==> Has(held, l) && !Has(frets, l)
  {
    var b := Bit(l);
    assert b == 1 || b == 2 || b == 4 || b == 8 || b == 16 || b == 32 || b == 64 || b == 128;
  }

  /** Losing the window's focus lets go of every fret (main.c:1222-1226). */
  function FocusLost(p: Play): (q: Play)
    ensures q.held == 0 && q == p.(held := 0)
  {
    p.(held := 0)
  }

  /** Losing the focus is releasing every fret. */
  lemma FocusLostReleases(p: Play)
    ensures FocusLost(p) == Released(p, 0xFF)
  {
    assert p.held & !0xFF == 0;
  }

  // ------------------------------------------------------------ once per frame

  /** One chord the sweep passes (main.c:1670-1681). */
  function SweepOne(p: Play): (q: Play)
    requires WellFormed(p) && p.cursor < |p.chords|
    ensures WellFormed(q) && q.cursor == p.cursor + 1 && q.chords == p.chords && q.held == p.held
    ensures q.feedback == p.feedback && q.timer == p.timer
    ensures q.st == Stats(p.st.score, 0, p.st.hit, p.st.miss + 1)
  {
    MissProps(p, p.chords[p.cursor].mask);
    Miss(p, p.chords[p.cursor].mask).(cursor := p.cursor + 1)
  }

  /**
   * The miss sweep at time `t` (main.c:1669-1682): every chord more than
   * `Bad` behind `t` is a miss. It stops at the first chord still in
   * reach, having added one miss per chord passed and broken the streak
   * when it passed any.
   */
  function Swept(p: Play, t: real): (q: Play)
    requires WellFormed(p)
    ensures WellFormed(q) && q.chords == p.chords && q.held == p.held
    decreases |p.chords| - p.cursor
  {
    if p.cursor < |p.chords| && p.chords[p.cursor].tSec < t - Bad then
      Swept(SweepOne(p), t)
    else p
  }

  /**
   * The sweep stops at the end or at the first chord still in reach, has
   * passed only chords out of reach, adds one miss per chord passed, and
   * breaks the streak when it passed any; hits, score, held frets and
   * feedback stay as they were.
   */
  lemma {:induction false} SweepProps(p: Play, t: real)
    requires WellFormed(p)
    ensures p.cursor <= Swept(p, t).cursor
    ensures Swept(p, t).cursor == |p.chords| || p.chords[Swept(p, t).cursor].tSec >= t - Bad
    ensures Passed(p.chords, p.cursor, Swept(p, t).cursor, t)
    ensures Swept(p, t).st.miss == p.st.miss + (Swept(p, t).cursor - p.cursor)
    ensures Swept(p, t).st.hit == p.st.hit && Swept(p, t).st.score == p.st.score
    ensures Swept(p, t).st.streak == if Swept(p, t).cursor == p.cursor then p.st.streak else 0
    ensures Swept(p, t).held == p.held && Swept(p, t).feedback == p.feedback && Swept(p, t).timer == p.timer
    decreases |p.chords| - p.cursor
  {
    if p.cursor < |p.chords| && p.chords[p.cursor].tSec < t - Bad {
      var r := SweepOne(p);
      assert Swept(p, t) == Swept(r, t);
      SweepProps(r, t);
      PassedStep(p.chords, p.cursor, Swept(r, t).cursor, t);
    } else {
      assert Swept(p, t) == p;
    }
  }

  /** Every chord from `from` up to `to` is more than `Bad` behind `t`. */
  predicate Passed(cs: seq<Chord>, from: nat, to: nat, t: real) {
    forall k :: from <= k < to && k < |cs| ==> cs[k].tSec < t - Bad
  }

  lemma PassedStep(cs: seq<Chord>, from: nat, to: nat, t: real)
    requires from < |cs| && cs[from].tSec < t - Bad && Passed(cs, from + 1, to, t)
    ensures Passed(cs, from, to, t)
  {
  }

  /** Whether a chord still shows at time `t`: its head within 0.5 s, or its sustain within 0.3 s (main.c:1658-1660). */
  predicate Showing(c: Chord, t: real) {
    c.tSec > t - 0.5 || c.tSec + c.durationSec > t - 0.3
  }

  /**
   * `view_cursor` (main.c:1654-1664): back from the cursor over the chords
   * still showing, stopping at the first that is not.
   */
  function ViewCursor(cs: seq<Chord>, v: nat, t: real): (r: nat)
    requires v <= |cs|
    ensures r <= v && (forall k :: r <= k < v ==> Showing(cs[k], t))
    ensures r == 0 || !Showing(cs[r - 1], t)
    decreases v
  {
    if v > 0 && Showing(cs[v - 1], t) then ViewCursor(cs, v - 1, t) else v
  }

  /** The song is over once every chord is judged and two seconds have passed after the last (main.c:1647-1650). */
  predicate Ended(p: Play, t: real)
    requires WellFormed(p)
    ensures Ended(p, t) ==> p.cursor == |p.chords|
  {
    p.cursor >= |p.chords| && t > p.chords[|p.chords| - 1].tSec + 2.0
  }

  /** The feedback timer (main.c:1688-1693): counted down while positive; the text is cleared when it runs out. */
  function Tick(p: Play, dt: real): (q: Play)
    ensures q == p.(timer := q.timer, feedback := q.feedback)
    ensures p.timer > 0.0 ==> q.timer == p.timer - dt
    ensures p.timer <= 0.0 ==> q == p
    ensures q.feedback == if p.timer > 0.0 && p.timer - dt <= 0.0 then "" else p.feedback
  {
    if p.timer > 0.0 then
      var tm := p.timer - dt;
      p.(timer := tm, feedback := if tm <= 0.0 then "" else p.feedback)
    else p
  }

  // ------------------------------------------------------------ resets

  /**
   * A track switch (main.c:1485-1522): a non-empty rebuild replaces the
   * chords and zeroes the cursor and the statistics; an empty one leaves
   * everything as it was.
   */
  function TrackSwitch(p: Play, rebuilt: seq<Chord>): (q: Play)
    requires WellFormed(p)
    ensures WellFormed(q)
  {
    if |rebuilt| > 0 then p.(chords := rebuilt, cursor := 0, st := NoStats) else p
  }

  lemma TrackSwitchProps(p: Play, rebuilt: seq<Chord>)
    requires WellFormed(p)
    ensures rebuilt == [] ==> TrackSwitch(p, rebuilt) == p
    ensures rebuilt != [] ==> var q := TrackSwitch(p, rebuilt);
      q.chords == rebuilt && q.cursor == 0 && q.st == Stats(0, 0, 0, 0)
      && q.held == p.held && q.recent == p.recent && q.perfIdx == p.perfIdx
  {
  }

  /**
   * Restart from the pause menu (main.c:1291-1307): the cursor, the
   * statistics, the held frets and the feedback are reset; the ring of
   * recent results and its index are not.
   */
  function Restart(p: Play): (q: Play)
    ensures WellFormed(p) ==> WellFormed(q)
  {
    p.(cursor := 0, st := NoStats, held := 0, feedback := "", timer := 0.0)
  }

  lemma RestartProps(p: Play)
    ensures var q := Restart(p);
      q.cursor == 0 && q.st == Stats(0, 0, 0, 0) && q.held == 0 && q.feedback == [] && q.timer == 0.0
      && q.recent == p.recent && q.perfIdx == p.perfIdx && q.chords == p.chords && q.guitar == p.guitar
  {
  }

  // ------------------------------------------------------------ the judging state, in place

  /**
   * The loop's judging variables, updated in place by the loop's own steps;
   * `State()` reads them as one `Play` value.
   */
  class Player {
    var chords: seq<Chord>
    var cursor: nat
    var held: bv8
    var st: Stats
    const recent: array<int>
    var perfIdx: nat
    var feedback: string
    var timer: real
    var guitar: Option<real>
    var fx: seq<Fx>

    function State(): Play
      reads this, recent
    {
      Play(chords, cursor, held, st, recent[..], perfIdx, feedback, timer, guitar, fx)
    }

    ghost predicate Valid()
      reads this, recent
    {
      recent.Length == PerfWindow && WellFormed(State())
    }

    /** The judging state at `start_game` (main.c:1169-1181), with the song's chords. */
    constructor (chords: seq<Chord>, guitar: Option<real>)
      requires |chords| > 0
      ensures Valid() && fresh(recent) && State() == Start(chords, guitar)
    {
      this.chords := chords;
      cursor := 0;
      held := 0;
      st := NoStats;
      recent := new int[PerfWindow](_ => 1);
      perfIdx := 0;
      feedback := "";
      timer := 0.0;
      this.guitar := guitar;
      fx := [];
      new;
      assert recent[..] == [1, 1, 1, 1, 1];
    }

    /** `update_guitar_volume` (main.c:1190-1212). */
    method UpdateGuitarVolume()
      requires recent.Length == PerfWindow
      modifies this
      ensures State() == old(State()).(guitar := if old(guitar).Some? then Some(GuitarTarget(Sum(recent[..]))) else None)
    {
      if guitar.None? {
        return;
      }
      var hits := 0;
      var i := 0;
      while i < PerfWindow
        invariant 0 <= i <= PerfWindow && hits == Sum(recent[..i])
      {
        hits := hits + recent[i];
        assert recent[..i + 1][..i] == recent[..i];
        i := i + 1;
      }
      assert recent[..i] == recent[..];
      guitar := Some(GuitarTarget(hits));
    }

    /** Write a result into the ring and retarget the guitar (main.c:1457-1459). */
    method Record(v: int)
      requires recent.Length == PerfWindow && perfIdx < PerfWindow
      modifies this, recent
      ensures State() == Recorded(old(State()), v)
    {
      recent[perfIdx] := v;
      perfIdx := (perfIdx + 1) % PerfWindow;
      UpdateGuitarVolume();
    }

    /** `add_effect` on each lane of `m` (main.c:1473-1478, 1600-1605, 1670-1675). */
    method AddEffects(m: bv8, kind: int)
      modifies this
      ensures State() == old(State()).(fx := old(fx) + LaneFx(m, 5, kind, EffectDuration))
    {
      var added := [];
      var l := 0;
      while l < 5
        invariant 0 <= l <= 5
        invariant added == LaneFx(m, l, kind, EffectDuration)
      {
        if Has(m, l) {
          added := added + [Fx(l, kind, EffectDuration)];
        }
        l := l + 1;
      }
      fx := fx + added;
    }

    /** A hit on the chord at the cursor (main.c:1455-1481). */
    method HitChord(ad: real)
      requires Valid() && cursor < |chords|
      modifies this, recent
      ensures Valid() && State() == Hit(old(State()), ad)
    {
      HitProps(State(), ad);
      ghost var p := State();
      st := st.(hit := st.hit + 1, streak := st.streak + 1);
      Record(1);
      st := st.(score := st.score + HitScore(ad, st.streak));
      AddEffects(chords[cursor].mask, HitKind(ad));
      cursor := cursor + 1;
    }

    /** A miss, with effects on the lanes of `lanes` (main.c:1600-1610). */
    method MissChord(lanes: bv8)
      requires Valid()
      modifies this, recent
      ensures Valid() && State() == Miss(old(State()), lanes)
    {
      MissProps(State(), lanes);
      AddEffects(lanes, EffectMiss);
      st := st.(miss := st.miss + 1, streak := 0);
      Record(0);
    }

    /** The strum key at song time `t` (main.c:1526-1627). */
    method Strum(t: real)
      requires Valid()
      modifies this, recent
      ensures Valid() && State() == Strummed(old(State()), t)
    {
      if cursor < |chords| {
        var delta := chords[cursor].tSec - t;
        var ad := Abs(delta);
        if ad <= Bad {
          var m := FretMatch(chords[cursor].mask, held);
          if m {
            HitChord(ad);
          } else {
            WrongFrets();
          }
        } else {
          SetFeedback(if delta > 0.0 then "TOO EARLY" else "TOO LATE");
        }
      }
    }

    /** A strum with the wrong frets: a miss on the lanes that differ, and its message (main.c:1598-1615). */
    method WrongFrets()
      requires Valid() && cursor < |chords|
      modifies this, recent
      ensures Valid()
      ensures State() == Miss(old(State()), old(held ^ chords[cursor].mask)).(feedback := "WRONG FRETS", timer := FeedbackSeconds)
    {
      MissChord(held ^ chords[cursor].mask);
      SetFeedback("WRONG FRETS");
    }

    /** A message shown for half a second, nothing else changed (main.c:1613-1614, 1616-1624). */
    method SetFeedback(text: string)
      requires Valid()
      modifies this
      ensures Valid() && State() == old(State()).(feedback := text, timer := FeedbackSeconds)
    {
      feedback := text;
      timer := FeedbackSeconds;
    }

    /** Frets pressed at song time `t`, and the HOPO check on the new mask (main.c:1406-1482). */
    method FretDown(frets: bv8, t: real)
      requires Valid()
      modifies this, recent
      ensures Valid() && State() == Pressed(old(State()), frets, t)
    {
      var before := held;
      SetHeld(held | frets);
      HopoStrike(before, t);
    }

    /** The HOPO check after a press that turned the held mask `before` into the current one (main.c:1419-1483). */
    method HopoStrike(before: bv8, t: real)
      requires Valid()
      modifies this, recent
      ensures Valid() && State() == HopoStep(old(State()), before, t)
    {
      if held != before && cursor < |chords| && chords[cursor].isHopo {
        var ad := Abs(chords[cursor].tSec - t);
        if ad <= Bad {
          var m := FretMatch(chords[cursor].mask, held);
          if m {
            HitChord(ad);
          }
        }
      }
    }

    /** The held mask replaced, nothing else changed. */
    method SetHeld(h: bv8)
      requires Valid()
      modifies this
      ensures Valid() && State() == old(State()).(held := h)
    {
      held := h;
    }

    /** Frets released (main.c:1629-1641). */
    method FretUp(frets: bv8)
      requires Valid()
      modifies this
      ensures Valid() && State() == Released(old(State()), frets)
    {
      held := held & !frets;
    }

    /** The window lost the focus (main.c:1222-1226). */
    method Unfocus()
      requires Valid()
      modifies this
      ensures Valid() && State() == FocusLost(old(State()))
    {
      held := 0;
    }

    /** The miss sweep at song time `t` (main.c:1669-1682). */
    method Sweep(t: real)
      requires Valid()
      modifies this, recent
      ensures Valid() && State() == Swept(old(State()), t)
    {
      while cursor < |chords| && chords[cursor].tSec < t - Bad
        invariant Valid() && Swept(State(), t) == Swept(old(State()), t)
        decreases |chords| - cursor
      {
        ghost var p := State();
        MissChord(chords[cursor].mask);
        cursor := cursor + 1;
        assert State() == SweepOne(p);
        assert Swept(p, t) == Swept(State(), t);
      }
      assert Swept(State(), t) == State();
    }

    /** `view_cursor` at song time `t` (main.c:1654-1664). */
    method ViewFrom(t: real) returns (v: nat)
      requires Valid()
      ensures v == ViewCursor(chords, cursor, t)
    {
      v := cursor;
      while v > 0
        invariant v <= cursor && ViewCursor(chords, v, t) == ViewCursor(chords, cursor, t)
      {
        var prev := chords[v - 1];
        var sustainEnd := prev.tSec + prev.durationSec;
        if prev.tSec > t - 0.5 || sustainEnd > t - 0.3 {
          v := v - 1;
        } else {
          break;
        }
      }
    }

    /** The feedback timer for one frame of `dt` seconds (main.c:1688-1693). */
    method TickFeedback(dt: real)
      requires Valid()
      modifies this
      ensures Valid() && State() == Tick(old(State()), dt)
    {
      if timer > 0.0 {
        timer := timer - dt;
        if timer <= 0.0 {
          feedback := "";
        }
      }
    }

    /** Take a rebuilt chord list when it is not empty (main.c:1491-1501). */
    method TakeChords(rebuilt: seq<Chord>)
      requires Valid()
      modifies this
      ensures Valid() && State() == TrackSwitch(old(State()), rebuilt)
    {
      if |rebuilt| > 0 {
        chords := rebuilt;
        cursor := 0;
        st := NoStats;
      }
    }

    /** The Restart entry's reset of the judging state (main.c:1296-1303). */
    method Rewind()
      requires Valid()
      modifies this
      ensures Valid() && State() == Restart(old(State()))
    {
      cursor := 0;
      st := NoStats;
      held := 0;
      feedback := "";
      timer := 0.0;
    }
  }
}

/// The terminal renderer's logic (terminal.c): the table of hit and miss
/// flashes shown on the fret line, the labels of the control keys, the lane
/// colours, the streak-multiplier bar and where a falling note is drawn.
/// Writing characters to the terminal is not modelled; what is modelled is
/// the state the renderer keeps and the numbers it draws from.
module Terminal {

  /** `Effect` (terminal.h:21-25): a flash on `lane` of type `kind` for `timeLeft` more seconds. */
  datatype Effect = Effect(timeLeft: real, lane: int, kind: int)

  /** `MAX_EFFECTS` (config.h:95). */
  const MaxEffects: nat := 32
  /** `STREAK_DIVISOR` and `MAX_MULTIPLIER` (config.h:40, 43). */
  const StreakDivisor: nat := 10
  const MaxMultiplier: nat := 4
  /** The streak at which the bar is full: `(MAX_MULTIPLIER - 1) * STREAK_DIVISOR` (terminal.c:212). */
  const FullStreak: nat := (MaxMultiplier - 1) * StreakDivisor
  /** The first row of the lanes (terminal.c:200) and the least play height (terminal.c:126-127). */
  const TopY: int := 5
  const MinPlayHeight: int := 10

  /** SDL key codes of the printable keys are their ASCII codes (`SDLK_a` is 'a'). */
  const SdlkA: int := 'a' as int
  const SdlkZ: int := 'z' as int
  const Sdlk0: int := '0' as int
  const Sdlk9: int := '9' as int
  const SdlkReturn: int := 13
  const SdlkReturn2: int := 0x4000_009E

  // ------------------------------------------------------------ effects table

  /** No lane has two entries. */
  predicate LanesUnique(s: seq<Effect>) {
    forall i, j :: 0 <= i < j < |s| ==> s[i].lane != s[j].lane
  }

  /** The index of the first entry on `lane`, or `|s|` when there is none. */
  function FirstOnLane(s: seq<Effect>, lane: int): (i: nat)
    ensures i <= |s|
    ensures forall k :: 0 <= k < i ==> s[k].lane != lane
    ensures i < |s| ==> s[i].lane == lane
  {
    if s == [] then 0
    else if s[0].lane == lane then 0
    else 1 + FirstOnLane(s[1..], lane)
  }

  /**
   * The table after `add_effect` (terminal.c:86-101): an entry already on
   * the lane gets the new type and duration in place; otherwise a new entry
   * is appended while there is room, and a full table is left alone.
   */
  function Upserted(s: seq<Effect>, lane: int, kind: int, duration: real): (r: seq<Effect>)
    ensures |r| == |s| || (|s| < MaxEffects && |r| == |s| + 1)
    ensures |s| <= MaxEffects ==> |r| <= MaxEffects
    ensures forall k :: 0 <= k < |s| && s[k].lane != lane ==> r[k] == s[k]
    ensures Effect(duration, lane, kind) in r || (|s| >= MaxEffects && r == s)
  {
    var i := FirstOnLane(s, lane);
    if i < |s| then
      assert s[i := Effect(duration, lane, kind)][i] == Effect(duration, lane, kind);
      s[i := Effect(duration, lane, kind)]
    else if |s| < MaxEffects then s + [Effect(duration, lane, kind)]
    else s
  }

  /** An entry on the lane is overwritten in place: same length, nothing else changes. */
  lemma UpsertPresent(s: seq<Effect>, lane: int, kind: int, duration: real, i: nat)
    requires i < |s| && s[i].lane == lane && LanesUnique(s)
    ensures |Upserted(s, lane, kind, duration)| == |s|
    ensures Upserted(s, lane, kind, duration)[i] == Effect(duration, lane, kind)
    ensures forall k :: 0 <= k < |s| && k != i ==> Upserted(s, lane, kind, duration)[k] == s[k]
  {
    assert FirstOnLane(s, lane) == i;
  }

  /** A new lane is appended when there is room, and otherwise nothing changes. */
  lemma UpsertAbsent(s: seq<Effect>, lane: int, kind: int, duration: real)
    requires forall k :: 0 <= k < |s| ==> s[k].lane != lane
    ensures |s| < MaxEffects ==> Upserted(s, lane, kind, duration) == s + [Effect(duration, lane, kind)]
    ensures |s| >= MaxEffects ==> Upserted(s, lane, kind, duration) == s
  {
  }

  /** Adding keeps the table within 32 entries and each lane at most once. */
  lemma UpsertKeeps(s: seq<Effect>, lane: int, kind: int, duration: real)
    requires |s| <= MaxEffects && LanesUnique(s)
    ensures |Upserted(s, lane, kind, duration)| <= MaxEffects
    ensures LanesUnique(Upserted(s, lane, kind, duration))
  {
  }

  /** After adding, the lane shows the new type, unless the table was full without it. */
  lemma UpsertThenLookup(s: seq<Effect>, lane: int, kind: int, duration: real)
    requires |s| < MaxEffects || FirstOnLane(s, lane) < |s|
    ensures FirstOnLane(Upserted(s, lane, kind, duration), lane) < |Upserted(s, lane, kind, duration)|
    ensures Upserted(s, lane, kind, duration)[FirstOnLane(Upserted(s, lane, kind, duration), lane)]
      == Effect(duration, lane, kind)
  {
    var r := Upserted(s, lane, kind, duration);
    var i := FirstOnLane(s, lane);
    if i < |s| {
      assert r[i].lane == lane;
      assert forall k :: 0 <= k < i ==> r[k].lane != lane;
      assert FirstOnLane(r, lane) == i;
    } else {
      assert r[|s|].lane == lane;
      assert forall k :: 0 <= k < |s| ==> r[k].lane != lane;
      assert FirstOnLane(r, lane) == |s|;
    }
  }

  /** One entry `dt` seconds later. */
  function Aged(e: Effect, dt: real): Effect {
    e.(timeLeft := e.timeLeft - dt)
  }

  /** The table after `update_effects` (terminal.c:103-115): every entry aged, the expired ones dropped. */
  function Decayed(s: seq<Effect>, dt: real): (r: seq<Effect>)
    ensures |r| <= |s|
    ensures forall k :: 0 <= k < |r| ==> r[k].timeLeft > 0.0
  {
    if s == [] then []
    else
      var e := Aged(s[|s| - 1], dt);
      Decayed(s[..|s| - 1], dt) + (if e.timeLeft > 0.0 then [e] else [])
  }

  /** The indices of the entries still alive after `dt` seconds, in increasing order. */
  function Kept(s: seq<Effect>, dt: real): (ix: seq<nat>)
    ensures forall k :: 0 <= k < |ix| ==> ix[k] < |s|
    ensures forall a, b :: 0 <= a < b < |ix| ==> ix[a] < ix[b]
  {
    if s == [] then []
    else Kept(s[..|s| - 1], dt) + (if Aged(s[|s| - 1], dt).timeLeft > 0.0 then [|s| - 1] else [])
  }

  /**
   * `update_effects` keeps exactly the entries whose time is still positive,
   * aged, and in their original order: the k-th entry kept is the entry at
   * the k-th alive index.
   */
  lemma {:induction false} DecayedKept(s: seq<Effect>, dt: real)
    ensures |Decayed(s, dt)| == |Kept(s, dt)|
    ensures forall k :: 0 <= k < |Kept(s, dt)| ==> Decayed(s, dt)[k] == Aged(s[Kept(s, dt)[k]], dt)
    ensures forall i :: 0 <= i < |s| ==> (i in Kept(s, dt) <==> Aged(s[i], dt).timeLeft > 0.0)
  {
    if s != [] {
      var n := |s| - 1;
      var p := s[..n];
      var e := Aged(s[n], dt);
      var kp, dp := Kept(p, dt), Decayed(p, dt);
      var ks, ds := Kept(s, dt), Decayed(s, dt);
      assert ks == kp + (if e.timeLeft > 0.0 then [n] else []);
      assert ds == dp + (if e.timeLeft > 0.0 then [e] else []);
      DecayedKept(p, dt);
      forall k | 0 <= k < |ks|
        ensures ds[k] == Aged(s[ks[k]], dt)
      {
        if k < |kp| {
          assert ks[k] == kp[k] && ds[k] == dp[k];
          assert s[kp[k]] == p[kp[k]];
        }
      }
      forall i | 0 <= i < |s|
        ensures i in ks <==> Aged(s[i], dt).timeLeft > 0.0
      {
        if i < n {
          assert s[i] == p[i];
          assert i in ks <==> i in kp;
        }
      }
    }
  }

  /** Dropping entries never puts a lane in twice. */
  lemma DecayedUnique(s: seq<Effect>, dt: real)
    requires LanesUnique(s)
    ensures LanesUnique(Decayed(s, dt))
  {
    DecayedKept(s, dt);
    var ix := Kept(s, dt);
    var r := Decayed(s, dt);
    forall a, b | 0 <= a < b < |r|
      ensures r[a].lane != r[b].lane
    {
      assert r[a].lane == s[ix[a]].lane && r[b].lane == s[ix[b]].lane;
    }
  }

  lemma DecayedStep(s: seq<Effect>, n: nat, dt: real)
    requires n < |s|
    ensures Decayed(s[..n + 1], dt)
      == Decayed(s[..n], dt) + (if Aged(s[n], dt).timeLeft > 0.0 then [Aged(s[n], dt)] else [])
  {
    assert s[..n + 1][..n] == s[..n];
  }

  /** `g_effects` and `g_effect_count` (terminal.c:83-84). */
  class EffectTable {
    var slots: array<Effect>
    var count: nat

    ghost predicate Valid()
      reads this, slots
    {
      slots.Length == MaxEffects && count <= MaxEffects && LanesUnique(slots[..count])
    }

    /** The live entries. */
    ghost function Contents(): seq<Effect>
      reads this, slots
      requires Valid()
    {
      slots[..count]
    }

    constructor ()
      ensures Valid() && Contents() == [] && fresh(slots)
    {
      slots := new Effect[MaxEffects](_ => Effect(0.0, 0, 0));
      count := 0;
    }

    /** `add_effect` (terminal.c:86-101). */
    method Add(lane: int, kind: int, duration: real)
      requires Valid()
      modifies this`count, slots
      ensures Valid()
      ensures Contents() == Upserted(old(Contents()), lane, kind, duration)
      ensures forall x :: count <= x < slots.Length ==> slots[x] == old(slots[x])
    {
      ghost var s := slots[..count];
      UpsertKeeps(s, lane, kind, duration);
      var i := 0;
      while i < count
        invariant 0 <= i <= count
        invariant forall k :: 0 <= k < i ==> slots[k].lane != lane
      {
        if slots[i].lane == lane {
          assert FirstOnLane(s, lane) == i;
          slots[i] := Effect(duration, lane, kind);
          assert slots[..count] == s[i := Effect(duration, lane, kind)];
          return;
        }
        i := i + 1;
      }
      assert FirstOnLane(s, lane) == |s|;
      if count < MaxEffects {
        slots[count] := Effect(duration, lane, kind);
        count := count + 1;
        assert slots[..count] == s + [Effect(duration, lane, kind)];
      }
    }

    /**
     * `update_effects` (terminal.c:103-115): ages every entry and compacts
     * the survivors to the front in place. The slots past the new count keep
     * what the loop left in them: the aged entries that were not moved.
     */
    method Update(dt: real)
      requires Valid()
      modifies this`count, slots
      ensures Valid()
      ensures Contents() == Decayed(old(Contents()), dt)
      ensures forall x :: count <= x < old(count) ==> slots[x] == Aged(old(slots[x]), dt)
      ensures forall x :: old(count) <= x < slots.Length ==> slots[x] == old(slots[x])
    {
      ghost var s := slots[..count];
      DecayedUnique(s, dt);
      var w: nat := 0;
      var rd: nat := 0;
      while rd < count
        modifies slots
        invariant count == |s| <= slots.Length
        invariant w <= rd <= count
        invariant slots[..w] == Decayed(s[..rd], dt)
        invariant forall x :: w <= x < rd ==> slots[x] == Aged(s[x], dt)
        invariant forall x :: rd <= x < slots.Length ==> slots[x] == old(slots[x])
      {
        w := Sweep(s, rd, w, dt);
        rd := rd + 1;
      }
      assert s[..rd] == s;
      count := w;
    }

    /** One pass of the loop of terminal.c:105-113: age slot `rd`, and move it to slot `w` if it survives. */
    method Sweep(ghost s: seq<Effect>, rd: nat, w: nat, dt: real) returns (w2: nat)
      requires w <= rd < |s| <= slots.Length && slots[rd] == s[rd]
      requires slots[..w] == Decayed(s[..rd], dt)
      modifies slots
      ensures w2 <= rd + 1 && slots[..w2] == Decayed(s[..rd + 1], dt)
      ensures slots[rd] == Aged(s[rd], dt)
      ensures w2 == w || w2 == w + 1
      ensures forall x :: 0 <= x < slots.Length && x != rd && x != w ==> slots[x] == old(slots[x])
      ensures w2 == w && w != rd ==> slots[w] == old(slots[w])
    {
      DecayedStep(s, rd, dt);
      slots[rd] := Aged(slots[rd], dt);
      w2 := w;
      if slots[rd].timeLeft > 0.0 {
        if w != rd {
          slots[w] := slots[rd];
        }
        assert slots[..w + 1] == slots[..w] + [Aged(s[rd], dt)];
        w2 := w + 1;
      }
    }

    /** The type of the flash on `lane`, or -1 (terminal.c:315-321). */
    method LaneEffect(lane: int) returns (kind: int)
      requires Valid()
      ensures FirstOnLane(Contents(), lane) < count ==> kind == Contents()[FirstOnLane(Contents(), lane)].kind
      ensures FirstOnLane(Contents(), lane) == count ==> kind == -1
    {
      kind := -1;
      var e := 0;
      while e < count
        invariant 0 <= e <= count
        invariant forall k :: 0 <= k < e ==> slots[k].lane != lane
      {
        if slots[e].lane == lane {
          assert FirstOnLane(slots[..count], lane) == e;
          return slots[e].kind;
        }
        e := e + 1;
      }
      assert FirstOnLane(slots[..count], lane) == count;
    }
  }

  // ------------------------------------------------------------ labels and colours

  predicate Printable(key: int) {
    SdlkA <= key <= SdlkZ || Sdlk0 <= key <= Sdlk9
  }

  /** `key_char` (terminal.c:17-25): letters and digits show as themselves, every other key as '?'. */
  function KeyChar(key: int): (c: char)
    ensures Printable(key) ==> c as int == key
    ensures !Printable(key) ==> c == '?'
  {
    if SdlkA <= key <= SdlkZ then ('a' as int + (key - SdlkA)) as char
    else if Sdlk0 <= key <= Sdlk9 then ('0' as int + (key - Sdlk0)) as char
    else '?'
  }

  /** Two keys with the same visible label are the same key, and a letter or digit is its own label. */
  lemma KeyCharInverse(k1: int, k2: int, c: char)
    ensures KeyChar(k1) == KeyChar(k2) != '?' ==> k1 == k2
    ensures ('a' <= c <= 'z' || '0' <= c <= '9') ==> KeyChar(c as int) == c
  {
  }

  /**
   * The key labels in the controls line (terminal.c:147-153, config.h:48-56):
   * the frets read "zxcvb" and both strum keys, Return and Return2, read '?'.
   */
  lemma ControlsLabels()
    ensures [KeyChar('z' as int), KeyChar('x' as int), KeyChar('c' as int), KeyChar('v' as int), KeyChar('b' as int)]
      == "zxcvb"
    ensures KeyChar(SdlkReturn) == '?' && KeyChar(SdlkReturn2) == '?'
  {
  }

  /** The escape sequences of terminal.h:7-12. */
  const ColorReset: string := "\U{1b}[0m"
  const ColorGreen: string := "\U{1b}[1;32m"
  const ColorRed: string := "\U{1b}[1;31m"
  const ColorYellow: string := "\U{1b}[1;33m"
  const ColorBlue: string := "\U{1b}[1;34m"
  const ColorOrange: string := "\U{1b}[1;38;5;208m"
  const Palette: seq<string> := [ColorGreen, ColorRed, ColorYellow, ColorBlue, ColorOrange]

  /** `lane_color` (terminal.c:27-42): the five fret colours in lane order, reset for any other lane. */
  function LaneColor(lane: int): (c: string)
    ensures 0 <= lane < |Palette| ==> c == Palette[lane]
    ensures !(0 <= lane < |Palette|) ==> c == ColorReset
  {
    match lane
    case 0 => ColorGreen
    case 1 => ColorRed
    case 2 => ColorYellow
    case 3 => ColorBlue
    case 4 => ColorOrange
    case _ => ColorReset
  }

  /** Every lane has its own colour, and none of them is the reset sequence. */
  lemma LaneColorsDistinct(a: int, b: int)
    requires 0 <= a < b < 5
    ensures LaneColor(a) != LaneColor(b) && LaneColor(a) != ColorReset && LaneColor(b) != ColorReset
  {
    assert LaneColor(a)[5] != LaneColor(b)[5] || LaneColor(a)[6] != LaneColor(b)[6];
  }

  // ------------------------------------------------------------ streak bar

  /**
   * `multiplier` (terminal.c:206-208): one more for every ten notes of
   * streak, at most four. The streak is a count and never negative.
   */
  function Multiplier(streak: nat): (m: nat)
    ensures 1 <= m <= MaxMultiplier
    ensures m == MaxMultiplier <==> streak >= FullStreak
    ensures streak < FullStreak ==> (m - 1) * StreakDivisor <= streak < m * StreakDivisor
  {
    var m := 1 + streak / StreakDivisor;
    if m > MaxMultiplier then MaxMultiplier else m
  }

  /** C's `/` on `int`, which truncates toward zero. */
  function CDiv(a: int, b: int): (q: int)
    requires b > 0
    ensures a >= 0 ==> 0 <= q && q * b <= a < q * b + b
    ensures a < 0 ==> q <= 0 && q * b - b < a <= q * b
  {
    if a >= 0 then a / b else -((-a) / b)
  }

  /** `h` (terminal.c:123-127): the rows below the header, at least ten. */
  function PlayHeight(rows: int): (h: int)
    ensures h >= MinPlayHeight
    ensures rows - 6 >= MinPlayHeight ==> h == rows - 6
    ensures rows - 6 < MinPlayHeight ==> h == MinPlayHeight
  {
    if rows - 6 < MinPlayHeight then MinPlayHeight else rows - 6
  }

  /** `hit_y` (terminal.c:201-203): the fret line, kept above the bottom row. */
  function HitRow(rows: int): (y: int)
    ensures y <= TopY + PlayHeight(rows) && y <= rows - 2
    ensures y == TopY + PlayHeight(rows) || y == rows - 2
  {
    var y := TopY + PlayHeight(rows);
    if y >= rows - 1 then rows - 2 else y
  }

  /** On a terminal of at least the 24 rows the game asks for, the fret line sits on row `rows - 2`. */
  lemma HitRowOnScreen(rows: int)
    requires rows >= 24
    ensures HitRow(rows) == rows - 2 && HitRow(rows) - TopY == rows - 7
  {
  }

  /** `filled_height` (terminal.c:210-217): how much of the bar the streak fills. */
  function BarFill(barHeight: int, streak: nat): (f: int)
    ensures barHeight >= 0 ==> 0 <= f <= barHeight
    ensures barHeight < 0 ==> barHeight <= f <= 0
    ensures streak >= FullStreak ==> f == barHeight
  {
    var cs := if streak > FullStreak then FullStreak else streak;
    FillBounds(barHeight, cs);
    CDiv(barHeight * cs, FullStreak)
  }

  /** A share `cs` of at most `FullStreak` of the bar stays inside it with C's division. */
  lemma FillBounds(barHeight: int, cs: nat)
    requires cs <= FullStreak
    ensures barHeight >= 0 ==> 0 <= CDiv(barHeight * cs, FullStreak) <= barHeight
    ensures barHeight < 0 ==> barHeight <= CDiv(barHeight * cs, FullStreak) <= 0
    ensures cs == FullStreak ==> CDiv(barHeight * cs, FullStreak) == barHeight
  {
    if barHeight >= 0 {
      MulBounds(barHeight, cs, FullStreak);
      DivMonotone(barHeight * cs, barHeight * FullStreak, FullStreak);
    } else {
      MulBounds(-barHeight, cs, FullStreak);
      assert barHeight * cs == -((-barHeight) * cs);
      DivMonotone((-barHeight) * cs, (-barHeight) * FullStreak, FullStreak);
    }
  }

  /**
   * The filled part never leaves the bar (it lies between 0 and the bar's
   * height, whichever sign the height has), a full streak fills it
   * exactly, and a longer streak never fills less.
   */
  lemma BarFillBounds(barHeight: int, streak: nat, longer: nat)
    requires streak <= longer
    ensures barHeight >= 0 ==> 0 <= BarFill(barHeight, streak) <= barHeight
    ensures barHeight < 0 ==> barHeight <= BarFill(barHeight, streak) <= 0
    ensures streak >= FullStreak ==> BarFill(barHeight, streak) == barHeight
    ensures barHeight >= 0 ==> BarFill(barHeight, streak) <= BarFill(barHeight, longer)
  {
    var cs := if streak > FullStreak then FullStreak else streak;
    var cl := if longer > FullStreak then FullStreak else longer;
    if barHeight >= 0 {
      MulBounds(barHeight, cs, cl);
      DivMonotone(barHeight * cs, barHeight * cl, FullStreak);
    }
  }

  lemma MulBounds(h: nat, a: nat, b: nat)
    requires a <= b
    ensures h * a <= h * b && 0 <= h * a
  {
  }

  lemma DivMonotone(x: int, y: int, d: int)
    requires 0 <= x <= y && d > 0
    ensures x / d <= y / d
  {
    if x / d > y / d {
      MulMonotone(d, y / d + 1, x / d);
      assert false;
    }
  }

  lemma MulMonotone(d: nat, a: int, b: int)
    requires a <= b
    ensures d * a <= d * b
  {
  }

  /** `mult_at_height` (terminal.c:227-228): the multiplier zone of the bar row `dy` rows above the fret line. */
  function ZoneMultiplier(dy: nat, barHeight: int): (m: int)
    requires barHeight > 0
    ensures m >= 1
  {
    1 + ((dy * FullStreak) / barHeight) / StreakDivisor
  }

  /**
   * A bar row is drawn filled only when the bar has positive height, so the
   * zone computation never divides by zero, and a filled row's zone never
   * exceeds the multiplier the player has.
   */
  lemma FilledZone(dy: nat, barHeight: int, streak: nat)
    requires dy < BarFill(barHeight, streak)
    ensures barHeight > 0
    ensures ZoneMultiplier(dy, barHeight) <= Multiplier(streak)
  {
    var cs := if streak > FullStreak then FullStreak else streak;
    if barHeight <= 0 {
      BarFillBounds(barHeight, streak, streak);
      assert false;
    }
    assert dy < (barHeight * cs) / FullStreak;
    ZoneStep(dy, barHeight, cs);
    var z := (dy * FullStreak) / barHeight;
    assert z < cs;
    DivMonotone(z, cs, StreakDivisor);
  }

  lemma ZoneStep(dy: nat, h: int, cs: nat)
    requires h > 0 && dy < (h * cs) / FullStreak
    ensures (dy * FullStreak) / h < cs
  {
    assert dy * FullStreak <= h * cs - 1 by {
      assert dy + 1 <= (h * cs) / FullStreak;
      assert (dy + 1) * FullStreak <= h * cs;
    }
    assert dy * FullStreak < h * cs;
  }

  // ------------------------------------------------------------ falling notes

  /** C's `(int)` of a `double`: truncation toward zero. */
  function Trunc(x: real): (n: int)
    ensures x >= 0.0 ==> n >= 0 && n as real <= x < n as real + 1.0
    ensures x < 0.0 ==> n <= 0 && n as real - 1.0 < x <= n as real
  {
    if x >= 0.0 then x.Floor else -((-x).Floor)
  }

  /** `top_y + (int)(frac * (h - 1))` (terminal.c:434-435): the row before clamping. */
  function RawRow(topY: int, h: int, frac: real): (y: int)
    ensures 0.0 <= frac <= 1.0 && h >= 1 ==> topY <= y <= topY + h - 1
    ensures frac * (h - 1) as real >= 0.0 ==> topY <= y && (y - topY) as real <= frac * (h - 1) as real
  {
    ScaleBelow(frac, (h - 1) as real);
    topY + Trunc(frac * (h - 1) as real)
  }

  lemma ScaleBelow(frac: real, c: real)
    ensures 0.0 <= frac <= 1.0 && c >= 0.0 ==> 0.0 <= frac * c <= c
  {
    if 0.0 <= frac <= 1.0 && c >= 0.0 {
      assert (1.0 - frac) * c >= 0.0;
    }
  }

  /** The clamps of terminal.c:436-439: first up to `top_y`, then down to `hit_y - 1`. */
  function ClampRow(topY: int, hitY: int, y: int): (r: int)
    ensures topY < hitY ==> topY <= r < hitY
    ensures hitY <= topY ==> r == hitY - 1
    ensures topY <= y < hitY ==> r == y
  {
    var y1 := if y < topY then topY else y;
    if y1 > hitY - 1 then hitY - 1 else y1
  }

  /**
   * The row of a note whose position between the top (0) and the fret line
   * (1) is `frac` (terminal.c:434-439), always above the fret line and never
   * above the first lane row; a row already in that range is kept.
   */
  function NoteRow(topY: int, hitY: int, h: int, frac: real): (y: int)
    ensures topY < hitY ==> topY <= y < hitY
    ensures hitY <= topY ==> y == hitY - 1
    ensures topY <= RawRow(topY, h, frac) < hitY ==> y == RawRow(topY, h, frac)
  {
    ClampRow(topY, hitY, RawRow(topY, h, frac))
  }

  lemma ClampMonotone(topY: int, hitY: int, y1: int, y2: int)
    requires y1 <= y2
    ensures ClampRow(topY, hitY, y1) <= ClampRow(topY, hitY, y2)
  {
  }

  lemma RealMulMonotone(a: real, b: real, c: real)
    requires a <= b && c >= 0.0
    ensures a * c <= b * c
  {
  }

  lemma TruncMonotone(x: real, y: real)
    requires x <= y
    ensures Trunc(x) <= Trunc(y)
  {
  }

  /** A note nearer the fret line (larger `frac`) is never drawn above one further away. */
  lemma NoteRowMonotone(topY: int, hitY: int, h: int, f1: real, f2: real)
    requires f1 <= f2 && h >= 1
    ensures NoteRow(topY, hitY, h, f1) <= NoteRow(topY, hitY, h, f2)
  {
    var c := (h - 1) as real;
    RealMulMonotone(f1, f2, c);
    TruncMonotone(f1 * c, f2 * c);
    ClampMonotone(topY, hitY, RawRow(topY, h, f1), RawRow(topY, h, f2));
  }
}

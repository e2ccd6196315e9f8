/// `build_chords` (midi.c:465-541): the notes of one difficulty (and one
/// track, or all tracks), sorted by time and grouped into chords of notes
/// within 1.5 ms of the chord's first note, each with a lane mask and a
/// hammer-on/pull-off flag.
module Chords {
  import opened MidiTypes
  import opened Sorting
  import opened Vectors

  /** The grouping window, 1.5 ms. */
  const Eps: real := 0.0015
  /** `uint64_t` arithmetic is modulo 2^64. */
  const U64: nat := 0x1_0000_0000_0000_0000

  function Abs(x: real): (r: real)
    ensures r >= 0.0 && (r == x || r == -x)
  {
    if x < 0.0 then -x else x
  }

  /** The note belongs to difficulty `diff` and to track `track` (`-1`: any track). */
  predicate Picks(x: NoteOn, diff: int, track: int) {
    x.diff == diff && (track == -1 || x.track == track)
  }

  /** The notes the first loop copies into `tmp`, in their order. */
  function Select(s: seq<NoteOn>, diff: int, track: int): seq<NoteOn> {
    if s == [] then []
    else Select(s[..|s| - 1], diff, track) + (if Picks(s[|s| - 1], diff, track) then [s[|s| - 1]] else [])
  }

  /** Every picked note is kept as often as it occurs; no other note is kept. */
  lemma {:induction false} SelectCount(s: seq<NoteOn>, diff: int, track: int, x: NoteOn)
    ensures multiset(Select(s, diff, track))[x] == if Picks(x, diff, track) then multiset(s)[x] else 0
    decreases |s|
  {
    if s != [] {
      var init := s[..|s| - 1];
      SelectCount(init, diff, track, x);
      assert s == init + [s[|s| - 1]];
    }
  }

  /** A note is selected exactly when it is one of the notes and is picked. */
  lemma SelectMember(s: seq<NoteOn>, diff: int, track: int, x: NoteOn)
    ensures x in Select(s, diff, track) <==> x in s && Picks(x, diff, track)
  {
    SelectCount(s, diff, track, x);
    assert x in Select(s, diff, track) <==> x in multiset(Select(s, diff, track));
    assert x in s <==> x in multiset(s);
  }

  lemma SelectEmpty(s: seq<NoteOn>, diff: int, track: int)
    ensures Select(s, diff, track) == [] <==> forall x :: x in s ==> !Picks(x, diff, track)
  {
    if exists x :: x in s && Picks(x, diff, track) {
      var x :| x in s && Picks(x, diff, track);
      SelectMember(s, diff, track, x);
    }
    if Select(s, diff, track) != [] {
      var x := Select(s, diff, track)[0];
      SelectMember(s, diff, track, x);
    }
  }

  /** `(uint8_t)(1u << lane)`: bit `lane` for lanes 0..7, nothing for 8..31. */
  function LaneBit(lane: int): bv8 {
    if 0 <= lane < 8 then (1 as bv8) << (lane as bv8) else 0
  }

  /** The lane mask of a chord: the OR of its notes' bits. */
  function MaskOf(g: seq<NoteOn>): bv8 {
    if g == [] then 0 else MaskOf(g[..|g| - 1]) | LaneBit(g[|g| - 1].lane)
  }

  /** The smallest velocity of `g`, starting from `init`. */
  function MinVel(g: seq<NoteOn>, init: int): int {
    if g == [] then init
    else
      var m := MinVel(g[..|g| - 1], init);
      if g[|g| - 1].vel < m then g[|g| - 1].vel else m
  }

  /** `MinVel` is the minimum of `init` and the velocities. */
  lemma {:induction false} MinVelIsMin(g: seq<NoteOn>, init: int)
    ensures var r := MinVel(g, init);
      && r <= init && (forall j :: 0 <= j < |g| ==> r <= g[j].vel)
      && (r == init || exists j :: 0 <= j < |g| && r == g[j].vel)
    decreases |g|
  {
    if g != [] {
      MinVelIsMin(g[..|g| - 1], init);
      var r := MinVel(g, init);
      var m := MinVel(g[..|g| - 1], init);
      forall j | 0 <= j < |g| ensures r <= g[j].vel {
        if j < |g| - 1 {
          assert g[..|g| - 1][j] == g[j];
        }
      }
      if r != init && r == m {
        var j :| 0 <= j < |g| - 1 && m == g[..|g| - 1][j].vel;
        assert g[j].vel == r;
      }
    }
  }

  /**
   * The end of the chord that starts at `s[0]`: the first index from `i` on
   * whose note is more than `Eps` away from `s[0]`, or `|s|`.
   */
  function GroupEnd(s: seq<NoteOn>, i: nat): (e: nat)
    requires 1 <= i <= |s|
    ensures i <= e <= |s|
    decreases |s| - i
  {
    if i == |s| || Abs(s[i].tSec - s[0].tSec) > Eps then i else GroupEnd(s, i + 1)
  }

  lemma {:induction false} GroupEndProps(s: seq<NoteOn>, i: nat)
    requires 1 <= i <= |s|
    ensures var e := GroupEnd(s, i);
      && (forall j :: i <= j < e ==> Abs(s[j].tSec - s[0].tSec) <= Eps)
      && (e < |s| ==> Abs(s[e].tSec - s[0].tSec) > Eps)
    decreases |s| - i
  {
    if i < |s| && Abs(s[i].tSec - s[0].tSec) <= Eps {
      GroupEndProps(s, i + 1);
    }
  }

  /** `GroupEnd` is the only index with the properties above. */
  lemma {:induction false} GroupEndIs(t: seq<NoteOn>, i: nat, e: nat)
    requires 1 <= i <= e <= |t|
    requires forall j :: i <= j < e ==> Abs(t[j].tSec - t[0].tSec) <= Eps
    requires e < |t| ==> Abs(t[e].tSec - t[0].tSec) > Eps
    ensures GroupEnd(t, i) == e
    decreases e - i
  {
    if i < e {
      GroupEndIs(t, i + 1, e);
    }
  }

  /** The chords of `s`, each as the run of notes it groups. */
  function Groups(s: seq<NoteOn>): seq<seq<NoteOn>>
    decreases |s|
  {
    if s == [] then [] else
      var e := GroupEnd(s, 1);
      [s[..e]] + Groups(s[e..])
  }

  function Flatten(gs: seq<seq<NoteOn>>): seq<NoteOn> {
    if gs == [] then [] else gs[0] + Flatten(gs[1..])
  }

  predicate NonEmptyGroups(gs: seq<seq<NoteOn>>) {
    forall k :: 0 <= k < |gs| ==> |gs[k]| > 0
  }

  lemma {:induction false} GroupsNonEmpty(s: seq<NoteOn>)
    ensures NonEmptyGroups(Groups(s))
    ensures Groups(s) == [] <==> s == []
    decreases |s|
  {
    if s != [] {
      var e := GroupEnd(s, 1);
      GroupsNonEmpty(s[e..]);
      var gs := Groups(s);
      assert gs == [s[..e]] + Groups(s[e..]);
      forall k | 0 <= k < |gs| ensures |gs[k]| > 0 {
        if k > 0 {
          assert gs[k] == Groups(s[e..])[k - 1];
        }
      }
    }
  }

  /**
   * The chord of the notes `g`, `prev` being the previous chord's notes
   * (none for the first chord of the call) and `outN` the number of chords
   * already in the output: its time is its first note's, its mask the OR of
   * its lanes, and its smallest velocity starts from 127 for the first chord
   * of the call.
   */
  function ChordOf(g: seq<NoteOn>, prev: seq<NoteOn>, thr: int, outN: nat): Chord
    requires |g| > 0
  {
    var prevTick: nat := if prev == [] then 0 else prev[0].tick;
    var minVel := MinVel(g, if prev == [] then 127 else g[0].vel);
    Chord(g[0].tSec, MaskOf(g), HopoFlag(outN, MaskOf(g), MaskOf(prev), minVel, g[0].tick, prevTick, thr), 0.0)
  }

  /**
   * midi.c:504-512 and 527-534: a chord is a hammer-on/pull-off when the
   * output is not empty, its mask differs from the previous chord's, and its
   * smallest velocity is below 100 or it starts less than `thr` ticks after
   * the previous chord (both differences taken as `uint64_t`).
   */
  function HopoFlag(outN: nat, curMask: bv8, prevMask: bv8, curMinVel: int, curTick: nat, prevTick: nat, thr: int): (h: bool)
  {
    outN > 0 && curMask != prevMask && (curMinVel < 100 || (curTick - prevTick) % U64 < thr % U64)
  }

  /**
   * The chords of the groups `gs`, in order, `prev` being the notes of the
   * chord before them (none: `[]`) and `n` the number of chords already in
   * the output.
   */
  function ChordsFrom(gs: seq<seq<NoteOn>>, prev: seq<NoteOn>, thr: int, n: nat): (r: seq<Chord>)
    requires NonEmptyGroups(gs)
    ensures |r| == |gs|
    decreases |gs|
  {
    if gs == [] then []
    else
      assert NonEmptyGroups(gs[1..]) by {
        forall k | 0 <= k < |gs| - 1 ensures |gs[1..][k]| > 0 {
          assert gs[1..][k] == gs[k + 1];
        }
      }
      [ChordOf(gs[0], prev, thr, n)] + ChordsFrom(gs[1..], gs[0], thr, n + 1)
  }

  lemma {:induction false} ChordsFromAt(gs: seq<seq<NoteOn>>, prev: seq<NoteOn>, thr: int, n: nat, k: nat)
    requires NonEmptyGroups(gs) && k < |gs|
    ensures ChordsFrom(gs, prev, thr, n)[k] == ChordOf(gs[k], if k == 0 then prev else gs[k - 1], thr, n + k)
    decreases |gs|
  {
    if k > 0 {
      var rest := gs[1..];
      assert NonEmptyGroups(rest) by {
        forall j | 0 <= j < |rest| ensures |rest[j]| > 0 {
          assert rest[j] == gs[j + 1];
        }
      }
      ChordsFromAt(rest, gs[0], thr, n + 1, k - 1);
      assert rest[k - 1] == gs[k];
      if k > 1 {
        assert rest[k - 2] == gs[k - 1];
      }
    }
  }

  /** The notes `build_chords` groups: the selected ones, sorted by time then lane. */
  function Sorted(notes: seq<NoteOn>, diff: int, track: int): seq<NoteOn> {
    SortBy(Select(notes, diff, track), NoteTimeBefore)
  }

  /** What `build_chords(notes, diff, track, thr, out)` appends to `out`, `before` chords being there. */
  function Chords(notes: seq<NoteOn>, diff: int, track: int, thr: int, before: nat): seq<Chord> {
    var s := Sorted(notes, diff, track);
    GroupsNonEmpty(s);
    ChordsFrom(Groups(s), [], thr, before)
  }

  // ---------------------------------------------------------------------
  // Properties of the grouping

  /** The chords partition the notes: concatenated, they give back `s`. */
  lemma {:induction false} GroupsPartition(s: seq<NoteOn>)
    ensures Flatten(Groups(s)) == s
    decreases |s|
  {
    if s != [] {
      var e := GroupEnd(s, 1);
      GroupsPartition(s[e..]);
      var gs := Groups(s);
      assert gs[0] == s[..e];
      assert gs[1..] == Groups(s[e..]);
      assert s == s[..e] + s[e..];
    }
  }

  /** Every note of a chord is within `Eps` of the chord's first note. */
  lemma {:induction false} GroupsWithinEps(s: seq<NoteOn>, k: nat, j: nat)
    requires k < |Groups(s)| && j < |Groups(s)[k]|
    ensures Abs(Groups(s)[k][j].tSec - Groups(s)[k][0].tSec) <= Eps
    decreases |s|
  {
    var e := GroupEnd(s, 1);
    if k > 0 {
      assert Groups(s)[k] == Groups(s[e..])[k - 1];
      GroupsWithinEps(s[e..], k - 1, j);
    } else if j > 0 {
      GroupEndProps(s, 1);
      assert Groups(s)[0] == s[..e];
    }
  }

  ghost predicate TimeSorted(s: seq<NoteOn>) {
    forall i, j :: 0 <= i < j < |s| ==> s[i].tSec <= s[j].tSec
  }

  /** On time-sorted notes, each chord starts more than `Eps` after the previous one. */
  lemma {:induction false} GroupsSeparated(s: seq<NoteOn>, k: nat)
    requires TimeSorted(s) && NonEmptyGroups(Groups(s))
    requires k + 1 < |Groups(s)|
    ensures Groups(s)[k + 1][0].tSec - Groups(s)[k][0].tSec > Eps
    decreases |s|
  {
    var e := GroupEnd(s, 1);
    var rest := s[e..];
    var gs: seq<seq<NoteOn>> := Groups(s);
    assert gs[1..] == Groups(rest);
    if k > 0 {
      assert TimeSorted(rest) by {
        forall i, j | 0 <= i < j < |rest| ensures rest[i].tSec <= rest[j].tSec {
          assert rest[i] == s[e + i] && rest[j] == s[e + j];
        }
      }
      GroupsNonEmpty(rest);
      GroupsSeparated(rest, k - 1);
    } else {
      GroupEndProps(s, 1);
      GroupsNonEmpty(rest);
      assert gs[0] == s[..e];
      assert e < |s|;
      assert gs[1][0] == rest[0] == s[e];
      assert s[0].tSec <= s[e].tSec;
    }
  }

  /** `cmp_note_time`'s order is a strict weak order. */
  lemma NoteTimeOrder()
    ensures StrictOrder(NoteTimeBefore)
  {
  }

  lemma SortedIsTimeSorted(s: seq<NoteOn>)
    requires SortedBy(s, NoteTimeBefore)
    ensures TimeSorted(s)
  {
    forall i, j | 0 <= i < j < |s| ensures s[i].tSec <= s[j].tSec {
      assert !NoteTimeBefore(s[j], s[i]);
    }
  }

  // ---------------------------------------------------------------------
  // Properties of the chords

  lemma LaneBitOr(m: bv8, a: int, l: int)
    requires 0 <= l < 8
    ensures (m | LaneBit(a)) & LaneBit(l) != 0 <==> (m & LaneBit(l) != 0 || a == l)
  {
  }

  /** Bit `l` of the mask is set exactly when some note of the chord is in lane `l`. */
  lemma {:induction false} MaskBits(g: seq<NoteOn>, l: int)
    requires 0 <= l < 8
    ensures MaskOf(g) & LaneBit(l) != 0 <==> exists j :: 0 <= j < |g| && g[j].lane == l
    decreases |g|
  {
    if g != [] {
      var init := g[..|g| - 1];
      MaskBits(init, l);
      var last := g[|g| - 1].lane;
      LaneBitOr(MaskOf(init), last, l);
      if exists j :: 0 <= j < |init| && init[j].lane == l {
        var j :| 0 <= j < |init| && init[j].lane == l;
        assert g[j].lane == l;
      }
      if exists j :: 0 <= j < |g| && g[j].lane == l {
        var j :| 0 <= j < |g| && g[j].lane == l;
        if j < |init| {
          assert init[j].lane == l;
        }
      }
    }
  }

  /** With lanes 0..4, the mask is a nonzero value below 32. */
  lemma {:induction false} MaskRange(g: seq<NoteOn>)
    requires forall j :: 0 <= j < |g| ==> 0 <= g[j].lane < 5
    ensures MaskOf(g) < 32
    ensures g != [] ==> MaskOf(g) != 0
    decreases |g|
  {
    if g != [] {
      var init := g[..|g| - 1];
      assert forall j :: 0 <= j < |init| ==> init[j] == g[j];
      MaskRange(init);
      var l := g[|g| - 1].lane;
      assert LaneBit(l) < 32 && LaneBit(l) != 0;
    }
  }

  lemma {:induction false} FlattenMember(gs: seq<seq<NoteOn>>, k: nat, j: nat)
    requires k < |gs| && j < |gs[k]|
    ensures gs[k][j] in Flatten(gs)
    decreases |gs|
  {
    if k > 0 {
      FlattenMember(gs[1..], k - 1, j);
      assert gs[1..][k - 1] == gs[k];
    }
  }

  /** Every note of every chord is a selected note. */
  lemma ChordNoteSelected(notes: seq<NoteOn>, diff: int, track: int, k: nat, j: nat)
    requires k < |Groups(Sorted(notes, diff, track))|
    requires j < |Groups(Sorted(notes, diff, track))[k]|
    ensures var x := Groups(Sorted(notes, diff, track))[k][j];
      x in notes && Picks(x, diff, track)
  {
    var s := Sorted(notes, diff, track);
    var gs: seq<seq<NoteOn>> := Groups(s);
    GroupsPartition(s);
    FlattenMember(gs, k, j);
    var x := gs[k][j];
    assert x in multiset(s);
    assert x in multiset(Select(notes, diff, track));
    SelectMember(notes, diff, track, x);
  }

  /**
   * What the source promises of `build_chords`: no chord at all exactly when
   * no note is selected, the first chord of an empty output is strummed, a
   * HOPO always changes frets, and every chord starts at a selected note.
   */
  lemma ChordsProps(notes: seq<NoteOn>, diff: int, track: int, thr: int, before: nat)
    ensures var r := Chords(notes, diff, track, thr, before);
      && (r == [] <==> forall x :: x in notes ==> !Picks(x, diff, track))
      && (before == 0 && r != [] ==> !r[0].isHopo)
      && (forall k :: 0 < k < |r| && r[k].isHopo ==> r[k].mask != r[k - 1].mask)
      && (forall k :: 0 <= k < |r| ==> exists x :: x in notes && Picks(x, diff, track) && x.tSec == r[k].tSec)
  {
    var s := Sorted(notes, diff, track);
    GroupsNonEmpty(s);
    var gs: seq<seq<NoteOn>> := Groups(s);
    var r := Chords(notes, diff, track, thr, before);
    assert r == ChordsFrom(gs, [], thr, before);
    SelectEmpty(notes, diff, track);
    assert |s| == |Select(notes, diff, track)|;
    if before == 0 && r != [] {
      ChordsFromAt(gs, [], thr, before, 0);
    }
    forall k | 0 < k < |r| && r[k].isHopo
      ensures r[k].mask != r[k - 1].mask
    {
      ChordsFromAt(gs, [], thr, before, k);
      ChordsFromAt(gs, [], thr, before, k - 1);
    }
    forall k | 0 <= k < |r|
      ensures exists x :: x in notes && Picks(x, diff, track) && x.tSec == r[k].tSec
    {
      ChordsFromAt(gs, [], thr, before, k);
      ChordNoteSelected(notes, diff, track, k, 0);
    }
  }

  /** The notes `build_chords` groups are in time order. */
  lemma SortedTimeSorted(notes: seq<NoteOn>, diff: int, track: int)
    ensures TimeSorted(Sorted(notes, diff, track))
  {
    NoteTimeOrder();
    SortBySorted(Select(notes, diff, track), NoteTimeBefore);
    SortedIsTimeSorted(Sorted(notes, diff, track));
  }

  /** The chords of one call are in time order and more than `Eps` apart. */
  lemma ChordsSeparated(notes: seq<NoteOn>, diff: int, track: int, thr: int, before: nat, k: nat)
    requires k + 1 < |Chords(notes, diff, track, thr, before)|
    ensures var r := Chords(notes, diff, track, thr, before);
      r[k + 1].tSec - r[k].tSec > Eps
  {
    var s := Sorted(notes, diff, track);
    GroupsNonEmpty(s);
    var gs: seq<seq<NoteOn>> := Groups(s);
    var r := Chords(notes, diff, track, thr, before);
    assert r == ChordsFrom(gs, [], thr, before);
    SortedTimeSorted(notes, diff, track);
    GroupsSeparated(s, k);
    ChordsFromAt(gs, [], thr, before, k);
    ChordsFromAt(gs, [], thr, before, k + 1);
    assert r[k].tSec == gs[k][0].tSec && r[k + 1].tSec == gs[k + 1][0].tSec;
  }

  /** With every selected note in lanes 0..4, every chord mask is a nonzero value below 32. */
  lemma ChordMasks(notes: seq<NoteOn>, diff: int, track: int, thr: int, before: nat, k: nat)
    requires forall x :: x in notes && Picks(x, diff, track) ==> 0 <= x.lane < 5
    requires k < |Chords(notes, diff, track, thr, before)|
    ensures var m := Chords(notes, diff, track, thr, before)[k].mask;
      m != 0 && m < 32
  {
    var s := Sorted(notes, diff, track);
    GroupsNonEmpty(s);
    var gs: seq<seq<NoteOn>> := Groups(s);
    forall j | 0 <= j < |gs[k]|
      ensures 0 <= gs[k][j].lane < 5
    {
      ChordNoteSelected(notes, diff, track, k, j);
    }
    MaskRange(gs[k]);
    ChordsFromAt(gs, [], thr, before, k);
  }

  /** Bit `l` of a chord's mask is set exactly when one of its notes is in lane `l`. */
  lemma ChordMaskLanes(notes: seq<NoteOn>, diff: int, track: int, thr: int, before: nat, k: nat, l: int)
    requires k < |Chords(notes, diff, track, thr, before)| && 0 <= l < 8
    ensures var gs := Groups(Sorted(notes, diff, track));
      Chords(notes, diff, track, thr, before)[k].mask & LaneBit(l) != 0
      <==> exists j :: 0 <= j < |gs[k]| && gs[k][j].lane == l
  {
    var s := Sorted(notes, diff, track);
    GroupsNonEmpty(s);
    var gs: seq<seq<NoteOn>> := Groups(s);
    ChordsFromAt(gs, [], thr, before, k);
    MaskBits(gs[k], l);
  }

  // ---------------------------------------------------------------------
  // The C procedure

  /**
   * The loop variables of `build_chords` (midi.c:485-491): the open chord's
   * time, mask, tick and lowest velocity, and the previous chord's tick and mask.
   */
  datatype Open = Open(t: real, mask: bv8, tick: nat, minVel: int, prevTick: nat, prevMask: bv8)

  /** The variables before the first note (midi.c:485-491). */
  function Start(s: seq<NoteOn>): Open
    requires |s| > 0
  {
    Open(s[0].tSec, 0, s[0].tick, 127, 0, 0)
  }

  /** The chord emitted from the loop variables when `n` chords are already in the output (midi.c:501-517). */
  function Emit(o: Open, n: nat, thr: int): Chord {
    Chord(o.t, o.mask, HopoFlag(n, o.mask, o.prevMask, o.minVel, o.tick, o.prevTick, thr), 0.0)
  }

  /** The note `x` joins the open chord (midi.c:494-498). */
  function Join(o: Open, x: NoteOn): Open {
    o.(mask := o.mask | LaneBit(x.lane), minVel := if x.vel < o.minVel then x.vel else o.minVel)
  }

  /** After an emit, the note `x` opens the next chord (midi.c:519-524). */
  function Reopen(o: Open, x: NoteOn): Open {
    Open(x.tSec, LaneBit(x.lane), x.tick, x.vel, o.tick, o.mask)
  }

  /**
   * The chords the loop of midi.c:493-526 emits from note `i` on, with
   * variables `o` and `n` chords in the output, followed by the final emit
   * of midi.c:528-538.
   */
  function Rest(s: seq<NoteOn>, i: nat, o: Open, n: nat, thr: int): seq<Chord>
    requires i <= |s|
    decreases |s| - i
  {
    if i == |s| then [Emit(o, n, thr)]
    else if Abs(s[i].tSec - o.t) <= Eps then Rest(s, i + 1, Join(o, s[i]), n, thr)
    else [Emit(o, n, thr)] + Rest(s, i + 1, Reopen(o, s[i]), n + 1, thr)
  }

  /**
   * The loop variables at note `i` describe the open chord `s[start..i]` and
   * `prev`, the last chord this call has closed (none yet: `[]`).
   */
  ghost predicate LoopState(s: seq<NoteOn>, prev: seq<NoteOn>, start: nat, i: nat, o: Open) {
    && start <= i <= |s| && start < |s|
    && (prev == [] ==> start == 0)
    && (prev != [] ==> start < i)
    && (forall j :: start <= j < i ==> Abs(s[j].tSec - s[start].tSec) <= Eps)
    && o.t == s[start].tSec && o.tick == s[start].tick
    && o.mask == MaskOf(s[start..i])
    && o.minVel == MinVel(s[start..i], if prev == [] then 127 else s[start].vel)
    && o.prevTick == (if prev == [] then 0 else prev[0].tick)
    && o.prevMask == MaskOf(prev)
  }

  /** Extending the open chord by `s[i]` extends its mask and its lowest velocity. */
  lemma SliceSnoc(s: seq<NoteOn>, start: nat, i: nat, init: int)
    requires start <= i < |s|
    ensures MaskOf(s[start..i + 1]) == MaskOf(s[start..i]) | LaneBit(s[i].lane)
    ensures MinVel(s[start..i + 1], init)
         == if s[i].vel < MinVel(s[start..i], init) then s[i].vel else MinVel(s[start..i], init)
  {
    var g, g' := s[start..i], s[start..i + 1];
    assert g'[..|g'| - 1] == g && g'[|g'| - 1] == s[i];
  }

  /** The note `s[i]` joins the open chord (midi.c:494-498). */
  lemma JoinStep(s: seq<NoteOn>, prev: seq<NoteOn>, start: nat, i: nat, o: Open)
    requires LoopState(s, prev, start, i, o)
    requires i < |s| && Abs(s[i].tSec - o.t) <= Eps
    ensures LoopState(s, prev, start, i + 1, Join(o, s[i]))
  {
    SliceSnoc(s, start, i, if prev == [] then 127 else s[start].vel);
  }

  /**
   * The open chord `s[start..i]` is complete: it is the next group, and the
   * emitted chord is its chord.
   */
  lemma CloseStep(s: seq<NoteOn>, prev: seq<NoteOn>, start: nat, i: nat, o: Open, thr: int, n: nat)
    requires LoopState(s, prev, start, i, o)
    requires start < i && (i < |s| ==> Abs(s[i].tSec - o.t) > Eps)
    ensures Groups(s[start..]) == [s[start..i]] + Groups(s[i..])
    ensures Emit(o, n, thr) == ChordOf(s[start..i], prev, thr, n)
  {
    var t := s[start..];
    forall j | 1 <= j < i - start ensures Abs(t[j].tSec - t[0].tSec) <= Eps {
      assert t[j] == s[start + j];
    }
    GroupEndIs(t, 1, i - start);
    assert t[..i - start] == s[start..i];
    assert t[i - start..] == s[i..];
  }

  /** The note `s[i]` opens the next chord; the chord `s[start..i]` just closed becomes the previous one. */
  lemma OpenStep(s: seq<NoteOn>, start: nat, i: nat, o: Open)
    requires start < i < |s|
    requires o.tick == s[start].tick && o.mask == MaskOf(s[start..i])
    ensures LoopState(s, s[start..i], i, i + 1, Reopen(o, s[i]))
  {
    assert s[i..i + 1] == [s[i]];
    assert s[i..i + 1][..0] == [];
  }

  /** At the end of the notes, the final emit gives the chord of the open group, the last one. */
  lemma EndCase(s: seq<NoteOn>, prev: seq<NoteOn>, start: nat, o: Open, n: nat, thr: int)
    requires LoopState(s, prev, start, |s|, o)
    ensures NonEmptyGroups(Groups(s[start..]))
    ensures Rest(s, |s|, o, n, thr) == ChordsFrom(Groups(s[start..]), prev, thr, n)
  {
    GroupsNonEmpty(s[start..]);
    var g, gs := s[start..|s|], Groups(s[start..]);
    CloseStep(s, prev, start, |s|, o, thr, n);
    assert s[|s|..] == [] && gs == [g];
    assert ChordsFrom(gs, prev, thr, n) == [ChordOf(g, prev, thr, n)] + ChordsFrom([], g, thr, n + 1);
  }

  /** An emit: the open group's chord, then the chords from the group `s[i]` opens. */
  lemma EmitCase(s: seq<NoteOn>, prev: seq<NoteOn>, start: nat, i: nat, o: Open, n: nat, thr: int)
    requires start < i < |s| && Abs(s[i].tSec - o.t) > Eps
    requires Groups(s[start..]) == [s[start..i]] + Groups(s[i..])
    requires Emit(o, n, thr) == ChordOf(s[start..i], prev, thr, n)
    requires NonEmptyGroups(Groups(s[i..]))
    requires Rest(s, i + 1, Reopen(o, s[i]), n + 1, thr) == ChordsFrom(Groups(s[i..]), s[start..i], thr, n + 1)
    ensures NonEmptyGroups(Groups(s[start..]))
    ensures Rest(s, i, o, n, thr) == ChordsFrom(Groups(s[start..]), prev, thr, n)
  {
    GroupsNonEmpty(s[start..]);
    var g, gs := s[start..i], Groups(s[start..]);
    assert gs[0] == g && gs[1..] == Groups(s[i..]);
    RestStep(s, i, o, n, thr);
    assert ChordsFrom(gs, prev, thr, n) == [ChordOf(g, prev, thr, n)] + ChordsFrom(Groups(s[i..]), g, thr, n + 1);
  }

  /**
   * From any loop state, the rest of the loop and the final emit give the
   * chords of the groups from the open one on.
   */
  lemma {:induction false} RestChords(s: seq<NoteOn>, prev: seq<NoteOn>, start: nat, i: nat, o: Open, n: nat, thr: int)
    requires LoopState(s, prev, start, i, o)
    ensures NonEmptyGroups(Groups(s[start..]))
    ensures Rest(s, i, o, n, thr) == ChordsFrom(Groups(s[start..]), prev, thr, n)
    decreases |s| - i, 2
  {
    if i == |s| {
      EndCase(s, prev, start, o, n, thr);
    } else if Abs(s[i].tSec - o.t) <= Eps {
      JoinBranch(s, prev, start, i, o, n, thr);
    } else {
      EmitBranch(s, prev, start, i, o, n, thr);
    }
  }

  lemma {:induction false} JoinBranch(s: seq<NoteOn>, prev: seq<NoteOn>, start: nat, i: nat, o: Open, n: nat, thr: int)
    requires LoopState(s, prev, start, i, o)
    requires i < |s| && Abs(s[i].tSec - o.t) <= Eps
    ensures NonEmptyGroups(Groups(s[start..]))
    ensures Rest(s, i, o, n, thr) == ChordsFrom(Groups(s[start..]), prev, thr, n)
    decreases |s| - i, 1
  {
    JoinStep(s, prev, start, i, o);
    RestChords(s, prev, start, i + 1, Join(o, s[i]), n, thr);
    RestStep(s, i, o, n, thr);
  }

  lemma {:induction false} EmitBranch(s: seq<NoteOn>, prev: seq<NoteOn>, start: nat, i: nat, o: Open, n: nat, thr: int)
    requires LoopState(s, prev, start, i, o)
    requires i < |s| && Abs(s[i].tSec - o.t) > Eps
    ensures NonEmptyGroups(Groups(s[start..]))
    ensures Rest(s, i, o, n, thr) == ChordsFrom(Groups(s[start..]), prev, thr, n)
    decreases |s| - i, 1
  {
    CloseStep(s, prev, start, i, o, thr, n);
    EmitTail(s, start, i, o, n, thr);
    EmitCase(s, prev, start, i, o, n, thr);
  }

  /** After an emit, the note `s[i]` opens the next group and the loop goes on from there. */
  lemma {:induction false} EmitTail(s: seq<NoteOn>, start: nat, i: nat, o: Open, n: nat, thr: int)
    requires start < i < |s|
    requires o.tick == s[start].tick && o.mask == MaskOf(s[start..i])
    ensures NonEmptyGroups(Groups(s[i..]))
    ensures Rest(s, i + 1, Reopen(o, s[i]), n + 1, thr) == ChordsFrom(Groups(s[i..]), s[start..i], thr, n + 1)
    decreases |s| - i, 0
  {
    OpenStep(s, start, i, o);
    RestChords(s, s[start..i], i, i + 1, Reopen(o, s[i]), n + 1, thr);
  }

  /** One turn of the loop: the note `s[i]` joins the open chord, or the open chord is emitted first. */
  lemma RestStep(s: seq<NoteOn>, i: nat, o: Open, n: nat, thr: int)
    requires i < |s|
    ensures Abs(s[i].tSec - o.t) <= Eps ==> Rest(s, i, o, n, thr) == Rest(s, i + 1, Join(o, s[i]), n, thr)
    ensures Abs(s[i].tSec - o.t) > Eps
        ==> Rest(s, i, o, n, thr) == [Emit(o, n, thr)] + Rest(s, i + 1, Reopen(o, s[i]), n + 1, thr)
  {
  }

  lemma AppendAssoc(e: seq<Chord>, c: Chord, r: seq<Chord>)
    ensures e + ([c] + r) == (e + [c]) + r
  {
  }

  /**
   * The loop of midi.c:493-526 over the sorted notes `a[..m]`: it appends
   * the chords it emits to `out` and returns the loop variables it leaves.
   */
  method GroupLoop(a: array<NoteOn>, m: nat, thr: int, out: Vector<Chord>) returns (o: Open)
    requires 0 < m <= a.Length && out.Valid()
    modifies out, out.data
    ensures out.data == old(out.data) || fresh(out.data)
    ensures out.Valid() && |old(out.Items())| <= out.n
    ensures out.Items()[..old(out.n)] == old(out.Items())
    ensures out.Items()[old(out.n)..] + Rest(a[..m], m, o, out.n, thr) == Rest(a[..m], 0, Start(a[..m]), old(out.n), thr)
  {
    ghost var s := a[..m];
    ghost var before := out.n;
    ghost var old0 := out.Items();
    o := Open(a[0].tSec, 0, a[0].tick, 127, 0, 0);
    ghost var goal := Rest(s, 0, o, before, thr);
    ghost var emitted: seq<Chord> := [];
    var i := 0;
    while i < m
      invariant i <= m && a[..m] == s
      invariant out.Valid() && out.n == before + |emitted|
      invariant out.Items() == old0 + emitted
      invariant out.data == old(out.data) || fresh(out.data)
      invariant emitted + Rest(s, i, o, out.n, thr) == goal
    {
      var x := a[i];
      assert x == s[i];
      RestStep(s, i, o, out.n, thr);
      if Abs(x.tSec - o.t) <= Eps {
        o := Join(o, x);
      } else {
        var c := Emit(o, out.n, thr);
        AppendAssoc(emitted, c, Rest(s, i + 1, Reopen(o, x), out.n + 1, thr));
        out.Push(c);
        emitted := emitted + [c];
        o := Reopen(o, x);
      }
      i := i + 1;
    }
    assert out.Items()[before..] == emitted && out.Items()[..before] == old0;
  }

  /**
   * Groups `a[..m]` (already sorted) into chords and appends them to `out`:
   * the second loop of `build_chords` and its final emit (midi.c:484-538).
   */
  method EmitChords(a: array<NoteOn>, m: nat, thr: int, out: Vector<Chord>)
    requires 0 < m <= a.Length && out.Valid()
    modifies out, out.data
    ensures out.data == old(out.data) || fresh(out.data)
    ensures out.Valid() && NonEmptyGroups(Groups(old(a[..m])))
    ensures out.Items() == old(out.Items()) + ChordsFrom(Groups(old(a[..m])), [], thr, |old(out.Items())|)
  {
    ghost var s := a[..m];
    ghost var before := out.n;
    ghost var old0 := out.Items();
    var o := GroupLoop(a, m, thr, out);
    ghost var emitted := out.Items()[before..];
    assert a[..m] == s && out.Items() == old0 + emitted;
    assert Rest(s, m, o, out.n, thr) == [Emit(o, out.n, thr)];
    out.Push(Emit(o, out.n, thr));
    assert s[0..] == s && s[0..0] == [];
    RestChords(s, [], 0, 0, Start(s), before, thr);
  }

  /** midi.c:468-478: copy the selected notes into a fresh buffer. */
  method SelectNotes(notes: Vector<NoteOn>, diff: int, track: int) returns (tmp: Vector<NoteOn>)
    requires notes.Valid()
    ensures fresh(tmp) && fresh(tmp.data) && tmp.Valid()
    ensures tmp.Items() == Select(notes.Items(), diff, track)
  {
    ghost var ns := notes.Items();
    tmp := new Vector<NoteOn>(if notes.n == 0 then 1 else notes.n);
    var i := 0;
    while i < notes.n
      invariant 0 <= i <= notes.n
      invariant fresh(tmp) && fresh(tmp.data) && tmp.Valid()
      invariant tmp.Items() == Select(ns[..i], diff, track)
    {
      var x := notes.data[i];
      assert ns[..i + 1][..i] == ns[..i];
      if Picks(x, diff, track) {
        tmp.Push(x);
      }
      i := i + 1;
    }
    assert ns[..notes.n] == ns;
  }

  /**
   * `build_chords(notes, diff, track, thr, out)`: appends to `out` the chords
   * of the selected notes.
   */
  method BuildChords(notes: Vector<NoteOn>, diff: int, track: int, thr: int, out: Vector<Chord>)
    requires notes.Valid() && out.Valid()
    modifies out, out.data
    ensures out.Valid()
    ensures out.Items() == old(out.Items()) + Chords(old(notes.Items()), diff, track, thr, |old(out.Items())|)
  {
    var tmp := SelectNotes(notes, diff, track);
    ghost var sel := tmp.Items();
    if tmp.n == 0 {
      assert Sorted(notes.Items(), diff, track) == [];
      return;
    }
    tmp.Sort(NoteTimeBefore);
    assert tmp.data[..tmp.n] == Sorted(notes.Items(), diff, track);
    EmitChords(tmp.data, tmp.n, thr, out);
  }
}

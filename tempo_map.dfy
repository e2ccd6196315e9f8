/// The global tempo map of a MIDI file (midi.c:105-112, 122-142, 237-258):
/// the collected Set Tempo points sorted by tick, a 120 BPM point added at
/// tick 0 when none is there, runs of equal ticks compacted in place to their
/// last entry, and the piecewise-linear conversion from ticks to seconds.
module TempoMap {
  import opened MidiTypes
  import opened Sorting
  import opened Vectors

  /** 500000 microseconds per quarter note: 120 BPM. */
  const DefaultUsPerQn: nat := 500000

  ghost predicate TickSorted(s: seq<Tempo>) {
    forall i, j :: 0 <= i < j < |s| ==> s[i].tick <= s[j].tick
  }

  ghost predicate StrictlyIncreasing(s: seq<Tempo>) {
    forall i, j :: 0 <= i < j < |s| ==> s[i].tick < s[j].tick
  }

  lemma TempoBeforeIsStrict()
    ensures StrictOrder(TempoBefore)
  {
  }

  lemma SortedByTempoBefore(s: seq<Tempo>)
    ensures SortedBy(s, TempoBefore) <==> TickSorted(s)
  {
  }

  /** The end of the run of entries with the tick of `s[i]`, from `j` on. */
  function RunEnd(s: seq<Tempo>, i: nat, j: nat): (e: nat)
    requires i < j <= |s|
    requires forall k :: i <= k < j ==> s[k].tick == s[i].tick
    ensures j <= e <= |s|
    ensures forall k :: i <= k < e ==> s[k].tick == s[i].tick
    ensures e == |s| || s[e].tick != s[i].tick
    decreases |s| - j
  {
    if j < |s| && s[j].tick == s[i].tick then RunEnd(s, i, j + 1) else j
  }

  /** One entry per run of equal ticks from index `i` on: the run's last entry. */
  function CompactFrom(s: seq<Tempo>, i: nat): seq<Tempo>
    requires i <= |s|
    decreases |s| - i
  {
    if i == |s| then []
    else
      var e := RunEnd(s, i, i + 1);
      [Tempo(s[i].tick, s[e - 1].usPerQn)] + CompactFrom(s, e)
  }

  function Compact(s: seq<Tempo>): seq<Tempo> {
    CompactFrom(s, 0)
  }

  /** `s[k]` is the last entry of its run of equal ticks. */
  predicate LastOfRun(s: seq<Tempo>, k: nat) {
    k < |s| && (k + 1 == |s| || s[k + 1].tick != s[k].tick)
  }

  /** The first entry of a compaction is the last of the first run. */
  lemma CompactFromHead(s: seq<Tempo>, i: nat)
    requires i < |s|
    ensures var r := CompactFrom(s, i);
      |r| > 0 && r[0] == s[RunEnd(s, i, i + 1) - 1] && r[0].tick == s[i].tick
  {
  }

  /** For a tick-sorted list, no compacted entry is below the starting tick. */
  lemma {:induction false} CompactFromLower(s: seq<Tempo>, i: nat)
    requires i <= |s| && TickSorted(s)
    ensures forall x :: 0 <= x < |CompactFrom(s, i)| ==> s[i].tick <= CompactFrom(s, i)[x].tick
    decreases |s| - i
  {
    if i < |s| {
      var e := RunEnd(s, i, i + 1);
      CompactFromLower(s, e);
    }
  }

  /** For a tick-sorted list, compaction leaves strictly increasing ticks. */
  lemma {:induction false} CompactFromIncreasing(s: seq<Tempo>, i: nat)
    requires i <= |s| && TickSorted(s)
    ensures StrictlyIncreasing(CompactFrom(s, i))
    decreases |s| - i
  {
    if i < |s| {
      var e := RunEnd(s, i, i + 1);
      CompactFromIncreasing(s, e);
      CompactFromLower(s, e);
      var rest := CompactFrom(s, e);
      var r := CompactFrom(s, i);
      assert r == [r[0]] + rest;
      forall x | 0 < x < |r|
        ensures r[0].tick < r[x].tick
      {
        assert r[x] == rest[x - 1];
      }
    }
  }

  /** Every compacted entry is the last entry of a run. */
  lemma {:induction false} CompactFromSound(s: seq<Tempo>, i: nat)
    requires i <= |s|
    ensures forall x :: 0 <= x < |CompactFrom(s, i)| ==>
      exists k :: i <= k < |s| && LastOfRun(s, k) && CompactFrom(s, i)[x] == s[k]
    decreases |s| - i
  {
    if i < |s| {
      var e := RunEnd(s, i, i + 1);
      CompactFromSound(s, e);
      var r := CompactFrom(s, i);
      forall x | 0 <= x < |r|
        ensures exists k :: i <= k < |s| && LastOfRun(s, k) && r[x] == s[k]
      {
        if x == 0 {
          assert LastOfRun(s, e - 1) && r[0] == s[e - 1];
        } else {
          assert r[x] == CompactFrom(s, e)[x - 1];
          var k :| e <= k < |s| && LastOfRun(s, k) && CompactFrom(s, e)[x - 1] == s[k];
          assert i <= k;
        }
      }
    } else {
      assert CompactFrom(s, i) == [];
    }
  }

  /** A compaction is the last entry of the first run, then the compaction of the rest. */
  lemma CompactFromCons(s: seq<Tempo>, i: nat)
    requires i < |s|
    ensures CompactFrom(s, i) == [s[RunEnd(s, i, i + 1) - 1]] + CompactFrom(s, RunEnd(s, i, i + 1))
  {
    var e := RunEnd(s, i, i + 1);
    assert Tempo(s[i].tick, s[e - 1].usPerQn) == s[e - 1];
  }

  /** Inside the run `[i, e)`, only the entry at `e - 1` is last of its run. */
  lemma LastInRun(s: seq<Tempo>, i: nat, k: nat)
    requires i < |s| && i <= k < RunEnd(s, i, i + 1) && LastOfRun(s, k)
    ensures k == RunEnd(s, i, i + 1) - 1
  {
  }

  lemma InCons<T>(x: T, y: T, r: seq<T>)
    ensures (x == y || x in r) ==> x in [y] + r
  {
  }

  /** The last entry of every run survives compaction. */
  lemma {:induction false} CompactFromKeeps(s: seq<Tempo>, i: nat, k: nat)
    requires i <= k < |s| && LastOfRun(s, k)
    ensures s[k] in CompactFrom(s, i)
    decreases |s| - i
  {
    var e := RunEnd(s, i, i + 1);
    CompactFromCons(s, i);
    if k < e {
      LastInRun(s, i, k);
    } else {
      CompactFromKeeps(s, e, k);
    }
    InCons(s[k], s[e - 1], CompactFrom(s, e));
  }

  /** Ensure a point at tick 0 (midi.c:238-242). */
  function WithZero(sorted: seq<Tempo>): seq<Tempo> {
    if sorted == [] || sorted[0].tick != 0 then SortBy(sorted + [Tempo(0, DefaultUsPerQn)], TempoBefore)
    else sorted
  }

  /** The tempo map built from the raw tempo points of all tracks. */
  function BuildTempoMap(raw: seq<Tempo>): seq<Tempo> {
    Compact(WithZero(SortBy(raw, TempoBefore)))
  }

  lemma SortedTempos(s: seq<Tempo>)
    ensures TickSorted(SortBy(s, TempoBefore))
  {
    TempoBeforeIsStrict();
    SortBySorted(s, TempoBefore);
    SortedByTempoBefore(SortBy(s, TempoBefore));
  }

  /** A sorted list has a point at tick 0 iff its first entry is at tick 0. */
  lemma ZeroFirst(s: seq<Tempo>)
    requires TickSorted(s)
    ensures (exists k :: 0 <= k < |s| && s[k].tick == 0) <==> (s != [] && s[0].tick == 0)
  {
  }

  /**
   * After `WithZero` the list is sorted, starts at tick 0, and holds the
   * original entries plus the default exactly when none was at tick 0.
   */
  lemma WithZeroProps(sorted: seq<Tempo>)
    requires TickSorted(sorted)
    ensures var z := WithZero(sorted);
      && TickSorted(z) && |z| > 0 && z[0].tick == 0
      && multiset(z) == multiset(sorted) +
           (if sorted == [] || sorted[0].tick != 0 then multiset{Tempo(0, DefaultUsPerQn)} else multiset{})
  {
    var z := WithZero(sorted);
    if sorted == [] || sorted[0].tick != 0 {
      SortedTempos(sorted + [Tempo(0, DefaultUsPerQn)]);
      assert Tempo(0, DefaultUsPerQn) in multiset(z);
      ZeroFirst(z);
    }
  }

  /** The tempo map is non-empty, starts at tick 0 and has strictly increasing ticks. */
  lemma BuildTempoMapShape(raw: seq<Tempo>)
    ensures var m := BuildTempoMap(raw);
      |m| > 0 && m[0].tick == 0 && StrictlyIncreasing(m)
  {
    var sorted := SortBy(raw, TempoBefore);
    SortedTempos(raw);
    WithZeroProps(sorted);
    var z := WithZero(sorted);
    CompactFromHead(z, 0);
    CompactFromIncreasing(z, 0);
  }

  /**
   * Each entry of the tempo map is a raw point, or the 120 BPM default when no
   * raw point is at tick 0.
   */
  lemma BuildTempoMapSound(raw: seq<Tempo>)
    ensures var m := BuildTempoMap(raw);
      forall x :: 0 <= x < |m| ==>
        m[x] in raw || (m[x] == Tempo(0, DefaultUsPerQn) && forall p :: p in raw ==> p.tick != 0)
  {
    var z := WithZero(SortBy(raw, TempoBefore));
    ZeroFromRaw(raw);
    CompactKeeps(z);
    var m := Compact(z);
    forall x | 0 <= x < |m|
      ensures m[x] in raw || (m[x] == Tempo(0, DefaultUsPerQn) && forall p :: p in raw ==> p.tick != 0)
    {
      assert m[x] in z;
    }
  }

  /** Every raw tick is a tick of the tempo map. */
  lemma BuildTempoMapComplete(raw: seq<Tempo>)
    ensures var m := BuildTempoMap(raw);
      forall p :: p in raw ==> exists x :: 0 <= x < |m| && m[x].tick == p.tick
  {
    var sorted := SortBy(raw, TempoBefore);
    SortedTempos(raw);
    WithZeroProps(sorted);
    var z := WithZero(sorted);
    RawInZero(raw);
    CompactCovers(z);
    forall p | p in raw
      ensures exists x :: 0 <= x < |Compact(z)| && Compact(z)[x].tick == p.tick
    {
      assert p in z;
    }
    assert BuildTempoMap(raw) == Compact(z);
  }

  /** Sorting and adding the tick-0 point lose no raw point. */
  lemma RawInZero(raw: seq<Tempo>)
    ensures forall p :: p in raw ==> p in WithZero(SortBy(raw, TempoBefore))
  {
    var sorted := SortBy(raw, TempoBefore);
    SortedTempos(raw);
    WithZeroProps(sorted);
    forall p | p in raw
      ensures p in WithZero(sorted)
    {
      assert p in multiset(sorted);
      assert p in multiset(WithZero(sorted));
    }
  }

  /** Sorting and adding the tick-0 point bring in nothing but the default, and that only when no raw point is at tick 0. */
  lemma ZeroFromRaw(raw: seq<Tempo>)
    ensures forall q :: q in WithZero(SortBy(raw, TempoBefore)) ==>
      q in raw || (q == Tempo(0, DefaultUsPerQn) && forall p :: p in raw ==> p.tick != 0)
  {
    var sorted := SortBy(raw, TempoBefore);
    SortedTempos(raw);
    WithZeroProps(sorted);
    var z := WithZero(sorted);
    forall q | q in z
      ensures q in raw || (q == Tempo(0, DefaultUsPerQn) && forall p :: p in raw ==> p.tick != 0)
    {
      assert q in multiset(z);
      if q !in raw {
        assert q !in multiset(sorted);
        NoZeroInRaw(raw, sorted);
      }
    }
  }

  /** Compaction keeps only entries of its input. */
  lemma CompactKeeps(z: seq<Tempo>)
    ensures forall x :: 0 <= x < |Compact(z)| ==> Compact(z)[x] in z
  {
    CompactFromSound(z, 0);
    var m := Compact(z);
    forall x | 0 <= x < |m|
      ensures m[x] in z
    {
      var k :| 0 <= k < |z| && LastOfRun(z, k) && m[x] == z[k];
    }
  }

  /** Compaction of a sorted list keeps every tick it held. */
  lemma CompactCovers(z: seq<Tempo>)
    requires TickSorted(z)
    ensures forall p :: p in z ==> exists x :: 0 <= x < |Compact(z)| && Compact(z)[x].tick == p.tick
  {
    var m := Compact(z);
    forall p | p in z
      ensures exists x :: 0 <= x < |m| && m[x].tick == p.tick
    {
      var k :| 0 <= k < |z| && z[k] == p;
      var e := LastOfTick(z, k);
      CompactFromKeeps(z, 0, e);
      var x :| 0 <= x < |m| && m[x] == z[e];
    }
  }

  lemma NoZeroInRaw(raw: seq<Tempo>, sorted: seq<Tempo>)
    requires sorted == SortBy(raw, TempoBefore) && TickSorted(sorted)
    requires sorted == [] || sorted[0].tick != 0
    ensures forall p :: p in raw ==> p.tick != 0
  {
    forall p | p in raw
      ensures p.tick != 0
    {
      assert p in multiset(sorted);
      ZeroFirst(sorted);
    }
  }

  /** The last entry of the run holding `k`. */
  lemma LastOfTick(s: seq<Tempo>, k: nat) returns (e: nat)
    requires k < |s| && TickSorted(s)
    ensures k <= e < |s| && LastOfRun(s, e) && s[e].tick == s[k].tick
    decreases |s| - k
  {
    if LastOfRun(s, k) {
      e := k;
    } else {
      e := LastOfTick(s, k + 1);
    }
  }

  /** midi.c:246-258: compact runs of equal ticks in place, keeping the last value. */
  method CompactInPlace(v: Vector<Tempo>)
    requires v.Valid()
    modifies v, v.data
    ensures v.Valid() && v.data == old(v.data)
    ensures v.Items() == Compact(old(v.Items()))
  {
    var w := CompactArray(v.data, v.n);
    v.n := w;
  }

  /** The compaction loop over `a[..n]`; returns the new length `w`. */
  method CompactArray(a: array<Tempo>, n: nat) returns (w: nat)
    requires n <= a.Length
    modifies a
    ensures w <= n && a[..w] == Compact(old(a[..n]))
  {
    ghost var s := a[..n];
    var i := 0;
    w := 0;
    while i < n
      invariant 0 <= w <= i <= n
      invariant a[..w] + CompactFrom(s, i) == Compact(s)
      invariant a[i..n] == s[i..]
      decreases n - i
    {
      var tick := a[i].tick;
      var j, last := ScanRun(a, n, i, s);
      ghost var done := a[..w];
      assert s[i..][0] == s[i];
      CompactWrite(s, i, j, done, tick, last);
      a[w] := Tempo(tick, last);
      assert a[..w + 1] == done + [Tempo(tick, last)];
      assert a[j..n] == s[j..];
      w, i := w + 1, j;
    }
  }

  /** Writing the run's compacted entry moves the loop on to the next run. */
  lemma CompactWrite(s: seq<Tempo>, i: nat, j: nat, done: seq<Tempo>, tick: nat, last: nat)
    requires i < |s| && j == RunEnd(s, i, i + 1) && tick == s[i].tick && last == s[j - 1].usPerQn
    ensures done + CompactFrom(s, i) == (done + [Tempo(tick, last)]) + CompactFrom(s, j)
  {
    var rest := CompactFrom(s, j);
    assert CompactFrom(s, i) == [Tempo(tick, last)] + rest;
    assert (done + [Tempo(tick, last)]) + rest == done + ([Tempo(tick, last)] + rest);
  }

  /** midi.c:248-254: the end of the run starting at `i`, and its last value. */
  method ScanRun(a: array<Tempo>, n: nat, i: nat, ghost s: seq<Tempo>) returns (j: nat, last: nat)
    requires i < n <= a.Length && |s| == n && a[i..n] == s[i..]
    ensures j == RunEnd(s, i, i + 1) && last == s[j - 1].usPerQn
  {
    j := i;
    var tick := a[i].tick;
    last := a[i].usPerQn;
    while j < n && a[j].tick == tick
      invariant i <= j <= n
      invariant forall k :: i <= k < j ==> s[k].tick == tick
      invariant last == s[if j == i then i else j - 1].usPerQn
    {
      assert a[j] == s[i..][j - i];
      last := a[j].usPerQn;
      j := j + 1;
    }
    assert a[i] == s[i..][0];
    RunEndIs(s, i, i + 1, j);
  }

  lemma RunEndIs(s: seq<Tempo>, i: nat, j: nat, e: nat)
    requires i < j <= e <= |s|
    requires forall k :: i <= k < e ==> s[k].tick == s[i].tick
    requires e == |s| || s[e].tick != s[i].tick
    ensures RunEnd(s, i, j) == e
    decreases e - j
  {
    if j < e {
      RunEndIs(s, i, j + 1, e);
    }
  }

  /** midi.c:237-258: sort, ensure a point at tick 0, compact. */
  method FinishTempoMap(v: Vector<Tempo>)
    requires v.Valid()
    modifies v, v.data
    ensures v.Valid() && v.Items() == BuildTempoMap(old(v.Items()))
  {
    v.Sort(TempoBefore);
    if v.n == 0 || v.data[0].tick != 0 {
      v.Push(Tempo(0, DefaultUsPerQn));
      v.Sort(TempoBefore);
    }
    CompactInPlace(v);
  }

  /** One linear segment: `dt` ticks at `us` microseconds per quarter note. */
  function Seg(dt: nat, us: nat, tpqn: nat): (r: real)
    requires tpqn > 0
    ensures r >= 0.0
  {
    (dt as real) * ((us as real) / 1000000.0) / (tpqn as real)
  }

  /** The segments of `tick_to_sec` from tempo point `i` on. */
  function SecFrom(tick: nat, tv: seq<Tempo>, tpqn: nat, i: nat, prev: nat, us: nat): real
    requires tpqn > 0 && 1 <= i <= |tv| && TickSorted(tv) && prev <= tick
    requires i < |tv| ==> prev <= tv[i].tick
    decreases |tv| - i
  {
    if i < |tv| && tv[i].tick <= tick then
      Seg(tv[i].tick - prev, us, tpqn) + SecFrom(tick, tv, tpqn, i + 1, tv[i].tick, tv[i].usPerQn)
    else Seg(tick - prev, us, tpqn)
  }

  /** Seconds from tick 0 to `tick` under the tempo map `tv`. */
  function SecAt(tick: nat, tv: seq<Tempo>, tpqn: nat): real
    requires tpqn > 0 && |tv| > 0 && TickSorted(tv)
  {
    SecFrom(tick, tv, tpqn, 1, 0, tv[0].usPerQn)
  }

  /** `tick_to_sec` (midi.c:122-142). */
  method TickToSec(tick: nat, tv: seq<Tempo>, tpqn: nat) returns (sec: real)
    requires tpqn > 0 && |tv| > 0 && TickSorted(tv)
    ensures sec == SecAt(tick, tv, tpqn)
  {
    sec := 0.0;
    var prev: nat := 0;
    var us: nat := tv[0].usPerQn;
    var i := 1;
    while i < |tv| && tv[i].tick <= tick
      invariant 1 <= i <= |tv| && prev <= tick
      invariant i < |tv| ==> prev <= tv[i].tick
      invariant sec + SecFrom(tick, tv, tpqn, i, prev, us) == SecAt(tick, tv, tpqn)
      decreases |tv| - i
    {
      var segEnd := tv[i].tick;
      sec := sec + Seg(segEnd - prev, us, tpqn);
      prev := segEnd;
      us := tv[i].usPerQn;
      i := i + 1;
    }
    sec := sec + Seg(tick - prev, us, tpqn);
  }

  lemma {:induction false} SecFromNonNegative(tick: nat, tv: seq<Tempo>, tpqn: nat, i: nat, prev: nat, us: nat)
    requires tpqn > 0 && 1 <= i <= |tv| && TickSorted(tv) && prev <= tick
    requires i < |tv| ==> prev <= tv[i].tick
    ensures SecFrom(tick, tv, tpqn, i, prev, us) >= 0.0
    decreases |tv| - i
  {
    if i < |tv| && tv[i].tick <= tick {
      SecFromNonNegative(tick, tv, tpqn, i + 1, tv[i].tick, tv[i].usPerQn);
    }
  }

  lemma SegMono(a: nat, b: nat, us: nat, tpqn: nat)
    requires tpqn > 0 && a <= b
    ensures Seg(a, us, tpqn) <= Seg(b, us, tpqn)
  {
    var f := (us as real) / 1000000.0;
    assert f >= 0.0;
    assert (a as real) * f <= (b as real) * f;
  }

  lemma {:induction false} SecFromMono(t1: nat, t2: nat, tv: seq<Tempo>, tpqn: nat, i: nat, prev: nat, us: nat)
    requires tpqn > 0 && 1 <= i <= |tv| && TickSorted(tv) && prev <= t1 <= t2
    requires i < |tv| ==> prev <= tv[i].tick
    ensures SecFrom(t1, tv, tpqn, i, prev, us) <= SecFrom(t2, tv, tpqn, i, prev, us)
    decreases |tv| - i
  {
    if i < |tv| && tv[i].tick <= t1 {
      SecFromMono(t1, t2, tv, tpqn, i + 1, tv[i].tick, tv[i].usPerQn);
    } else if i < |tv| && tv[i].tick <= t2 {
      SegMono(t1 - prev, tv[i].tick - prev, us, tpqn);
      SecFromNonNegative(t2, tv, tpqn, i + 1, tv[i].tick, tv[i].usPerQn);
    } else {
      SegMono(t1 - prev, t2 - prev, us, tpqn);
    }
  }

  /** `tick_to_sec` is non-decreasing in the tick. */
  lemma SecAtMonotone(t1: nat, t2: nat, tv: seq<Tempo>, tpqn: nat)
    requires tpqn > 0 && |tv| > 0 && TickSorted(tv) && t1 <= t2
    ensures SecAt(t1, tv, tpqn) <= SecAt(t2, tv, tpqn)
  {
    SecFromMono(t1, t2, tv, tpqn, 1, 0, tv[0].usPerQn);
  }

  /** Before the second tempo point, time is `tick * us0 / 1e6 / tpqn`. */
  lemma SecAtFirstSegment(tick: nat, tv: seq<Tempo>, tpqn: nat)
    requires tpqn > 0 && |tv| > 0 && TickSorted(tv)
    requires |tv| == 1 || tick < tv[1].tick
    ensures SecAt(tick, tv, tpqn) == (tick as real) * ((tv[0].usPerQn as real) / 1000000.0) / (tpqn as real)
  {
  }
}

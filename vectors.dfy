/// The growable arrays of the core (`NoteVec`, `TrackNameVec`, `TempoVec`,
/// `ChordVec` and chart.c's `TempoBPMVec`): a buffer, a length `n` and a
/// capacity `cap`, grown on a full push to twice the capacity or, from empty,
/// to a type-specific first capacity.
module Vectors {
  import opened Sorting

  class Vector<T(0)> {
    var data: array<T>
    var n: nat
    /** The capacity the first push allocates (2048 notes, 16 names, 64 tempos, ...). */
    const firstCap: nat

    ghost predicate Valid()
      reads this
    {
      n <= data.Length && firstCap > 0
    }

    function Items(): (s: seq<T>)
      reads this, data
      requires Valid()
      ensures |s| == n
    {
      data[..n]
    }

    function Capacity(): nat
      reads this
    {
      data.Length
    }

    /** A zero-initialised vector `{0}`: no buffer, no elements. */
    constructor (firstCap: nat)
      requires firstCap > 0
      ensures Valid() && Items() == [] && Capacity() == 0
      ensures this.firstCap == firstCap
      ensures fresh(data)
    {
      data := new T[0];
      n := 0;
      this.firstCap := firstCap;
    }

    /** `nv_push`, `tnv_push`, `tv_push`, `cv_push`, `tempo_bpm_vec_push`. */
    method Push(e: T)
      requires Valid()
      modifies this, data
      ensures Valid()
      ensures Items() == old(Items()) + [e]
      ensures Capacity() == if old(n) == old(Capacity()) then NextCap(old(Capacity()), firstCap) else old(Capacity())
      ensures data == old(data) || fresh(data)
    {
      ghost var before := data[..n];
      if n == data.Length {
        var nc := NextCap(data.Length, firstCap);
        var nd := new T[nc];
        var i := 0;
        while i < n
          invariant 0 <= i <= n == data.Length < nd.Length
          invariant forall k :: 0 <= k < i ==> nd[k] == data[k]
          modifies nd
        {
          nd[i] := data[i];
          i := i + 1;
        }
        assert nd[..n] == data[..n];
        data := nd;
      }
      assert data[..n] == before;
      data[n] := e;
      assert data[..n + 1] == before + [e];
      n := n + 1;
    }

    /** Push the elements of `s` one by one. */
    method Append(s: seq<T>)
      requires Valid()
      modifies this, data
      ensures Valid()
      ensures Items() == old(Items()) + s
      ensures data == old(data) || fresh(data)
    {
      var i := 0;
      while i < |s|
        invariant 0 <= i <= |s|
        invariant Valid()
        invariant Items() == old(Items()) + s[..i]
        invariant data == old(data) || fresh(data)
      {
        Push(s[i]);
        assert s[..i + 1] == s[..i] + [s[i]];
        i := i + 1;
      }
    }

    /** `qsort(v, n, sizeof *v, cmp)` on the live elements. */
    method Sort(less: (T, T) -> bool)
      requires Valid()
      modifies data
      ensures Valid()
      ensures Items() == SortBy(old(Items()), less)
    {
      var s := SortBy(data[..n], less);
      var i := 0;
      while i < n
        invariant 0 <= i <= n
        invariant forall k :: 0 <= k < i ==> data[k] == s[k]
      {
        data[i] := s[i];
        i := i + 1;
      }
      assert data[..n] == s;
    }
  }

  /** The capacity after growing: double, or the first capacity from 0. */
  function NextCap(cap: nat, firstCap: nat): (nc: nat)
    requires firstCap > 0
    ensures nc > cap
    ensures nc == if cap == 0 then firstCap else 2 * cap
  {
    if cap == 0 then firstCap else 2 * cap
  }
}

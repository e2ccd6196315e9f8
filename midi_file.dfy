/// A whole Standard MIDI File (midi.c:144-259, 261-353, 355-409, 440-454,
/// 543-576): the `MThd` header, the `MTrk` chunks, the tempo pass, the note
/// pass, the conversion of note ticks to seconds with the global tempo map,
/// and the track names. Every `exit(1)` of the C code is an `Err` here.
module MidiFile {
  import opened Wrappers
  import opened CText
  import opened Sorting
  import opened Vectors
  import opened MidiBytes
  import opened MidiTypes
  import opened MidiEvents
  import opened TempoMap

  const MThd: seq<Byte> := [0x4D, 0x54, 0x68, 0x64]
  const MTrk: seq<Byte> := [0x4D, 0x54, 0x72, 0x6B]

  /** The validated header: track count, ticks per quarter note, offset of the first chunk. */
  datatype Header = Header(ntrks: nat, tpqn: nat, firstTrack: nat)

  /**
   * How the offset `8 + hdr_len` of the first chunk is computed: `Wrapped`
   * is the `uint32_t` sum midi.c:150, 165, 264-267 and 360-362 write,
   * `Exact` is the sum without wrap-around that the length check intends.
   */
  datatype HeaderSum = Wrapped | Exact

  /** The offset of the first chunk under `sum`. */
  function FirstChunk(d: seq<Byte>, sum: HeaderSum): (r: nat)
    requires |d| >= 8
    ensures sum == Exact ==> r == 8 + BeU32(d, 4)
    ensures sum == Wrapped ==> r < 0x1_0000_0000 && r % 0x1_0000_0000 == (8 + BeU32(d, 4)) % 0x1_0000_0000
  {
    if sum == Exact then 8 + BeU32(d, 4) else (8 + BeU32(d, 4)) % 0x1_0000_0000
  }

  /**
   * midi.c:145-165. The header is rejected for a short file or a missing
   * `MThd`, a header length below 6 or past the end of the file, SMPTE time
   * division, or zero ticks per quarter note.
   */
  function ReadHeader(d: seq<Byte>): (r: Result<Header>)
    ensures r.Ok? <==>
      && |d| >= 14 && d[..4] == MThd
      && 6 <= BeU32(d, 4) && 8 + BeU32(d, 4) <= |d|
      && BeU16(d, 12) < 0x8000 && BeU16(d, 12) != 0
    ensures r.Ok? ==>
      && r.value.firstTrack == 8 + BeU32(d, 4) <= |d|
      && r.value.ntrks == BeU16(d, 10)
      && 0 < r.value.tpqn < 0x8000
  {
    if |d| < 14 || d[..4] != MThd then Err("Not a valid MIDI (missing MThd)")
    else
      var hdrLen := BeU32(d, 4);
      if hdrLen < 6 || 8 + hdrLen > |d| then Err("Invalid MThd length")
      else
        var div := BeU16(d, 12);
        if div >= 0x8000 then Err("SMPTE time division not supported.")
        else if div == 0 then Err("Invalid TPQN")
        else Ok(Header(BeU16(d, 10), div, 8 + hdrLen))
  }

  /**
   * midi.c:149-165 as written: `8 + hdr_len` is `uint32_t` arithmetic, so a
   * header length near 2^32 wraps the sum below the file length and passes.
   */
  function ReadHeaderAsWritten(d: seq<Byte>): (r: Result<Header>)
    ensures r.Ok? ==> |d| >= 14 && r.value.firstTrack == (8 + BeU32(d, 4)) % 0x1_0000_0000 <= |d|
    ensures r.Ok? ==> r.value.ntrks == BeU16(d, 10) && 0 < r.value.tpqn < 0x8000
    ensures ReadHeader(d).Ok? && |d| < 0x1_0000_0000 ==> r == ReadHeader(d)
  {
    if |d| < 14 || d[..4] != MThd then Err("Not a valid MIDI (missing MThd)")
    else
      var hdrLen := BeU32(d, 4);
      var end := (8 + hdrLen) % 0x1_0000_0000;
      if hdrLen < 6 || end > |d| then Err("Invalid MThd length")
      else
        var div := BeU16(d, 12);
        if div >= 0x8000 then Err("SMPTE time division not supported.")
        else if div == 0 then Err("Invalid TPQN")
        else Ok(Header(BeU16(d, 10), div, end))
  }

  /** A 14-byte file whose header claims 0xFFFFFFF8 bytes, no tracks, 96 ticks per quarter. */
  const WrappedHeader: seq<Byte> := MThd + [0xFF, 0xFF, 0xFF, 0xF8, 0, 0, 0, 0, 0, 96]

  /** The as-written check accepts a header that runs 4 GiB past the end of the file. */
  lemma HeaderLengthWraps()
    ensures ReadHeaderAsWritten(WrappedHeader) == Ok(Header(0, 96, 0))
    ensures 8 + BeU32(WrappedHeader, 4) > |WrappedHeader|
    ensures ReadHeader(WrappedHeader).Err?
  {
    assert WrappedHeader[..4] == MThd;
  }

  /** The header check under `sum`: the code as written, or the corrected check. */
  function HeaderOf(d: seq<Byte>, sum: HeaderSum): (r: Result<Header>)
    ensures r.Ok? ==> |d| >= 14 && r.value.firstTrack == FirstChunk(d, sum) <= |d|
    ensures r.Ok? ==> r.value.ntrks == BeU16(d, 10) && 0 < r.value.tpqn < 0x8000
  {
    if sum == Exact then ReadHeader(d) else ReadHeaderAsWritten(d)
  }

  /** The corrected check never places the first chunk outside the file or inside the header. */
  lemma HeaderBounds(d: seq<Byte>)
    requires ReadHeader(d).Ok?
    ensures 14 <= ReadHeader(d).value.firstTrack <= |d|
  {
  }

  /**
   * midi.c:167-175: the `MTrk` chunks of tracks `k..n-1` from offset `pos`.
   * A missing `MTrk` tag or a chunk running past the file is an error.
   */
  function Chunks(d: seq<Byte>, pos: nat, k: nat, n: nat): (r: Result<seq<seq<Byte>>>)
    ensures r.Ok? && k <= n ==> |r.value| == n - k
    decreases n - k
  {
    if k >= n then Ok([])
    else if pos + 8 > |d| || d[pos..pos + 4] != MTrk then Err("Missing MTrk at track " + FormatInt(k))
    else
      var len := BeU32(d, pos + 4);
      if pos + 8 + len > |d| then Err("Track bounds")
      else
        match Chunks(d, pos + 8 + len, k + 1, n)
        case Err(m) => Err(m)
        case Ok(rest) => Ok([d[pos + 8..pos + 8 + len]] + rest)
  }

  /** `done` followed by the chunks of `r`. */
  function After(done: seq<seq<Byte>>, r: Result<seq<seq<Byte>>>): Result<seq<seq<Byte>>> {
    match r
    case Err(m) => Err(m)
    case Ok(rest) => Ok(done + rest)
  }

  /** The tempo points of every track, track by track. */
  function AllTempos(ts: seq<seq<Byte>>): seq<Tempo> {
    if ts == [] then [] else AllTempos(ts[..|ts| - 1]) + TrackTempos(ts[|ts| - 1], Start)
  }

  /** The notes of every track, track `k + i` for `ts[i]`. */
  function AllNotes(ts: seq<seq<Byte>>, k: nat): seq<NoteOn> {
    if ts == [] then [] else AllNotes(ts[..|ts| - 1], k) + TrackNotes(ts[|ts| - 1], Start, k + |ts| - 1)
  }

  /** The tempo pass: the tempo map and the ticks per quarter note. */
  function TempoPass(d: seq<Byte>, sum: HeaderSum): Result<(seq<Tempo>, nat)> {
    match HeaderOf(d, sum)
    case Err(m) => Err(m)
    case Ok(h) =>
      match Chunks(d, h.firstTrack, 0, h.ntrks)
      case Err(m) => Err(m)
      case Ok(ts) => Ok((BuildTempoMap(AllTempos(ts)), h.tpqn))
  }

  /**
   * The note pass: the mapped note-ons of all tracks, sorted by (tick, lane).
   * It reads the header fields itself and checks none of them (midi.c:264-267).
   */
  function NotePass(d: seq<Byte>, sum: HeaderSum): Result<seq<NoteOn>>
    requires |d| >= 12
  {
    match Chunks(d, FirstChunk(d, sum), 0, BeU16(d, 10))
    case Err(m) => Err(m)
    case Ok(ts) => Ok(SortBy(AllNotes(ts, 0), NoteTickBefore))
  }

  /** The tempo pass accepts only files whose note pass reads the same chunks, so the note pass accepts them too. */
  lemma NotePassAccepts(d: seq<Byte>, sum: HeaderSum)
    requires TempoPass(d, sum).Ok?
    ensures |d| >= 14 && NotePass(d, sum).Ok?
    ensures 0 < TempoPass(d, sum).value.1 < 0x8000
  {
    var h := HeaderOf(d, sum).value;
    assert Chunks(d, h.firstTrack, 0, h.ntrks).Ok?;
  }

  lemma AfterNothing(r: Result<seq<seq<Byte>>>)
    ensures After([], r) == r
  {
    if r.Ok? {
      assert [] + r.value == r.value;
    }
  }

  /** A chunk inside the file: it joins what was read, and the list goes on at `next`. */
  lemma ChunksStep(d: seq<Byte>, pos: nat, k: nat, n: nat, done: seq<seq<Byte>>, t: seq<Byte>, next: nat)
    requires k < n && pos + 8 <= |d| && d[pos..pos + 4] == MTrk
    requires next == pos + 8 + BeU32(d, pos + 4) <= |d| && t == d[pos + 8..next]
    ensures After(done, Chunks(d, pos, k, n)) == After(done + [t], Chunks(d, next, k + 1, n))
  {
    match Chunks(d, next, k + 1, n)
    case Err(m) =>
    case Ok(rest) =>
      assert done + ([t] + rest) == done + [t] + rest;
  }

  /** A missing `MTrk` tag at track `k` ends the chunk list with that error. */
  lemma ChunksMissing(d: seq<Byte>, pos: nat, k: nat, n: nat, done: seq<seq<Byte>>)
    requires k < n && (pos + 8 > |d| || d[pos..pos + 4] != MTrk)
    ensures After(done, Chunks(d, pos, k, n)) == Err("Missing MTrk at track " + FormatInt(k))
  {
  }

  /** A chunk running past the file ends the chunk list with "Track bounds". */
  lemma ChunksOverrun(d: seq<Byte>, pos: nat, k: nat, n: nat, done: seq<seq<Byte>>)
    requires k < n && pos + 8 <= |d| && d[pos..pos + 4] == MTrk
    requires pos + 8 + BeU32(d, pos + 4) > |d|
    ensures After(done, Chunks(d, pos, k, n)) == Err("Track bounds")
  {
  }

  /** Once every track is read, the list is what was read. */
  lemma ChunksDone(d: seq<Byte>, pos: nat, k: nat, n: nat, done: seq<seq<Byte>>)
    requires k >= n
    ensures After(done, Chunks(d, pos, k, n)) == Ok(done)
  {
    assert done + [] == done;
  }

  lemma AllTemposAppend(ts: seq<seq<Byte>>, t: seq<Byte>)
    ensures AllTempos(ts + [t]) == AllTempos(ts) + TrackTempos(t, Start)
  {
    assert (ts + [t])[..|ts|] == ts;
  }

  lemma AllNotesAppend(ts: seq<seq<Byte>>, t: seq<Byte>)
    ensures AllNotes(ts + [t], 0) == AllNotes(ts, 0) + TrackNotes(t, Start, |ts|)
  {
    assert (ts + [t])[..|ts|] == ts;
  }

  /** midi.c:144-259 (`midi_collect_tempos`). */
  method CollectTempos(d: seq<Byte>, sum: HeaderSum) returns (r: Result<(seq<Tempo>, nat)>)
    ensures r == TempoPass(d, sum)
  {
    var hr := HeaderOf(d, sum);
    if hr.Err? {
      return Err(hr.msg);
    }
    var h := hr.value;
    var tempos := new Vector<Tempo>(64);
    var pos: nat, trk: nat := h.firstTrack, 0;
    ghost var done: seq<seq<Byte>> := [];
    AfterNothing(Chunks(d, pos, trk, h.ntrks));
    while trk < h.ntrks
      invariant trk <= h.ntrks && |done| == trk
      invariant fresh(tempos) && fresh(tempos.data) && tempos.Valid()
      invariant Chunks(d, h.firstTrack, 0, h.ntrks) == After(done, Chunks(d, pos, trk, h.ntrks))
      invariant tempos.Items() == AllTempos(done)
      decreases h.ntrks - trk
    {
      if pos + 8 > |d| || d[pos..pos + 4] != MTrk {
        ChunksMissing(d, pos, trk, h.ntrks, done);
        return Err("Missing MTrk at track " + FormatInt(trk));
      }
      var len := BeU32(d, pos + 4);
      if pos + 8 + len > |d| {
        ChunksOverrun(d, pos, trk, h.ntrks, done);
        return Err("Track bounds");
      }
      var next := pos + 8 + len;
      var t := d[pos + 8..next];
      ChunksStep(d, pos, trk, h.ntrks, done, t, next);
      WalkTrackTempos(t, tempos);
      AllTemposAppend(done, t);
      done := done + [t];
      pos, trk := next, trk + 1;
    }
    ChunksDone(d, pos, trk, h.ntrks, done);
    FinishTempoMap(tempos);
    return Ok((tempos.Items(), h.tpqn));
  }

  /**
   * midi.c:261-353 (`midi_collect_notes_ticks`). It reads the header length
   * and track count at offsets 4 and 10 without checking the header again.
   */
  method CollectNotes(d: seq<Byte>, sum: HeaderSum, notes: Vector<NoteOn>) returns (err: Option<string>)
    requires |d| >= 12
    requires notes.Valid() && notes.Items() == []
    modifies notes, notes.data
    ensures notes.Valid() && (notes.data == old(notes.data) || fresh(notes.data))
    ensures err.None? <==> NotePass(d, sum).Ok?
    ensures err.None? ==> notes.Items() == NotePass(d, sum).value
    ensures err.Some? ==> NotePass(d, sum) == Err(err.value)
  {
    err := TrackNoteLoop(d, FirstChunk(d, sum), BeU16(d, 10), notes);
    if err.None? {
      notes.Sort(NoteTickBefore);
    }
  }

  /** midi.c:268-350: the track loop of the note pass, before the sort. */
  method TrackNoteLoop(d: seq<Byte>, start: nat, n: nat, notes: Vector<NoteOn>) returns (err: Option<string>)
    requires notes.Valid() && notes.Items() == []
    modifies notes, notes.data
    ensures notes.Valid() && (notes.data == old(notes.data) || fresh(notes.data))
    ensures err.None? ==> Chunks(d, start, 0, n).Ok? && notes.Items() == AllNotes(Chunks(d, start, 0, n).value, 0)
    ensures err.Some? ==> Chunks(d, start, 0, n) == Err(err.value)
  {
    var pos: nat, trk: nat := start, 0;
    ghost var done: seq<seq<Byte>> := [];
    AfterNothing(Chunks(d, pos, trk, n));
    while trk < n
      invariant trk <= n && |done| == trk
      invariant notes.Valid() && (notes.data == old(notes.data) || fresh(notes.data))
      invariant Chunks(d, start, 0, n) == After(done, Chunks(d, pos, trk, n))
      invariant notes.Items() == AllNotes(done, 0)
      decreases n - trk
    {
      if pos + 8 > |d| || d[pos..pos + 4] != MTrk {
        ChunksMissing(d, pos, trk, n, done);
        return Some("Missing MTrk at track " + FormatInt(trk));
      }
      var len := BeU32(d, pos + 4);
      if pos + 8 + len > |d| {
        ChunksOverrun(d, pos, trk, n, done);
        return Some("Track bounds");
      }
      var next := pos + 8 + len;
      var t := d[pos + 8..next];
      ChunksStep(d, pos, trk, n, done, t, next);
      WalkTrackNotes(t, trk, notes);
      AllNotesAppend(done, t);
      done := done + [t];
      pos, trk := next, trk + 1;
    }
    ChunksDone(d, pos, trk, n, done);
    return None;
  }

  /** Every note with its time set from its tick. */
  function WithTimes(s: seq<NoteOn>, tv: seq<Tempo>, tpqn: nat): (r: seq<NoteOn>)
    requires tpqn > 0 && |tv| > 0 && TickSorted(tv)
    ensures |r| == |s|
    ensures forall i :: 0 <= i < |s| ==> r[i] == s[i].(tSec := SecAt(s[i].tick, tv, tpqn))
  {
    seq(|s|, i requires 0 <= i < |s| => s[i].(tSec := SecAt(s[i].tick, tv, tpqn)))
  }

  /** midi.c:447-450: set every note's time with `tick_to_sec`. */
  method SetTimes(notes: Vector<NoteOn>, tv: seq<Tempo>, tpqn: nat)
    requires notes.Valid() && tpqn > 0 && |tv| > 0 && TickSorted(tv)
    modifies notes.data
    ensures notes.Valid() && notes.Items() == WithTimes(old(notes.Items()), tv, tpqn)
  {
    ghost var s := notes.Items();
    var i := 0;
    while i < notes.n
      invariant 0 <= i <= notes.n && notes.Valid()
      invariant forall k :: 0 <= k < i ==> notes.data[k] == s[k].(tSec := SecAt(s[k].tick, tv, tpqn))
      invariant forall k :: i <= k < notes.n ==> notes.data[k] == s[k]
    {
      var sec := TickToSec(notes.data[i].tick, tv, tpqn);
      notes.data[i] := notes.data[i].(tSec := sec);
      i := i + 1;
    }
    assert notes.Items() == WithTimes(s, tv, tpqn);
  }

  /**
   * midi.c:364-371: the chunks the name pass looks into, tagged with their
   * track number; the first missing `MTrk` tag or overlong chunk ends the list.
   */
  function NameChunks(d: seq<Byte>, pos: nat, k: nat, n: nat): seq<(nat, seq<Byte>)>
    decreases n - k
  {
    if k >= n || pos + 8 > |d| || d[pos..pos + 4] != MTrk then []
    else
      var len := BeU32(d, pos + 4);
      if pos + 8 + len > |d| then []
      else [(k, d[pos + 8..pos + 8 + len])] + NameChunks(d, pos + 8 + len, k + 1, n)
  }

  /** The name record of track `k`, if its chunk starts with a track name. */
  function NameEntry(t: seq<Byte>, k: nat): seq<TrackName> {
    match NameFrom(t, 0)
    case Some(b) => [TrackName(k, CString(b))]
    case None => []
  }

  function Entries(cs: seq<(nat, seq<Byte>)>): seq<TrackName> {
    if cs == [] then [] else NameEntry(cs[0].1, cs[0].0) + Entries(cs[1..])
  }

  /** midi.c:355-409 (`midi_extract_track_names`): its own header test, no length check. */
  function Names(d: seq<Byte>, sum: HeaderSum): seq<TrackName> {
    if |d| < 14 || d[..4] != MThd then []
    else Entries(NameChunks(d, FirstChunk(d, sum), 0, BeU16(d, 10)))
  }

  lemma NameEntryProps(t: seq<Byte>, k: nat)
    ensures var r := NameEntry(t, k);
      |r| <= 1 && forall x :: 0 <= x < |r| ==> r[x].trackNum == k && |r[x].name| < 64
  {
  }

  /** The chunks are tagged with the track numbers `k, k + 1, ...`, all below `n`. */
  predicate Tagged(cs: seq<(nat, seq<Byte>)>, k: nat, n: nat) {
    forall x :: 0 <= x < |cs| ==> cs[x].0 == k + x < n
  }

  /** Entries keep the order and the bound of the track numbers they come from. */
  lemma {:induction false} EntriesProps(cs: seq<(nat, seq<Byte>)>, k: nat, n: nat)
    requires Tagged(cs, k, n)
    ensures var r := Entries(cs);
      && (forall x :: 0 <= x < |r| ==> k <= r[x].trackNum < n && |r[x].name| < 64)
      && (forall x, y :: 0 <= x < y < |r| ==> r[x].trackNum < r[y].trackNum)
    decreases |cs|
  {
    if cs != [] {
      var tail := cs[1..];
      assert Tagged(tail, k + 1, n) by {
        forall x | 0 <= x < |tail| ensures tail[x].0 == k + 1 + x < n {
          assert tail[x] == cs[x + 1];
        }
      }
      EntriesProps(tail, k + 1, n);
      NameEntryProps(cs[0].1, cs[0].0);
      var e := NameEntry(cs[0].1, cs[0].0);
      var r := Entries(cs);
      assert r == e + Entries(tail);
      forall x | 0 <= x < |r|
        ensures k <= r[x].trackNum < n && |r[x].name| < 64
      {
        if x >= |e| {
          assert r[x] == Entries(tail)[x - |e|];
        }
      }
      forall x, y | 0 <= x < y < |r|
        ensures r[x].trackNum < r[y].trackNum
      {
        assert y >= |e|;
        assert r[y] == Entries(tail)[y - |e|];
        if x >= |e| {
          assert r[x] == Entries(tail)[x - |e|];
        }
      }
    }
  }

  /** At most one name per track, in track order, each shorter than 64 characters. */
  lemma NamesProps(d: seq<Byte>, sum: HeaderSum)
    ensures var r := Names(d, sum);
      && (forall x :: 0 <= x < |r| ==> r[x].trackNum < BeU16(d, 10) && |r[x].name| < 64)
      && (forall x, y :: 0 <= x < y < |r| ==> r[x].trackNum < r[y].trackNum)
  {
    if |d| >= 14 && d[..4] == MThd {
      var start: nat, n: nat := FirstChunk(d, sum), BeU16(d, 10);
      var cs := NameChunks(d, start, 0, n);
      NameChunksTags(d, start, 0, n);
      EntriesProps(cs, 0, n);
      assert Names(d, sum) == Entries(cs);
    }
  }

  lemma {:induction false} NameChunksTags(d: seq<Byte>, pos: nat, k: nat, n: nat)
    ensures Tagged(NameChunks(d, pos, k, n), k, n)
    decreases n - k
  {
    var r := NameChunks(d, pos, k, n);
    if k < n && pos + 8 <= |d| && d[pos..pos + 4] == MTrk && pos + 8 + BeU32(d, pos + 4) <= |d| {
      var next := pos + 8 + BeU32(d, pos + 4);
      var t := d[pos + 8..next];
      NameChunksStep(d, pos, k, n, t, next);
      var r' := NameChunks(d, next, k + 1, n);
      NameChunksTags(d, next, k + 1, n);
      assert r == [(k, t)] + r';
      forall x | 0 <= x < |r|
        ensures r[x].0 == k + x < n
      {
        if x > 0 {
          assert r[x] == r'[x - 1];
        }
      }
    } else {
      assert r == [];
    }
  }

  /** A missing or overlong chunk ends the name pass. */
  lemma NameChunksEnd(d: seq<Byte>, pos: nat, k: nat, n: nat)
    requires k < n
    requires pos + 8 > |d| || d[pos..pos + 4] != MTrk || pos + 8 + BeU32(d, pos + 4) > |d|
    ensures NameChunks(d, pos, k, n) == []
  {
  }

  lemma AppendAssoc<T>(a: seq<T>, b: seq<T>, c: seq<T>)
    ensures a + (b + c) == (a + b) + c
  {
  }

  /** The names of the chunks from `pos`: this chunk's record, then the rest. */
  lemma NameChunksEntries(d: seq<Byte>, pos: nat, k: nat, n: nat, t: seq<Byte>, next: nat)
    requires k < n && pos + 8 <= |d| && d[pos..pos + 4] == MTrk
    requires next == pos + 8 + BeU32(d, pos + 4) <= |d| && t == d[pos + 8..next]
    ensures Entries(NameChunks(d, pos, k, n)) == NameEntry(t, k) + Entries(NameChunks(d, next, k + 1, n))
  {
    NameChunksStep(d, pos, k, n, t, next);
    EntriesCons((k, t), NameChunks(d, next, k + 1, n));
  }

  lemma NameChunksStep(d: seq<Byte>, pos: nat, k: nat, n: nat, t: seq<Byte>, next: nat)
    requires k < n && pos + 8 <= |d| && d[pos..pos + 4] == MTrk
    requires next == pos + 8 + BeU32(d, pos + 4) <= |d| && t == d[pos + 8..next]
    ensures NameChunks(d, pos, k, n) == [(k, t)] + NameChunks(d, next, k + 1, n)
  {
  }

  lemma EntriesCons(c: (nat, seq<Byte>), cs: seq<(nat, seq<Byte>)>)
    ensures Entries([c] + cs) == NameEntry(c.1, c.0) + Entries(cs)
  {
    assert ([c] + cs)[1..] == cs;
  }

  method ExtractNames(d: seq<Byte>, sum: HeaderSum) returns (names: seq<TrackName>)
    ensures names == Names(d, sum)
  {
    if |d| < 14 || d[..4] != MThd {
      return [];
    }
    names := NamesLoop(d, FirstChunk(d, sum), BeU16(d, 10));
  }

  /**
   * midi.c:366-407: one round of the name loop. `go` is false when the
   * chunk at `pos` is missing or overlong; otherwise `e` is its name record
   * and `next` the position of the following chunk.
   */
  method NameStep(d: seq<Byte>, pos: nat, trk: nat, n: nat) returns (go: bool, e: seq<TrackName>, next: nat)
    requires trk < n
    ensures !go ==> NameChunks(d, pos, trk, n) == []
    ensures go ==> Entries(NameChunks(d, pos, trk, n)) == e + Entries(NameChunks(d, next, trk + 1, n))
  {
    if pos + 8 > |d| || d[pos..pos + 4] != MTrk {
      NameChunksEnd(d, pos, trk, n);
      return false, [], pos;
    }
    var len := BeU32(d, pos + 4);
    if pos + 8 + len > |d| {
      NameChunksEnd(d, pos, trk, n);
      return false, [], pos;
    }
    next := pos + 8 + len;
    var t := d[pos + 8..next];
    var name := FindTrackName(t);
    e := if name.Some? then [TrackName(trk, CString(name.value))] else [];
    NameChunksEntries(d, pos, trk, n, t, next);
    go := true;
  }

  /** midi.c:364-408: the track loop of the name pass. */
  method NamesLoop(d: seq<Byte>, start: nat, n: nat) returns (names: seq<TrackName>)
    ensures names == Entries(NameChunks(d, start, 0, n))
  {
    var out := new Vector<TrackName>(16);
    var pos: nat, trk: nat := start, 0;
    ghost var goal := Entries(NameChunks(d, start, 0, n));
    ghost var todo := goal;
    while trk < n
      invariant trk <= n && fresh(out) && fresh(out.data) && out.Valid()
      invariant todo == Entries(NameChunks(d, pos, trk, n))
      invariant out.Items() + todo == goal
      decreases n - trk
    {
      var go, e, next := NameStep(d, pos, trk, n);
      if !go {
        break;
      }
      ghost var todo' := Entries(NameChunks(d, next, trk + 1, n));
      AppendAssoc(out.Items(), e, todo');
      out.Append(e);
      pos, trk, todo := next, trk + 1, todo';
    }
    assert todo == [];
    return out.Items();
  }

  /** `midi_parse` after the file is read: the timed notes and the track names. */
  function Parse(d: seq<Byte>, sum: HeaderSum): Result<(seq<NoteOn>, seq<TrackName>)> {
    if d == [] then Err("Invalid MIDI file")
    else
      match TempoPass(d, sum)
      case Err(m) => Err(m)
      case Ok((tv, tpqn)) =>
        BuildTempoMapShape(AllTemposOf(d, sum));
        NotePassAccepts(d, sum);
        Ok((WithTimes(NotePass(d, sum).value, tv, tpqn), Names(d, sum)))
  }

  /** The raw tempo points of an accepted file. */
  function AllTemposOf(d: seq<Byte>, sum: HeaderSum): seq<Tempo>
    requires TempoPass(d, sum).Ok?
    ensures TempoPass(d, sum).value.0 == BuildTempoMap(AllTemposOf(d, sum))
  {
    AllTempos(Chunks(d, HeaderOf(d, sum).value.firstTrack, 0, HeaderOf(d, sum).value.ntrks).value)
  }

  /** midi.c:543-576 (`midi_parse`) from the file contents on. */
  method MidiParse(d: seq<Byte>, sum: HeaderSum) returns (r: Result<(seq<NoteOn>, seq<TrackName>)>)
    ensures r == Parse(d, sum)
  {
    if |d| == 0 {
      return Err("Invalid MIDI file");
    }
    var tr := CollectTempos(d, sum);
    if tr.Err? {
      return Err(tr.msg);
    }
    var (tv, tpqn) := tr.value;
    BuildTempoMapShape(AllTemposOf(d, sum));
    StrictlyIncreasingSorted(tv);
    NotePassAccepts(d, sum);
    var notes := new Vector<NoteOn>(2048);
    var err := CollectNotes(d, sum, notes);
    // The chunks were accepted by the tempo pass, so the note pass accepts them too.
    assert err.None?;
    SetTimes(notes, tv, tpqn);
    var names := ExtractNames(d, sum);
    return Ok((notes.Items(), names));
  }

  /**
   * On a file under 4 GiB the two sums differ only where the corrected check
   * rejects the header: wherever it accepts, the whole parse is the same.
   */
  lemma SumsAgree(d: seq<Byte>)
    requires ReadHeader(d).Ok? && |d| < 0x1_0000_0000
    ensures Parse(d, Wrapped) == Parse(d, Exact)
  {
    assert FirstChunk(d, Wrapped) == FirstChunk(d, Exact);
    assert HeaderOf(d, Wrapped) == HeaderOf(d, Exact);
    assert TempoPass(d, Wrapped) == TempoPass(d, Exact);
    assert Names(d, Wrapped) == Names(d, Exact);
    if TempoPass(d, Exact).Ok? {
      assert NotePass(d, Wrapped) == NotePass(d, Exact);
    }
  }

  /**
   * The wrapped header of `WrappedHeader` declares no tracks, so the code as
   * written parses it into an empty song; the corrected check rejects it.
   */
  lemma WrappedHeaderParses()
    ensures Parse(WrappedHeader, Wrapped) == Ok(([], []))
    ensures Parse(WrappedHeader, Exact) == Err("Invalid MThd length")
  {
    HeaderLengthWraps();
    var d := WrappedHeader;
    assert FirstChunk(d, Wrapped) == 0;
    assert TempoPass(d, Wrapped).Ok?;
    assert NotePass(d, Wrapped) == Ok([]);
    assert Names(d, Wrapped) == [];
  }

  lemma StrictlyIncreasingSorted(s: seq<Tempo>)
    requires StrictlyIncreasing(s)
    ensures TickSorted(s)
  {
  }
}

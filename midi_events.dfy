/// The event loop over one `MTrk` chunk (midi.c:177-232 and 278-347): delta
/// time, then a meta event (`FF type len data`), a sysex (`F0`/`F7 len data`,
/// which clears running status), a channel message with a new status byte
/// (kept as running status), or data bytes under the running status. Meta
/// events do not clear running status. A data byte with no running status is
/// skipped. Any read past the end of the chunk ends the track.
module MidiEvents {
  import opened Wrappers
  import opened MidiBytes
  import opened MidiTypes
  import opened Vectors

  datatype Event =
    | Meta(mtype: Byte, start: nat, mlen: nat)               // payload t[start..start + mlen]
    | Sysex
    | Channel(status: Byte, d1: Byte, d2: Option<Byte>)       // no d2 for 0xCn / 0xDn
    | Orphan                                                  // data byte with no running status

  /** The cursor state of the loop: `tpos`, `running_status`, `abs_ticks`. */
  datatype Walk = Walk(tpos: nat, running: Byte, ticks: nat)

  datatype Step = End | Next(ev: Event, next: Walk)

  const Start := Walk(0, 0, 0)

  predicate OneDataByte(status: Byte) {
    var ty := status / 16 * 16;
    ty == 0xC0 || ty == 0xD0
  }

  /** One iteration of the track loop, from cursor `w` in track bytes `t`. */
  function DecodeEvent(t: seq<Byte>, w: Walk): (s: Step)
    ensures s.Next? ==> w.tpos < s.next.tpos <= |t| && w.ticks <= s.next.ticks
    ensures s.Next? && s.ev.Meta? ==> s.ev.start + s.ev.mlen == s.next.tpos
    ensures s.Next? && s.ev.Sysex? ==> s.next.running == 0
    ensures s.Next? && s.ev.Channel? ==> s.next.running == s.ev.status
    ensures s.Next? && (s.ev.Meta? || s.ev.Orphan?) ==> s.next.running == w.running
  {
    if w.tpos >= |t| then End
    else
      VlqBounds(t, w.tpos);
      var (dt, p1) := Vlq(t, w.tpos);
      var ticks := w.ticks + dt;
      if p1 >= |t| then End
      else
        var b := t[p1];
        var p2 := p1 + 1;
        if b == 0xFF then
          if p2 >= |t| then End
          else
            VlqBounds(t, p2 + 1);
            var (mlen, p3) := Vlq(t, p2 + 1);
            if p3 + mlen > |t| then End
            else Next(Meta(t[p2], p3, mlen), Walk(p3 + mlen, w.running, ticks))
        else if b == 0xF0 || b == 0xF7 then
          VlqBounds(t, p2);
          var (slen, p3) := Vlq(t, p2);
          if p3 + slen > |t| then End
          else Next(Sysex, Walk(p3 + slen, 0, ticks))
        else if b >= 0x80 then
          if p2 >= |t| then End
          else if OneDataByte(b) then Next(Channel(b, t[p2], None), Walk(p2 + 1, b, ticks))
          else if p2 + 1 >= |t| then End
          else Next(Channel(b, t[p2], Some(t[p2 + 1])), Walk(p2 + 2, b, ticks))
        else if w.running == 0 then Next(Orphan, Walk(p2, w.running, ticks))
        else if OneDataByte(w.running) then Next(Channel(w.running, b, None), Walk(p2, w.running, ticks))
        else if p2 >= |t| then End
        else Next(Channel(w.running, b, Some(t[p2])), Walk(p2 + 1, w.running, ticks))
  }

  /** A data byte under running status is read with the running status byte. */
  lemma RunningStatusReused(t: seq<Byte>, w: Walk)
    requires w.tpos < |t|
    requires var p1 := Vlq(t, w.tpos).1; p1 < |t| && t[p1] < 0x80 && w.running != 0
    ensures DecodeEvent(t, w).Next? ==> DecodeEvent(t, w).ev == Channel(w.running, t[Vlq(t, w.tpos).1], DecodeEvent(t, w).ev.d2)
  {
  }

  /** The loop body, moving the cursor as the C code does. */
  method ReadEvent(t: seq<Byte>, w: Walk) returns (s: Step)
    ensures s == DecodeEvent(t, w)
  {
    if w.tpos >= |t| {
      return End;
    }
    var dt, tpos := ReadVlq(t, w.tpos);
    var ticks := w.ticks + dt;
    if tpos >= |t| {
      return End;
    }
    var b := t[tpos];
    tpos := tpos + 1;
    if b == 0xFF {
      if tpos >= |t| {
        return End;
      }
      var mtype := t[tpos];
      tpos := tpos + 1;
      var mlen;
      mlen, tpos := ReadVlq(t, tpos);
      if tpos + mlen > |t| {
        return End;
      }
      return Next(Meta(mtype, tpos, mlen), Walk(tpos + mlen, w.running, ticks));
    }
    if b == 0xF0 || b == 0xF7 {
      var slen;
      slen, tpos := ReadVlq(t, tpos);
      if tpos + slen > |t| {
        return End;
      }
      return Next(Sysex, Walk(tpos + slen, 0, ticks));
    }
    var status, d1, running := 0, 0, w.running;
    if b >= 0x80 {
      status, running := b, b;
      if tpos >= |t| {
        return End;
      }
      d1 := t[tpos];
      tpos := tpos + 1;
    } else {
      if running == 0 {
        return Next(Orphan, Walk(tpos, running, ticks));
      }
      status, d1 := running, b;
    }
    if OneDataByte(status) {
      return Next(Channel(status, d1, None), Walk(tpos, running, ticks));
    }
    if tpos >= |t| {
      return End;
    }
    var d2 := t[tpos];
    tpos := tpos + 1;
    return Next(Channel(status, d1, Some(d2)), Walk(tpos, running, ticks));
  }

  /** A Set Tempo meta-event `FF 51 03 tttttt` becomes a tempo point at its tick. */
  function TempoOf(t: seq<Byte>, ev: Event, tick: nat): (r: seq<Tempo>)
    requires ev.Meta? ==> ev.start + ev.mlen <= |t|
    ensures |r| <= 1
    ensures |r| == 1 <==> ev.Meta? && ev.mtype == 0x51 && ev.mlen == 3
    ensures |r| == 1 ==> r[0].tick == tick && r[0].usPerQn < 0x100_0000
  {
    if ev.Meta? && ev.mtype == 0x51 && ev.mlen == 3 then
      [Tempo(tick, t[ev.start] as nat * 0x1_0000 + t[ev.start + 1] as nat * 0x100 + t[ev.start + 2])]
    else []
  }

  /** The tempo points of one track, from cursor `w` on. */
  function TrackTempos(t: seq<Byte>, w: Walk): seq<Tempo>
    decreases |t| - w.tpos
  {
    match DecodeEvent(t, w)
    case End => []
    case Next(ev, w') => TempoOf(t, ev, w'.ticks) + TrackTempos(t, w')
  }

  /**
   * A note-on (status 0x9n) with a second data byte, velocity > 0 and a mapped
   * pitch becomes a note of track `trk` at its tick; nothing else does.
   */
  function NoteOf(ev: Event, tick: nat, trk: nat): (r: seq<NoteOn>)
    ensures |r| <= 1
    ensures |r| == 1 <==>
      ev.Channel? && ev.status / 16 == 9 && ev.d2.Some? && ev.d2.value > 0 && GhMapPitch(ev.d1).Some?
    ensures |r| == 1 ==>
      && r[0].tick == tick && r[0].track == trk && r[0].pitch == ev.d1 && r[0].vel == ev.d2.value
      && Mapped(r[0])
      && r[0].tSec == 0.0 && r[0].durationSec == 0.0
  {
    if ev.Channel? && ev.status / 16 == 9 && ev.d2.Some? && ev.d2.value > 0 then
      match GhMapPitch(ev.d1)
      case Some((diff, lane)) => [NoteOn(tick, 0.0, ev.d1, lane, diff, ev.d2.value, trk, 0.0)]
      case None => []
    else []
  }

  /** The note's difficulty and lane are those its pitch maps to. */
  predicate Mapped(n: NoteOn) {
    0 <= n.diff && 0 <= n.lane && GhMapPitch(n.pitch) == Some((n.diff as nat, n.lane as nat))
  }

  function TrackNotes(t: seq<Byte>, w: Walk, trk: nat): seq<NoteOn>
    decreases |t| - w.tpos
  {
    match DecodeEvent(t, w)
    case End => []
    case Next(ev, w') => NoteOf(ev, w'.ticks, trk) + TrackNotes(t, w', trk)
  }

  /** One event of the walk: the cursor moves forward and the yield splits off. */
  lemma TrackTemposStep(t: seq<Byte>, w: Walk, s: Step)
    requires s == DecodeEvent(t, w) && s.Next?
    ensures w.tpos < s.next.tpos <= |t|
    ensures s.ev.Meta? ==> s.ev.start + s.ev.mlen <= |t|
    ensures TrackTempos(t, w) == TempoOf(t, s.ev, s.next.ticks) + TrackTempos(t, s.next)
  {
  }

  lemma TrackNotesStep(t: seq<Byte>, w: Walk, trk: nat, s: Step)
    requires s == DecodeEvent(t, w) && s.Next?
    ensures w.tpos < s.next.tpos <= |t|
    ensures TrackNotes(t, w, trk) == NoteOf(s.ev, s.next.ticks, trk) + TrackNotes(t, s.next, trk)
  {
  }

  /** The loop step of `WalkTrackTempos`: what is pushed plus what remains is what was left. */
  lemma TemposAppend(t: seq<Byte>, w: Walk, s: Step, before: seq<Tempo>)
    requires s == DecodeEvent(t, w) && s.Next?
    ensures w.tpos < s.next.tpos <= |t|
    ensures before + TrackTempos(t, w) == (before + TempoOf(t, s.ev, s.next.ticks)) + TrackTempos(t, s.next)
  {
    TrackTemposStep(t, w, s);
  }

  lemma NotesAppend(t: seq<Byte>, w: Walk, trk: nat, s: Step, before: seq<NoteOn>)
    requires s == DecodeEvent(t, w) && s.Next?
    ensures w.tpos < s.next.tpos <= |t|
    ensures before + TrackNotes(t, w, trk) == (before + NoteOf(s.ev, s.next.ticks, trk)) + TrackNotes(t, s.next, trk)
  {
    TrackNotesStep(t, w, trk, s);
  }

  /** midi.c:176-232: push every Set Tempo event of the track. */
  method WalkTrackTempos(t: seq<Byte>, out: Vector<Tempo>)
    requires out.Valid()
    modifies out, out.data
    ensures out.Valid() && out.Items() == old(out.Items()) + TrackTempos(t, Start)
    ensures out.data == old(out.data) || fresh(out.data)
  {
    var w := Start;
    while w.tpos < |t|
      invariant out.Valid() && w.tpos <= |t|
      invariant out.Items() + TrackTempos(t, w) == old(out.Items()) + TrackTempos(t, Start)
      invariant out.data == old(out.data) || fresh(out.data)
      decreases |t| - w.tpos
    {
      var s := ReadEvent(t, w);
      if s.End? {
        break;
      }
      var p := TempoOf(t, s.ev, s.next.ticks);
      TemposAppend(t, w, s, out.Items());
      out.Append(p);
      w := s.next;
    }
  }

  /** midi.c:278-347: push every mapped note-on of track `trk`. */
  method WalkTrackNotes(t: seq<Byte>, trk: nat, out: Vector<NoteOn>)
    requires out.Valid()
    modifies out, out.data
    ensures out.Valid() && out.Items() == old(out.Items()) + TrackNotes(t, Start, trk)
    ensures out.data == old(out.data) || fresh(out.data)
  {
    var w := Start;
    while w.tpos < |t|
      invariant out.Valid() && w.tpos <= |t|
      invariant out.Items() + TrackNotes(t, w, trk) == old(out.Items()) + TrackNotes(t, Start, trk)
      invariant out.data == old(out.data) || fresh(out.data)
      decreases |t| - w.tpos
    {
      var s := ReadEvent(t, w);
      if s.End? {
        break;
      }
      var p := NoteOf(s.ev, s.next.ticks, trk);
      NotesAppend(t, w, trk, s, out.Items());
      out.Append(p);
      w := s.next;
    }
  }

  /** Every note a track yields is a mapped note of that track. */
  lemma {:induction false} TrackNotesWellFormed(t: seq<Byte>, w: Walk, trk: nat)
    ensures forall n :: n in TrackNotes(t, w, trk) ==>
      n.track == trk && n.vel > 0 && Mapped(n)
    decreases |t| - w.tpos
  {
    match DecodeEvent(t, w)
    case End =>
    case Next(ev, w') => TrackNotesWellFormed(t, w', trk);
  }

  /** The look-ahead window of the name search (midi.c:376). */
  const NameWindow: nat := 512

  /**
   * midi.c:376-405: from `tpos`, skip meta events until a Sequence/Track Name
   * (`FF 03`) of 1..63 bytes; any other event, a bound, or the 512-byte
   * window ends the search.
   */
  function NameFrom(t: seq<Byte>, tpos: nat): (r: Option<seq<Byte>>)
    ensures r.Some? ==> 0 < |r.value| < 64
    decreases |t| - tpos
  {
    if tpos >= |t| || tpos >= NameWindow then None
    else
      VlqBounds(t, tpos);
      var p1 := Vlq(t, tpos).1;
      if p1 >= |t| || t[p1] != 0xFF || p1 + 1 >= |t| then None
      else
        var mtype := t[p1 + 1];
        VlqBounds(t, p1 + 2);
        var (mlen, p3) := Vlq(t, p1 + 2);
        if p3 + mlen > |t| then None
        else if mtype == 0x03 && 0 < mlen < 64 then Some(t[p3..p3 + mlen])
        else NameFrom(t, p3 + mlen)
  }

  method FindTrackName(t: seq<Byte>) returns (r: Option<seq<Byte>>)
    ensures r == NameFrom(t, 0)
  {
    var tpos := 0;
    while tpos < |t| && tpos < NameWindow
      invariant NameFrom(t, tpos) == NameFrom(t, 0)
      decreases |t| - tpos
    {
      VlqBounds(t, tpos);
      var _, p := ReadVlq(t, tpos);
      tpos := p;
      if tpos >= |t| {
        return None;
      }
      var b := t[tpos];
      tpos := tpos + 1;
      if b != 0xFF || tpos >= |t| {
        return None;
      }
      var mtype := t[tpos];
      tpos := tpos + 1;
      VlqBounds(t, tpos);
      var mlen;
      mlen, tpos := ReadVlq(t, tpos);
      if tpos + mlen > |t| {
        return None;
      }
      if mtype == 0x03 && 0 < mlen < 64 {
        return Some(t[tpos..tpos + mlen]);
      }
      tpos := tpos + mlen;
    }
    return None;
  }

  /** The C string in `char name[64]`: the bytes up to the first NUL. */
  function CString(b: seq<Byte>): (s: string)
    ensures |s| <= |b|
    ensures forall i :: 0 <= i < |s| ==> s[i] != 0 as char
  {
    if b == [] || b[0] == 0 then [] else [b[0] as char] + CString(b[1..])
  }
}

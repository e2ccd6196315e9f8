/// The records shared by the MIDI reader, the chart parser, the chord builder
/// and the game (midi.h, with the duration fields chart.c and main.c use).
module MidiTypes {
  /** One note-on: absolute tick, time in seconds, pitch, lane 0..4, difficulty 0..3, velocity, track. */
  datatype NoteOn = NoteOn(
    tick: nat,
    tSec: real,
    pitch: int,
    lane: int,
    diff: int,
    vel: int,
    track: int,
    durationSec: real)

  /** One entry of the tempo map: from `tick` on, a quarter note lasts `usPerQn` microseconds. */
  datatype Tempo = Tempo(tick: nat, usPerQn: nat)

  /** A chord to play: time, lane mask (bit i for lane i), hammer-on/pull-off flag, sustain. */
  datatype Chord = Chord(tSec: real, mask: bv8, isHopo: bool, durationSec: real)

  /** A Sequence/Track Name meta-event found at the start of a track. */
  datatype TrackName = TrackName(trackNum: nat, name: string)

  /** `cmp_tempo < 0`: earlier tick. */
  predicate TempoBefore(a: Tempo, b: Tempo) {
    a.tick < b.tick
  }

  /** `cmp_note_tick < 0`: earlier tick, then lower lane. */
  predicate NoteTickBefore(a: NoteOn, b: NoteOn) {
    a.tick < b.tick || (a.tick == b.tick && a.lane < b.lane)
  }

  /** `cmp_note_time < 0`: earlier time, then lower lane. */
  predicate NoteTimeBefore(a: NoteOn, b: NoteOn) {
    a.tSec < b.tSec || (a.tSec == b.tSec && a.lane < b.lane)
  }
}

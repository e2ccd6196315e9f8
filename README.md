# Guitar-Hero-Terminal: a verified model of the game core

Guitar-Hero-Terminal is a rhythm game that runs in a terminal. It reads a song's notes, one of:
- a Standard MIDI File (`notes.mid`);
- a Clone Hero `.chart` text file.

It plays the song's Opus stems through SDL audio, draws falling notes as ANSI text, and judges the player's fret presses and strums against the chart.

This project models the deterministic core of the game in Dafny and proves properties of that model:

- **The MIDI reader** (`midi_bytes.dfy`, `midi_events.dfy`, `midi_file.dfy`, `tempo_map.dfy`). It covers:
  - big-endian fields and variable-length quantities;
  - the event loop with running status;
  - the `MThd`/`MTrk` checks and every error exit;
  - the tempo map (sort, default 120 BPM point, in-place compaction);
  - `tick_to_sec`, the note pass and the track-name pass.

  The byte fields and chunk layout follow Standard MIDI Files 1.0 (MIDI Manufacturers Association), including its Set Tempo (`FF 51 03`) and Sequence/Track Name (`FF 03`) meta-events.
- **The chord builder** (`chords.dfy`). `build_chords` filters notes by difficulty and track, groups them into chords by time and marks hammer-ons/pull-offs.
- **The `.chart` parser** (`chart.dfy`). It covers sections, resolution and offset, BPM changes, notes and forced notes, and the conversion into timed MIDI-style notes.
- **The audio engine** (`audio.dfy`). It covers the `audio_cb` mixing step, the audio clock, stem names and the decoded-frame post-processing of `load_opus_file`.
- **The renderer's state and arithmetic** (`terminal.dfy`). It covers the 32-slot effects table with its upsert and in-place compaction, key labels, lane colours, the streak bar and the row of a falling note.
- **The settings files** (`settings.dfy`). It covers the key bindings and global offset in `~/.midifall_settings`, and the `offset=` line in a song's `song.ini`.
- **The game loop** (`judge.dfy`, `game.dfy`, `game_setup.dfy`). It covers:
  - the judging rules for strums, hammer-on presses, fret releases, focus loss, the miss sweep, the end of the song and the look-back cursor;
  - track switching, restart and the guitar stem's target volume;
  - the pause and options menus;
  - the helpers that pick the difficulty, the track, the stem gains and the `song.ini` values.

Shared pieces are in separate files:
- `midi_types.dfy`: the records.
- `vectors.dfy`: the growable vectors, as a class over an array.
- `sorting.dfy`: `qsort` modelled as a sort that yields a permutation.
- `ctext.dfy`: the C text routines (`isspace`, `%d`, `fgets` with a fixed buffer).
- `wrappers.dfy`: `Option` and `Result`.

Where the C code changes state step by step, the model does too. A class holds the fields and a method with loop invariants updates them. Each such method is proved equal to a function that specifies it, and the properties are then proved of that function. Examples:
- the `Vector` pushes;
- the tempo compaction over an array;
- the effects table;
- the `Settings` struct;
- the `Game` loop state.

Times, gains and samples are Dafny `real`s. Each `exit(1)` of the C code becomes an `Err` result.

Points where the code's behaviour is easy to misread:
- **Mixer.** In `audio_cb` a stem's position advances only when the stem is enabled, has samples and has not ended (audio.c:31-48); the stems do not all advance in lockstep.
- **Guitar volume.** There is no count of consecutive misses. The code keeps a ring of the last five results: main.c:1176 redefines `PERF_WINDOW` to 5, and `update_guitar_volume` (main.c:1190-1212) reads that ring.
- **Running status.** A sysex event clears running status (midi.c:206); a meta event does not (midi.c:188-200).
- **HOPO velocity.** Forced chart notes get velocity 96 (chart.c:257). That makes them eligible as hammer-ons in `build_chords` (midi.c:512). The model keeps this behaviour.
- **Duration fields.** `NoteOn.duration_sec` and `Chord.duration_sec` are read and written by chart.c:259 and main.c:1657 but are missing from midi.h:7-15 and midi.h:32-36. The model gives both records the field. `build_chords` leaves it 0.
- **Header length.** midi.c:150 adds `8 + hdr_len` in 32-bit arithmetic, which wraps (see Findings). Every MIDI pass (`TempoPass`, `NotePass`, `Names`, `Parse` and the methods that compute them) takes a `HeaderSum`: `Wrapped` is the code as written, `Exact` the corrected check. `MidiFile.SumsAgree` shows the two differ only on headers the corrected check rejects.

## Model

| member | source | states |
|---|---|---|
| Audio.Clamp1 | audio.c:11-15 | the sample is clamped to [-1, 1]: unchanged inside, -1 below, 1 above |
| Audio.StepGain | audio.c:37-43 | the statement form of the gain step computes the same gain as the `Approach` function |
| Audio.ApproachProps | audio.c:36-43 | the gain step moves toward the target without overshooting it, by at most 0.1, and leaves a gap of the old gap less 0.1, or none |
| Audio.NextStems | audio.c:29-49 | one frame keeps the number of stems |
| Audio.NextStemsOk | audio.c:31-48 | a frame keeps every stem's position within its frames |
| Audio.AfterOk | audio.c:27-53 | any number of frames keeps every stem's position within its frames |
| Audio.NextStemsEffect | audio.c:31-48 | one frame moves only an enabled stem with samples and frames left, by one frame and one gain step; no other field changes |
| Audio.AfterPos | audio.c:27-53 | after `f` frames an enabled stem with samples sits at `min(pos + f, frames)`, any other stem has not moved, and nothing but position and gain changes |
| Audio.AfterGain | audio.c:36-43 | after `f` frames the gap between gain and target has shrunk by 0.1 for each frame the stem played, never below zero |
| Audio.Output | audio.c:50-51 | `f` frames give `2 * f` interleaved samples |
| Audio.OutputBounded | audio.c:11-53 | every output sample lies in [-1, 1] |
| Audio.ZeroFill | audio.c:22-24 | the silent callback leaves every sample of the stream zero |
| Audio.AudioEngine.constructor | audio.c:162-187 | a new engine is zeroed, stereo, has no stems, and takes its rate and buffer size from the device |
| Audio.AudioEngine.MixFrame | audio.c:28-49 | the stems become `NextStems` of the old ones; the left and right sums are those of the old stems |
| Audio.AudioEngine.MixInto | audio.c:28-52 | one frame appends its clamped pair at frame `f` and leaves the rest of the buffer as it was |
| Audio.AudioEngine.MixFrames | audio.c:27-53 | `frames` frames leave the stems as `After` and the buffer's prefix as `Output` of the old stems; the rest of the buffer is untouched |
| Audio.AudioEngine.Callback | audio.c:17-54 | stopped: the whole stream is zeroed and nothing else changes; started: `len / (4 * channels)` frames are mixed, written and counted in the clock |
| Audio.AudioEngine.Restart | main.c:1154-1157 | every stem is rewound with nothing else changed, the clock is zeroed and the engine is started |
| Audio.Compensated | audio.c:57-59 | the frames played less two device buffers, or zero when fewer were played |
| Audio.AudioTimeSec | audio.c:56-61 | the clock is never negative |
| Audio.AudioTimeProps | audio.c:56-61 | the clock reads zero until two buffers have played, and never runs backward as frames are played |
| Audio.AudioTimeStep | audio.c:56-61 | past the latency, one more frame advances the clock by exactly one sample period |
| Audio.LastIndex | audio.c:64-67 | `strrchr`: the index of a `c` with no `c` after it, and none exactly when there is no `c` |
| Audio.BaseName | audio.c:64-65 | the base name has no `/` and is a suffix of the path |
| Audio.StemName | audio.c:63-72 | the stem name has at most 20 characters, no `/`, and is a prefix of the base name |
| Audio.StemNameOfFile | audio.c:63-72 | the name of `dir/stem.ext` (short stem, no dot in the extension) is `stem` |
| Audio.StemNamePlain | audio.c:63-72 | a name without `/` or `.` of at most 20 characters is kept whole |
| Audio.Interleave | audio.c:135-145 | `n` frames give `2 * n` interleaved samples |
| Audio.InterleaveAt | audio.c:136-144 | frame `i` takes left from channel 0 and right from channel 1, or both from the one channel of a mono read |
| Audio.FrameInRead | audio.c:135-142 | every frame index before the count of a read lies inside the floats it wrote |
| Audio.DoubleUntilProps | audio.c:124-125 | doubling stops at a capacity that holds `need`, never shrinks, and is less than twice `need` when it doubled |
| Audio.GrownCapProps | audio.c:122-125 | the grown capacity holds `need` and is never below the old one |
| Audio.GrowCap | audio.c:122-125 | the loop computes `GrownCap` |
| Audio.Realloc | audio.c:126-132 | the new buffer is fresh, has the size asked for, and starts with the first `keep` floats of the old one |
| Audio.PickFrame | audio.c:136-142 | the pair picked for frame `i` is that frame of the interleaved read |
| Audio.CopyFrames | audio.c:135-146 | the buffer grows by the read's interleaved frames and keeps what came before |
| Audio.DecodeEven | audio.c:112-147 | decoding only appends whole stereo frames to what was decoded before |
| Audio.DecodeStep | audio.c:114-146 | a read of `got > 0` frames continues the decoding from the next read |
| Audio.DecodeFail | audio.c:117-120 | a negative read ends decoding with the decode-error message |
| Audio.DecodeEnd | audio.c:115-116 | a read of zero frames ends decoding with what was read so far |
| Audio.DecodeChunks | audio.c:104-147 | the loop returns the decoded buffer exactly when the functional decoder succeeds, and its error otherwise |
| Audio.LoadedStemProps | audio.c:74-160 | a loaded stem is rewound, at full gain, enabled, named from its path, with a buffer of two floats per frame; loading needs an opened file with a head and 1 to 8 channels |
| Audio.LoadedOk | audio.c:149-159 | a successful decoding gives the stem with the decoded samples at position 0, gain 1 and enabled |
| Audio.LoadedFail | audio.c:76-120 | a failure to open, a missing head, a bad channel count or a decode error gives its message |
| Audio.LoadOpusFile | audio.c:74-160 | the loader computes `LoadedStem` of the path and the decoder's data |
| Chart.TrailEnd | chart.c:95-96 | the end after dropping trailing white space: everything past it is white space and the character before it is not |
| Chart.Trimmed | chart.c:86-100 | the result is a slice of the text that drops only white space, neither starts nor ends with white space, and is empty exactly when the text is all white space |
| Chart.Trim | chart.c:86-100 | the pointer walk of `trim` computes `Trimmed` |
| Chart.TrimIdempotent | chart.c:86-100 | trimming twice is trimming once |
| Chart.Prefix | chart.c:139-140 | `strncpy` plus terminator: a prefix of the source of at most `n` characters, the whole source when it fits |
| Chart.HeaderName | chart.c:135-143 | a `[` line names a section exactly when it has a `]` |
| Chart.SectionDiff | chart.c:183-192 | a guitar section has a difficulty in 0..3 |
| Chart.UsPerQnOfBpm | chart.c:172-177 | the converted tempo always lies in the `int` range |
| Chart.BpmTempo | chart.c:173-177 | a rate from 28 to 60000000000 thousandths gives the positive tempo 60000000000 / n |
| Chart.BpmDefault | chart.c:173-177 | 120000 thousandths (120 beats per minute) is 500000 microseconds per quarter note; the same default as chart.c:51 |
| Chart.MarkForced | chart.c:218-225 | the notes recorded at that tick and difficulty become forced; every other note is kept as it was |
| Chart.MarkForcedInPlace | chart.c:220-224 | the loop over the recorded notes leaves them as `MarkForced` of the old ones |
| Chart.TickToSec | chart.c:49-83 | the loop computes `ChartSec` of the tick, the tempo list and the resolution |
| Chart.SecFromNonNegative | chart.c:55-82 | with ordered tempos the time of a non-negative tick is not negative |
| Chart.SecFromMono | chart.c:55-82 | the accumulated time never decreases as the tick grows |
| Chart.ChartSecMonotone | chart.c:49-83 | with ordered tempos `tick_to_sec` never goes back in time |
| Chart.ChartSecFirstSegment | chart.c:55-66 | before the second tempo change a tick runs at the first tempo from tick 0 |
| Chart.U64Tick | chart.c:252 | `(uint64_t)tick` is below 2^64 and keeps a tick already in range |
| Chart.ToNotes | chart.c:235-262 | one output note per recorded note, each `ToNoteOn` of it, in order |
| Chart.ChartNotesPitch | chart.c:246-258 | each output note maps back through `gh_map_pitch` to its difficulty and lane, is on track 0, and has velocity 96 exactly when forced, 100 otherwise |
| Chart.ChartNotesMapped | chart.c:235-262 | every output note of a file maps back to the difficulty and lane it was written under |
| Chart.SustainNonNegative | chart.c:238-241 | with ordered tempos, a note of non-negative length has a non-negative duration in seconds |
| Chart.RunWellFormed | chart.c:158-160 | after any file the resolution is positive; with the default of chart.c:111 |
| Chart.ResolutionValue | chart.c:152-160 | the value of a line that reads as a `Resolution = value` pair, `atoi` of the trimmed text after the first `=` |
| Chart.StepResolution | chart.c:129-229 | one line changes the resolution only when it is a `Resolution` pair in `[Song]`, and then sets it to its value when positive and to 192 otherwise |
| Chart.RunToResolution | chart.c:111-229 | after any number of lines the resolution is 192 when no `Resolution` pair was met in `[Song]`, otherwise what the last such pair gave |
| Chart.RunResolution | chart.c:102-230 | the resolution of a file is the last positive `Resolution` of `[Song]`, and 192 when that value is not positive or when there is no such line |
| Chart.HeaderLine | chart.c:135-143 | a header line sets the section to the text up to the first `]`, cut to 63 characters, and nothing else; without `]` nothing changes |
| Chart.ResolutionLine | chart.c:158-160 | a `Resolution` of zero or below leaves 192; tempos and notes are untouched |
| Chart.NoteLineEffect | chart.c:194-227 | an `N` line on lanes 0..4 appends an unforced note of the section's difficulty; `N 5 0` marks the notes at that tick; anything else changes nothing |
| Chart.HandlePair | chart.c:152-229 | one `key = value` line leaves the parse state as `PairLine` says |
| Chart.HandleLine | chart.c:129-229 | one line leaves the parse state as `Step` says |
| Chart.ParseLines | chart.c:128-230 | the line loop leaves the parse state of `RunTo` over all lines |
| Chart.PushNotes | chart.c:235-262 | the recorded notes are appended as `NoteOn`s, in order, after the notes already there |
| Chart.ChartParse | chart.c:102-291 | an unopenable file gives -1 and changes nothing; otherwise 0, the file's notes appended in order, and "PART GUITAR" on track 0 appended to the names when they are given |
| Chart.Step | chart.c:129-229 | one line of `chart_parse`: comments, blank lines and braces skipped, a header sets the section, a `key = value` line goes to its section's handler |
| Chart.PairLine | chart.c:156-229 | a `key = value` line is handled by the `Song`, `SyncTrack` or difficulty section it is in, and ignored in any other |
| Chart.ChartSec | chart.c:49-83 | `tick_to_sec` of the chart: 120 beats per minute without tempos, otherwise the first tempo from tick 0 and each later one from its tick |
| Chart.ToNoteOn | chart.c:235-260 | the output note of a chart note: its tick, its time plus the offset, pitch `60 + 12 * diff + lane`, velocity 96 when forced and 100 otherwise, track 0, and the time to its end tick as duration |
| Chart.BpmArg | chart.c:173 | `atoi(value + 2)`, the number after `B ` |
| Chords.Abs | midi.c:494 | `fabs`: the magnitude, non-negative and equal to `x` or `-x` |
| Chords.SelectCount | midi.c:474-477 | every note of the right difficulty and track is kept as often as it occurs; no other note is kept |
| Chords.SelectMember | midi.c:474-477 | a note is selected exactly when it is one of the notes and has the difficulty and track (any track for -1) |
| Chords.SelectEmpty | midi.c:478-481 | nothing is selected exactly when no note has the difficulty and track |
| Chords.MinVelIsMin | midi.c:488-498 | the running lowest velocity is the minimum of 127 and the chord's velocities |
| Chords.GroupEnd | midi.c:494 | the end of the open chord lies between `i` and the end of the notes |
| Chords.GroupEndProps | midi.c:494 | every note before the end is within 1.5 ms of the chord's first note, and the note at the end is not |
| Chords.GroupEndIs | midi.c:494 | the end of the chord is the only index with those properties |
| Chords.GroupsNonEmpty | midi.c:493-526 | no chord is empty, and there is no chord exactly when there is no note |
| Chords.ChordsFrom | midi.c:493-538 | one chord per group |
| Chords.ChordsFromAt | midi.c:500-524 | chord `k` is built from group `k` with group `k - 1` (or the chord before the call) as the previous one, and `n + k` chords already in the output |
| Chords.GroupsPartition | midi.c:493-526 | the chords' notes, concatenated, give back the sorted notes |
| Chords.GroupsWithinEps | midi.c:484-494 | every note of a chord is within 1.5 ms of the chord's first note |
| Chords.GroupsSeparated | midi.c:484-494 | on time-sorted notes each chord starts more than 1.5 ms after the previous one |
| Chords.NoteTimeOrder | midi.c:455-463 | `cmp_note_time` (time, then lane) is a strict weak order |
| Chords.SortedIsTimeSorted | midi.c:482 | notes sorted by `cmp_note_time` are in time order |
| Chords.MaskBits | midi.c:495-523 | bit `l` of a chord mask is set exactly when one of the chord's notes is in lane `l` |
| Chords.MaskRange | midi.c:495-523 | with lanes 0..4 a chord mask is below 32, and not zero for a chord with notes |
| Chords.ChordNoteSelected | midi.c:474-526 | every note of every chord is one of the notes, with the difficulty and track asked for |
| Chords.ChordsProps | midi.c:465-541 | no chord exactly when no note is selected; the first chord written to an empty output is not a HOPO; a HOPO always differs in frets from the chord before; every chord starts at the time of a selected note |
| Chords.SortedTimeSorted | midi.c:482 | the notes `build_chords` groups are in time order |
| Chords.ChordsSeparated | midi.c:484-538 | consecutive chords of one call are more than 1.5 ms apart, in time order |
| Chords.ChordMasks | midi.c:495-523 | with every selected note in lanes 0..4, every chord mask is non-zero and below 32 |
| Chords.ChordMaskLanes | midi.c:495-523 | bit `l` of a chord's mask is set exactly when one of its notes is in lane `l` |
| Chords.SliceSnoc | midi.c:495-498 | adding a note to the open chord ORs in its lane bit and lowers the velocity to it when it is lower |
| Chords.JoinStep | midi.c:494-498 | a note within 1.5 ms joins the open chord and keeps the loop's invariant |
| Chords.CloseStep | midi.c:499-517 | at a note farther than 1.5 ms the open chord is complete: it is the next group, and the chord emitted is its chord |
| Chords.OpenStep | midi.c:519-524 | after an emit the note opens the next chord and the chord just closed becomes the previous one |
| Chords.EndCase | midi.c:528-538 | at the end of the notes the final emit gives the chord of the last group |
| Chords.EmitCase | midi.c:499-525 | an emit gives the open group's chord, then the chords of the groups from the note on |
| Chords.EmitTail | midi.c:519-524 | after an emit the loop goes on from the group the note opens, with the closed chord as the previous one |
| Chords.RestStep | midi.c:494-525 | one turn of the loop either puts the note into the open chord or emits the open chord first |
| Chords.RestChords | midi.c:493-538 | from any loop state, the rest of the loop and the final emit give the chords of the groups from the open one on |
| Chords.GroupLoop | midi.c:493-526 | the loop appends chords to `out`, keeps what was there, and with what is left to emit they give the chords the whole loop would emit |
| Chords.EmitChords | midi.c:484-538 | the second loop and the final emit append the chords of the groups of the sorted notes |
| Chords.SelectNotes | midi.c:468-477 | the fresh buffer holds the selected notes in their order |
| Chords.BuildChords | midi.c:465-541 | `build_chords` appends to `out` exactly `Chords` of the notes, difficulty, track and HOPO threshold |
| Chords.Chords | midi.c:465-541 | what `build_chords` appends: the selected notes sorted by time and lane, grouped within 1.5 ms, one chord per group with the HOPO rule against the previous chord |
| CText.SkipSpaces | chart.c:90 | the first index from `i` on that is not white space; everything skipped is white space |
| CText.DigitsEnd | settings.c:43 | the first index from `i` on that is not a decimal digit; everything before it from `i` is a digit |
| CText.ScanIntAt | settings.c:43-54 | a `%d` match ends after at least one character, on a digit, and not in front of another digit |
| CText.NatDigits | settings.c:74-79 | the decimal digits of a number, at least one and all digits |
| CText.DecValueOfDigits | settings.c:74-79 | the value of the digits written for `n` is `n` |
| CText.ScanFormatInt | settings.c:43-79 | scanning with `%d` what `%d` wrote gives the number back, when no digit follows it |
| CText.AtoiFormatInt | settings.c:74-79 | `atoi` reads back what `%d` wrote |
| CText.ChunkLen | settings.c:39 | one `fgets` call takes at least one character of a non-empty rest, at most `size - 1`, and stops after the first newline; as in the loops at settings.c:94 and 117 |
| CText.Lines | settings.c:39 | each buffer a `fgets` loop reads holds between 1 and `size - 1` characters; as in the loops at settings.c:94 and 117 |
| CText.LinesConcat | settings.c:39 | the buffers `fgets` reads, concatenated, give back the whole file; as in the loops at settings.c:94 and 117 |
| CText.LinesOfShortLines | settings.c:39 | a file of newline-terminated lines that fit the buffer, with an optional unterminated last line, is read back one line per call; as in the loops at settings.c:94 and 117 |
| CText.LinesOfLine | settings.c:39 | a line that fits the buffer and ends in a newline is read by one call; as in the loops at settings.c:94 and 117 |
| CText.LinesOfLast | settings.c:39 | an unterminated last line that fits the buffer is read by one call; as in the loops at settings.c:94 and 117 |
| CText.Find | chart.c:136-149 | `strchr` as an index: no `c` before the index, and a `c` at it unless it is the end of the text; the same search as main.c:136-143 |
| Game.Begin | main.c:1153-1183 | the state at `start_game` is valid, in play with no menu open, and the audio started |
| Game.FretBits | main.c:1406-1417 | the fret bits of a key: bit `l` of lanes 0..4 is set exactly when lane `l` is bound to the key; bits 5..7 are never set; the same mapping as the release at main.c:1631-1640 |
| Game.Rebind | main.c:1238-1245 | the option at `sel` is bound to the new key, every other binding and the global offset are kept |
| Game.TrackTarget | main.c:1485-1507 | a track key asks only for a track other than the current one: every track (-1) for '0', or the number 1..9 of the key, not above the highest track |
| Game.SwitchedProps | main.c:1487-1523 | a track switch keeps the state valid; an empty rebuild changes nothing; a non-empty one selects the track, takes its chords and resets cursor and statistics |
| Game.MenuKeyProps | main.c:1231-1378 | a key in a menu keeps the state valid, and only Restart touches the judging state |
| Game.GameKeyValid | main.c:1380-1627 | a key in play keeps the state valid |
| Game.OffsetKeys | main.c:1392-1404 | the in-game offset keys move the song offset by 10 ms, keep the total offset in step and ask for the song offset to be saved |
| Game.GameKeyPlay | main.c:1406-1627 | every key but 'q', Escape and the offset keys is a play key at the song time |
| Game.FrameProps | main.c:1644-1693 | a frame keeps the state valid; the song ends only once every chord is judged; with a menu open only the feedback timer runs; the view never starts after the cursor |
| Game.Game.constructor | main.c:1153-1183 | the new game holds the state at `start_game` |
| Game.Game.MenuKeyDown | main.c:1231-1378 | a key in a menu leaves the state and outcome `MenuKey` gives |
| Game.Game.MenuFieldsKeyDown | main.c:1233-1378 | every menu key but Return in the pause menu leaves the state and outcome `MenuKey` gives, without touching the judging state |
| Game.Game.PauseChoice | main.c:1283-1345 | Return in the pause menu leaves the state and outcome `PauseEnter` gives: resume, restart, options, song list or exit |
| Game.Game.Rebuild | main.c:1488-1509 | the chords built for a track are `Chords` of the song's notes for that track |
| Game.Game.SwitchTrack | main.c:1488-1522 | a rebuild is taken only when it is not empty, as `Switched` says |
| Game.Game.TrackKeysDown | main.c:1485-1524 | the track keys leave the state `TrackKeys` gives |
| Game.Game.GameKeyDown | main.c:1380-1627 | a key in play leaves the state and outcome `GameKey` gives |
| Game.Game.PlayKeyDown | main.c:1406-1627 | a fret, track or strum key leaves the state `PlayKey` gives at song time `t` |
| Game.Game.PressKeyDown | main.c:1406-1524 | the fret press, its HOPO check and then the track keys leave the state `TrackKeys` of `Pressed` gives |
| Game.Game.KeyPressed | main.c:1228-1627 | a key press leaves the state and outcome `KeyDown` gives |
| Game.Game.KeyReleased | main.c:1629-1641 | a key release leaves the state `KeyUp` gives |
| Game.Game.FocusLost | main.c:1222-1226 | losing the focus releases every fret and changes nothing else |
| Game.Game.EndFrame | main.c:1644-1693 | the end test, the look-back, the miss sweep and the feedback timer leave the state, end flag and view cursor `Frame` gives |
| Game.Switched | main.c:1488-1522 | a track switch keeps the state valid and the held frets; either the chords stay or the cursor is 0; the statistics stay or are zeroed; only the judging state and the selected track change, and a changed selection is the track asked for with the cursor at 0 |
| Game.TrackKeys | main.c:1485-1524 | the track keys change only the judging state and the selected track; the held frets stay; the statistics stay or are zeroed; a key other than '0'..'9' changes nothing |
| Game.MenuKey | main.c:1231-1378 | a key in a menu never quits, keeps the song offset and the selected track, and touches the judging state only when it restarts; it asks to save the settings exactly after a rebind (any key but Escape while waiting for one) or on Return at Back in the options menu, and then no rebind is pending |
| Game.PauseEnter | main.c:1283-1336 | Return in the pause menu restarts exactly on entry 1, goes to the song list exactly on entry 3, exits exactly on entry 4, otherwise continues, keeps the judging state otherwise, keeps settings and offsets, and closes the menu and starts the audio exactly for Resume and Restart |
| Game.GameKey | main.c:1380-1627 | a key in play quits exactly for 'q', keeps the settings, and changes the song offset only when it asks for the offset to be saved, keeping the total offset the sum of the global and song offsets |
| Game.PlayKey | main.c:1406-1627 | a fret, track or strum key changes only the judging state and the selected track, keeps the state valid, and after a track switch leaves the cursor at most one chord into the new chords |
| Game.KeyDown | main.c:1226-1628 | a key press quits exactly for 'q' with no menu open; Escape in play opens the pause menu at its first entry and stops the audio |
| Game.KeyUp | main.c:1629-1641 | a key release changes only the held mask, letting go exactly of the lanes bound to that key |
| Game.Frame | main.c:1644-1693 | a frame keeps the state valid, never puts the view after the cursor, changes nothing when the song has ended, leaves statistics and cursor alone while a menu is open, and changes only the judging state, never its chords or held frets |
| GameSetup.ParseDiff | main.c:682-689 | the difficulty named lies in -1..3 |
| GameSetup.ParseDiffName | main.c:684-687 | each of "easy", "medium", "hard" and "expert" reads back as its difficulty |
| GameSetup.ParseDiffOther | main.c:682-689 | -1 exactly for the null pointer and every other string; a recognised string is the name of its difficulty |
| GameSetup.BestDiff | main.c:691-697 | the result is at least -1, no note has a higher difficulty, and it is -1 or the difficulty of some note |
| GameSetup.MaxTrack | main.c:699-706 | the result is at least 0, no note has a higher track, and it is 0 or the track of some note |
| GameSetup.GainFor | main.c:708-714 | the gain of the first entry with the stem's name, 1.0 when none has it |
| GameSetup.Muted | main.c:716-722 | a stem is muted exactly when its name is one of the muted names |
| GameSetup.SkipBlanks | main.c:133 | the rest of the line after its leading spaces and tabs; it does not start with one; the same skip as main.c:217 |
| GameSetup.Field | main.c:138-145 | a copied field fits its buffer, is a prefix of the text and holds no newline |
| GameSetup.HopoValues | main.c:215-229 | one value per line of the file, each what that line holds for `hopo_frequency` |
| GameSetup.HopoPositive | main.c:212-232 | the threshold is always positive, and 170 when no line holds a value |
| GameSetup.HopoFirst | main.c:219-227 | the first line holding a `hopo_frequency` value decides the threshold: its value when positive, else 170 |
| GameSetup.ParseHopoFromIni | main.c:207-233 | the loop's result is `Hopo` of the file, and positive |
| GameSetup.FindSub | main.c:157 | `strstr`: the first index from `i` where the pattern occurs, none exactly when it does not occur |
| GameSetup.TrimBlanksRight | main.c:160-164 | a prefix without a blank at its end |
| GameSetup.StripTag | main.c:156-165 | the stripped artist is a prefix of the artist |
| GameSetup.StripTagProps | main.c:156-165 | the stripped artist holds no `(WaveGroup)`, has no blank end when a tag was cut off, and is the artist itself when it held no tag |
| GameSetup.LineAction | main.c:130-196 | a line sets a text field only to a value that fits that field's buffer and has no newline |
| GameSetup.SetFrom | main.c:136-145 | a text field is set only from the text after `=`, fitted to the field and without a newline |
| GameSetup.TextValue | main.c:138-165 | the text kept fits the field's buffer and holds no newline |
| GameSetup.Actions | main.c:130-196 | one action per line of the file, each `LineAction` of that line |
| GameSetup.Apply | main.c:135-195 | a line sets at most one text field, or the difficulty, and leaves the other outputs as they were |
| GameSetup.TextLastWins | main.c:130-196 | the last line that sets a text field decides it |
| GameSetup.TextUnsetKept | main.c:123-196 | a field no line sets keeps its cleared value |
| GameSetup.DiffLastWins | main.c:177-184 | the last `diff_guitar` line decides the difficulty |
| GameSetup.DiffUnsetKept | main.c:127-184 | without a `diff_guitar` line the difficulty keeps its cleared value |
| GameSetup.DiffGuitarVariantSkipped | main.c:177-178 | a `diff_guitar_...` line, with blanks before it or not, changes nothing |
| GameSetup.KeyOfVariant | main.c:135-178 | a line starting with `diff_guitar_` matches none of the other names and is skipped |
| GameSetup.IniBounded | main.c:130-196 | every text field of the outputs fits its buffer |
| GameSetup.ParseSongIni | main.c:118-204 | the loop's result is `SongIni` of the file, with every field within its buffer |
| GameSetup.WrapProps | main.c:543-546 | the arrow keys keep a selection inside the list, wrapping at the ends, and undo each other; the same rule as main.c:629-631 |
| GameSetup.MenuAgrees | main.c:1266-1281 | the pause and options menus move their selection exactly as the selector screens do; the rule of main.c:543-546 |
| GameSetup.WindowShowsSelection | main.c:367-369 | the selected song is always among the rows shown, and at most 20 are |
| GameSetup.StarsWriteBeforeBuffer | main.c:380-386 | as written, `diff_guitar = -1` puts the terminator at `stars[-1]`, outside the buffer |
| GameSetup.StarsProps | main.c:380-386 | the corrected stars keep the terminator inside the buffer after a row of at most ten stars, `diff` of them for 0..10, and agree with the code for every non-negative `diff` |
| GameSetup.RepeatProps | main.c:383-385 | a row of `n` copies of the character |
| GameSetup.CropProps | main.c:389-403 | a cropped text fits 30 columns: unchanged when it fits, else its first 27 characters and three dots |
| GameSetup.DiffName | main.c:672-680 | `diff_name`: the names of difficulties 0..3, "unknown" for any other |
| GameSetup.Hopo | main.c:207-234 | `parse_hopo_from_ini` on the text of `song.ini`: 170 when the file does not open, otherwise the first line's value |
| GameSetup.SongIni | main.c:118-203 | `parse_song_ini`: the outputs unchanged when the file does not open, otherwise the fields from cleared outputs and whether a title or artist was found |
| GameSetup.Window | main.c:367-368 | the rows of the song list shown: up to 20, from ten above the selection |
| GameSetup.Prev | main.c:543 | the up arrow in a selector: one up, from the first entry to the last; the same rule as main.c:494 |
| GameSetup.Next | main.c:546 | the down arrow in a selector: one down, from the last entry to the first; the same rule as main.c:497 |
| GameSetup.MenuUp | main.c:1266-1271 | the in-game menu's up key: one up, from 0 to the last entry |
| GameSetup.MenuDown | main.c:1274-1279 | the in-game menu's down key: one down, from the last entry to 0 |
| GameSetup.StarsAsWritten | main.c:380-386 | the stars as written: the difficulty capped at 10 but not at 0, and the terminator at `stars[diff]` |
| GameSetup.Stars | main.c:380-386 | the corrected stars: the difficulty clamped to 0..10 before it indexes the buffer |
| GameSetup.Crop | main.c:389-403 | `strncpy` into 30 columns, with the last three turned to dots when the text is longer |
| Judge.Start | main.c:1169-1183 | the judging state at `start_game` is well formed, at the first chord, with zero statistics and a ring of five hits |
| Judge.Highest | main.c:1541-1548 | the highest fret of the mask, with no fret above it; -1 exactly when the mask has none; the same loop as main.c:1431-1438 |
| Judge.MatchSingle | main.c:1551-1565 | a single-fret chord matches when its fret is held and no higher fret is; lower frets are free; the same test as main.c:1440-1449 |
| Judge.MatchChord | main.c:1566-1569 | a chord of two or more frets matches only the exact mask; the same test as main.c:1450-1452 |
| Judge.FretMatch | main.c:1540-1569 | the two counting loops and the test after them compute `Matches` |
| Judge.LaneFxProps | main.c:1473-1478 | one effect request per lane of the mask, in lane order, each of the given type and duration, and no other |
| Judge.GuitarTargetSteps | main.c:1193-1209 | over five results the guitar's target is 1.0 from three hits on and 0.1 below |
| Judge.SumRing | main.c:1193-1196 | the count of hits in the ring lies between 0 and its size |
| Judge.Recorded | main.c:1457-1459 | recording keeps five entries and the index in range, and writes the value at the old index; as at main.c:1608-1610 and 1678-1680 |
| Judge.RecordProps | main.c:1190-1212 | recording moves the index on by one modulo 5, overwrites only the entry at the index, and sets the guitar's target to 1.0 for three or more hits and 0.1 otherwise; after the write of main.c:1457-1459 |
| Judge.HitProps | main.c:1571-1597 | a hit moves the cursor to the next chord, adds a hit and one to the streak, scores the chord's points times the new streak's multiplier, and records a 1; the same update as the HOPO hit of main.c:1454-1481 |
| Judge.MissProps | main.c:1606-1610 | a miss adds one miss, breaks the streak, records a 0 and leaves the cursor where it is; the same update as the sweep at main.c:1676-1680 |
| Judge.StrumHit | main.c:1536-1597 | a matching strum inside the window is a hit scored by its distance and the new streak |
| Judge.StrumWrongFrets | main.c:1598-1615 | wrong frets inside the window: one more miss, the streak broken, "WRONG FRETS" for half a second, the cursor where it was |
| Judge.StrumOutside | main.c:1616-1624 | outside the window a strum only shows "TOO EARLY" or "TOO LATE" for half a second |
| Judge.StrumAfterEnd | main.c:1532 | past the last chord a strum changes nothing |
| Judge.StrumValid | main.c:1526-1627 | every strum keeps the state well formed and the chords as they were |
| Judge.FretDownNoHit | main.c:1406-1420 | a press that does not hit a HOPO only adds its frets to the held mask |
| Judge.FretDownHit | main.c:1419-1481 | a press that hits a HOPO counts as a hit: the cursor moves on, one more hit and streak, the frets held |
| Judge.PressedWellFormed | main.c:1406-1483 | every press keeps the state well formed and the chords as they were |
| Judge.Released | main.c:1629-1641 | releasing clears only the released frets' bits and changes nothing else |
| Judge.FocusLost | main.c:1222-1226 | losing the focus lets go of every fret and changes nothing else |
| Judge.SweepOne | main.c:1669-1681 | one chord passed by the sweep: the cursor moves on, one more miss, the streak broken, held frets and feedback kept |
| Judge.Swept | main.c:1669-1682 | the sweep keeps the state well formed and the chords as they were |
| Judge.SweepProps | main.c:1669-1682 | the sweep stops at the end or at the first chord still in reach, passes only chords out of reach, adds one miss per chord passed, breaks the streak only when it passed one, and keeps hits, score, held frets and feedback |
| Judge.ViewCursor | main.c:1654-1664 | the view starts at or before the cursor, every chord from it to the cursor still shows, and the one before it does not |
| Judge.Tick | main.c:1688-1693 | the timer counts down while positive, the text is cleared when it runs out, and nothing else changes |
| Judge.TrackSwitch | main.c:1491-1502 | a track switch keeps the state well formed |
| Judge.TrackSwitchProps | main.c:1491-1522 | an empty rebuild changes nothing; a non-empty one takes the new chords and zeroes the cursor and the statistics, keeping held frets and the ring |
| Judge.Restart | main.c:1291-1307 | Restart keeps the state well formed |
| Judge.RestartProps | main.c:1296-1303 | Restart zeroes the cursor, the statistics and the held frets and clears the feedback; the ring, its index and the chords stay |
| Judge.Player.constructor | main.c:1169-1183 | a new player holds the start state for the song's chords |
| Judge.Player.UpdateGuitarVolume | main.c:1190-1212 | the guitar's target becomes `GuitarTarget` of the hits in the ring, when there is a guitar stem |
| Judge.Player.Record | main.c:1457-1459 | the ring write and the retarget leave the state `Recorded` gives |
| Judge.Player.AddEffects | main.c:1473-1478 | the effect requests of each lane of the mask are appended and nothing else changes; as at main.c:1600-1605 and 1670-1675 |
| Judge.Player.HitChord | main.c:1454-1481 | a hit leaves the state `Hit` gives |
| Judge.Player.MissChord | main.c:1600-1610 | a miss leaves the state `Miss` gives |
| Judge.Player.Strum | main.c:1526-1627 | the strum key leaves the state `Strummed` gives |
| Judge.Player.WrongFrets | main.c:1598-1615 | wrong frets are a miss on the lanes that differ, with "WRONG FRETS" shown for half a second |
| Judge.Player.SetFeedback | main.c:1613-1624 | a message is shown for half a second and nothing else changes |
| Judge.Player.FretDown | main.c:1406-1483 | a press leaves the state `Pressed` gives |
| Judge.Player.HopoStrike | main.c:1419-1483 | the HOPO check after a press leaves the state `HopoStep` gives |
| Judge.Player.SetHeld | main.c:1406-1417 | the held mask is replaced and nothing else changes |
| Judge.Player.FretUp | main.c:1629-1641 | a release leaves the state `Released` gives |
| Judge.Player.Unfocus | main.c:1222-1226 | losing the focus leaves the state `FocusLost` gives |
| Judge.Player.Sweep | main.c:1669-1682 | the sweep loop leaves the state `Swept` gives |
| Judge.Player.ViewFrom | main.c:1654-1664 | the look-back loop computes `ViewCursor` |
| Judge.Player.TickFeedback | main.c:1688-1693 | the timer step leaves the state `Tick` gives |
| Judge.Player.TakeChords | main.c:1491-1502 | a rebuilt chord list is taken as `TrackSwitch` says |
| Judge.Player.Rewind | main.c:1296-1303 | the Restart reset leaves the state `Restart` gives |
| Judge.Matches | main.c:1540-1569 | the fret-match rule: a held mask equal to the chord's mask always matches, and a match always holds the chord's highest fret |
| Judge.GuitarTarget | main.c:1197-1209 | the guitar's target from the hits among the last five results: 1.0 from three hits on, 0.1 below two, and between 0.1 and 1.0 for any count of 0..5 |
| Judge.Hit | main.c:1571-1597 | a hit moves the cursor on by exactly one, adds one hit and one streak, leaves the misses, the chords and the held frets, records a 1 at the ring index and only appends effect requests |
| Judge.Miss | main.c:1606-1610 | a miss adds one miss, sets the streak to 0, leaves hits, score, cursor, chords and held frets, records a 0 at the ring index and only appends effect requests |
| Judge.Strummed | main.c:1526-1627 | a strum keeps the state well formed, the chords and the held frets; it adds at most one hit, and the cursor moves exactly by the hits added; it adds at most one miss, and a miss leaves the cursor where it was |
| Judge.Pressed | main.c:1406-1483 | a fret press adds its frets to the held mask, never adds a miss, adds at most one hit and moves the cursor exactly by the hits added |
| Judge.HopoStep | main.c:1419-1483 | the HOPO check after a press hits only when the held mask changed and the chord at the cursor is a HOPO; a hit moves the cursor by one; a mismatch or a non-HOPO chord changes nothing |
| Judge.ReleaseBits | main.c:1629-1641 | after `held & ~frets` a fret is held exactly when it was held and is not one of the released frets |
| Judge.FocusLostReleases | main.c:1222-1226 | losing the focus is the release of every fret |
| Judge.Ended | main.c:1647-1649 | the song is over only once the cursor is past the last chord |
| MidiBytes.BeU16 | midi.c:15-17 | two bytes read most significant first give a value below 2^16 |
| MidiBytes.BeU32 | midi.c:11-14 | four bytes read most significant first give a value below 2^32 |
| MidiBytes.BeU32RoundTrip | midi.c:11-14 | `be_u32` recovers any 32-bit value from its big-endian bytes, wherever they sit in the buffer |
| MidiBytes.BeU16RoundTrip | midi.c:15-17 | `be_u16` recovers any 16-bit value from its big-endian bytes, wherever they sit in the buffer |
| MidiBytes.ReadVlq | midi.c:19-30 | the byte loop of `read_vlq` returns the value and the new position of the variable-length quantity definition |
| MidiBytes.VlqBounds | midi.c:19-30 | reading moves at most four bytes and never past the track end; it moves whenever a byte is left; it stops at the first byte with bit 7 clear or at a limit; the value is below 2^28 |
| MidiBytes.EncodeVlq | midi.c:19-30 | the variable-length encoding of a value below 2^28 takes one to four bytes |
| MidiBytes.VlqRoundTrip | midi.c:19-30 | `read_vlq` decodes the standard encoding of every value below 2^28 and stops right after it, whatever follows |
| MidiBytes.GhMapPitch | midi.c:33-55 | exactly the pitches 60-64, 72-76, 84-88 and 96-100 map; the difficulty and lane are the octave above 60 and the offset in it |
| MidiBytes.GhMapPitchInverse | midi.c:33-55 | every difficulty 0-3 and lane 0-4 comes from the pitch 60 + 12 * difficulty + lane |
| MidiEvents.DecodeEvent | midi.c:181-232 | one step of the event loop moves the cursor forward inside the track; a meta event skips its payload; sysex clears running status; a channel event sets it; meta and orphan data bytes keep it |
| MidiEvents.RunningStatusReused | midi.c:214-223 | a data byte under running status is decoded as a channel event of the running status, with that byte as its first data byte |
| MidiEvents.ReadEvent | midi.c:181-232 | the imperative loop body moves the cursor exactly as `DecodeEvent` says |
| MidiEvents.TempoOf | midi.c:188-200 | an event yields a tempo point exactly when it is a meta event of type 0x51 and length 3; the point is at the event's tick and below 2^24 microseconds per quarter |
| MidiEvents.NoteOf | midi.c:321-346 | an event yields a note exactly when it is a note-on with a second data byte, velocity above zero and a mapped pitch; the note carries the tick, track, pitch and velocity, with times zero |
| MidiEvents.TrackTemposStep | midi.c:181-232 | the tempo points of a track are those of its first event followed by those of the rest |
| MidiEvents.TrackNotesStep | midi.c:283-347 | the notes of a track are those of its first event followed by those of the rest |
| MidiEvents.TemposAppend | midi.c:181-232 | one loop step of the tempo walk keeps "pushed so far plus what remains" unchanged |
| MidiEvents.NotesAppend | midi.c:283-347 | one loop step of the note walk keeps "pushed so far plus what remains" unchanged |
| MidiEvents.WalkTrackTempos | midi.c:176-232 | walking a track appends exactly its tempo points to the vector |
| MidiEvents.WalkTrackNotes | midi.c:278-347 | walking a track appends exactly its mapped note-ons to the vector |
| MidiEvents.TrackNotesWellFormed | midi.c:328-344 | every note a track yields belongs to that track, has positive velocity and a mapped pitch |
| MidiEvents.NameFrom | midi.c:376-405 | a name found in a track is 1 to 63 bytes long |
| MidiEvents.FindTrackName | midi.c:376-405 | the name search loop finds what `NameFrom` defines |
| MidiEvents.CString | midi.c:391-395 | the stored name is the prefix before the first NUL, so it holds no NUL and is no longer than the bytes |
| MidiFile.ReadHeader | midi.c:145-165 | the corrected header check: the header is accepted exactly when the file has 14 bytes, starts with `MThd`, its length is 6 or more and inside the file, the division is not SMPTE and is not zero; then the first chunk, track count and ticks per quarter are those fields |
| MidiFile.ReadHeaderAsWritten | midi.c:149-165 | with 32-bit arithmetic an accepted header puts the first chunk at `8 + hdr_len` modulo 2^32 |
| MidiFile.HeaderLengthWraps | midi.c:150 | a header length of 2^32 - 8 passes the as-written check although it runs past the end of the file, and the corrected check rejects it |
| MidiFile.HeaderBounds | midi.c:145-165 | an accepted header places the first chunk after the 14 header bytes and inside the file |
| MidiFile.Chunks | midi.c:167-175 | a successful chunk list has one chunk per remaining track |
| MidiFile.ChunksStep | midi.c:167-175 | a tagged chunk inside the file is added and the list continues after it |
| MidiFile.ChunksMissing | midi.c:168-171 | a missing `MTrk` tag at track k fails with "Missing MTrk at track k" |
| MidiFile.ChunksOverrun | midi.c:174 | a chunk running past the file fails with "Track bounds" |
| MidiFile.ChunksDone | midi.c:167 | once every track is read the list is complete |
| MidiFile.AllTemposAppend | midi.c:167-235 | the tempo points of the tracks are those of the first tracks followed by those of the next |
| MidiFile.AllNotesAppend | midi.c:269-350 | the notes of the tracks are those of the first tracks followed by those of the next, numbered by track |
| MidiFile.CollectTempos | midi.c:144-259 | the tempo pass returns what `TempoPass` defines under the header sum given: the header or chunk error, or the compacted tempo map of all tracks' tempo points with the ticks per quarter; with `Wrapped` it is the code as written, with `Exact` the corrected check |
| MidiFile.CollectNotes | midi.c:261-353 | for any file of 12 bytes or more, under either header sum, the note pass fails exactly when `NotePass` does, with the same message; otherwise the vector holds every track's notes sorted by tick |
| MidiFile.TrackNoteLoop | midi.c:268-350 | the track loop pushes every track's notes in track order, or stops with the chunk error |
| MidiFile.WithTimes | midi.c:447-450 | every note keeps its fields and gets the time of its tick under the tempo map |
| MidiFile.SetTimes | midi.c:447-450 | the conversion loop sets every note's time from its tick and changes nothing else |
| MidiFile.EntriesProps | midi.c:364-408 | the name records keep the track order, and each track number is in range with a name under 64 bytes |
| MidiFile.NamesProps | midi.c:355-409 | at most one name per track, in increasing track order, each track number below the track count and each name under 64 bytes |
| MidiFile.NameChunksEnd | midi.c:365-370 | a missing tag or an overlong chunk ends the name pass |
| MidiFile.NameChunksEntries | midi.c:364-408 | the names from one chunk on are that chunk's name followed by the rest |
| MidiFile.ExtractNames | midi.c:355-409 | the name pass returns what `Names` defines |
| MidiFile.NameStep | midi.c:366-407 | one round of the name loop either stops when the chunk is missing or overlong, or yields the chunk's name and the position of the next |
| MidiFile.NamesLoop | midi.c:364-408 | the name loop collects the names of every chunk from the first |
| MidiFile.AllTemposOf | midi.c:237-258 | the tempo map of an accepted file is the compaction of its raw tempo points |
| MidiFile.MidiParse | midi.c:543-576 | reading a MIDI file gives what `Parse` defines under the header sum given (`Wrapped` as written, `Exact` corrected): the header or chunk error, or the timed notes, ticks per quarter and track names; through `parse_midi_notes_with_global_tempo` at midi.c:440-454 |
| MidiFile.StrictlyIncreasingSorted | midi.c:237-258 | a tempo list with strictly increasing ticks is sorted by tick |
| MidiFile.FirstChunk | midi.c:150 | the offset of the first chunk: `8 + hdr_len` modulo 2^32 as written, or the exact sum for the corrected check |
| MidiFile.HeaderOf | midi.c:145-165 | the header check as written or corrected: an accepted header puts the first chunk inside the file at `FirstChunk`, with the track count and positive ticks per quarter |
| MidiFile.TempoPass | midi.c:144-259 | the tempo pass: the header error, the first chunk error, or the tempo map of all tracks' tempo points with the ticks per quarter |
| MidiFile.NotePass | midi.c:261-353 | the note pass: the first chunk error, or every track's mapped notes sorted by tick and lane; it reads the header fields without checking them |
| MidiFile.NotePassAccepts | midi.c:261-353 | a file the tempo pass accepts is accepted by the note pass too, with positive ticks per quarter |
| MidiFile.Names | midi.c:355-409 | the name pass: nothing without `MThd`, otherwise the first name of each chunk until a chunk is missing or overlong |
| MidiFile.Parse | midi.c:543-576 | `midi_parse` on the file contents: an empty file or a pass error fails, otherwise the notes timed by the tempo map and the track names |
| MidiFile.SumsAgree | midi.c:149-165 | on a file under 4 GiB whose header the corrected check accepts, the parse as written and the corrected parse give the same result |
| MidiFile.WrappedHeaderParses | midi.c:149-175 | as written, the wrapping header of no tracks parses into an empty song; the corrected parse rejects it with "Invalid MThd length" |
| SettingsFile.WithKey | settings.c:43-54 | setting one key code changes that key only and keeps the offset |
| SettingsFile.KeyNamesExclusive | settings.c:43-54 | no line starts with two different `key_...=` names, so at most one key branch applies |
| SettingsFile.ScanKeysIff | settings.c:43-54 | the chain of key `sscanf`s yields key k and value v exactly when k is one of the keys tried and the line reads `name=v` for k |
| SettingsFile.DispatchKey | settings.c:43-54 | a line sets key k to v exactly when it reads as k's `name=%d` with value v |
| SettingsFile.DispatchOffset | settings.c:55-60 | a line sets the offset to ms exactly when it reads as `global_offset_ms=%lf` or as the legacy `offset_ms=%lf` with value ms |
| SettingsFile.NoKeyLine | settings.c:43-54 | a line not starting with `k` sets no key |
| SettingsFile.LoadedPrefs | settings.c:31-36 | when the file does not open the settings are the defaults |
| SettingsFile.LastKeyWins | settings.c:39-61 | the last line that sets a key decides its value |
| SettingsFile.UnsetKeyKept | settings.c:39-61 | a key no line sets keeps the value it had |
| SettingsFile.LastOffsetWins | settings.c:39-61 | the last line that sets the offset decides it |
| SettingsFile.UnsetOffsetKept | settings.c:39-61 | an offset no line sets keeps the value it had |
| SettingsFile.SavedLines | settings.c:74-80 | seven lines: the six keys in the fixed order as `name=value`, then `global_offset_ms=` with the `%.1f` text |
| SettingsFile.SaveThenLoad | settings.c:31-83 | loading what was saved gives back every key code, and the offset that `%lf` reads from its `%.1f` text (the default when it reads none) |
| SettingsFile.FoldSaved | settings.c:39-80 | applying the saved lines to the defaults gives back every key and the read-back offset |
| SettingsFile.SavedLinesRead | settings.c:38-80 | the saved text is read back by `fgets` into a 256-byte buffer as exactly the saved lines |
| SettingsFile.SavedLinesDispatch | settings.c:43-80 | each saved key line sets its own key and the offset line sets the offset when `%lf` reads a number |
| SettingsFile.Settings.constructor | settings.h:6-16 | a settings struct holds the fields it is given |
| SettingsFile.Settings.InitDefaults | settings.c:10-18 | every key and the offset take their default values; the other fields are untouched |
| SettingsFile.Settings.ApplyLine | settings.c:40-60 | one loop pass applies the line's action to the fields |
| SettingsFile.Settings.Load | settings.c:31-64 | the fields become the defaults with every line of the file applied, or the defaults when it does not open |
| SettingsFile.Settings.Save | settings.c:66-83 | the lines written are the seven saved lines of the current fields |
| SettingsFile.SongOffset | settings.c:85-91 | the song offset is 0.0 when `song.ini` does not open |
| SettingsFile.FirstOffsetAt | settings.c:94-100 | the first line that reads as `offset=%lf` gives the offset, whatever follows |
| SettingsFile.FirstOffsetNone | settings.c:93-100 | without such a line the offset is 0.0 |
| SettingsFile.LoadSongOffset | settings.c:85-104 | the reading loop returns what `SongOffset` defines, stopping at the first offset line |
| SettingsFile.Capped | settings.c:111-125 | the 4096-byte buffer holds at most 4095 characters, a prefix of the text, all of it when it fits |
| SettingsFile.CappedAppend | settings.c:121-134 | appending to a full buffer and capping gives the cap of the whole text |
| SettingsFile.Rewritten | settings.c:117-127 | every line is kept in order, except that each `offset=` line is replaced by the new offset line |
| SettingsFile.SavedAgree | settings.c:106-143 | the corrected and the as-written text agree unless the offset is appended after a last line without a newline |
| SettingsFile.GluedOffsetLost | settings.c:131-135 | as written, a `song.ini` whose last line lacks its newline gets the offset glued onto that line, and loading it back finds no offset |
| SettingsFile.FirstOffsetOfRewrite | settings.c:94-135 | when every line is the new offset line or no offset line, loading finds the new offset (0.0 when `%lf` reads none) |
| SettingsFile.SaveSongOffset | settings.c:106-143 | the save loop and append produce the corrected text: kept lines, replaced offset lines, and the offset appended on a line of its own when none was there |
| SettingsFile.RewriteThenLoad | settings.c:85-143 | saving an offset into a `song.ini` of short lines and loading it again gives the saved offset as `%lf` reads it, whenever the result fits the buffer |
| SettingsFile.RewriteLines | settings.c:117-135 | the saved text is a list of short lines that `fgets` reads back one by one, holding the new offset line and no other `offset=` line |
| SettingsFile.RewrittenHasLine | settings.c:117-122 | a rewrite that replaced a line holds the new line and no other `offset=` line |
| SettingsFile.AppendedLines | settings.c:131-135 | with no `offset=` line the lines are kept, the last one gets its newline, and the offset line follows |
| SettingsFile.RewriteStep | settings.c:117-127 | one loop pass appends the kept or replaced line to the buffer and notes whether an offset line was seen |
| SettingsFile.Dispatch | settings.c:43-60 | the `if`/`else if` chain of one settings line: the key lines in order, then `global_offset_ms=`, then the legacy `offset_ms=` |
| SettingsFile.Fold | settings.c:39-61 | the settings after applying every line in order |
| SettingsFile.SavedAsWritten | settings.c:106-143 | the text `song_offset_save` writes as written: the new offset line appended straight after the kept text, capped at 4095 characters |
| SettingsFile.Rewrite | settings.c:111-135 | the corrected text: offset lines replaced, other lines kept, and the offset line appended on a line of its own when none was there |
| Terminal.FirstOnLane | terminal.c:87-93 | the first entry on the lane, with no earlier entry on it; the table's length when there is none; the same search as terminal.c:316-321 |
| Terminal.UpsertPresent | terminal.c:87-93 | an effect on a lane already in the table overwrites that entry's type and time in place and changes nothing else |
| Terminal.UpsertAbsent | terminal.c:95-100 | an effect on a new lane is appended when fewer than 32 are live, and dropped otherwise |
| Terminal.UpsertKeeps | terminal.c:86-101 | adding keeps the table within 32 entries and each lane in it at most once |
| Terminal.UpsertThenLookup | terminal.c:86-101 | after adding, the lane's flash is the new effect, unless the table was full without that lane; looked up as at terminal.c:316-321 |
| Terminal.Decayed | terminal.c:103-115 | ageing never makes the table longer and leaves only entries with time left |
| Terminal.Kept | terminal.c:105-113 | the surviving indices are in range and increasing |
| Terminal.DecayedKept | terminal.c:103-115 | the survivors are exactly the entries whose time stays positive, aged by `dt`, in their original order |
| Terminal.DecayedUnique | terminal.c:103-115 | dropping entries never puts a lane in the table twice |
| Terminal.EffectTable.constructor | terminal.c:83-84 | the table starts empty |
| Terminal.EffectTable.Add | terminal.c:86-101 | `add_effect` leaves the table that `Upserted` defines and touches no slot past the live ones |
| Terminal.EffectTable.Update | terminal.c:103-115 | the in-place compaction leaves the live table that `Decayed` defines; the dropped slots hold their aged entries and later slots are untouched |
| Terminal.EffectTable.Sweep | terminal.c:105-113 | one loop pass ages the read slot and moves it to the write slot when it survives, touching no other slot |
| Terminal.EffectTable.LaneEffect | terminal.c:314-321 | the type of the first effect on the lane, or -1 when the lane has none |
| Terminal.KeyChar | terminal.c:17-25 | letters and digits show as themselves and every other key as '?' |
| Terminal.KeyCharInverse | terminal.c:17-25 | two keys with the same label other than '?' are the same key, and a letter or digit is its own label |
| Terminal.ControlsLabels | terminal.c:146-152 | with the default keys the controls line shows the frets as "zxcvb" and both strum keys as '?' |
| Terminal.LaneColor | terminal.c:27-42 | lanes 0-4 take the five fret colours in order; any other lane the reset sequence |
| Terminal.LaneColorsDistinct | terminal.c:27-42 | every lane has its own colour, and none is the reset sequence |
| Terminal.Multiplier | terminal.c:206-208 | the multiplier is 1 to 4, one more for every ten notes of streak, and 4 exactly from a streak of 30 on |
| Terminal.CDiv | terminal.c:217-228 | C integer division truncates toward zero |
| Terminal.PlayHeight | terminal.c:123-127 | the lane height is the rows below the header, and at least 10 |
| Terminal.HitRow | terminal.c:200-203 | the fret line is `top_y + h`, or `rows - 2` when that would reach the bottom row |
| Terminal.HitRowOnScreen | terminal.c:200-203 | on a terminal of 24 rows or more the fret line sits on row `rows - 2` |
| Terminal.BarFillBounds | terminal.c:211-217 | the filled part of the streak bar stays between zero and the bar's height, a full streak fills it, and a longer streak never fills less |
| Terminal.ZoneMultiplier | terminal.c:227-228 | the colour zone of a bar row is a multiplier of at least 1 |
| Terminal.FilledZone | terminal.c:217-239 | a row is drawn filled only when the bar has positive height, so the zone never divides by zero, and its zone never exceeds the player's multiplier |
| Terminal.Trunc | terminal.c:435 | the `(int)` cast of a double truncates toward zero |
| Terminal.ClampRow | terminal.c:436-439 | a row is clamped up to `top_y`, then down to `hit_y - 1`; a row already in range is kept |
| Terminal.NoteRow | terminal.c:434-439 | a note is drawn above the fret line and not above the first lane row, at its row when that is in range |
| Terminal.NoteRowMonotone | terminal.c:434-439 | a note nearer the fret line is never drawn above one further away |
| Terminal.Upserted | terminal.c:86-101 | `add_effect`: the count grows by at most one and only below 32, entries on other lanes stay, and the new effect is in the table unless a full table is left alone |
| Terminal.BarFill | terminal.c:210-217 | the filled part of the streak bar lies between 0 and the bar's height, and a streak of 30 or more fills it |
| Terminal.RawRow | terminal.c:434-435 | the unclamped note row lies between `top_y` and `top_y + h - 1` for a fraction in [0, 1], and truncation never moves it past the exact row |
| Sorting.Insert | midi.c:238 | inserting adds exactly the one element to the sequence; standing in for the sorts at midi.c:352 and 482 |
| Sorting.SortBy | midi.c:238 | the sorted order is a permutation of the input; standing in for the sorts at midi.c:352 and 482 |
| Sorting.InsertSorted | midi.c:238 | inserting into a sorted sequence keeps it sorted by the comparator; standing in for the sorts at midi.c:352 and 482 |
| Sorting.SortBySorted | midi.c:238 | the result is sorted by the comparator; standing in for the sorts at midi.c:352 and 482 |
| TempoMap.TempoBeforeIsStrict | midi.c:105-112 | `cmp_tempo` is a strict order on tempo points |
| TempoMap.SortedByTempoBefore | midi.c:105-112 | sorted by `cmp_tempo` means the ticks do not decrease |
| TempoMap.RunEnd | midi.c:248-254 | the end of the run of equal ticks: every entry before it has the run's tick and the entry at it does not |
| TempoMap.CompactFromHead | midi.c:247-256 | the first compacted entry is the last entry of the first run, at the run's tick |
| TempoMap.CompactFromLower | midi.c:247-257 | compacting a sorted list keeps every tick at or above the first |
| TempoMap.CompactFromIncreasing | midi.c:244-258 | compacting a sorted list leaves strictly increasing ticks |
| TempoMap.CompactFromSound | midi.c:244-258 | every compacted entry is the last entry of some run |
| TempoMap.CompactFromCons | midi.c:247-257 | the compaction is the last entry of the first run followed by the compaction of the rest |
| TempoMap.CompactFromKeeps | midi.c:244-258 | the last entry of every run survives compaction, so the tempo given last at a tick wins |
| TempoMap.SortedTempos | midi.c:238 | sorting by `cmp_tempo` leaves the ticks in order |
| TempoMap.ZeroFirst | midi.c:239 | a sorted list has a point at tick 0 exactly when its first entry is at tick 0 |
| TempoMap.WithZeroProps | midi.c:237-242 | after the tick-0 step the list is sorted, starts at tick 0, and holds the raw points plus the 120 BPM default exactly when none was at tick 0 |
| TempoMap.BuildTempoMapShape | midi.c:237-258 | the tempo map is non-empty, starts at tick 0 and has strictly increasing ticks |
| TempoMap.BuildTempoMapSound | midi.c:237-258 | every entry of the tempo map is a raw point, or the 120 BPM default when no raw point is at tick 0 |
| TempoMap.BuildTempoMapComplete | midi.c:237-258 | every raw tick is a tick of the tempo map |
| TempoMap.CompactKeeps | midi.c:244-258 | compaction keeps only entries of its input |
| TempoMap.CompactCovers | midi.c:244-258 | compacting a sorted list keeps every tick it held |
| TempoMap.CompactInPlace | midi.c:244-258 | compacting the vector in place leaves what `Compact` defines, in the same buffer |
| TempoMap.CompactArray | midi.c:246-258 | the compaction loop writes what `Compact` defines into the first `w` slots |
| TempoMap.CompactWrite | midi.c:255-256 | writing the run's entry moves the loop on to the next run |
| TempoMap.ScanRun | midi.c:248-254 | the inner loop finds the end of the run and its last tempo |
| TempoMap.FinishTempoMap | midi.c:237-258 | sorting, the tick-0 default and compaction leave the vector holding `BuildTempoMap` of the raw points |
| TempoMap.Seg | midi.c:132-140 | the time of one segment is never negative |
| TempoMap.TickToSec | midi.c:122-142 | the segment loop of `tick_to_sec` computes what `SecAt` defines |
| TempoMap.SecAtMonotone | midi.c:122-142 | a later tick never has an earlier time |
| TempoMap.SecAtFirstSegment | midi.c:126-140 | before the second tempo point the time is `tick * us0 / 1e6 / tpqn` |
| TempoMap.BuildTempoMap | midi.c:237-258 | the tempo map: the raw points sorted by tick, a 500000 point at tick 0 when none is there, then compacted |
| TempoMap.Compact | midi.c:244-258 | the compaction keeps one point per run of equal ticks, with the run's last tempo |
| TempoMap.SecAt | midi.c:122-142 | `tick_to_sec`: each tempo segment up to the tick adds its ticks times its microseconds per quarter over 1e6 and the ticks per quarter |
| Vectors.Vector.Items | midi.h:17-20 | the live elements are the first `n` slots; as in every vector type of midi.h |
| Vectors.Vector.constructor | midi.c:441 | a vector initialised with `{0}` has no buffer and no elements |
| Vectors.Vector.Push | midi.c:61-69 | pushing appends the element; a full buffer first grows to double its capacity, or to the first capacity from zero; and the same growth in `tnv_push`, `tv_push` and `cv_push` (midi.c:75-83, 95-103, 578-590) |
| Vectors.Vector.Append | midi.c:61-69 | pushing a sequence appends all of it in order |
| Vectors.Vector.Sort | midi.c:238 | sorting the live elements leaves what `SortBy` defines; as at midi.c:352 |
| Vectors.NextCap | midi.c:63 | the growth rule: the first capacity from 0, otherwise double, so always larger; as at midi.c:580 |

## Left out

- SDL start-up, the window, the audio device, event polling, terminal raw mode, frame pacing with `nanosleep` and the clock `now_sec`. These are operating-system and library I/O. The model takes each key event and each frame as a method call, and the audio clock as a parameter read once per event.
- Reading files (`fopen`, `fgets`, `slurp`, the `fseek`/`fread` part of `midi_parse`, the path from `HOME` in `get_settings_path`) and writing them. A file is given as its text, or `None` when it does not open. A save returns the text or lines it would write.
- The song list and directory scan (`scan_songs_directory`, `scan_directory`, `access`/`stat`), and the `fork`/`execvp` of the cover-art viewer. These are file-system and process plumbing.
- The drawing itself: `draw_menu`, `show_song_selector`, `show_difficulty_selector`, the character blitting of `draw_frame`, `clear_screen_hide_cursor` and `show_cursor`. Only the integer and real arithmetic they draw from is modelled. So are the key labels, lane colours, flash lookups, selector wrap-around, stars and cropping.
- The mismatch between the `draw_frame` declared in terminal.h:50-54, its definition at terminal.c:116-120 and its call at main.c:1696. These are drawing parameters only; the model states no property of them.
- Opus decoding (`op_open_file`, `op_read_float`, `op_pcm_total`) and the `opus_multistream.h` stand-in. The decoder is a parameter: it is given as the sequence of reads it returns. What `load_opus_file` does with each read is modelled.
- Concurrency between `audio_cb` on the audio thread and the game loop. The game writes `started`, the stems' positions and `frames_played` without locking the device (main.c:1154-1157, 1293-1295). The model treats the callback and each loop event as separate sequential steps.
- IEEE floating point. Times, gains and samples are exact reals, so the `0.1f` gain steps, `float` samples and rounding of `double` times are not modelled. `atof`, `%lf` and `%.1f` are parameters of the functions that use them.
- `qsort`'s order among equal keys. The model sorts by insertion, which is stable. Every tempo-map property is proved for any tick-sorted input to the compaction, so it holds whatever order `qsort` leaves among points at one tick.
- Overflow of `int` score and statistics counters, of `uint64_t` tick sums and of `size_t` positions. Such overflow needs input far beyond any song. The exceptions are modelled explicitly: `uint32_t` chunk lengths and the `uint32_t` wrap of `8 + hdr_len` (under Findings), the 4096-byte buffer of `song_offset_save`, the 256-byte `fgets` buffers and the `char[64]` track names.
- `parse_args` and `usage`, which `main` never calls (main.c:902-903).
- `inverted_mode` and `lookahead_sec` of `Settings`. The settings files neither load nor save them; the model carries both fields unchanged. The look-ahead window of `draw_frame` is drawing only.
- The flashes that the judging rules request. They are recorded in the loop state as a log of `add_effect` calls (`Judge.Fx`). They are not fed into `Terminal.EffectTable`, whose `Add` models `add_effect` on its own.
- The guitar stem's gain. The loop state records the target that `update_guitar_volume` sets (the `guitar` field of `Judge.Play`); the audio engine's stems are not part of the loop state. `Audio.AudioEngine.Callback` models how a stem's gain approaches its target.
- Leaving a song. Saving the settings, saving the song offset, rewinding the audio, returning to the song list and quitting are returned to the caller as an `Outcome`; the model does not perform them. `SDL_QUIT` (main.c:1219-1220) is not modelled: it leaves the loop for the clean-up code.
- Memory exhaustion: `realloc` and `malloc` failing and the `exit(1)` after them. The model's allocations do not fail.
- Chart.UsPerQnOfBpm: a BPM value whose `double` quotient is outside the `int` range (for instance `B 0`) makes the cast at chart.c:173-177 undefined in C; the model returns `INT_MIN`, what x86 gives.
- Chart.BpmArg: for the one-character value `B`, `atoi(value + 2)` at chart.c:173 reads past the terminator, which is undefined in C; the model returns 0.

## Findings

| source | as written | input that shows it | evidently intended | confidence | as-written member | corrected member |
|---|---|---|---|---|---|---|
| midi.c:149-150 | `8 + hdr_len > len` is computed in 32-bit `uint32_t` arithmetic, so it wraps for a header length near 2^32 | a 14-byte file `MThd FF FF FF F8 ...` with header length 2^32 - 8: the sum wraps to 0, the check passes, and the first chunk is looked for at offset 0 | reject every header whose `8 + hdr_len` lies past the end of the file | high; not executed | MidiFile.ReadHeaderAsWritten, MidiFile.WrappedHeaderParses | MidiFile.ReadHeader, MidiFile.SumsAgree |
| settings.c:131-135 | the new `offset=` line is appended right after the kept text, even when the last kept line has no newline | a `song.ini` holding `name=Song` with no final newline: the save writes `name=Songoffset=...` on one line, and `song_offset_load` then finds no offset | start the appended offset line on a line of its own | high; not executed | SettingsFile.SavedAsWritten, SettingsFile.GluedOffsetLost | SettingsFile.SaveSongOffset, SettingsFile.RewriteThenLoad |
| main.c:380-386 | the difficulty is capped at 10 but not at 0, and the terminator is stored at `stars[diff]` | a `song.ini` holding a title or artist line and the line `diff_guitar = -1` (read by `atoi`): the terminator is written to `stars[-1]`, before the buffer; without a title or artist main.c:318 resets the difficulty to 0 | clamp the difficulty to 0..10 before it indexes the buffer | high; not executed | GameSetup.StarsAsWritten, GameSetup.StarsWriteBeforeBuffer | GameSetup.Stars, GameSetup.StarsProps |

/// The game loop of main.c from `start_game` on: key presses in play and in
/// the pause and options menus, and the per-frame end test, look-back, miss
/// sweep and feedback timer. `Session` is the loop's state as a value and the
/// functions below say what each event does to it; `Game` holds the same
/// state in fields and performs each event step by step.
module Game {
  import opened Wrappers
  import opened MidiTypes
  import opened Vectors
  import opened Judge
  import Chords
  import SettingsFile
  import GameSetup

  // ------------------------------------------------------------ key codes (SDL_keycode.h, config.h:58-75)

  const SdlkEscape: int := 27
  const SdlkQ: int := 'q' as int
  const SdlkReturn: int := 13
  const SdlkReturn2: int := 0x4000_009E
  const SdlkUp: int := 0x4000_0052
  const SdlkDown: int := 0x4000_0051
  const SdlkPlus: int := '+' as int
  const SdlkEquals: int := '=' as int
  const SdlkKpPlus: int := 0x4000_0057
  const SdlkMinus: int := '-' as int
  const SdlkUnderscore: int := '_' as int
  const SdlkKpMinus: int := 0x4000_0056
  const Sdlk0: int := '0' as int
  const Sdlk1: int := '1' as int
  const Sdlk9: int := '9' as int

  /** `OFFSET_STEP`, milliseconds per press. */
  const OffsetStep: real := 10.0

  /** The options menu's offset and back entries (main.c:39-49). */
  const OptOffset: int := 6
  const OptBack: int := 7

  /** The frame time `1.0 / TARGET_FPS` (main.c:1185-1186). */
  const FrameDt: real := 1.0 / 60.0

  /** `ChordVec`'s first capacity (midi.c:580). */
  const ChordFirstCap: nat := 2048

  predicate IsPlus(key: int) {
    key == SdlkPlus || key == SdlkEquals || key == SdlkKpPlus
  }

  predicate IsMinus(key: int) {
    key == SdlkMinus || key == SdlkUnderscore || key == SdlkKpMinus
  }

  datatype Menu = NoMenu | Pause | Options

  /**
   * What the loop does after a key besides changing its state: save the
   * settings, save the song's offset, rewind the audio, or leave the song
   * for good, for the song list or for the shell.
   */
  datatype Outcome = Continue | SaveSettings | SaveSongOffset(ms: real) | RestartAudio | Quit | SongList | Exit

  /** What the loop reads but never changes: the notes, the difficulty, the HOPO threshold, the highest track. */
  datatype Song = Song(notes: seq<NoteOn>, diff: int, hopo: int, maxTrack: int)

  /**
   * The loop's state: the judging state, `menu_state`, `menu_selection`,
   * `waiting_for_key`, the settings, the song and total offsets,
   * `selected_track`, and the audio engine's `started` flag.
   */
  datatype Session = Session(play: Play, menu: Menu, sel: int, waiting: bool, prefs: SettingsFile.Prefs,
                             songOffsetMs: real, totalOffsetMs: real, selectedTrack: int, started: bool)

  /** The last entry of a menu (main.c:1267, 1276). */
  function LastEntry(m: Menu): int {
    if m == Pause then GameSetup.PauseLast else GameSetup.OptCount - 1
  }

  /**
   * What stays true between events: the judging state is valid, an open
   * menu's selection is one of its entries, a key is awaited only for one
   * of the six bindings, and the total offset is the global one plus the
   * song's.
   */
  predicate SessionValid(s: Session) {
    WellFormed(s.play)
    && (s.menu != NoMenu ==> 0 <= s.sel <= LastEntry(s.menu))
    && (s.waiting ==> s.menu == Options && 0 <= s.sel < OptOffset)
    && s.totalOffsetMs == s.prefs.offsetMs + s.songOffsetMs
  }

  /** The state at `start_game` (main.c:1153-1181). */
  function Begin(chords: seq<Chord>, guitar: Option<real>, prefs: SettingsFile.Prefs, songOffsetMs: real, track: int): (s: Session)
    requires |chords| > 0
    ensures SessionValid(s) && s.menu == NoMenu && s.started
  {
    Session(Start(chords, guitar), NoMenu, 0, false, prefs, songOffsetMs, prefs.offsetMs + songOffsetMs, track, true)
  }

  /** The song time at an audio clock reading: the clock plus the total offset (main.c:1421-1422, 1527-1528, 1644-1645). */
  function Time(s: Session, audioSec: real): real {
    audioSec + s.totalOffsetMs / 1000.0
  }

  /** The key bound to lane 0..4, or the strum key for 5. */
  function Binding(p: SettingsFile.Prefs, k: int): int {
    if k == 0 then p.green else if k == 1 then p.red else if k == 2 then p.yellow
    else if k == 3 then p.blue else if k == 4 then p.orange else p.strum
  }

  /** The frets a key is bound to (main.c:1408-1417, 1631-1640). */
  function FretBits(p: SettingsFile.Prefs, key: int): (b: bv8)
    ensures forall l :: 0 <= l < 5 ==> (Has(b, l) <==> Binding(p, l) == key)
    ensures forall l :: 5 <= l < 8 ==> !Has(b, l)
  {
    (if key == p.green then 1 else 0) | (if key == p.red then 2 else 0) | (if key == p.yellow then 4 else 0)
    | (if key == p.blue then 8 else 0) | (if key == p.orange then 16 else 0)
  }

  /** A new binding for the option at `sel` (main.c:1237-1244); other selections change nothing. */
  function Rebind(p: SettingsFile.Prefs, sel: int, key: int): (r: SettingsFile.Prefs)
    ensures 0 <= sel < 6 ==> Binding(r, sel) == key
    ensures forall k :: 0 <= k < 6 && k != sel ==> Binding(r, k) == Binding(p, k)
    ensures r.offsetMs == p.offsetMs
  {
    if sel == 0 then p.(green := key) else if sel == 1 then p.(red := key)
    else if sel == 2 then p.(yellow := key) else if sel == 3 then p.(blue := key)
    else if sel == 4 then p.(orange := key) else if sel == 5 then p.(strum := key) else p
  }

  // ------------------------------------------------------------ keys in a menu (main.c:1231-1378)

  function MenuKey(s: Session, key: int): (r: (Session, Outcome))
    requires s.menu != NoMenu
    ensures r.0.play == s.play || r.1 == RestartAudio
    ensures r.1 != Quit && r.0.songOffsetMs == s.songOffsetMs && r.0.selectedTrack == s.selectedTrack
    ensures r.1 == SaveSettings ==> r.0.waiting == false
    ensures r.1 == SaveSettings <==>
      (s.waiting && key != SdlkEscape)
      || (!s.waiting && s.menu == Options && (key == SdlkReturn || key == SdlkReturn2) && s.sel == OptBack)
  {
    if s.waiting then
      if key == SdlkEscape then (s.(waiting := false), Continue)
      else (s.(prefs := Rebind(s.prefs, s.sel, key), waiting := false), SaveSettings)
    else if key == SdlkEscape || (key == SdlkQ && s.menu == Pause) then
      if s.menu == Options then (s.(menu := Pause, sel := 2), Continue)
      else (s.(menu := NoMenu, started := true), Continue)
    else if key == SdlkUp then (s.(sel := GameSetup.MenuUp(s.sel, LastEntry(s.menu))), Continue)
    else if key == SdlkDown then (s.(sel := GameSetup.MenuDown(s.sel, LastEntry(s.menu))), Continue)
    else if key == SdlkReturn || key == SdlkReturn2 then
      if s.menu == Pause then PauseEnter(s)
      else
        assert s.menu == Options;
        if s.sel == OptBack then
          (s.(menu := Pause, sel := 2, totalOffsetMs := s.prefs.offsetMs + s.songOffsetMs), SaveSettings)
        else if s.sel == OptOffset then (s, Continue)
        else (s.(waiting := true), Continue)
    else if s.menu == Options && s.sel == OptOffset && (IsPlus(key) || IsMinus(key)) then
      var g := if IsPlus(key) then s.prefs.offsetMs + OffsetStep else s.prefs.offsetMs - OffsetStep;
      (s.(prefs := s.prefs.(offsetMs := g), totalOffsetMs := g + s.songOffsetMs), Continue)
    else (s, Continue)
  }

  /** Return on a pause-menu entry: resume, restart, options, song list, exit (main.c:1283-1336). */
  function PauseEnter(s: Session): (r: (Session, Outcome))
    requires s.menu == Pause
    ensures r.1 == RestartAudio <==> s.sel == 1
    ensures r.1 == SongList <==> s.sel == 3
    ensures r.1 == Exit <==> s.sel == 4
    ensures r.1 == Continue <==> s.sel != 1 && s.sel != 3 && s.sel != 4
    ensures r.1 != RestartAudio ==> r.0.play == s.play
    ensures r.0.prefs == s.prefs && r.0.songOffsetMs == s.songOffsetMs && r.0.waiting == s.waiting
    ensures r.0.menu == NoMenu <==> r.0.started && 0 <= s.sel <= 1
  {
    if s.sel == 0 then (s.(menu := NoMenu, started := true), Continue)
    else if s.sel == 1 then (s.(play := Restart(s.play), menu := NoMenu, started := true), RestartAudio)
    else if s.sel == 2 then (s.(menu := Options, sel := 0), Continue)
    else if s.sel == 3 then (s, SongList)
    else if s.sel == 4 then (s, Exit)
    else (s, Continue)
  }

  // ------------------------------------------------------------ keys in play (main.c:1380-1627)

  /** Rebuild the chords for `track`; only a non-empty rebuild is taken (main.c:1488-1502, 1508-1521). */
  function Switched(s: Session, track: int, song: Song): (r: Session)
    requires WellFormed(s.play)
    ensures WellFormed(r.play) && r.play.held == s.play.held
    ensures r.play.st == s.play.st || r.play.st == NoStats
    ensures r.play.chords == s.play.chords || r.play.cursor == 0
    ensures r == s.(play := r.play, selectedTrack := r.selectedTrack)
    ensures r.selectedTrack != s.selectedTrack ==> r.selectedTrack == track && r.play.cursor == 0
  {
    var cs := Chords.Chords(song.notes, song.diff, track, song.hopo, 0);
    s.(play := TrackSwitch(s.play, cs), selectedTrack := if |cs| > 0 then track else s.selectedTrack)
  }

  /** The track keys '1'..'9' pick a track up to the highest present; '0' goes back to every track. */
  function TrackKeys(s: Session, key: int, song: Song): (r: Session)
    requires WellFormed(s.play)
    ensures WellFormed(r.play) && r.play.held == s.play.held
    ensures r.play.st == s.play.st || r.play.st == NoStats
    ensures r.play.chords == s.play.chords || r.play.cursor == 0
    ensures r == s.(play := r.play, selectedTrack := r.selectedTrack)
    ensures !(Sdlk0 <= key <= Sdlk9) ==> r == s
  {
    var target := TrackTarget(key, s.selectedTrack, song.maxTrack);
    if target.Some? then Switched(s, target.value, song) else s
  }

  /** The track a key asks for, if any: '1'..'9' up to `maxTrack` and not the current one, '0' for every track. */
  function TrackTarget(key: int, selected: int, maxTrack: int): (r: Option<int>)
    ensures r.Some? ==> r.value != selected && (r.value == -1 || (1 <= r.value <= 9 && r.value <= maxTrack))
    ensures r.Some? ==> key == Sdlk0 + (if r.value == -1 then 0 else r.value)
    ensures key == Sdlk0 && selected != -1 ==> r == Some(-1)
  {
    if Sdlk1 <= key <= Sdlk9 then
      if key - Sdlk0 <= maxTrack && key - Sdlk0 != selected then Some(key - Sdlk0) else None
    else if key == Sdlk0 && selected != -1 then Some(-1)
    else None
  }

  function GameKey(s: Session, key: int, audioSec: real, song: Song): (r: (Session, Outcome))
    requires WellFormed(s.play)
    ensures r.0.prefs == s.prefs
    ensures r.1 == Quit <==> key == SdlkQ
    ensures r.1.SaveSongOffset? ==> r.0.songOffsetMs == r.1.ms && r.0.totalOffsetMs == s.prefs.offsetMs + r.1.ms
    ensures r.1.SaveSongOffset? || r.0.songOffsetMs == s.songOffsetMs
  {
    if key == SdlkQ then (s, Quit)
    else if key == SdlkEscape then (s.(menu := Pause, sel := 0, started := false), Continue)
    else if IsPlus(key) || IsMinus(key) then
      var so := if IsPlus(key) then s.songOffsetMs + OffsetStep else s.songOffsetMs - OffsetStep;
      (s.(songOffsetMs := so, totalOffsetMs := s.prefs.offsetMs + so), SaveSongOffset(so))
    else (PlayKey(s, key, Time(s, audioSec), song), Continue)
  }

  /** Any other key in play at song time `t`: its frets, the track keys, then the strum (main.c:1406-1627). */
  function PlayKey(s: Session, key: int, t: real, song: Song): (r: Session)
    requires WellFormed(s.play)
    ensures r == s.(play := r.play, selectedTrack := r.selectedTrack)
    ensures WellFormed(r.play)
    ensures r.play.chords == s.play.chords || r.play.cursor <= 1
  {
    var p1 := Pressed(s.play, FretBits(s.prefs, key), t);
    var s2 := TrackKeys(s.(play := p1), key, song);
    assert WellFormed(s2.play) && s2.play.held == p1.held;
    if key == s.prefs.strum then s2.(play := Strummed(s2.play, t)) else s2
  }

  /** A key pressed (main.c:1226-1628). */
  function KeyDown(s: Session, key: int, audioSec: real, song: Song): (r: (Session, Outcome))
    requires WellFormed(s.play)
    ensures r.1 == Quit <==> s.menu == NoMenu && key == SdlkQ
    ensures s.menu == NoMenu && key == SdlkEscape ==> r.0.menu == Pause && r.0.sel == 0 && !r.0.started
  {
    if s.menu != NoMenu then MenuKey(s, key) else GameKey(s, key, audioSec, song)
  }

  /** A key released: only its frets are let go (main.c:1629-1641). */
  function KeyUp(s: Session, key: int): (r: Session)
    ensures r == s.(play := s.play.(held := r.play.held))
    ensures forall l :: 0 <= l < 5 ==> (Has(r.play.held, l) <==> Has(s.play.held, l) && Binding(s.prefs, l) != key)
  {
    s.(play := Released(s.play, FretBits(s.prefs, key)))
  }

  /**
   * The rest of a frame (main.c:1644-1693): whether the song is over, the
   * first chord to draw, and the state after the miss sweep, which only
   * runs with no menu open, and the feedback timer.
   */
  function Frame(s: Session, audioSec: real): (r: (Session, bool, nat))
    requires WellFormed(s.play)
    ensures WellFormed(r.0.play) && r.2 <= s.play.cursor
    ensures r.1 ==> r.0 == s
    ensures s.menu != NoMenu ==> r.0.play.st == s.play.st && r.0.play.cursor == s.play.cursor
    ensures r.0 == s.(play := r.0.play) && r.0.play.chords == s.play.chords && r.0.play.held == s.play.held
  {
    var t := Time(s, audioSec);
    if Ended(s.play, t) then (s, true, s.play.cursor)
    else
      var v := ViewCursor(s.play.chords, s.play.cursor, t);
      var p := if s.menu == NoMenu then Swept(s.play, t) else s.play;
      (s.(play := Tick(p, FrameDt)), false, v)
  }

  // ------------------------------------------------------------ properties of the loop

  /** The track keys keep the judging state valid, and an empty rebuild changes nothing. */
  lemma SwitchedProps(s: Session, track: int, song: Song)
    requires SessionValid(s)
    ensures SessionValid(Switched(s, track, song))
    ensures Chords.Chords(song.notes, song.diff, track, song.hopo, 0) == [] ==> Switched(s, track, song) == s
    ensures Chords.Chords(song.notes, song.diff, track, song.hopo, 0) != [] ==>
      var r := Switched(s, track, song);
      r.selectedTrack == track && r.play.cursor == 0 && r.play.st == Stats(0, 0, 0, 0)
      && r.play.chords == Chords.Chords(song.notes, song.diff, track, song.hopo, 0)
  {
  }

  /** A key in a menu keeps the state valid and judges nothing; only Restart touches the judging state. */
  lemma MenuKeyProps(s: Session, key: int)
    requires SessionValid(s) && s.menu != NoMenu
    ensures SessionValid(MenuKey(s, key).0)
    ensures MenuKey(s, key).0.play == s.play || MenuKey(s, key).1 == RestartAudio
  {
    if !s.waiting && key != SdlkEscape && !(key == SdlkQ && s.menu == Pause) {
      GameSetup.MenuAgrees(s.sel, LastEntry(s.menu));
      GameSetup.WrapProps(s.sel, LastEntry(s.menu) + 1);
    }
  }

  /** A key in play keeps the state valid. */
  lemma GameKeyValid(s: Session, key: int, audioSec: real, song: Song)
    requires SessionValid(s) && s.menu == NoMenu
    ensures SessionValid(GameKey(s, key, audioSec, song).0)
  {
    if key != SdlkQ && key != SdlkEscape && !IsPlus(key) && !IsMinus(key) {
      var t := Time(s, audioSec);
      var s1 := s.(play := Pressed(s.play, FretBits(s.prefs, key), t));
      assert SessionValid(s1) by {
        PressedWellFormed(s.play, FretBits(s.prefs, key), t);
      }
      var s2 := TrackKeys(s1, key, song);
      assert SessionValid(s2) by {
        if Sdlk1 <= key <= Sdlk9 && key - Sdlk0 <= song.maxTrack && key - Sdlk0 != s1.selectedTrack {
          SwitchedProps(s1, key - Sdlk0, song);
          var s1b := Switched(s1, key - Sdlk0, song);
          if key == Sdlk0 && s1b.selectedTrack != -1 {
            SwitchedProps(s1b, -1, song);
          }
        } else if key == Sdlk0 && s1.selectedTrack != -1 {
          SwitchedProps(s1, -1, song);
        }
      }
      StrumValid(s2.play, t);
    }
  }

  /** In play, the offset keys move the song's offset by 10 ms, keep the total in step and ask for it to be saved. */
  lemma OffsetKeys(s: Session, key: int, audioSec: real, song: Song)
    requires SessionValid(s) && s.menu == NoMenu && key != SdlkQ && key != SdlkEscape && (IsPlus(key) || IsMinus(key))
    ensures var (r, o) := GameKey(s, key, audioSec, song);
      var so := if IsPlus(key) then s.songOffsetMs + 10.0 else s.songOffsetMs - 10.0;
      r == s.(songOffsetMs := so, totalOffsetMs := s.prefs.offsetMs + so) && o == SaveSongOffset(so)
  {
  }

  /** Any key in play but 'q', Escape and the offset keys is a play key at the song time. */
  lemma GameKeyPlay(s: Session, key: int, audioSec: real, song: Song)
    requires WellFormed(s.play) && key != SdlkQ && key != SdlkEscape && !IsPlus(key) && !IsMinus(key)
    ensures GameKey(s, key, audioSec, song) == (PlayKey(s, key, Time(s, audioSec), song), Continue)
  {
  }

  /**
   * A frame keeps the state valid; with a menu open it only runs the
   * feedback timer, and with none it sweeps the chords out of reach.
   */
  lemma FrameProps(s: Session, audioSec: real)
    requires SessionValid(s)
    ensures SessionValid(Frame(s, audioSec).0)
    ensures Frame(s, audioSec).1 ==> Frame(s, audioSec).0 == s && s.play.cursor == |s.play.chords|
    ensures !Frame(s, audioSec).1 && s.menu != NoMenu ==> Frame(s, audioSec).0 == s.(play := Tick(s.play, FrameDt))
    ensures Frame(s, audioSec).2 <= s.play.cursor
  {
  }

  // ------------------------------------------------------------ the loop's state, in place

  /**
   * The loop's variables: the judging state is the `Player`, the rest are
   * fields here; `notes` and the song's constants are only read.
   */
  class Game {
    const player: Player
    var menu: Menu
    var sel: int
    var waiting: bool
    var prefs: SettingsFile.Prefs
    var songOffsetMs: real
    var totalOffsetMs: real
    var selectedTrack: int
    var started: bool
    const notes: Vector<NoteOn>
    const diff: int
    const hopo: int
    const maxTrack: int

    function Now(): Session
      reads this, player, player.recent
    {
      Session(player.State(), menu, sel, waiting, prefs, songOffsetMs, totalOffsetMs, selectedTrack, started)
    }

    ghost function SongNow(): Song
      reads notes, notes.data
      requires notes.Valid()
    {
      Song(notes.Items(), diff, hopo, maxTrack)
    }

    ghost predicate Valid()
      reads this, player, player.recent, notes, notes.data
    {
      player.Valid() && notes.Valid() && SessionValid(Now())
    }

    /** The state at `start_game`, `chords` built and non-empty (main.c:1093, 1153-1181). */
    constructor (notes: Vector<NoteOn>, diff: int, hopo: int, maxTrack: int, chords: seq<Chord>,
                 prefs: SettingsFile.Prefs, songOffsetMs: real, selectedTrack: int, guitar: Option<real>)
      requires notes.Valid() && |chords| > 0
      ensures Valid() && fresh(player) && fresh(player.recent)
      ensures this.notes == notes && this.diff == diff && this.hopo == hopo && this.maxTrack == maxTrack
      ensures Now() == Begin(chords, guitar, prefs, songOffsetMs, selectedTrack)
    {
      this.notes := notes;
      this.diff := diff;
      this.hopo := hopo;
      this.maxTrack := maxTrack;
      player := new Player(chords, guitar);
      menu := NoMenu;
      sel := 0;
      waiting := false;
      this.prefs := prefs;
      this.songOffsetMs := songOffsetMs;
      totalOffsetMs := prefs.offsetMs + songOffsetMs;
      this.selectedTrack := selectedTrack;
      started := true;
    }

    /** A key pressed while a menu is open (main.c:1231-1378). */
    method MenuKeyDown(key: int) returns (o: Outcome)
      requires Valid() && menu != NoMenu
      modifies this, player
      ensures Valid() && (Now(), o) == MenuKey(old(Now()), key)
    {
      MenuKeyProps(Now(), key);
      if !waiting && menu == Pause && key != SdlkEscape && key != SdlkQ && key != SdlkUp && key != SdlkDown
         && (key == SdlkReturn || key == SdlkReturn2) {
        o := PauseChoice();
      } else {
        o := MenuFieldsKeyDown(key);
      }
    }

    /** Every menu key but Return in the pause menu: only the menu fields and the settings change. */
    method MenuFieldsKeyDown(key: int) returns (o: Outcome)
      requires Valid() && menu != NoMenu
      requires waiting || menu != Pause || key == SdlkEscape || key == SdlkQ || key == SdlkUp || key == SdlkDown
               || (key != SdlkReturn && key != SdlkReturn2)
      modifies this
      ensures Valid() && (Now(), o) == MenuKey(old(Now()), key)
    {
      MenuKeyProps(Now(), key);
      o := Continue;
      if waiting {
        if key != SdlkEscape {
          prefs := Rebind(prefs, sel, key);
          o := SaveSettings;
        }
        waiting := false;
      } else if key == SdlkEscape || (key == SdlkQ && menu == Pause) {
        if menu == Options {
          menu := Pause;
          sel := 2;
        } else {
          menu := NoMenu;
          started := true;
        }
      } else if key == SdlkUp {
        sel := GameSetup.MenuUp(sel, LastEntry(menu));
      } else if key == SdlkDown {
        sel := GameSetup.MenuDown(sel, LastEntry(menu));
      } else if key == SdlkReturn || key == SdlkReturn2 {
        if sel == OptBack {
          menu := Pause;
          sel := 2;
          o := SaveSettings;
          totalOffsetMs := prefs.offsetMs + songOffsetMs;
        } else if sel != OptOffset {
          waiting := true;
        }
      } else if menu == Options && sel == OptOffset && (IsPlus(key) || IsMinus(key)) {
        prefs := prefs.(offsetMs := if IsPlus(key) then prefs.offsetMs + OffsetStep else prefs.offsetMs - OffsetStep);
        totalOffsetMs := prefs.offsetMs + songOffsetMs;
      }
    }

    /** Return in the pause menu (main.c:1283-1336). */
    method PauseChoice() returns (o: Outcome)
      requires Valid() && menu == Pause
      modifies this, player
      ensures Valid() && (Now(), o) == PauseEnter(old(Now()))
    {
      o := Continue;
      if sel == 0 {
        menu := NoMenu;
        started := true;
      } else if sel == 1 {
        player.Rewind();
        menu := NoMenu;
        started := true;
        o := RestartAudio;
      } else if sel == 2 {
        menu := Options;
        sel := 0;
      } else if sel == 3 {
        o := SongList;
      } else if sel == 4 {
        o := Exit;
      }
    }

    /** The chords of `track`, built into a new vector (main.c:1488-1494). */
    method Rebuild(track: int) returns (cs: seq<Chord>)
      requires notes.Valid()
      ensures cs == Chords.Chords(notes.Items(), diff, track, hopo, 0)
    {
      var out := new Vector<Chord>(ChordFirstCap);
      Chords.BuildChords(notes, diff, track, hopo, out);
      cs := out.Items();
    }

    /** A rebuild of the chords for `track`, taken only when it is not empty (main.c:1488-1502). */
    method SwitchTrack(track: int)
      requires Valid()
      modifies this, player
      ensures Valid() && Now() == Switched(old(Now()), track, SongNow())
    {
      var cs := Rebuild(track);
      player.TakeChords(cs);
      if |cs| > 0 {
        selectedTrack := track;
      }
    }

    /** The track keys: '1'..'9' up to the highest track present, '0' for every track (main.c:1486-1521). */
    method TrackKeysDown(key: int)
      requires Valid()
      modifies this, player
      ensures Valid() && Now() == TrackKeys(old(Now()), key, SongNow())
    {
      var target := TrackTarget(key, selectedTrack, maxTrack);
      if target.Some? {
        SwitchTrack(target.value);
      }
    }

    /** A key pressed in play (main.c:1380-1627); `audioSec` is the audio clock. */
    method GameKeyDown(key: int, audioSec: real) returns (o: Outcome)
      requires Valid() && menu == NoMenu
      modifies this, player, player.recent
      ensures Valid() && (Now(), o) == GameKey(old(Now()), key, audioSec, SongNow())
    {
      ghost var s := Now();
      o := Continue;
      if key == SdlkQ {
        assert GameKey(s, key, audioSec, SongNow()) == (s, Quit);
        return Quit;
      }
      if key == SdlkEscape {
        assert GameKey(s, key, audioSec, SongNow()) == (s.(menu := Pause, sel := 0, started := false), Continue);
        menu := Pause;
        sel := 0;
        started := false;
        return;
      }
      if IsPlus(key) || IsMinus(key) {
        OffsetKeys(s, key, audioSec, SongNow());
        songOffsetMs := if IsPlus(key) then songOffsetMs + OffsetStep else songOffsetMs - OffsetStep;
        totalOffsetMs := prefs.offsetMs + songOffsetMs;
        return SaveSongOffset(songOffsetMs);
      }
      var t := audioSec + totalOffsetMs / 1000.0;
      assert t == Time(s, audioSec);
      PlayKeyDown(key, t);
      GameKeyPlay(s, key, audioSec, SongNow());
    }

    /** Any other key in play at song time `t` (main.c:1406-1627). */
    method PlayKeyDown(key: int, t: real)
      requires Valid()
      modifies this, player, player.recent
      ensures Valid() && Now() == PlayKey(old(Now()), key, t, SongNow())
    {
      PressKeyDown(key, t);
      if key == prefs.strum {
        player.Strum(t);
      }
    }

    /** The press of a fret key, then the track keys (main.c:1406-1524). */
    method PressKeyDown(key: int, t: real)
      requires Valid()
      modifies this, player, player.recent
      ensures Valid() && prefs == old(prefs)
      ensures Now() == TrackKeys(old(Now()).(play := Pressed(old(Now()).play, FretBits(prefs, key), t)), key, SongNow())
    {
      ghost var s := Now();
      player.FretDown(FretBits(prefs, key), t);
      ghost var s1 := Now();
      assert s1 == s.(play := Pressed(s.play, FretBits(s.prefs, key), t));
      TrackKeysDown(key);
    }

    /** A key pressed (main.c:1226-1628). */
    method KeyPressed(key: int, audioSec: real) returns (o: Outcome)
      requires Valid()
      modifies this, player, player.recent
      ensures Valid() && (Now(), o) == KeyDown(old(Now()), key, audioSec, SongNow())
    {
      if menu != NoMenu {
        o := MenuKeyDown(key);
      } else {
        o := GameKeyDown(key, audioSec);
      }
    }

    /** A key released (main.c:1629-1641). */
    method KeyReleased(key: int)
      requires Valid()
      modifies player
      ensures Valid() && Now() == KeyUp(old(Now()), key)
    {
      player.FretUp(FretBits(prefs, key));
    }

    /** The window lost the focus (main.c:1222-1226). */
    method FocusLost()
      requires Valid()
      modifies player
      ensures Valid() && Now() == old(Now()).(play := Judge.FocusLost(old(Now()).play))
    {
      player.Unfocus();
    }

    /** The rest of a frame (main.c:1644-1693); `audioSec` is the audio clock. */
    method EndFrame(audioSec: real) returns (ended: bool, view: nat)
      requires Valid()
      modifies player, player.recent
      ensures Valid() && (Now(), ended, view) == Frame(old(Now()), audioSec)
    {
      ghost var s := Now();
      var t := audioSec + totalOffsetMs / 1000.0;
      assert t == Time(s, audioSec);
      var chords := player.chords;
      if player.cursor >= |chords| && t > chords[|chords| - 1].tSec + 2.0 {
        return true, player.cursor;
      }
      view := player.ViewFrom(t);
      if menu == NoMenu {
        player.Sweep(t);
      }
      ghost var p := player.State();
      assert p == if s.menu == NoMenu then Swept(s.play, t) else s.play;
      player.TickFeedback(FrameDt);
      assert Now() == s.(play := Tick(p, FrameDt));
      ended := false;
    }
  }
}

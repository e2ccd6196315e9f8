/// The settings files (settings.c): the global `~/.midifall_settings` file of
/// key bindings and the global offset, and the `offset=` line of a song's
/// `song.ini`. A file is the text `fgets` reads from it, cut into the pieces a
/// 256-byte buffer takes (`Lines`). The `%lf` conversion and the `%.1f`
/// formatting of doubles are parameters: `scanReal` reads the text after the
/// `=` of a line (`None` when `sscanf` finds no number) and `fmtReal` is what
/// `%.1f` prints.
module SettingsFile {
  import opened Wrappers
  import opened CText

  /** `char line[256]` (settings.c:38, 92, 117). */
  const LineBuffer: nat := 256
  /** `char content[4096]`: at most 4095 characters and the terminator (settings.c:111). */
  const ContentMax: nat := 4095
  /** `DEFAULT_OFFSET` (config.h:9) and `KEY_STRUM_DOWN`, `SDLK_RETURN` (config.h:55). */
  const DefaultOffsetMs: real := -360.0
  const SdlkReturn: int := 13

  /** The fields `settings_load` and `settings_save` handle (settings.h:6-16). */
  datatype Prefs = Prefs(green: int, red: int, yellow: int, blue: int, orange: int, strum: int, offsetMs: real)

  /** `settings_init_defaults` (settings.c:10-18): frets z, x, c, v, b, strum on Return, offset -360 ms. */
  const Defaults: Prefs := Prefs('z' as int, 'x' as int, 'c' as int, 'v' as int, 'b' as int, SdlkReturn, DefaultOffsetMs)

  datatype Key = Green | Red | Yellow | Blue | Orange | Strum

  /** The order in which `settings_load` tries the key lines (settings.c:43-54). */
  const KeyOrder: seq<Key> := [Green, Red, Yellow, Blue, Orange, Strum]

  function KeyName(k: Key): string {
    match k
    case Green => "key_fret_green="
    case Red => "key_fret_red="
    case Yellow => "key_fret_yellow="
    case Blue => "key_fret_blue="
    case Orange => "key_fret_orange="
    case Strum => "key_strum="
  }

  const GlobalOffsetName: string := "global_offset_ms="
  const LegacyOffsetName: string := "offset_ms="
  const SongOffsetName: string := "offset="

  function KeyOf(p: Prefs, k: Key): int {
    match k
    case Green => p.green
    case Red => p.red
    case Yellow => p.yellow
    case Blue => p.blue
    case Orange => p.orange
    case Strum => p.strum
  }

  function WithKey(p: Prefs, k: Key, v: int): (q: Prefs)
    ensures KeyOf(q, k) == v && q.offsetMs == p.offsetMs
    ensures forall o :: o != k ==> KeyOf(q, o) == KeyOf(p, o)
  {
    match k
    case Green => p.(green := v)
    case Red => p.(red := v)
    case Yellow => p.(yellow := v)
    case Blue => p.(blue := v)
    case Orange => p.(orange := v)
    case Strum => p.(strum := v)
  }

  // ------------------------------------------------------------ one line

  /** `sscanf(line, "<name>%d", &value) == 1`: the name, then a `%d` number. */
  function ScanInt(line: string, name: string): Option<int> {
    if !StartsWith(line, name) then None
    else
      match ScanIntAt(line[|name|..], 0)
      case Some((v, _)) => Some(v)
      case None => None
  }

  /** `sscanf(line, "<name>%lf", &dvalue) == 1`. */
  function ScanRealField(line: string, name: string, scanReal: string -> Option<real>): Option<real> {
    if StartsWith(line, name) then scanReal(line[|name|..]) else None
  }

  /** What one line of the settings file does. */
  datatype Action = SetKey(key: Key, value: int) | SetOffset(ms: real) | Ignore

  /** The first of `ks` whose line form matches, with its value. */
  function ScanKeys(line: string, ks: seq<Key>): Option<(Key, int)> {
    if ks == [] then None
    else
      var v := ScanInt(line, KeyName(ks[0]));
      if v.Some? then Some((ks[0], v.value)) else ScanKeys(line, ks[1..])
  }

  /**
   * The `if`/`else if` chain of settings.c:43-60: the six key lines in
   * order, then `global_offset_ms=`, then the legacy `offset_ms=`.
   */
  function Dispatch(line: string, scanReal: string -> Option<real>): Action {
    match ScanKeys(line, KeyOrder)
    case Some((k, v)) => SetKey(k, v)
    case None =>
      var g := ScanRealField(line, GlobalOffsetName, scanReal);
      if g.Some? then SetOffset(g.value)
      else
        var l := ScanRealField(line, LegacyOffsetName, scanReal);
        if l.Some? then SetOffset(l.value) else Ignore
  }

  function Apply(p: Prefs, a: Action): Prefs {
    match a
    case SetKey(k, v) => WithKey(p, k, v)
    case SetOffset(ms) => p.(offsetMs := ms)
    case Ignore => p
  }

  /** No two key names are prefixes of one line. */
  lemma KeyNamesExclusive(line: string, a: Key, b: Key)
    requires StartsWith(line, KeyName(a)) && StartsWith(line, KeyName(b))
    ensures a == b
  {
    assert line[4] == KeyName(a)[4] == KeyName(b)[4];
    assert line[9] == KeyName(a)[9] == KeyName(b)[9];
  }

  lemma {:induction false} ScanKeysIff(line: string, ks: seq<Key>, k: Key, v: int)
    ensures ScanKeys(line, ks) == Some((k, v)) <==> k in ks && ScanInt(line, KeyName(k)) == Some(v)
  {
    if ks != [] {
      ScanKeysIff(line, ks[1..], k, v);
      if ScanInt(line, KeyName(ks[0])).Some? && ScanInt(line, KeyName(k)).Some? {
        KeyNamesExclusive(line, ks[0], k);
      }
    }
  }

  /** A key line sets its key to its value, whatever other key names it might resemble. */
  lemma DispatchKey(line: string, scanReal: string -> Option<real>, k: Key, v: int)
    ensures Dispatch(line, scanReal) == SetKey(k, v) <==> ScanInt(line, KeyName(k)) == Some(v)
  {
    ScanKeysIff(line, KeyOrder, k, v);
  }

  /** A line sets the offset exactly when it is a `global_offset_ms=` or a legacy `offset_ms=` line with a number. */
  lemma DispatchOffset(line: string, scanReal: string -> Option<real>, ms: real)
    ensures Dispatch(line, scanReal) == SetOffset(ms)
      <==> (ScanRealField(line, GlobalOffsetName, scanReal) == Some(ms)
        || ScanRealField(line, LegacyOffsetName, scanReal) == Some(ms))
  {
    if StartsWith(line, GlobalOffsetName) || StartsWith(line, LegacyOffsetName) {
      NoKeyLine(line, KeyOrder);
    }
    if StartsWith(line, GlobalOffsetName) {
      assert line[0] == 'g';
      assert !StartsWith(line, LegacyOffsetName);
    }
  }

  /** A line that starts with something other than 'k' is no key line. */
  lemma {:induction false} NoKeyLine(line: string, ks: seq<Key>)
    requires line != [] && line[0] != 'k'
    ensures ScanKeys(line, ks) == None
  {
    if ks != [] {
      assert KeyName(ks[0])[0] == 'k';
      NoKeyLine(line, ks[1..]);
    }
  }

  // ------------------------------------------------------------ whole file

  predicate SetsKey(a: Action, k: Key) {
    a.SetKey? && a.key == k
  }

  /** The settings after applying `ls` in order to `p` (the loop of settings.c:39-61). */
  function Fold(p: Prefs, ls: seq<string>, scanReal: string -> Option<real>): Prefs {
    if ls == [] then p
    else Apply(Fold(p, ls[..|ls| - 1], scanReal), Dispatch(ls[|ls| - 1], scanReal))
  }

  /** `settings_load` (settings.c:31-64): the defaults, then every line of the file if it opens. */
  function LoadedPrefs(file: Option<string>, scanReal: string -> Option<real>): (p: Prefs)
    ensures file.None? ==> p == Defaults
  {
    if file.None? then Defaults else Fold(Defaults, Lines(file.value, LineBuffer), scanReal)
  }

  /** The last line that sets a key decides it. */
  lemma {:induction false} LastKeyWins(p: Prefs, ls: seq<string>, scanReal: string -> Option<real>, k: Key, j: nat, v: int)
    requires j < |ls| && Dispatch(ls[j], scanReal) == SetKey(k, v)
    requires forall i :: j < i < |ls| ==> !SetsKey(Dispatch(ls[i], scanReal), k)
    ensures KeyOf(Fold(p, ls, scanReal), k) == v
    decreases |ls|
  {
    var q := ls[..|ls| - 1];
    if j < |ls| - 1 {
      assert q[j] == ls[j];
      assert forall i :: j < i < |q| ==> q[i] == ls[i];
      LastKeyWins(p, q, scanReal, k, j, v);
    }
  }

  /** A key no line sets keeps its value. */
  lemma {:induction false} UnsetKeyKept(p: Prefs, ls: seq<string>, scanReal: string -> Option<real>, k: Key)
    requires forall i :: 0 <= i < |ls| ==> !SetsKey(Dispatch(ls[i], scanReal), k)
    ensures KeyOf(Fold(p, ls, scanReal), k) == KeyOf(p, k)
    decreases |ls|
  {
    if ls != [] {
      var q := ls[..|ls| - 1];
      assert forall i :: 0 <= i < |q| ==> q[i] == ls[i];
      UnsetKeyKept(p, q, scanReal, k);
    }
  }

  /** The last line that sets the offset decides it. */
  lemma {:induction false} LastOffsetWins(p: Prefs, ls: seq<string>, scanReal: string -> Option<real>, j: nat, ms: real)
    requires j < |ls| && Dispatch(ls[j], scanReal) == SetOffset(ms)
    requires forall i :: j < i < |ls| ==> !Dispatch(ls[i], scanReal).SetOffset?
    ensures Fold(p, ls, scanReal).offsetMs == ms
    decreases |ls|
  {
    var q := ls[..|ls| - 1];
    if j < |ls| - 1 {
      assert q[j] == ls[j];
      assert forall i :: j < i < |q| ==> q[i] == ls[i];
      LastOffsetWins(p, q, scanReal, j, ms);
    }
  }

  /** An offset no line sets keeps its value. */
  lemma {:induction false} UnsetOffsetKept(p: Prefs, ls: seq<string>, scanReal: string -> Option<real>)
    requires forall i :: 0 <= i < |ls| ==> !Dispatch(ls[i], scanReal).SetOffset?
    ensures Fold(p, ls, scanReal).offsetMs == p.offsetMs
    decreases |ls|
  {
    if ls != [] {
      var q := ls[..|ls| - 1];
      assert forall i :: 0 <= i < |q| ==> q[i] == ls[i];
      UnsetOffsetKept(p, q, scanReal);
    }
  }

  // ------------------------------------------------------------ saving

  /** `fprintf(f, "<name>%d\n", value)`. */
  function KeyLine(k: Key, v: int): string {
    KeyName(k) + FormatInt(v) + "\n"
  }

  /** The lines `settings_save` writes (settings.c:74-80): the six keys in order, then the offset. */
  function SavedLines(p: Prefs, fmtReal: real -> string): (ls: seq<string>)
    ensures |ls| == 7
    ensures forall j :: 0 <= j < 6 ==> ls[j] == KeyLine(KeyOrder[j], KeyOf(p, KeyOrder[j]))
    ensures ls[6] == GlobalOffsetName + fmtReal(p.offsetMs) + "\n"
  {
    [KeyLine(Green, p.green), KeyLine(Red, p.red), KeyLine(Yellow, p.yellow), KeyLine(Blue, p.blue),
     KeyLine(Orange, p.orange), KeyLine(Strum, p.strum), GlobalOffsetName + fmtReal(p.offsetMs) + "\n"]
  }

  predicate IsInt32(v: int) {
    -0x8000_0000 <= v < 0x8000_0000
  }

  predicate NoNewline(s: string) {
    forall j :: 0 <= j < |s| ==> s[j] != '\n'
  }

  /** What `%lf` makes of the text `%.1f` wrote, `None` when it finds no number. */
  function ReadBack(text: string, scanReal: string -> Option<real>, otherwise: real): real {
    match scanReal(text + "\n")
    case Some(v) => v
    case None => otherwise
  }

  /**
   * Saving and loading again gives back every key code, and the offset as
   * `%lf` reads the `%.1f` text (the default, if it reads no number). The
   * key codes are `SDL_Keycode`s, 32-bit integers, and the offset's text is
   * assumed to fit its line.
   */
  lemma SaveThenLoad(p: Prefs, fmtReal: real -> string, scanReal: string -> Option<real>)
    requires forall k :: IsInt32(KeyOf(p, k))
    requires NoNewline(fmtReal(p.offsetMs)) && |fmtReal(p.offsetMs)| < 200
    ensures forall k :: KeyOf(LoadedPrefs(Some(Concat(SavedLines(p, fmtReal))), scanReal), k) == KeyOf(p, k)
    ensures LoadedPrefs(Some(Concat(SavedLines(p, fmtReal))), scanReal).offsetMs
      == ReadBack(fmtReal(p.offsetMs), scanReal, DefaultOffsetMs)
  {
    SavedLinesRead(p, fmtReal);
    FoldSaved(p, fmtReal, scanReal);
  }

  /** Applying the saved lines to the defaults gives back the saved settings. */
  lemma FoldSaved(p: Prefs, fmtReal: real -> string, scanReal: string -> Option<real>)
    ensures forall k :: KeyOf(Fold(Defaults, SavedLines(p, fmtReal), scanReal), k) == KeyOf(p, k)
    ensures Fold(Defaults, SavedLines(p, fmtReal), scanReal).offsetMs
      == ReadBack(fmtReal(p.offsetMs), scanReal, DefaultOffsetMs)
  {
    var ls := SavedLines(p, fmtReal);
    SavedLinesDispatch(p, fmtReal, scanReal);
    forall k
      ensures KeyOf(Fold(Defaults, ls, scanReal), k) == KeyOf(p, k)
    {
      SavedKeyWins(p, ls, scanReal, k);
    }
    var text := fmtReal(p.offsetMs);
    if scanReal(text + "\n").Some? {
      LastOffsetWins(Defaults, ls, scanReal, 6, scanReal(text + "\n").value);
    } else {
      UnsetOffsetKept(Defaults, ls, scanReal);
    }
  }

  /** The saved lines are short, so `fgets` reads them back one by one. */
  lemma SavedLinesRead(p: Prefs, fmtReal: real -> string)
    requires forall k :: IsInt32(KeyOf(p, k))
    requires NoNewline(fmtReal(p.offsetMs)) && |fmtReal(p.offsetMs)| < 200
    ensures Lines(Concat(SavedLines(p, fmtReal)), LineBuffer) == SavedLines(p, fmtReal)
  {
    var ls := SavedLines(p, fmtReal);
    forall j | 0 <= j < 7
      ensures ShortLine(ls[j], LineBuffer)
    {
      SavedLineShort(p, fmtReal, j);
    }
    LinesOfShortLines(ls, [], LineBuffer);
    assert Concat(ls) + [] == Concat(ls);
  }

  lemma SavedLineShort(p: Prefs, fmtReal: real -> string, j: nat)
    requires forall k :: IsInt32(KeyOf(p, k))
    requires NoNewline(fmtReal(p.offsetMs)) && |fmtReal(p.offsetMs)| < 200
    requires j < 7
    ensures ShortLine(SavedLines(p, fmtReal)[j], LineBuffer)
  {
    if j < 6 {
      KeyLineShort(KeyOrder[j], KeyOf(p, KeyOrder[j]));
    } else {
      NamedLineShort(GlobalOffsetName, fmtReal(p.offsetMs));
    }
  }

  /** Each saved key line sets its own key, and the offset line sets the offset when `%lf` reads it. */
  lemma SavedLinesDispatch(p: Prefs, fmtReal: real -> string, scanReal: string -> Option<real>)
    ensures forall j :: 0 <= j < 6 ==>
      Dispatch(SavedLines(p, fmtReal)[j], scanReal) == SetKey(KeyOrder[j], KeyOf(p, KeyOrder[j]))
    ensures Dispatch(SavedLines(p, fmtReal)[6], scanReal)
      == match scanReal(fmtReal(p.offsetMs) + "\n") { case Some(v) => SetOffset(v) case None => Ignore }
  {
    forall j | 0 <= j < 6
      ensures Dispatch(SavedLines(p, fmtReal)[j], scanReal) == SetKey(KeyOrder[j], KeyOf(p, KeyOrder[j]))
    {
      DispatchKeyLine(KeyOrder[j], KeyOf(p, KeyOrder[j]), scanReal);
    }
    DispatchOffsetLine(fmtReal(p.offsetMs), scanReal);
  }

  lemma DispatchOffsetLine(text: string, scanReal: string -> Option<real>)
    ensures Dispatch(GlobalOffsetName + text + "\n", scanReal)
      == match scanReal(text + "\n") { case Some(v) => SetOffset(v) case None => Ignore }
  {
    var line := GlobalOffsetName + text + "\n";
    assert line[0] == 'g';
    NoKeyLine(line, KeyOrder);
    SplitAt(GlobalOffsetName, text + "\n");
    assert line == GlobalOffsetName + (text + "\n");
    FirstCharDiffers(line, LegacyOffsetName);
  }

  /** A concatenation splits back into its two parts. */
  lemma SplitAt(a: string, b: string)
    ensures (a + b)[..|a|] == a && (a + b)[|a|..] == b
  {
  }

  lemma FirstCharDiffers(line: string, name: string)
    requires line != [] && name != [] && line[0] != name[0]
    ensures !StartsWith(line, name)
  {
    if |name| <= |line| {
      assert line[..|name|][0] == line[0];
    }
  }

  lemma SavedKeyWins(p: Prefs, ls: seq<string>, scanReal: string -> Option<real>, k: Key)
    requires |ls| == 7 && !Dispatch(ls[6], scanReal).SetKey?
    requires forall j :: 0 <= j < 6 ==> Dispatch(ls[j], scanReal) == SetKey(KeyOrder[j], KeyOf(p, KeyOrder[j]))
    ensures KeyOf(Fold(Defaults, ls, scanReal), k) == KeyOf(p, k)
  {
    var j := KeyIndex(k);
    forall i | j < i < |ls|
      ensures !SetsKey(Dispatch(ls[i], scanReal), k)
    {
      if i < 6 {
        KeyIndexOf(i);
      }
    }
    LastKeyWins(Defaults, ls, scanReal, k, j, KeyOf(p, k));
  }

  lemma KeyIndexOf(i: nat)
    requires i < 6
    ensures KeyIndex(KeyOrder[i]) == i
  {
  }

  function KeyIndex(k: Key): (j: nat)
    ensures j < 6 && KeyOrder[j] == k
  {
    match k
    case Green => 0
    case Red => 1
    case Yellow => 2
    case Blue => 3
    case Orange => 4
    case Strum => 5
  }

  lemma DispatchKeyLine(k: Key, v: int, scanReal: string -> Option<real>)
    ensures Dispatch(KeyLine(k, v), scanReal) == SetKey(k, v)
  {
    var line := KeyLine(k, v);
    SplitAt(KeyName(k), FormatInt(v) + "\n");
    assert line == KeyName(k) + (FormatInt(v) + "\n");
    ScanFormatInt(v, "\n");
    DispatchKey(line, scanReal, k, v);
  }

  lemma KeyLineShort(k: Key, v: int)
    requires IsInt32(v)
    ensures ShortLine(KeyLine(k, v), LineBuffer)
  {
    FormatIntShort(v);
    KeyNameShort(k);
    NamedLineShort(KeyName(k), FormatInt(v));
  }

  /** `name + text + "\n"` is one short line when neither part holds a newline. */
  lemma NamedLineShort(name: string, text: string)
    requires NoNewline(name) && NoNewline(text) && |name| <= 20 && |text| < 200
    ensures ShortLine(name + text + "\n", LineBuffer)
  {
    var a := name + text;
    assert forall j :: 0 <= j < |a| ==> a[j] == if j < |name| then name[j] else text[j - |name|];
    ShortLineOf(a);
  }

  lemma KeyNameShort(k: Key)
    ensures NoNewline(KeyName(k)) && |KeyName(k)| <= 16
  {
  }

  lemma ShortLineOf(a: string)
    requires NoNewline(a) && |a| < LineBuffer - 1
    ensures ShortLine(a + "\n", LineBuffer)
  {
    var l := a + "\n";
    assert forall j :: 0 <= j < |l| - 1 ==> l[j] == a[j];
  }

  /** A 32-bit integer prints in at most 11 characters, none of them a newline. */
  lemma FormatIntShort(v: int)
    requires IsInt32(v)
    ensures |FormatInt(v)| <= 11 && NoNewline(FormatInt(v))
  {
    var n := if v < 0 then -v else v;
    NatDigitsLength(n, 10);
    assert n < Pow10(10);
  }

  function Pow10(e: nat): nat {
    if e == 0 then 1 else 10 * Pow10(e - 1)
  }

  lemma {:induction false} NatDigitsLength(n: nat, e: nat)
    requires 1 <= e && n < Pow10(e)
    ensures |NatDigits(n)| <= e
  {
    if n >= 10 {
      NatDigitsLength(n / 10, e - 1);
    }
  }

  /** The settings as `settings_load`, `settings_save` and the options menu see them (settings.h:6-16). */
  class Settings {
    var keyFretGreen: int
    var keyFretRed: int
    var keyFretYellow: int
    var keyFretBlue: int
    var keyFretOrange: int
    var keyStrum: int
    var globalOffsetMs: real
    var invertedMode: int
    var lookaheadSec: real

    function Fields(): Prefs
      reads this
    {
      Prefs(keyFretGreen, keyFretRed, keyFretYellow, keyFretBlue, keyFretOrange, keyStrum, globalOffsetMs)
    }

    /** A struct the caller declared; its fields hold whatever it holds. */
    constructor (p: Prefs, invertedMode: int, lookaheadSec: real)
      ensures Fields() == p && this.invertedMode == invertedMode && this.lookaheadSec == lookaheadSec
    {
      keyFretGreen, keyFretRed, keyFretYellow := p.green, p.red, p.yellow;
      keyFretBlue, keyFretOrange, keyStrum := p.blue, p.orange, p.strum;
      globalOffsetMs := p.offsetMs;
      this.invertedMode := invertedMode;
      this.lookaheadSec := lookaheadSec;
    }

    /** `settings_init_defaults` (settings.c:10-18); the mode and lookahead are not touched. */
    method InitDefaults()
      modifies this
      ensures Fields() == Defaults
      ensures invertedMode == old(invertedMode) && lookaheadSec == old(lookaheadSec)
    {
      keyFretGreen := 'z' as int;
      keyFretRed := 'x' as int;
      keyFretYellow := 'c' as int;
      keyFretBlue := 'v' as int;
      keyFretOrange := 'b' as int;
      keyStrum := SdlkReturn;
      globalOffsetMs := DefaultOffsetMs;
    }

    /** One pass of the loop of settings.c:39-61. */
    method ApplyLine(line: string, scanReal: string -> Option<real>)
      modifies this
      ensures Fields() == Apply(old(Fields()), Dispatch(line, scanReal))
      ensures invertedMode == old(invertedMode) && lookaheadSec == old(lookaheadSec)
    {
      match Dispatch(line, scanReal)
      case SetKey(Green, v) => keyFretGreen := v;
      case SetKey(Red, v) => keyFretRed := v;
      case SetKey(Yellow, v) => keyFretYellow := v;
      case SetKey(Blue, v) => keyFretBlue := v;
      case SetKey(Orange, v) => keyFretOrange := v;
      case SetKey(Strum, v) => keyStrum := v;
      case SetOffset(ms) => globalOffsetMs := ms;
      case Ignore =>
    }

    /** `settings_load` (settings.c:31-64); `file` is the file's text, `None` when it does not open. */
    method Load(file: Option<string>, scanReal: string -> Option<real>)
      modifies this
      ensures Fields() == LoadedPrefs(file, scanReal)
      ensures invertedMode == old(invertedMode) && lookaheadSec == old(lookaheadSec)
    {
      InitDefaults();
      if file.None? {
        return;
      }
      var ls := Lines(file.value, LineBuffer);
      var i := 0;
      while i < |ls|
        invariant 0 <= i <= |ls|
        invariant Fields() == Fold(Defaults, ls[..i], scanReal)
        invariant invertedMode == old(invertedMode) && lookaheadSec == old(lookaheadSec)
      {
        assert ls[..i + 1][..i] == ls[..i];
        ApplyLine(ls[i], scanReal);
        i := i + 1;
      }
      assert ls[..i] == ls;
    }

    /** `settings_save` (settings.c:66-83): the lines written, in order, when the file opens. */
    method Save(fmtReal: real -> string) returns (written: seq<string>)
      ensures written == SavedLines(Fields(), fmtReal)
    {
      written := [KeyLine(Green, keyFretGreen)];
      written := written + [KeyLine(Red, keyFretRed)];
      written := written + [KeyLine(Yellow, keyFretYellow)];
      written := written + [KeyLine(Blue, keyFretBlue)];
      written := written + [KeyLine(Orange, keyFretOrange)];
      written := written + [KeyLine(Strum, keyStrum)];
      written := written + [GlobalOffsetName + fmtReal(globalOffsetMs) + "\n"];
    }
  }

  // ------------------------------------------------------------ song offset

  /** The `%lf` value of a line that starts with `offset=`. */
  function OffsetOf(line: string, scanReal: string -> Option<real>): Option<real> {
    ScanRealField(line, SongOffsetName, scanReal)
  }

  /** The value of the first line that reads as an offset, 0.0 when none does (settings.c:94-100). */
  function FirstOffset(ls: seq<string>, scanReal: string -> Option<real>): real {
    if ls == [] then 0.0
    else
      match OffsetOf(ls[0], scanReal)
      case Some(v) => v
      case None => FirstOffset(ls[1..], scanReal)
  }

  /** `song_offset_load` (settings.c:85-104): 0.0 when `song.ini` does not open. */
  function SongOffset(file: Option<string>, scanReal: string -> Option<real>): (r: real)
    ensures file.None? ==> r == 0.0
  {
    if file.None? then 0.0 else FirstOffset(Lines(file.value, LineBuffer), scanReal)
  }

  /** The first line that reads as an offset gives the result. */
  lemma {:induction false} FirstOffsetAt(ls: seq<string>, scanReal: string -> Option<real>, j: nat, v: real)
    requires j < |ls| && OffsetOf(ls[j], scanReal) == Some(v)
    requires forall i :: 0 <= i < j ==> OffsetOf(ls[i], scanReal).None?
    ensures FirstOffset(ls, scanReal) == v
  {
    if j > 0 {
      assert OffsetOf(ls[0], scanReal).None?;
      assert forall i :: 0 <= i < j - 1 ==> ls[1..][i] == ls[i + 1];
      FirstOffsetAt(ls[1..], scanReal, j - 1, v);
    }
  }

  /** Without such a line the result is 0.0. */
  lemma {:induction false} FirstOffsetNone(ls: seq<string>, scanReal: string -> Option<real>)
    requires forall i :: 0 <= i < |ls| ==> OffsetOf(ls[i], scanReal).None?
    ensures FirstOffset(ls, scanReal) == 0.0
  {
    if ls != [] {
      assert OffsetOf(ls[0], scanReal).None?;
      assert forall i :: 0 <= i < |ls| - 1 ==> ls[1..][i] == ls[i + 1];
      FirstOffsetNone(ls[1..], scanReal);
    }
  }

  /** The loop of settings.c:94-100, which stops at the first offset line. */
  method LoadSongOffset(file: Option<string>, scanReal: string -> Option<real>) returns (offset: real)
    ensures offset == SongOffset(file, scanReal)
  {
    offset := 0.0;
    if file.None? {
      return;
    }
    var ls := Lines(file.value, LineBuffer);
    var i := 0;
    while i < |ls|
      invariant 0 <= i <= |ls|
      invariant FirstOffset(ls[i..], scanReal) == FirstOffset(ls, scanReal)
    {
      var value := OffsetOf(ls[i], scanReal);
      if value.Some? {
        offset := value.value;
        return;
      }
      assert ls[i..][1..] == ls[i + 1..];
      i := i + 1;
    }
  }

  /** The buffer holds at most 4095 characters: `strncat` and `snprintf` drop the rest. */
  function Capped(s: string): (r: string)
    ensures |r| <= ContentMax && r <= s
    ensures |s| <= ContentMax ==> r == s
    ensures |s| > ContentMax ==> |r| == ContentMax
  {
    if |s| <= ContentMax then s else s[..ContentMax]
  }

  lemma CappedAppend(a: string, b: string)
    ensures Capped(Capped(a) + b) == Capped(a + b)
  {
    if |a| > ContentMax {
      assert (Capped(a) + b)[..ContentMax] == (a + b)[..ContentMax];
    } else {
      assert Capped(a) + b == a + b;
    }
  }

  /** `"offset=%.1f\n"`. */
  function OffsetLine(ms: real, fmtReal: real -> string): string {
    SongOffsetName + fmtReal(ms) + "\n"
  }

  /** The lines kept, in order, with every `offset=` line replaced by `line` (settings.c:117-127). */
  function Rewritten(ls: seq<string>, line: string): (r: seq<string>)
    ensures |r| == |ls|
    ensures forall j :: 0 <= j < |ls| ==> r[j] == if StartsWith(ls[j], SongOffsetName) then line else ls[j]
  {
    if ls == [] then []
    else
      var last := if StartsWith(ls[|ls| - 1], SongOffsetName) then line else ls[|ls| - 1];
      Rewritten(ls[..|ls| - 1], line) + [last]
  }

  predicate HasOffsetLine(ls: seq<string>) {
    exists j :: 0 <= j < |ls| && StartsWith(ls[j], SongOffsetName)
  }

  function Pieces(file: Option<string>): seq<string> {
    if file.None? then [] else Lines(file.value, LineBuffer)
  }

  /**
   * `song_offset_save` as written (settings.c:106-143): the kept lines, and
   * the new line appended straight after them when no `offset=` line was
   * replaced, even when the last kept line has no newline.
   */
  function SavedAsWritten(file: Option<string>, ms: real, fmtReal: real -> string): string {
    var ls := Pieces(file);
    var body := Concat(Rewritten(ls, OffsetLine(ms, fmtReal)));
    Capped(body + if HasOffsetLine(ls) then [] else OffsetLine(ms, fmtReal))
  }

  /** A newline, when the text is not empty and does not end in one. */
  function Separator(body: string): string {
    if body != [] && body[|body| - 1] != '\n' then "\n" else []
  }

  /** The text `song_offset_save` would write with the newline put back before an appended offset line. */
  function Rewrite(file: Option<string>, ms: real, fmtReal: real -> string): string {
    var ls := Pieces(file);
    var body := Concat(Rewritten(ls, OffsetLine(ms, fmtReal)));
    if HasOffsetLine(ls) then body else body + Separator(body) + OffsetLine(ms, fmtReal)
  }

  function SavedOffsetText(file: Option<string>, ms: real, fmtReal: real -> string): string {
    Capped(Rewrite(file, ms, fmtReal))
  }

  /** The two agree except when an offset line is appended after a last line without a newline. */
  lemma SavedAgree(file: Option<string>, ms: real, fmtReal: real -> string)
    requires HasOffsetLine(Pieces(file)) || Separator(Concat(Rewritten(Pieces(file), OffsetLine(ms, fmtReal)))) == []
    ensures SavedOffsetText(file, ms, fmtReal) == SavedAsWritten(file, ms, fmtReal)
  {
  }

  /** A `song.ini` whose last line has no newline. */
  const GluedIni: string := "name=Song"

  /**
   * As written, saving an offset into a `song.ini` whose last line lacks a
   * newline glues the offset onto that line, and loading the file back
   * finds no offset at all, whatever number was saved.
   */
  lemma GluedOffsetLost(ms: real, fmtReal: real -> string, scanReal: string -> Option<real>)
    requires NoNewline(fmtReal(ms)) && |fmtReal(ms)| < 200
    ensures SavedAsWritten(Some(GluedIni), ms, fmtReal) == GluedIni + OffsetLine(ms, fmtReal)
    ensures SongOffset(Some(SavedAsWritten(Some(GluedIni), ms, fmtReal)), scanReal) == 0.0
  {
    var line := OffsetLine(ms, fmtReal);
    GluedPieces(line);
    assert |GluedIni + line| <= ContentMax;
    GluedNoOffset(ms, fmtReal, scanReal);
  }

  /** The glued line is one line, and it does not start with `offset=`. */
  lemma GluedNoOffset(ms: real, fmtReal: real -> string, scanReal: string -> Option<real>)
    requires NoNewline(fmtReal(ms)) && |fmtReal(ms)| < 200
    ensures SongOffset(Some(GluedIni + OffsetLine(ms, fmtReal)), scanReal) == 0.0
  {
    var out := GluedIni + OffsetLine(ms, fmtReal);
    GluedLine(fmtReal(ms));
    assert out == GluedIni + SongOffsetName + fmtReal(ms) + "\n";
    LinesOfShortLines([out], [], LineBuffer);
    assert Concat([out]) + [] == out;
    FirstCharDiffers(out, SongOffsetName);
    assert [out][1..] == [];
    assert FirstOffset([out], scanReal) == FirstOffset([], scanReal);
  }

  lemma GluedPieces(line: string)
    ensures Pieces(Some(GluedIni)) == [GluedIni] && !HasOffsetLine([GluedIni])
    ensures Concat(Rewritten([GluedIni], line)) == GluedIni
  {
    LinesOfLast(GluedIni, LineBuffer);
    FirstCharDiffers(GluedIni, SongOffsetName);
    assert Rewritten([GluedIni], line) == [GluedIni];
  }

  lemma GluedLine(text: string)
    requires NoNewline(text) && |text| < 200
    ensures ShortLine(GluedIni + SongOffsetName + text + "\n", LineBuffer)
  {
    var name := GluedIni + SongOffsetName;
    assert NoNewline(name);
    NamedLineShort(name, text);
  }

  /**
   * Every line of the result of a rewrite is either the new offset line or a
   * line that does not start with `offset=`; reading the first offset back
   * then gives the new value, or 0.0 when `%lf` reads no number from it.
   */
  lemma {:induction false} FirstOffsetOfRewrite(r: seq<string>, line: string, scanReal: string -> Option<real>)
    requires StartsWith(line, SongOffsetName) && line in r
    requires forall j :: 0 <= j < |r| ==> r[j] == line || !StartsWith(r[j], SongOffsetName)
    ensures FirstOffset(r, scanReal) == match OffsetOf(line, scanReal) { case Some(v) => v case None => 0.0 }
  {
    if r[0] == line {
      if OffsetOf(line, scanReal).None? {
        assert forall j :: 0 <= j < |r| - 1 ==> r[1..][j] == r[j + 1];
        FirstOffsetRest(r[1..], line, scanReal);
      }
    } else {
      assert forall j :: 0 <= j < |r| - 1 ==> r[1..][j] == r[j + 1];
      FirstOffsetOfRewrite(r[1..], line, scanReal);
    }
  }

  lemma FirstOffsetRest(r: seq<string>, line: string, scanReal: string -> Option<real>)
    requires OffsetOf(line, scanReal).None?
    requires forall j :: 0 <= j < |r| ==> r[j] == line || !StartsWith(r[j], SongOffsetName)
    ensures FirstOffset(r, scanReal) == 0.0
  {
    FirstOffsetNone(r, scanReal);
  }

  /** `song_offset_save`'s loop and append (settings.c:106-143), with the newline put back; returns the text written. */
  method SaveSongOffset(file: Option<string>, ms: real, fmtReal: real -> string) returns (content: string)
    ensures content == SavedOffsetText(file, ms, fmtReal)
  {
    var line := OffsetLine(ms, fmtReal);
    var ls := Pieces(file);
    content := [];
    var hasOffset := false;
    var i := 0;
    while i < |ls|
      invariant 0 <= i <= |ls|
      invariant content == Capped(Concat(Rewritten(ls[..i], line)))
      invariant hasOffset == HasOffsetLine(ls[..i])
    {
      RewriteStep(ls, i, line);
      if StartsWith(ls[i], SongOffsetName) {
        content := Capped(content + line);
        hasOffset := true;
      } else {
        content := Capped(content + ls[i]);
      }
      i := i + 1;
    }
    assert ls[..i] == ls;
    ghost var body := Concat(Rewritten(ls, line));
    if !hasOffset {
      ghost var c0 := content;
      if content != [] && content[|content| - 1] != '\n' {
        content := Capped(content + "\n");
      }
      TailStep(body, c0, content, line);
      content := Capped(content + line);
    }
  }

  /**
   * With the newline put back, saving an offset into a `song.ini` of short
   * lines (the last one possibly without its newline) and loading it again
   * gives the offset `%lf` reads from the saved line, or 0.0 when it reads
   * no number, whenever the result fits the buffer.
   */
  lemma RewriteThenLoad(ls: seq<string>, last: string, ms: real, fmtReal: real -> string, scanReal: string -> Option<real>)
    requires forall j :: 0 <= j < |ls| ==> ShortLine(ls[j], LineBuffer)
    requires NoNewline(last) && |last| < LineBuffer - 1
    requires NoNewline(fmtReal(ms)) && |fmtReal(ms)| < 200
    requires |Rewrite(Some(Concat(ls) + last), ms, fmtReal)| <= ContentMax
    ensures SongOffset(Some(SavedOffsetText(Some(Concat(ls) + last), ms, fmtReal)), scanReal)
      == match OffsetOf(OffsetLine(ms, fmtReal), scanReal) { case Some(v) => v case None => 0.0 }
  {
    var line := OffsetLine(ms, fmtReal);
    var text := Rewrite(Some(Concat(ls) + last), ms, fmtReal);
    var out := RewriteLines(ls, last, ms, fmtReal);
    assert SavedOffsetText(Some(Concat(ls) + last), ms, fmtReal) == text;
    assert SongOffset(Some(text), scanReal) == FirstOffset(out, scanReal);
    OffsetLineStarts(ms, fmtReal);
    FirstOffsetOfRewrite(out, line, scanReal);
  }

  lemma OffsetLineStarts(ms: real, fmtReal: real -> string)
    ensures StartsWith(OffsetLine(ms, fmtReal), SongOffsetName)
  {
    SplitAt(SongOffsetName, fmtReal(ms) + "\n");
    assert OffsetLine(ms, fmtReal) == SongOffsetName + (fmtReal(ms) + "\n");
  }

  /** The lines the rewrite writes, which `fgets` reads back one by one. */
  lemma RewriteLines(ls: seq<string>, last: string, ms: real, fmtReal: real -> string) returns (out: seq<string>)
    requires forall j :: 0 <= j < |ls| ==> ShortLine(ls[j], LineBuffer)
    requires NoNewline(last) && |last| < LineBuffer - 1
    requires NoNewline(fmtReal(ms)) && |fmtReal(ms)| < 200
    ensures Rewrite(Some(Concat(ls) + last), ms, fmtReal) == Concat(out)
    ensures Lines(Concat(out), LineBuffer) == out
    ensures OffsetLine(ms, fmtReal) in out
    ensures forall j :: 0 <= j < |out| ==> out[j] == OffsetLine(ms, fmtReal) || !StartsWith(out[j], SongOffsetName)
  {
    var line := OffsetLine(ms, fmtReal);
    NamedLineShort(SongOffsetName, fmtReal(ms));
    var ps := FileRead(ls, last);
    if HasOffsetLine(ps) {
      out := ReplacedLines(ls, last, line);
    } else {
      out := AppendedLines(ls, last, line);
    }
  }

  /** The pieces of a file of short lines, with a last line that may lack its newline. */
  lemma FileRead(ls: seq<string>, last: string) returns (ps: seq<string>)
    requires forall j :: 0 <= j < |ls| ==> ShortLine(ls[j], LineBuffer)
    requires NoNewline(last) && |last| < LineBuffer - 1
    ensures ps == ls + (if last == [] then [] else [last])
    ensures Pieces(Some(Concat(ls) + last)) == ps
  {
    ps := ls + (if last == [] then [] else [last]);
    LinesOfShortLines(ls, last, LineBuffer);
  }

  /** When an `offset=` line is replaced, the kept and replaced lines are read back as they are. */
  lemma ReplacedLines(ls: seq<string>, last: string, line: string) returns (out: seq<string>)
    requires forall j :: 0 <= j < |ls| ==> ShortLine(ls[j], LineBuffer)
    requires NoNewline(last) && |last| < LineBuffer - 1
    requires ShortLine(line, LineBuffer)
    requires HasOffsetLine(ls + (if last == [] then [] else [last]))
    ensures out == Rewritten(ls + (if last == [] then [] else [last]), line)
    ensures Lines(Concat(out), LineBuffer) == out
    ensures line in out
    ensures forall j :: 0 <= j < |out| ==> out[j] == line || !StartsWith(out[j], SongOffsetName)
  {
    var ps := ls + (if last == [] then [] else [last]);
    out := Rewritten(ps, line);
    ReplacedRead(ls, last, line);
    RewrittenHasLine(ps, line);
  }

  /** A rewrite that replaces a line holds the new line, and no other `offset=` line. */
  lemma RewrittenHasLine(ps: seq<string>, line: string)
    requires HasOffsetLine(ps)
    ensures line in Rewritten(ps, line)
    ensures forall j :: 0 <= j < |ps| ==> Rewritten(ps, line)[j] == line || !StartsWith(Rewritten(ps, line)[j], SongOffsetName)
  {
    var j :| 0 <= j < |ps| && StartsWith(ps[j], SongOffsetName);
    assert Rewritten(ps, line)[j] == line;
  }

  lemma ReplacedRead(ls: seq<string>, last: string, line: string)
    requires forall j :: 0 <= j < |ls| ==> ShortLine(ls[j], LineBuffer)
    requires NoNewline(last) && |last| < LineBuffer - 1
    requires ShortLine(line, LineBuffer)
    ensures var out := Rewritten(ls + (if last == [] then [] else [last]), line);
      Lines(Concat(out), LineBuffer) == out
  {
    var ps := ls + (if last == [] then [] else [last]);
    if last == [] {
      assert ps == ls;
      RewrittenShort(ls, line);
      ShortLinesRead(Rewritten(ls, line));
    } else {
      assert ps == ls + [last];
      ReplacedReadLast(ls, last, line);
    }
  }

  lemma ReplacedReadLast(ls: seq<string>, last: string, line: string)
    requires forall j :: 0 <= j < |ls| ==> ShortLine(ls[j], LineBuffer)
    requires last != [] && NoNewline(last) && |last| < LineBuffer - 1
    requires ShortLine(line, LineBuffer)
    ensures Lines(Concat(Rewritten(ls + [last], line)), LineBuffer) == Rewritten(ls + [last], line)
  {
    var r0 := Rewritten(ls, line);
    RewrittenShort(ls, line);
    var ps := ls + [last];
    PrefixesOfSnoc(ls, last);
    RewrittenSnoc(ps, |ls|, line);
    if StartsWith(last, SongOffsetName) {
      ShortLinesSnocRead(r0, line);
    } else {
      LastLineRead(r0, last);
    }
  }

  lemma RewrittenShort(ls: seq<string>, line: string)
    requires forall j :: 0 <= j < |ls| ==> ShortLine(ls[j], LineBuffer)
    requires ShortLine(line, LineBuffer)
    ensures forall j :: 0 <= j < |ls| ==> ShortLine(Rewritten(ls, line)[j], LineBuffer)
  {
    var r := Rewritten(ls, line);
    forall j | 0 <= j < |ls|
      ensures ShortLine(r[j], LineBuffer)
    {
      if StartsWith(ls[j], SongOffsetName) {
        assert r[j] == line;
      } else {
        assert r[j] == ls[j];
      }
    }
  }

  lemma PrefixesOfSnoc<T>(ls: seq<T>, x: T)
    ensures (ls + [x])[..|ls|] == ls && (ls + [x])[..|ls| + 1] == ls + [x]
  {
  }

  lemma ShortLinesSnocRead(ls: seq<string>, line: string)
    requires forall j :: 0 <= j < |ls| ==> ShortLine(ls[j], LineBuffer)
    requires ShortLine(line, LineBuffer)
    ensures Lines(Concat(ls + [line]), LineBuffer) == ls + [line]
  {
    var out := ls + [line];
    assert forall j :: 0 <= j < |out| ==> ShortLine(out[j], LineBuffer);
    ShortLinesRead(out);
  }

  lemma LastLineRead(ls: seq<string>, last: string)
    requires forall j :: 0 <= j < |ls| ==> ShortLine(ls[j], LineBuffer)
    requires last != [] && NoNewline(last) && |last| < LineBuffer
    ensures Lines(Concat(ls + [last]), LineBuffer) == ls + [last]
  {
    ConcatSnoc(ls, last);
    LinesOfShortLines(ls, last, LineBuffer);
  }

  lemma ShortLinesRead(ls: seq<string>)
    requires forall j :: 0 <= j < |ls| ==> ShortLine(ls[j], LineBuffer)
    ensures Lines(Concat(ls), LineBuffer) == ls
  {
    LinesOfShortLines(ls, [], LineBuffer);
    assert Concat(ls) + [] == Concat(ls);
  }

  /**
   * When no `offset=` line is there, the lines are kept, the last one gets
   * its newline back, and the new line follows.
   */
  lemma AppendedLines(ls: seq<string>, last: string, line: string) returns (out: seq<string>)
    requires forall j :: 0 <= j < |ls| ==> ShortLine(ls[j], LineBuffer)
    requires NoNewline(last) && |last| < LineBuffer - 1
    requires ShortLine(line, LineBuffer)
    requires !HasOffsetLine(ls + (if last == [] then [] else [last]))
    ensures var body := Concat(Rewritten(ls + (if last == [] then [] else [last]), line));
      body + Separator(body) + line == Concat(out)
    ensures Lines(Concat(out), LineBuffer) == out
    ensures line in out
    ensures forall j :: 0 <= j < |out| ==> out[j] == line || !StartsWith(out[j], SongOffsetName)
  {
    var ps := ls + (if last == [] then [] else [last]);
    assert Rewritten(ps, line) == ps;
    if last == [] {
      assert ps == ls;
      out := AppendedToLines(ls, line);
    } else {
      assert !StartsWith(ps[|ls|], SongOffsetName);
      NewlineNoPrefix(last);
      out := AppendedToLast(ls, last, line);
    }
  }

  lemma AppendedToLines(ls: seq<string>, line: string) returns (out: seq<string>)
    requires forall j :: 0 <= j < |ls| ==> ShortLine(ls[j], LineBuffer)
    requires ShortLine(line, LineBuffer)
    ensures out == ls + [line]
    ensures Concat(ls) + Separator(Concat(ls)) + line == Concat(out)
    ensures Lines(Concat(out), LineBuffer) == out
  {
    out := ls + [line];
    assert Separator(Concat(ls)) == [] by {
      ConcatLinesEnd(ls);
    }
    assert Concat(out) == Concat(ls) + line by {
      ConcatSnoc(ls, line);
    }
    ShortLinesRead(out);
  }

  lemma AppendedToLast(ls: seq<string>, last: string, line: string) returns (out: seq<string>)
    requires forall j :: 0 <= j < |ls| ==> ShortLine(ls[j], LineBuffer)
    requires last != [] && NoNewline(last) && |last| < LineBuffer - 1
    requires ShortLine(line, LineBuffer)
    ensures out == ls + [last + "\n", line]
    ensures Concat(ls + [last]) + Separator(Concat(ls + [last])) + line == Concat(out)
    ensures Lines(Concat(out), LineBuffer) == out
  {
    var l1 := last + "\n";
    out := ls + [l1, line];
    var c := Concat(ls);
    assert Concat(ls + [last]) == c + last by {
      ConcatSnoc(ls, last);
    }
    assert Separator(c + last) == "\n";
    assert Concat(out) == c + l1 + line by {
      ConcatSnoc(ls, l1);
      assert out == (ls + [l1]) + [line];
      ConcatSnoc(ls + [l1], line);
    }
    assert c + last + "\n" + line == c + l1 + line;
    assert Lines(Concat(out), LineBuffer) == out by {
      ShortLineOf(last);
      assert forall j :: 0 <= j < |out| ==> ShortLine(out[j], LineBuffer);
      LinesOfShortLines(out, [], LineBuffer);
      assert Concat(out) + [] == Concat(out);
    }
  }

  /** Newline-terminated lines put together end in a newline, unless there are none. */
  lemma {:induction false} ConcatLinesEnd(ls: seq<string>)
    requires forall j :: 0 <= j < |ls| ==> ShortLine(ls[j], LineBuffer)
    ensures Concat(ls) == [] || Concat(ls)[|Concat(ls)| - 1] == '\n'
  {
    if ls != [] {
      ConcatLinesEnd(ls[1..]);
    }
  }

  /** Putting a newline after a line does not make it an `offset=` line. */
  lemma NewlineNoPrefix(last: string)
    requires NoNewline(last) && !StartsWith(last, SongOffsetName)
    ensures !StartsWith(last + "\n", SongOffsetName)
  {
    var l1 := last + "\n";
    if |last| >= |SongOffsetName| {
      assert l1[..|SongOffsetName|] == last[..|SongOffsetName|];
    } else if |last| + 1 == |SongOffsetName| {
      assert l1[|last|] == '\n';
      assert SongOffsetName[|last|] == '=';
    }
  }

  /** One pass of the loop of settings.c:117-127 appends the kept or replaced line, within the buffer. */
  lemma RewriteStep(ls: seq<string>, i: nat, line: string)
    requires i < |ls|
    ensures Capped(Capped(Concat(Rewritten(ls[..i], line)))
        + (if StartsWith(ls[i], SongOffsetName) then line else ls[i]))
      == Capped(Concat(Rewritten(ls[..i + 1], line)))
    ensures HasOffsetLine(ls[..i + 1]) == (HasOffsetLine(ls[..i]) || StartsWith(ls[i], SongOffsetName))
  {
    var done := Rewritten(ls[..i], line);
    var piece := if StartsWith(ls[i], SongOffsetName) then line else ls[i];
    RewrittenSnoc(ls, i, line);
    ConcatSnoc(done, piece);
    CappedAppend(Concat(done), piece);
    HasOffsetSnoc(ls, i);
  }

  lemma RewrittenSnoc(ls: seq<string>, i: nat, line: string)
    requires i < |ls|
    ensures Rewritten(ls[..i + 1], line)
      == Rewritten(ls[..i], line) + [if StartsWith(ls[i], SongOffsetName) then line else ls[i]]
  {
    assert ls[..i + 1][..i] == ls[..i];
  }

  lemma HasOffsetSnoc(ls: seq<string>, i: nat)
    requires i < |ls|
    ensures HasOffsetLine(ls[..i + 1]) == (HasOffsetLine(ls[..i]) || StartsWith(ls[i], SongOffsetName))
  {
    var a := ls[..i];
    var b := ls[..i + 1];
    assert forall j :: 0 <= j < i ==> a[j] == b[j];
    assert b[i] == ls[i];
  }

  /** The newline put back before the appended offset line, and the append, within the buffer. */
  lemma TailStep(body: string, c0: string, c1: string, line: string)
    requires c0 == Capped(body)
    requires c1 == if c0 != [] && c0[|c0| - 1] != '\n' then Capped(c0 + "\n") else c0
    ensures Capped(c1 + line) == Capped(body + Separator(body) + line)
  {
    if |body| <= ContentMax {
      CappedAppend(body + Separator(body), line);
      CappedAppend(body, "\n");
    } else {
      assert |c0| == ContentMax;
      assert Capped(c0 + "\n") == c0;
      assert Capped(c0 + line) == c0;
      assert (body + Separator(body) + line)[..ContentMax] == body[..ContentMax];
    }
  }

  lemma {:induction false} ConcatSnoc(ls: seq<string>, x: string)
    ensures Concat(ls + [x]) == Concat(ls) + x
  {
    if ls != [] {
      assert (ls + [x])[1..] == ls[1..] + [x];
      ConcatSnoc(ls[1..], x);
    }
  }
}

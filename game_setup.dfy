/// The helpers of main.c that decide what is played before the game loop
/// starts: difficulty names, the best difficulty and highest track present,
/// per-stem gains and mutes, the `song.ini` readers, and the small integer
/// rules of the selector screens (wrap-around, scrolling, stars, cropping).
/// A file is the text `fgets` reads from it, cut into 256-byte pieces
/// (`Lines`); `None` is a file that does not open.
module GameSetup {
  import opened Wrappers
  import opened CText
  import opened MidiTypes
  import opened Vectors

  // ------------------------------------------------------------ difficulties

  /** `diff_name` (main.c:672-680). */
  function DiffName(d: int): string {
    if d == 0 then "easy"
    else if d == 1 then "medium"
    else if d == 2 then "hard"
    else if d == 3 then "expert"
    else "unknown"
  }

  /** `parse_diff` (main.c:682-689); `None` is a null pointer. */
  function ParseDiff(s: Option<string>): (d: int)
    ensures -1 <= d <= 3
  {
    if s.None? then -1
    else if s.value == "easy" then 0
    else if s.value == "medium" then 1
    else if s.value == "hard" then 2
    else if s.value == "expert" then 3
    else -1
  }

  /** The four names read back as their difficulties. */
  lemma ParseDiffName(d: int)
    requires 0 <= d <= 3
    ensures ParseDiff(Some(DiffName(d))) == d
  {
  }

  /** Every other string, and the null pointer, gives -1; a recognised one names its difficulty. */
  lemma ParseDiffOther(s: Option<string>)
    ensures ParseDiff(s) == -1
      <==> s.None? || (s.value != "easy" && s.value != "medium" && s.value != "hard" && s.value != "expert")
    ensures ParseDiff(s) >= 0 ==> DiffName(ParseDiff(s)) == s.value
  {
  }

  /** `choose_best_diff_present` (main.c:691-697): the highest difficulty of any note, -1 for none. */
  method BestDiff(notes: Vector<NoteOn>) returns (best: int)
    requires notes.Valid()
    ensures best >= -1
    ensures forall x :: x in notes.Items() ==> x.diff <= best
    ensures best == -1 || exists x :: x in notes.Items() && x.diff == best
  {
    best := -1;
    var i := 0;
    while i < notes.n
      invariant 0 <= i <= notes.n
      invariant best >= -1
      invariant forall j :: 0 <= j < i ==> notes.data[j].diff <= best
      invariant best == -1 || exists j :: 0 <= j < i && notes.data[j].diff == best
    {
      if notes.data[i].diff > best {
        best := notes.data[i].diff;
      }
      i := i + 1;
    }
    assert notes.Items() == notes.data[..notes.n];
  }

  /** `find_max_track` (main.c:699-706): the highest track of any note, 0 for none. */
  method MaxTrack(notes: Vector<NoteOn>) returns (maxTrack: int)
    requires notes.Valid()
    ensures maxTrack >= 0
    ensures forall x :: x in notes.Items() ==> x.track <= maxTrack
    ensures maxTrack == 0 || exists x :: x in notes.Items() && x.track == maxTrack
  {
    maxTrack := 0;
    var i := 0;
    while i < notes.n
      invariant 0 <= i <= notes.n
      invariant maxTrack >= 0
      invariant forall j :: 0 <= j < i ==> notes.data[j].track <= maxTrack
      invariant maxTrack == 0 || exists j :: 0 <= j < i && notes.data[j].track == maxTrack
    {
      if notes.data[i].track > maxTrack {
        maxTrack := notes.data[i].track;
      }
      i := i + 1;
    }
    assert notes.Items() == notes.data[..notes.n];
  }

  // ------------------------------------------------------------ gains and mutes

  /** One `--gain name=value` entry (main.c:648-651). */
  datatype GainEntry = GainEntry(name: string, gain: real)

  /** `gain_for` (main.c:708-714): the gain of the first entry named `stem`, 1.0 when none is. */
  method GainFor(gains: seq<GainEntry>, stem: string) returns (g: real)
    ensures (forall i :: 0 <= i < |gains| ==> gains[i].name != stem) ==> g == 1.0
    ensures forall i :: (0 <= i < |gains| && gains[i].name == stem && (forall j :: 0 <= j < i ==> gains[j].name != stem))
                       ==> g == gains[i].gain
  {
    var i := 0;
    while i < |gains|
      invariant 0 <= i <= |gains|
      invariant forall j :: 0 <= j < i ==> gains[j].name != stem
    {
      if gains[i].name == stem {
        return gains[i].gain;
      }
      i := i + 1;
    }
    return 1.0;
  }

  /** `muted` (main.c:716-722): whether `stem` is one of the muted names. */
  method Muted(mutes: seq<string>, stem: string) returns (m: bool)
    ensures m <==> stem in mutes
  {
    var i := 0;
    while i < |mutes|
      invariant 0 <= i <= |mutes|
      invariant stem !in mutes[..i]
    {
      if mutes[i] == stem {
        return true;
      }
      assert mutes[..i + 1] == mutes[..i] + [mutes[i]];
      i := i + 1;
    }
    assert mutes[..i] == mutes;
    return false;
  }

  // ------------------------------------------------------------ song.ini lines

  /** The `fgets` buffer of both readers (main.c:128, 216). */
  const LineBuffer: nat := 256

  predicate IsBlank(c: char) {
    c == ' ' || c == '\t'
  }

  /** `while (*p == ' ' || *p == '\t') p++`. */
  function SkipBlanks(s: string): (r: string)
    ensures |r| <= |s| && r == s[|s| - |r|..]
    ensures r == [] || !IsBlank(r[0])
  {
    if s != [] && IsBlank(s[0]) then SkipBlanks(s[1..]) else s
  }

  /** The text after the first `=` of a line, past the blanks that follow it; `None` without `=`. */
  function AfterEq(p: string): Option<string> {
    var i := Find(p, '=', 0);
    if i < |p| then Some(SkipBlanks(p[i + 1..])) else None
  }

  /** `strncpy(dst, src, cap); dst[cap] = '\0'` followed by cutting at the first newline. */
  function Field(v: string, cap: nat): (r: string)
    ensures |r| <= cap && r <= v
    ensures forall j :: 0 <= j < |r| ==> r[j] != '\n'
  {
    var c := if |v| <= cap then v else v[..cap];
    c[..Find(c, '\n', 0)]
  }

  /** The default HOPO threshold in ticks (main.c:213, 227, 233). */
  const DefaultHopo: int := 170

  /** The value of a `hopo_frequency` line with an `=`, as `atoi` reads it. */
  function HopoOfLine(line: string): Option<int> {
    var p := SkipBlanks(line);
    if StartsWith(p, "hopo_frequency") then
      match AfterEq(p)
      case Some(v) => Some(Atoi(v))
      case None => None
    else None
  }

  /** What each line of the file holds for `parse_hopo_from_ini`. */
  function HopoValues(ls: seq<string>): (vs: seq<Option<int>>)
    ensures |vs| == |ls| && forall j :: 0 <= j < |ls| ==> vs[j] == HopoOfLine(ls[j])
  {
    seq(|ls|, j requires 0 <= j < |ls| => HopoOfLine(ls[j]))
  }

  /** The first line that holds a value decides: that value when positive, the default otherwise. */
  function FirstHopo(vs: seq<Option<int>>): int {
    if vs == [] then DefaultHopo
    else
      match vs[0]
      case Some(v) => if v > 0 then v else DefaultHopo
      case None => FirstHopo(vs[1..])
  }

  /** `parse_hopo_from_ini` (main.c:207-234) on the text of `song.ini`. */
  function Hopo(file: Option<string>): int {
    if file.None? then DefaultHopo else FirstHopo(HopoValues(Lines(file.value, LineBuffer)))
  }

  /** The threshold is always positive, and without a line holding a value it is 170. */
  lemma {:induction false} HopoPositive(vs: seq<Option<int>>)
    ensures FirstHopo(vs) > 0
    ensures (forall j :: 0 <= j < |vs| ==> vs[j].None?) ==> FirstHopo(vs) == DefaultHopo
  {
    if vs != [] {
      HopoPositive(vs[1..]);
      assert forall j :: 0 <= j < |vs| - 1 ==> vs[1..][j] == vs[j + 1];
    }
  }

  /** The first line that holds a `hopo_frequency` value decides the threshold. */
  lemma {:induction false} HopoFirst(vs: seq<Option<int>>, j: nat)
    requires j < |vs| && vs[j].Some?
    requires forall i :: 0 <= i < j ==> vs[i].None?
    ensures FirstHopo(vs) == if vs[j].value > 0 then vs[j].value else DefaultHopo
  {
    if j > 0 {
      assert forall i :: 0 <= i < j - 1 ==> vs[1..][i] == vs[i + 1];
      HopoFirst(vs[1..], j - 1);
    }
  }

  /** The `fgets` loop of `parse_hopo_from_ini`; the file's text is given. */
  method ParseHopoFromIni(file: Option<string>) returns (freq: int)
    ensures freq == Hopo(file) && freq > 0
  {
    if file.None? {
      return DefaultHopo;
    }
    var ls := Lines(file.value, LineBuffer);
    var vs := HopoValues(ls);
    HopoPositive(vs);
    var i := 0;
    while i < |ls|
      invariant 0 <= i <= |ls|
      invariant FirstHopo(vs[i..]) == FirstHopo(vs)
    {
      var h := HopoOfLine(ls[i]);
      if h.Some? {
        return if h.value > 0 then h.value else DefaultHopo;
      }
      assert vs[i..][1..] == vs[i + 1..];
      i := i + 1;
    }
    return DefaultHopo;
  }

  // ------------------------------------------------------------ parse_song_ini

  /** The outputs of `parse_song_ini` (main.c:118-119). */
  datatype SongInfo = SongInfo(title: string, artist: string, year: string, diffGuitar: int, loadingPhrase: string)

  /** The cleared outputs (main.c:122-126). */
  const Cleared: SongInfo := SongInfo([], [], [], 0, [])

  /** The tag `parse_song_ini` strips from artists (main.c:158). */
  const Tag: string := "(WaveGroup)"

  /** `strstr(s, p)`: the first index at or after `i` where `p` occurs. */
  function FindSub(s: string, p: string, i: nat): (r: Option<nat>)
    requires i <= |s|
    ensures r.Some? ==> i <= r.value && OccursAt(s, p, r.value)
    ensures r.Some? ==> forall j :: i <= j < r.value ==> !OccursAt(s, p, j)
    ensures r.None? ==> forall j :: i <= j <= |s| ==> !OccursAt(s, p, j)
    decreases |s| - i
  {
    if OccursAt(s, p, i) then Some(i)
    else if i == |s| then None
    else FindSub(s, p, i + 1)
  }

  /** Drop the blanks at the end (the backward walk of main.c:162-164). */
  function TrimBlanksRight(s: string): (r: string)
    ensures r <= s && (r == [] || !IsBlank(r[|r| - 1]))
  {
    if s != [] && IsBlank(s[|s| - 1]) then TrimBlanksRight(s[..|s| - 1]) else s
  }

  /** main.c:157-167: cut the artist at the first `(WaveGroup)` and the blanks before it. */
  function StripTag(a: string): (r: string)
    ensures r <= a
  {
    match FindSub(a, Tag, 0)
    case Some(i) => TrimBlanksRight(a[..i])
    case None => a
  }

  /**
   * The stripped artist is a prefix of the artist with no `(WaveGroup)` in
   * it, with no blank end when a tag was cut off, and the artist itself
   * when it held no tag.
   */
  lemma StripTagProps(a: string)
    ensures !Contains(StripTag(a), Tag)
    ensures Contains(a, Tag) ==> StripTag(a) == [] || !IsBlank(StripTag(a)[|StripTag(a)| - 1])
    ensures !Contains(a, Tag) ==> StripTag(a) == a
  {
    var r := StripTag(a);
    match FindSub(a, Tag, 0)
    case Some(i) =>
      assert |r| <= i;
      forall k | 0 <= k <= |r| - |Tag|
        ensures !OccursAt(r, Tag, k)
      {
        assert |Tag| == 11 && k < i && !OccursAt(a, Tag, k);
        assert r[k..k + |Tag|] == a[k..k + |Tag|];
      }
    case None =>
  }

  /** The text fields of `song.ini`. */
  datatype TextKey = Title | Artist | Year | LoadingPhrase

  /** What a line does: set a text field, set `diff_guitar`, or nothing. */
  datatype IniAction = SetText(key: TextKey, s: string) | SetDiff(n: int) | Skip

  /** The size of each text field's buffer, less the terminator (main.c:118-119). */
  function Cap(k: TextKey): nat {
    if k == Year then 15 else 127
  }

  predicate NoNewline(s: string) {
    forall j :: 0 <= j < |s| ==> s[j] != '\n'
  }

  /**
   * main.c:130-196: past the leading blanks, a line starting with one of the
   * five names sets that field from the text after its `=`, copied into the
   * field's buffer and cut at the newline; a line without `=` and a
   * `diff_guitar_` line (such as `diff_guitar_real = 5`) do nothing.
   */
  function LineAction(line: string): (a: IniAction)
    ensures a.SetText? ==> |a.s| <= Cap(a.key) && NoNewline(a.s)
  {
    var p := SkipBlanks(line);
    var v := AfterEq(p);
    match KeyOf(p)
    case NameKey => SetFrom(Title, v)
    case ArtistKey => SetFrom(Artist, v)
    case YearKey => SetFrom(Year, v)
    case DiffKey => if v.Some? then SetDiff(Atoi(v.value)) else Skip
    case PhraseKey => SetFrom(LoadingPhrase, v)
    case OtherKey => Skip
  }

  /** A text field set from the text after `=`, or nothing without one. */
  function SetFrom(k: TextKey, v: Option<string>): (a: IniAction)
    ensures a.SetText? ==> a.key == k && |a.s| <= Cap(k) && NoNewline(a.s)
  {
    if v.Some? then SetText(k, TextValue(k, v.value)) else Skip
  }

  /** The text a field keeps: cut to its buffer and at the newline, the artist's `(WaveGroup)` tag stripped. */
  function TextValue(k: TextKey, v: string): (r: string)
    ensures |r| <= Cap(k) && NoNewline(r)
  {
    if k == Artist then StripTag(Field(v, 127)) else Field(v, Cap(k))
  }

  /** Which name a line starts with, past its blanks; `diff_guitar` followed by `_` is another name. */
  datatype LineKey = NameKey | ArtistKey | YearKey | DiffKey | PhraseKey | OtherKey

  function KeyOf(p: string): LineKey {
    if StartsWith(p, "name") then NameKey
    else if StartsWith(p, "artist") then ArtistKey
    else if StartsWith(p, "year") then YearKey
    else if StartsWith(p, "diff_guitar") then (if |p| > 11 && p[11] == '_' then OtherKey else DiffKey)
    else if StartsWith(p, "loading_phrase") then PhraseKey
    else OtherKey
  }

  /** What each line of the file does. */
  function Actions(ls: seq<string>): (acts: seq<IniAction>)
    ensures |acts| == |ls| && forall j :: 0 <= j < |ls| ==> acts[j] == LineAction(ls[j])
  {
    seq(|ls|, j requires 0 <= j < |ls| => LineAction(ls[j]))
  }

  function Text(info: SongInfo, k: TextKey): string {
    match k
    case Title => info.title
    case Artist => info.artist
    case Year => info.year
    case LoadingPhrase => info.loadingPhrase
  }

  /** One line's effect on the outputs. */
  function Apply(info: SongInfo, a: IniAction): (r: SongInfo)
    ensures a.SetText? ==> Text(r, a.key) == a.s && r.diffGuitar == info.diffGuitar
    ensures a.SetText? ==> forall k :: k != a.key ==> Text(r, k) == Text(info, k)
    ensures !a.SetText? ==> forall k :: Text(r, k) == Text(info, k)
    ensures r.diffGuitar == if a.SetDiff? then a.n else info.diffGuitar
  {
    match a
    case SetText(Title, s) => info.(title := s)
    case SetText(Artist, s) => info.(artist := s)
    case SetText(Year, s) => info.(year := s)
    case SetText(LoadingPhrase, s) => info.(loadingPhrase := s)
    case SetDiff(n) => info.(diffGuitar := n)
    case Skip => info
  }

  /** The outputs after the actions `acts`, in order. */
  function Ini(info: SongInfo, acts: seq<IniAction>): SongInfo {
    if acts == [] then info else Apply(Ini(info, acts[..|acts| - 1]), acts[|acts| - 1])
  }

  /**
   * `parse_song_ini` (main.c:118-203): 0 and the outputs as they were when
   * the file does not open; otherwise the fields from cleared outputs and
   * whether a title or an artist was found.
   */
  function SongIni(file: Option<string>, prior: SongInfo): (bool, SongInfo) {
    if file.None? then (false, prior)
    else
      var info := Ini(Cleared, Actions(Lines(file.value, LineBuffer)));
      (info.title != [] || info.artist != [], info)
  }

  predicate SetsText(a: IniAction, k: TextKey) {
    a.SetText? && a.key == k
  }

  /** The last line that sets a text field decides it. */
  lemma {:induction false} TextLastWins(info: SongInfo, acts: seq<IniAction>, j: nat, k: TextKey)
    requires j < |acts| && SetsText(acts[j], k)
    requires forall i :: j < i < |acts| ==> !SetsText(acts[i], k)
    ensures Text(Ini(info, acts), k) == acts[j].s
    decreases |acts|
  {
    var q := acts[..|acts| - 1];
    if j < |acts| - 1 {
      assert q[j] == acts[j];
      assert forall i :: j < i < |q| ==> q[i] == acts[i];
      TextLastWins(info, q, j, k);
    }
  }

  /** A text field no line sets keeps its value. */
  lemma {:induction false} TextUnsetKept(info: SongInfo, acts: seq<IniAction>, k: TextKey)
    requires forall i :: 0 <= i < |acts| ==> !SetsText(acts[i], k)
    ensures Text(Ini(info, acts), k) == Text(info, k)
    decreases |acts|
  {
    if acts != [] {
      var q := acts[..|acts| - 1];
      assert forall i :: 0 <= i < |q| ==> q[i] == acts[i];
      TextUnsetKept(info, q, k);
    }
  }

  /** The last `diff_guitar` line decides the difficulty. */
  lemma {:induction false} DiffLastWins(info: SongInfo, acts: seq<IniAction>, j: nat)
    requires j < |acts| && acts[j].SetDiff?
    requires forall i :: j < i < |acts| ==> !acts[i].SetDiff?
    ensures Ini(info, acts).diffGuitar == acts[j].n
    decreases |acts|
  {
    var q := acts[..|acts| - 1];
    if j < |acts| - 1 {
      assert q[j] == acts[j];
      assert forall i :: j < i < |q| ==> q[i] == acts[i];
      DiffLastWins(info, q, j);
    }
  }

  /** Without a `diff_guitar` line the difficulty keeps its value. */
  lemma {:induction false} DiffUnsetKept(info: SongInfo, acts: seq<IniAction>)
    requires forall i :: 0 <= i < |acts| ==> !acts[i].SetDiff?
    ensures Ini(info, acts).diffGuitar == info.diffGuitar
    decreases |acts|
  {
    if acts != [] {
      var q := acts[..|acts| - 1];
      assert forall i :: 0 <= i < |q| ==> q[i] == acts[i];
      DiffUnsetKept(info, q);
    }
  }

  /** A `diff_guitar_...` line, blanks before it or not, changes nothing. */
  lemma DiffGuitarVariantSkipped(line: string)
    requires StartsWith(SkipBlanks(line), "diff_guitar_")
    ensures LineAction(line) == Skip
  {
    KeyOfVariant(SkipBlanks(line));
  }

  lemma KeyOfVariant(p: string)
    requires StartsWith(p, "diff_guitar_")
    ensures KeyOf(p) == OtherKey
  {
    assert p[..11] == "diff_guitar_"[..11] == "diff_guitar";
    assert p[11] == '_';
    FirstCharDiffers(p, "name");
    FirstCharDiffers(p, "artist");
    FirstCharDiffers(p, "year");
  }

  lemma FirstCharDiffers(line: string, name: string)
    requires line != [] && name != [] && line[0] != name[0]
    ensures !StartsWith(line, name)
  {
    if |name| <= |line| {
      assert line[..|name|][0] == line[0];
    }
  }

  /**
   * Text fields hold no newline and fit their buffers: 127 characters for
   * the title, the artist and the loading phrase, 15 for the year.
   */
  predicate Bounded(info: SongInfo) {
    forall k :: |Text(info, k)| <= Cap(k) && NoNewline(Text(info, k))
  }

  lemma {:induction false} IniBounded(info: SongInfo, acts: seq<IniAction>)
    requires Bounded(info)
    requires forall i :: 0 <= i < |acts| ==> acts[i].SetText? ==> |acts[i].s| <= Cap(acts[i].key) && NoNewline(acts[i].s)
    ensures Bounded(Ini(info, acts))
    decreases |acts|
  {
    if acts != [] {
      var q := acts[..|acts| - 1];
      assert forall i :: 0 <= i < |q| ==> q[i] == acts[i];
      IniBounded(info, q);
    }
  }

  /** The `fgets` loop of `parse_song_ini`; the file's text is given. */
  method ParseSongIni(file: Option<string>, prior: SongInfo) returns (found: bool, info: SongInfo)
    ensures (found, info) == SongIni(file, prior)
    ensures file.Some? ==> Bounded(info)
  {
    if file.None? {
      return false, prior;
    }
    var ls := Lines(file.value, LineBuffer);
    var acts := Actions(ls);
    info := Cleared;
    var i := 0;
    while i < |acts|
      invariant 0 <= i <= |acts|
      invariant info == Ini(Cleared, acts[..i])
    {
      assert acts[..i + 1][..i] == acts[..i];
      info := Apply(info, acts[i]);
      i := i + 1;
    }
    assert acts[..i] == acts;
    IniBounded(Cleared, acts);
    found := info.title != [] || info.artist != [];
  }

  // ------------------------------------------------------------ selector screens

  /** Up in a list of `count` entries: one up, from the first to the last (main.c:494, 543, 629). */
  function Prev(sel: int, count: int): int {
    if sel > 0 then sel - 1 else count - 1
  }

  /** Down in a list of `count` entries: one down, from the last to the first (main.c:497, 546, 631). */
  function Next(sel: int, count: int): int {
    if sel < count - 1 then sel + 1 else 0
  }

  /** Up and down keep a selection inside the list and undo each other. */
  lemma WrapProps(sel: int, count: int)
    requires 0 <= sel < count
    ensures 0 <= Prev(sel, count) < count && 0 <= Next(sel, count) < count
    ensures Next(Prev(sel, count), count) == sel && Prev(Next(sel, count), count) == sel
  {
  }

  /** The pause menu's last entry (Exit) and the options menu's (`OPT_COUNT - 1`, main.c:1267, 1276). */
  const PauseLast: int := 4
  const OptCount: int := 8

  /** The in-game menu's up key: decrement, and below 0 jump to `last` (main.c:1265-1271). */
  function MenuUp(sel: int, last: int): int {
    var s := sel - 1;
    if s < 0 then last else s
  }

  /** The in-game menu's down key: increment, and past `last` jump to 0 (main.c:1274-1279). */
  function MenuDown(sel: int, last: int): int {
    var s := sel + 1;
    if s > last then 0 else s
  }

  /** The in-game menu moves exactly as the selector screens do, for any selection. */
  lemma MenuAgrees(sel: int, last: int)
    ensures MenuUp(sel, last) == Prev(sel, last + 1)
    ensures MenuDown(sel, last) == Next(sel, last + 1)
  {
  }

  /** The rows of the song list shown: up to 20 from ten above the selection (main.c:367-368). */
  function Window(selected: int, count: int): (w: (int, int)) {
    var start := if selected > 10 then selected - 10 else 0;
    var end := if start + 20 < count then start + 20 else count;
    (start, end)
  }

  /** The selected song is always on screen, and at most 20 rows are. */
  lemma WindowShowsSelection(selected: int, count: int)
    requires 0 <= selected < count
    ensures var (start, end) := Window(selected, count);
      0 <= start <= selected < end <= count && end - start <= 20
  {
  }

  /** The star buffer `char stars[16]` (main.c:377). */
  const StarBuffer: int := 16

  /**
   * The stars as written (main.c:380-386): the difficulty capped at 10, a
   * star per point, and the terminator stored at `stars[diff]`, the index
   * returned; a negative difficulty draws no star.
   */
  function StarsAsWritten(diff: int): (r: (string, int)) {
    var d := if diff > 10 then 10 else diff;
    (Repeat('*', if d > 0 then d else 0), d)
  }

  /** `atoi` lets `diff_guitar = -1` through, and the terminator then lands at `stars[-1]`. */
  lemma StarsWriteBeforeBuffer()
    ensures StarsAsWritten(-1).1 == -1 && !(0 <= StarsAsWritten(-1).1 < StarBuffer)
  {
  }

  /** The stars with the difficulty clamped to 0..10 before it indexes the buffer. */
  function Stars(diff: int): (r: (string, int)) {
    var d := if diff > 10 then 10 else if diff < 0 then 0 else diff;
    (Repeat('*', d), d)
  }

  /** The corrected stars: the terminator inside the buffer, right after a row of at most ten stars. */
  lemma StarsProps(diff: int)
    ensures var (s, nul) := Stars(diff);
      0 <= nul < StarBuffer && |s| == nul <= 10
      && (forall j :: 0 <= j < |s| ==> s[j] == '*')
      && (0 <= diff <= 10 ==> |s| == diff)
      && (diff >= 0 ==> Stars(diff) == StarsAsWritten(diff))
  {
    RepeatProps('*', if diff > 10 then 10 else if diff < 0 then 0 else diff);
  }

  function Repeat(c: char, n: nat): string {
    if n == 0 then [] else [c] + Repeat(c, n - 1)
  }

  lemma {:induction false} RepeatProps(c: char, n: nat)
    ensures |Repeat(c, n)| == n && forall j :: 0 <= j < n ==> Repeat(c, n)[j] == c
  {
    if n > 0 {
      RepeatProps(c, n - 1);
    }
  }

  /** The width of the title and artist columns (main.c:385-400). */
  const Column: nat := 30

  /** `strncpy(d, s, 30)`, with the last three places turned to dots when `s` is longer. */
  function Crop(s: string): string {
    var d := if |s| <= Column then s else s[..Column];
    if |s| > Column then d[..27] + "..." else d
  }

  /** A cropped text fits the column: unchanged when it fits, else its first 27 characters and three dots. */
  lemma CropProps(s: string)
    ensures |Crop(s)| <= Column
    ensures |s| <= Column ==> Crop(s) == s
    ensures |s| > Column ==> |Crop(s)| == Column && Crop(s)[..27] == s[..27] && Crop(s)[27..] == "..."
  {
  }
}

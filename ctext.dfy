/// The C library text routines the core relies on, at the precision the game
/// needs: `isspace` in the C locale, `%d` scanning (`sscanf`, `atoi`), `%d`
/// formatting, prefix tests (`strncmp`) and the way a `fgets` loop with a
/// fixed buffer cuts a file into pieces.
module CText {
  import opened Wrappers

  /** `isspace` in the "C" locale. */
  predicate IsSpace(c: char) {
    c == ' ' || c == '\t' || c == '\n' || c == '\U{000B}' || c == '\U{000C}' || c == '\r'
  }

  predicate IsDigit(c: char) {
    '0' <= c <= '9'
  }

  function DigitValue(c: char): (d: nat)
    requires IsDigit(c)
    ensures d < 10
  {
    (c - '0') as nat
  }

  function DigitChar(d: nat): (c: char)
    requires d < 10
    ensures IsDigit(c) && DigitValue(c) == d
  {
    '0' + d as char
  }

  /** `strncmp(s, p, strlen(p)) == 0`. */
  predicate StartsWith(s: string, p: string) {
    |p| <= |s| && s[..|p|] == p
  }

  /** `strstr(s, p) != NULL`. */
  predicate Contains(s: string, p: string) {
    exists i :: 0 <= i <= |s| - |p| && OccursAt(s, p, i)
  }

  predicate OccursAt(s: string, p: string, i: nat) {
    i + |p| <= |s| && s[i..i + |p|] == p
  }

  /** First index at or after `i` that is not white space. */
  function SkipSpaces(s: string, i: nat): (j: nat)
    requires i <= |s|
    ensures i <= j <= |s|
    ensures forall k :: i <= k < j ==> IsSpace(s[k])
    ensures j == |s| || !IsSpace(s[j])
    decreases |s| - i
  {
    if i < |s| && IsSpace(s[i]) then SkipSpaces(s, i + 1) else i
  }

  /** First index at or after `i` that is not a decimal digit. */
  function DigitsEnd(s: string, i: nat): (j: nat)
    requires i <= |s|
    ensures i <= j <= |s|
    ensures forall k :: i <= k < j ==> IsDigit(s[k])
    ensures j == |s| || !IsDigit(s[j])
    decreases |s| - i
  {
    if i < |s| && IsDigit(s[i]) then DigitsEnd(s, i + 1) else i
  }

  /** The value of a string of decimal digits, most significant first. */
  function DecValue(d: string): nat
    requires forall k :: 0 <= k < |d| ==> IsDigit(d[k])
  {
    if d == [] then 0 else 10 * DecValue(d[..|d| - 1]) + DigitValue(d[|d| - 1])
  }

  /**
   * `%d` conversion starting at index `i`: white space, an optional sign and
   * at least one digit. `None` is a matching failure; otherwise the value and
   * the index just past the last digit.
   */
  function ScanIntAt(s: string, i: nat): (r: Option<(int, nat)>)
    requires i <= |s|
    ensures r.Some? ==> i < r.value.1 <= |s| && IsDigit(s[r.value.1 - 1])
    ensures r.Some? ==> r.value.1 == |s| || !IsDigit(s[r.value.1])
  {
    var j := SkipSpaces(s, i);
    var neg := j < |s| && s[j] == '-';
    var k := if j < |s| && (s[j] == '-' || s[j] == '+') then j + 1 else j;
    var e := DigitsEnd(s, k);
    if e == k then None
    else
      var mag: int := DecValue(s[k..e]);
      var v: int := if neg then -mag else mag;
      Some((v, e))
  }

  /** `atoi`: the `%d` value of the start of the string, 0 when there is none. */
  function Atoi(s: string): int {
    match ScanIntAt(s, 0)
    case Some((v, _)) => v
    case None => 0
  }

  /** The decimal digits of a natural number, without leading zeros. */
  function NatDigits(n: nat): (d: string)
    ensures |d| >= 1
    ensures forall k :: 0 <= k < |d| ==> IsDigit(d[k])
  {
    if n < 10 then [DigitChar(n)] else NatDigits(n / 10) + [DigitChar(n % 10)]
  }

  /** `printf("%d", k)`. */
  function FormatInt(k: int): string {
    if k < 0 then "-" + NatDigits(-k) else NatDigits(k)
  }

  lemma {:induction false} DecValueOfDigits(n: nat)
    ensures DecValue(NatDigits(n)) == n
  {
    if n >= 10 {
      var d := NatDigits(n);
      assert d[..|d| - 1] == NatDigits(n / 10);
      DecValueOfDigits(n / 10);
    }
  }

  lemma DigitsEndAt(s: string, i: nat, e: nat)
    requires i <= e <= |s|
    requires forall k :: i <= k < e ==> IsDigit(s[k])
    requires e == |s| || !IsDigit(s[e])
    ensures DigitsEnd(s, i) == e
    decreases e - i
  {
    if i < e {
      DigitsEndAt(s, i + 1, e);
    }
  }

  /**
   * Formatting with `%d` and scanning back with `%d` is the identity, as long
   * as the number is not followed directly by another digit.
   */
  lemma ScanFormatInt(k: int, rest: string)
    requires rest == [] || !IsDigit(rest[0])
    ensures ScanIntAt(FormatInt(k) + rest, 0) == Some((k, |FormatInt(k)|))
  {
    var s := FormatInt(k) + rest;
    var f := FormatInt(k);
    var n := if k < 0 then -k else k;
    var start := if k < 0 then 1 else 0;
    assert f[start..] == NatDigits(n);
    assert s[start..|f|] == NatDigits(n);
    assert !IsSpace(s[0]);
    DigitsEndAt(s, start, |f|);
    DecValueOfDigits(n);
  }

  /** `atoi` also reads back what `%d` wrote. */
  lemma AtoiFormatInt(k: int, rest: string)
    requires rest == [] || !IsDigit(rest[0])
    ensures Atoi(FormatInt(k) + rest) == k
  {
    ScanFormatInt(k, rest);
  }

  /**
   * How many characters one `fgets(buf, size, f)` call takes from `c`:
   * up to and including the first newline, and at most `max == size - 1`.
   */
  function ChunkLen(c: string, max: nat): (k: nat)
    requires max >= 1
    ensures 1 <= k || c == []
    ensures k <= |c| && k <= max
    ensures c != [] ==> 1 <= k
    ensures forall j :: 0 <= j < k - 1 ==> c[j] != '\n'
    ensures k < |c| && k < max ==> c[k - 1] == '\n'
  {
    if c == [] then 0
    else if c[0] == '\n' || max == 1 then 1
    else 1 + ChunkLen(c[1..], max - 1)
  }

  /** The successive buffers a `while (fgets(buf, size, f))` loop reads. */
  function Lines(c: string, size: nat): (ls: seq<string>)
    requires size >= 2
    ensures forall j :: 0 <= j < |ls| ==> 1 <= |ls[j]| < size
    decreases |c|
  {
    if c == [] then []
    else
      var k := ChunkLen(c, size - 1);
      [c[..k]] + Lines(c[k..], size)
  }

  function Concat(ls: seq<string>): string {
    if ls == [] then [] else ls[0] + Concat(ls[1..])
  }

  /** The pieces `fgets` reads make up the whole file, in order. */
  lemma {:induction false} LinesConcat(c: string, size: nat)
    requires size >= 2
    ensures Concat(Lines(c, size)) == c
    decreases |c|
  {
    if c != [] {
      var k := ChunkLen(c, size - 1);
      LinesConcat(c[k..], size);
      assert c == c[..k] + c[k..];
    }
  }

  /** A line that fits in the buffer and holds its newline only at its end. */
  predicate ShortLine(l: string, size: nat) {
    1 <= |l| < size && l[|l| - 1] == '\n' && forall j :: 0 <= j < |l| - 1 ==> l[j] != '\n'
  }

  /**
   * A file made of newline-terminated lines with room in the buffer (and an
   * optional last line without a newline) is read back by `fgets` one line at
   * a time.
   */
  lemma {:induction false} LinesOfShortLines(ls: seq<string>, last: string, size: nat)
    requires size >= 2
    requires forall j :: 0 <= j < |ls| ==> ShortLine(ls[j], size)
    requires |last| < size && forall j :: 0 <= j < |last| ==> last[j] != '\n'
    ensures Lines(Concat(ls) + last, size) == ls + (if last == [] then [] else [last])
    decreases |ls|
  {
    if ls == [] {
      assert Concat(ls) + last == last;
      LinesOfLast(last, size);
    } else {
      var tail := Concat(ls[1..]) + last;
      assert Concat(ls) + last == ls[0] + tail;
      LinesOfLine(ls[0], tail, size);
      LinesOfShortLines(ls[1..], last, size);
      assert ls == [ls[0]] + ls[1..];
    }
  }

  lemma LinesOfLast(last: string, size: nat)
    requires size >= 2
    requires |last| < size && forall j :: 0 <= j < |last| ==> last[j] != '\n'
    ensures Lines(last, size) == if last == [] then [] else [last]
  {
    if last != [] {
      ChunkLenNoNewline(last, size - 1);
      assert last[..|last|] == last;
      assert last[|last|..] == [];
    }
  }

  lemma LinesOfLine(l: string, rest: string, size: nat)
    requires size >= 2 && ShortLine(l, size)
    ensures Lines(l + rest, size) == [l] + Lines(rest, size)
  {
    ChunkLenLine(l, rest, size - 1);
    var c := l + rest;
    assert c[..|l|] == l;
    assert c[|l|..] == rest;
  }

  lemma {:induction false} ChunkLenLine(l: string, rest: string, max: nat)
    requires max >= 1 && 1 <= |l| <= max && l[|l| - 1] == '\n'
    requires forall j :: 0 <= j < |l| - 1 ==> l[j] != '\n'
    ensures ChunkLen(l + rest, max) == |l|
    decreases |l|
  {
    if |l| > 1 {
      assert (l + rest)[1..] == l[1..] + rest;
      ChunkLenLine(l[1..], rest, max - 1);
    }
  }

  lemma {:induction false} ChunkLenNoNewline(l: string, max: nat)
    requires max >= 1 && 1 <= |l| <= max
    requires forall j :: 0 <= j < |l| ==> l[j] != '\n'
    ensures ChunkLen(l, max) == |l|
    decreases |l|
  {
    if |l| > 1 {
      ChunkLenNoNewline(l[1..], max - 1);
    }
  }

  /**
   * `strchr(s + i, c)` as an index: the first `c` at or after `i`, or
   * `|s|` when there is none (a null pointer).
   */
  function Find(s: string, c: char, i: nat): (k: nat)
    requires i <= |s|
    ensures i <= k <= |s|
    ensures forall j :: i <= j < k ==> s[j] != c
    ensures k < |s| ==> s[k] == c
    decreases |s| - i
  {
    if i == |s| || s[i] == c then i else Find(s, c, i + 1)
  }
}

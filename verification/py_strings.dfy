/** The pieces of Python's `str` behaviour the package relies on, written over
    strings as sequences of characters: whitespace and `strip()`, ASCII
    lower-casing and `endswith`, `join`, the decimal rendering of integers,
    zero-padded fields, and ANSI colour wrapping for the console. A `split`
    at newlines is defined only to state what a joined table holds. */
module PyStrings {

  // ---------------------------------------------------------------------
  // Whitespace and strip()
  // ---------------------------------------------------------------------

  /** The characters for which Python's `str.isspace()` holds; `str.strip()`
      with no argument removes exactly these from both ends. */
  predicate IsSpace(c: char) {
    var k := c as int;
    k == 0x20 || (0x09 <= k <= 0x0D) || (0x1C <= k <= 0x1F) || k == 0x85 || k == 0xA0 ||
    k == 0x1680 || (0x2000 <= k <= 0x200A) || k == 0x2028 || k == 0x2029 ||
    k == 0x202F || k == 0x205F || k == 0x3000
  }

  /** Every character of `s` is whitespace (the empty string included). */
  predicate IsBlank(s: string) {
    forall i :: 0 <= i < |s| ==> IsSpace(s[i])
  }

  /** `s.lstrip()`: the suffix of `s` that starts at its first non-space. */
  function StripLeft(s: string): (r: string)
    ensures |r| <= |s| && r == s[|s| - |r|..]
    ensures r == [] || !IsSpace(r[0])
    decreases |s|
  {
    if s != [] && IsSpace(s[0]) then StripLeft(s[1..]) else s
  }

  /** `s.rstrip()`: the prefix of `s` that ends at its last non-space. */
  function StripRight(s: string): (r: string)
    ensures |r| <= |s| && r == s[..|r|]
    ensures r == [] || !IsSpace(r[|r| - 1])
    decreases |s|
  {
    if s != [] && IsSpace(s[|s| - 1]) then StripRight(s[..|s| - 1]) else s
  }

  /** `s.strip()`. */
  function Strip(s: string): string {
    StripRight(StripLeft(s))
  }

  lemma {:induction false} StripLeftEmpty(s: string)
    ensures StripLeft(s) == [] <==> IsBlank(s)
    decreases |s|
  {
    if s != [] {
      StripLeftEmpty(s[1..]);
      assert IsBlank(s) <==> IsSpace(s[0]) && IsBlank(s[1..]) by {
        if IsSpace(s[0]) && IsBlank(s[1..]) {
          forall i | 0 <= i < |s| ensures IsSpace(s[i]) {
            if i > 0 { assert s[i] == s[1..][i - 1]; }
          }
        }
      }
    }
  }

  lemma {:induction false} StripRightEmpty(s: string)
    ensures StripRight(s) == [] <==> IsBlank(s)
    decreases |s|
  {
    if s != [] {
      var init := s[..|s| - 1];
      StripRightEmpty(init);
      assert IsBlank(s) <==> IsSpace(s[|s| - 1]) && IsBlank(init) by {
        if IsSpace(s[|s| - 1]) && IsBlank(init) {
          forall i | 0 <= i < |s| ensures IsSpace(s[i]) {
            if i < |s| - 1 { assert s[i] == init[i]; }
          }
        }
      }
    }
  }

  /** `not s.strip()` holds exactly for the blank strings. */
  lemma {:induction false} StripEmptyIffBlank(s: string)
    ensures Strip(s) == [] <==> IsBlank(s)
  {
    var t := StripLeft(s);
    StripLeftEmpty(s);
    StripRightEmpty(t);
  }

  // ---------------------------------------------------------------------
  // Case and suffixes
  // ---------------------------------------------------------------------

  /** Lower-casing of one character, for the ASCII letters. */
  function LowerChar(c: char): (r: char)
    ensures 'A' <= c <= 'Z' ==> 'a' <= r <= 'z' && r as int == c as int + 32
    ensures !('A' <= c <= 'Z') ==> r == c
  {
    if 'A' <= c <= 'Z' then (c as int + 32) as char else c
  }

  /** `s.lower()`, character by character (see README for the scope). */
  function Lower(s: string): (r: string)
    ensures |r| == |s|
    ensures forall i :: 0 <= i < |s| ==> r[i] == LowerChar(s[i])
  {
    seq(|s|, i requires 0 <= i < |s| => LowerChar(s[i]))
  }

  /** Lower-casing twice is lower-casing once. */
  lemma {:induction false} LowerIdempotent(s: string)
    ensures Lower(Lower(s)) == Lower(s)
  {
  }

  /** Lower-casing commutes with taking a suffix. */
  lemma {:induction false} LowerSuffix(s: string, k: nat)
    requires k <= |s|
    ensures Lower(s)[k..] == Lower(s[k..])
  {
  }

  /** `s.endswith(suffix)`. */
  predicate EndsWith(s: string, suffix: string) {
    |suffix| <= |s| && s[|s| - |suffix|..] == suffix
  }

  /** `s.endswith(suffixes)` for a tuple of suffixes: any one of them. */
  predicate EndsWithAny(s: string, suffixes: seq<string>) {
    exists i :: 0 <= i < |suffixes| && EndsWith(s, suffixes[i])
  }

  // ---------------------------------------------------------------------
  // join and split
  // ---------------------------------------------------------------------

  /** `sep.join(parts)`. */
  function Join(parts: seq<string>, sep: string): string
    decreases |parts|
  {
    if parts == [] then ""
    else if |parts| == 1 then parts[0]
    else parts[0] + sep + Join(parts[1..], sep)
  }

  /** `s.split(c)` for a one-character separator: the pieces between the
      occurrences of `c`, at least one piece. */
  function SplitOn(s: string, c: char): (r: seq<string>)
    ensures |r| >= 1
    decreases |s|
  {
    if s == [] then [""]
    else
      var rest := SplitOn(s[1..], c);
      if s[0] == c then [""] + rest else [[s[0]] + rest[0]] + rest[1..]
  }

  lemma {:induction false} SplitOnAbsent(a: string, c: char)
    requires c !in a
    ensures SplitOn(a, c) == [a]
    decreases |a|
  {
    if a != [] {
      SplitOnAbsent(a[1..], c);
      assert [a[0]] + a[1..] == a;
    }
  }

  lemma {:induction false} SplitOnFirst(a: string, b: string, c: char)
    requires c !in a
    ensures SplitOn(a + [c] + b, c) == [a] + SplitOn(b, c)
    decreases |a|
  {
    var s := a + [c] + b;
    if a == [] {
      assert s[1..] == b;
    } else {
      assert s[1..] == a[1..] + [c] + b;
      SplitOnFirst(a[1..], b, c);
      assert [a[0]] + a[1..] == a;
    }
  }

  /** Each string of `rows` preceded by one space. */
  function Indented(rows: seq<string>): (r: seq<string>)
    ensures |r| == |rows|
  {
    seq(|rows|, i requires 0 <= i < |rows| => " " + rows[i])
  }

  /** Joining newline-free rows with "\n " and splitting the result at the
      newlines gives the rows back, every row after the first indented by
      one space. `prefix` is text already on the first line. */
  lemma {:induction false} JoinedRowsSplit(prefix: string, rows: seq<string>)
    requires |rows| >= 1
    requires '\n' !in prefix
    requires forall i :: 0 <= i < |rows| ==> '\n' !in rows[i]
    ensures SplitOn(prefix + Join(rows, "\n "), '\n') == [prefix + rows[0]] + Indented(rows[1..])
    decreases |rows|
  {
    if |rows| == 1 {
      SplitOnAbsent(prefix + rows[0], '\n');
    } else {
      var tail := Join(rows[1..], "\n ");
      assert prefix + Join(rows, "\n ") == (prefix + rows[0]) + ['\n'] + (" " + tail);
      SplitOnFirst(prefix + rows[0], " " + tail, '\n');
      JoinedRowsSplit(" ", rows[1..]);
      assert rows[1..][1..] == rows[2..];
      assert [" " + rows[1]] + Indented(rows[2..]) == Indented(rows[1..]);
    }
  }

  // ---------------------------------------------------------------------
  // Decimal numbers
  // ---------------------------------------------------------------------

  predicate IsDigit(c: char) {
    '0' <= c <= '9'
  }

  predicate AllDigits(s: string) {
    forall i :: 0 <= i < |s| ==> IsDigit(s[i])
  }

  function DigitChar(d: nat): (c: char)
    requires d < 10
    ensures IsDigit(c)
  {
    (48 + d) as char
  }

  function DigitValue(c: char): nat {
    if IsDigit(c) then c as int - 48 else 0
  }

  /** `str(n)` for a natural number: its decimal digits, without leading zeros. */
  function NatToString(n: nat): (r: string)
    ensures |r| >= 1 && AllDigits(r)
    ensures r[0] == '0' ==> n == 0
    decreases n
  {
    if n < 10 then [DigitChar(n)] else NatToString(n / 10) + [DigitChar(n % 10)]
  }

  /** `str(i)` for a Python `int`: a minus sign before the digits of a negative number. */
  function IntToString(i: int): (r: string)
    ensures |r| >= 1
    ensures r[0] == '-' <==> i < 0
    ensures '\n' !in r
  {
    if i < 0 then "-" + NatToString(-i) else NatToString(i)
  }

  /** Reads a string of decimal digits back as a number. */
  function ParseDecimal(s: string): nat
    decreases |s|
  {
    if s == [] then 0 else ParseDecimal(s[..|s| - 1]) * 10 + DigitValue(s[|s| - 1])
  }

  lemma {:induction false} NatRoundTrip(n: nat)
    ensures ParseDecimal(NatToString(n)) == n
    decreases n
  {
    if n >= 10 {
      NatRoundTrip(n / 10);
      var r := NatToString(n);
      assert r[..|r| - 1] == NatToString(n / 10);
    }
  }

  function Pow10(w: nat): (p: nat)
    ensures p >= 1
  {
    if w == 0 then 1 else 10 * Pow10(w - 1)
  }

  /** The last `width` decimal digits of `n`, zero-padded on the left, as a
      `strftime` field such as `%m` or `%f` writes them. */
  function Pad(n: nat, width: nat): (r: string)
    ensures |r| == width
    decreases width
  {
    if width == 0 then "" else Pad(n / 10, width - 1) + [DigitChar(n % 10)]
  }

  /** A number that fits in `width` digits is read back from its padded field. */
  lemma {:induction false} PadRoundTrip(n: nat, width: nat)
    requires n < Pow10(width)
    ensures ParseDecimal(Pad(n, width)) == n
    decreases width
  {
    if width > 0 {
      assert n / 10 < Pow10(width - 1);
      PadRoundTrip(n / 10, width - 1);
      var r := Pad(n, width);
      assert r[..|r| - 1] == Pad(n / 10, width - 1);
    }
  }

  // ---------------------------------------------------------------------
  // Console colours
  // ---------------------------------------------------------------------

  const Esc: char := 27 as char

  /** `"\033[" + code + "m" + text + "\033[0m"`: `text` shown in colour `code`. */
  function Ansi(code: string, text: string): string {
    [Esc] + "[" + code + "m" + text + [Esc] + "[0m"
  }
}

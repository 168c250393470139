/** The handful of Python string operations the services rely on, written out
    with their exact semantics: `str.strip()` with no argument, ASCII case
    folding, `str.split(sep)` / `sep.join(parts)` / `str.count(sep)` for a
    non-empty separator, `str(int)` and `int(str)` in base 10. */
module Text {
  import opened Wrappers

  // ---------------------------------------------------------------------
  // Whitespace and strip()

  /** The characters Python's `str.isspace()` accepts, which are the ones
      `str.strip()` removes when called without an argument. */
  predicate IsSpace(c: char) {
    || c == ' ' || ('\t' <= c <= '\r')
    || ('\U{1C}' <= c <= '\U{1F}')
    || c == '\U{85}' || c == '\U{A0}' || c == '\U{1680}'
    || ('\U{2000}' <= c <= '\U{200A}')
    || c == '\U{2028}' || c == '\U{2029}' || c == '\U{202F}' || c == '\U{205F}'
    || c == '\U{3000}'
  }

  /** Every character is whitespace (the empty string included). */
  predicate IsBlank(s: string) {
    forall i :: 0 <= i < |s| ==> IsSpace(s[i])
  }

  /** `s.lstrip()`: drops the leading whitespace. */
  function LStrip(s: string): string {
    if s != [] && IsSpace(s[0]) then LStrip(s[1..]) else s
  }

  /** `s.rstrip()`: drops the trailing whitespace. */
  function RStrip(s: string): string {
    if s != [] && IsSpace(s[|s| - 1]) then RStrip(s[..|s| - 1]) else s
  }

  /** `s.strip()`. */
  function Strip(s: string): string {
    RStrip(LStrip(s))
  }

  /** `s.lstrip()` is the longest suffix of `s` that does not start with
      whitespace: everything it drops is whitespace. */
  lemma {:induction false} LStripSuffix(s: string)
    ensures var r := LStrip(s);
      && |r| <= |s| && r == s[|s| - |r|..]
      && (r == [] || !IsSpace(r[0]))
      && forall i :: 0 <= i < |s| - |r| ==> IsSpace(s[i])
  {
    if s != [] && IsSpace(s[0]) {
      LStripSuffix(s[1..]);
    }
  }

  /** `s.rstrip()` is the longest prefix of `s` that does not end with
      whitespace: everything it drops is whitespace. */
  lemma {:induction false} RStripPrefix(s: string)
    ensures var r := RStrip(s);
      && |r| <= |s| && r == s[..|r|]
      && (r == [] || !IsSpace(r[|r| - 1]))
      && forall i :: |r| <= i < |s| ==> IsSpace(s[i])
  {
    if s != [] && IsSpace(s[|s| - 1]) {
      RStripPrefix(s[..|s| - 1]);
    }
  }

  /** `not s.strip()` holds exactly for the strings made only of whitespace. */
  lemma StripEmptyIffBlank(s: string)
    ensures Strip(s) == [] <==> IsBlank(s)
  {
    LStripSuffix(s);
    RStripPrefix(LStrip(s));
  }

  /** A string without whitespace is its own strip. */
  lemma StripNoSpace(s: string)
    requires forall i :: 0 <= i < |s| ==> !IsSpace(s[i])
    ensures Strip(s) == s
  {
    assert LStrip(s) == s;
  }

  // ---------------------------------------------------------------------
  // Case folding and suffixes

  /** Lower-cases ASCII letters; every other character is kept. */
  function LowerChar(c: char): char {
    if 'A' <= c <= 'Z' then (c as int + 32) as char else c
  }

  /** `s.lower()` restricted to ASCII letters. */
  function Lower(s: string): (r: string)
    ensures |r| == |s|
    ensures forall i :: 0 <= i < |s| ==> r[i] == LowerChar(s[i])
  {
    seq(|s|, i requires 0 <= i < |s| => LowerChar(s[i]))
  }

  /** `s.endswith(suffix)`. */
  predicate EndsWith(s: string, suffix: string) {
    |suffix| <= |s| && s[|s| - |suffix|..] == suffix
  }

  /** Index of the last occurrence of `c` in `s` (`s.rfind(c)` when it is not -1). */
  function LastIndexOf(s: string, c: char): (r: Option<nat>)
    ensures r.None? <==> c !in s
    ensures r.Some? ==> r.value < |s| && s[r.value] == c
    ensures r.Some? ==> forall j :: r.value < j < |s| ==> s[j] != c
  {
    if s == [] then None
    else if s[|s| - 1] == c then Some(|s| - 1)
    else LastIndexOf(s[..|s| - 1], c)
  }

  // ---------------------------------------------------------------------
  // split, count, join, concatenation

  /** True when `sep` occurs in `s` at position 0. */
  predicate StartsWith(s: string, sep: string) {
    |sep| <= |s| && s[..|sep|] == sep
  }

  /** `s.split(sep)` for a non-empty `sep`: the pieces between the
      non-overlapping occurrences of `sep`, found from left to right. */
  function Split(s: string, sep: string): (parts: seq<string>)
    requires sep != []
    ensures |parts| >= 1
    decreases |s|
  {
    if StartsWith(s, sep) then [[]] + Split(s[|sep|..], sep)
    else if s == [] then [[]]
    else
      var rest := Split(s[1..], sep);
      [[s[0]] + rest[0]] + rest[1..]
  }

  /** `s.count(sep)` for a non-empty `sep`: the number of non-overlapping
      occurrences, found from left to right. */
  function Count(s: string, sep: string): nat
    requires sep != []
    decreases |s|
  {
    if StartsWith(s, sep) then 1 + Count(s[|sep|..], sep)
    else if s == [] then 0
    else Count(s[1..], sep)
  }

  /** `sep.join(parts)`. */
  function Join(parts: seq<string>, sep: string): string
    decreases |parts|
  {
    if |parts| == 0 then []
    else if |parts| == 1 then parts[0]
    else parts[0] + sep + Join(parts[1..], sep)
  }

  /** `"".join(parts)`. */
  function Concat(parts: seq<string>): string
    decreases |parts|
  {
    if parts == [] then [] else Concat(parts[..|parts| - 1]) + parts[|parts| - 1]
  }

  /** Splitting yields one more piece than there are separators. */
  lemma {:induction false} SplitCount(s: string, sep: string)
    requires sep != []
    ensures |Split(s, sep)| == Count(s, sep) + 1
    decreases |s|
  {
    if StartsWith(s, sep) {
      SplitCount(s[|sep|..], sep);
    } else if s != [] {
      SplitCount(s[1..], sep);
    }
  }

  lemma JoinCons(x: string, rest: seq<string>, sep: string)
    requires |rest| >= 1
    ensures Join([x] + rest, sep) == x + sep + Join(rest, sep)
  {
    assert ([x] + rest)[1..] == rest;
  }

  /** Putting a character in front of the first piece puts it in front of
      the joined text. */
  lemma JoinExtendHead(c: char, rest: seq<string>, sep: string)
    requires |rest| >= 1
    ensures Join([[c] + rest[0]] + rest[1..], sep) == [c] + Join(rest, sep)
  {
    var parts := [[c] + rest[0]] + rest[1..];
    if |rest| > 1 {
      assert parts[1..] == rest[1..];
    }
  }

  /** Joining the pieces of a split with the same separator gives the input back. */
  lemma {:induction false} JoinSplit(s: string, sep: string)
    requires sep != []
    ensures Join(Split(s, sep), sep) == s
    decreases |s|
  {
    if StartsWith(s, sep) {
      JoinSplit(s[|sep|..], sep);
      JoinCons([], Split(s[|sep|..], sep), sep);
      assert s == s[..|sep|] + s[|sep|..];
    } else if s != [] {
      JoinSplit(s[1..], sep);
      JoinExtendHead(s[0], Split(s[1..], sep), sep);
      assert s == [s[0]] + s[1..];
    }
  }

  /** Concatenation distributes over appending two lists of pieces. */
  lemma {:induction false} ConcatAppend(a: seq<string>, b: seq<string>)
    ensures Concat(a + b) == Concat(a) + Concat(b)
    decreases |b|
  {
    if b == [] {
      assert a + b == a;
    } else {
      var b' := b[..|b| - 1];
      assert (a + b)[..|a + b| - 1] == a + b';
      ConcatAppend(a, b');
    }
  }

  // ---------------------------------------------------------------------
  // Decimal numbers: str(int) and int(str)

  predicate IsDigit(c: char) {
    '0' <= c <= '9'
  }

  function DigitChar(d: nat): (c: char)
    requires d < 10
    ensures IsDigit(c) && c as int - '0' as int == d
  {
    ('0' as int + d) as char
  }

  function DigitValue(c: char): (d: nat)
    requires IsDigit(c)
    ensures d < 10
  {
    c as int - '0' as int
  }

  /** The decimal numeral of `n`, without leading zeros (Python's `str(n)`). */
  function NatToString(n: nat): (r: string)
    ensures |r| >= 1
    ensures forall i :: 0 <= i < |r| ==> IsDigit(r[i])
    decreases n
  {
    if n < 10 then [DigitChar(n)] else NatToString(n / 10) + [DigitChar(n % 10)]
  }

  /** The decimal numeral of an integer, with a leading "-" when it is
      negative (`str(i)` when there is no digit limit). */
  function IntToString(i: int): string {
    if i < 0 then "-" + NatToString(-i) else NatToString(i)
  }

  /** The value of a string of decimal digits, read most significant first. */
  function DigitsValue(s: string): nat
    requires forall i :: 0 <= i < |s| ==> IsDigit(s[i])
    decreases |s|
  {
    if s == [] then 0
    else
      var last := s[|s| - 1];
      assert IsDigit(last);
      DigitsValue(s[..|s| - 1]) * 10 + DigitValue(last)
  }

  /** Reading back a printed natural number gives the number. */
  lemma {:induction false} DigitsValueOfNatToString(n: nat)
    ensures DigitsValue(NatToString(n)) == n
    decreases n
  {
    if n >= 10 {
      var s := NatToString(n);
      DigitsValueOfNatToString(n / 10);
      assert s[..|s| - 1] == NatToString(n / 10);
    }
  }

  predicate IsDigitOrUnderscore(c: char) {
    IsDigit(c) || c == '_'
  }

  /** The digit groups Python's `int()` accepts in base 10: digits, with
      single underscores allowed between two digits. */
  predicate WellFormedDigits(d: string) {
    && |d| > 0 && IsDigit(d[0]) && IsDigit(d[|d| - 1])
    && (forall i :: 0 <= i < |d| ==> IsDigitOrUnderscore(d[i]))
    && (forall i :: 0 <= i < |d| - 1 && d[i] == '_' ==> IsDigit(d[i + 1]))
  }

  /** `d` with its underscores removed. */
  function RemoveUnderscores(d: string): (r: string)
    requires forall i :: 0 <= i < |d| ==> IsDigitOrUnderscore(d[i])
    ensures forall i :: 0 <= i < |r| ==> IsDigit(r[i])
    decreases |d|
  {
    if d == [] then []
    else if d[0] == '_' then RemoveUnderscores(d[1..])
    else
      assert IsDigitOrUnderscore(d[0]);
      [d[0]] + RemoveUnderscores(d[1..])
  }

  lemma {:induction false} RemoveUnderscoresDigits(d: string)
    requires forall i :: 0 <= i < |d| ==> IsDigit(d[i])
    ensures RemoveUnderscores(d) == d
    decreases |d|
  {
    if d != [] {
      RemoveUnderscoresDigits(d[1..]);
      assert d == [d[0]] + d[1..];
    }
  }

  /** CPython's default limit on integer string conversion: `int()` raises
      `ValueError` on a string of more digits than this (underscores and the
      sign not counted), and so does `str()` on an integer of more digits. */
  const MaxStrDigits: nat := 4300

  /** An unsigned digit group, as `int()` reads it: a well formed group of at
      most `MaxStrDigits` digits. */
  function ParseDigits(d: string): (r: Option<nat>)
    ensures r.Some? ==> WellFormedDigits(d) && |RemoveUnderscores(d)| <= MaxStrDigits
  {
    if WellFormedDigits(d) && |RemoveUnderscores(d)| <= MaxStrDigits then Some(DigitsValue(RemoveUnderscores(d)))
    else None
  }

  /** Python's `int(s)` for a string `s` (base 10): surrounding whitespace is
      ignored, one optional sign, then a digit group of at most `MaxStrDigits`
      digits. `None` stands for the `ValueError` that `int` raises on anything
      else. Non-ASCII decimal digits, which Python also accepts, are not
      modelled. */
  function ParseInt(s: string): Option<int> {
    var t := Strip(s);
    if |t| > 0 && (t[0] == '+' || t[0] == '-') then
      match ParseDigits(t[1..])
      case None => None
      case Some(v) => if t[0] == '-' then Some(-(v as int)) else Some(v as int)
    else
      match ParseDigits(t)
      case None => None
      case Some(v) => Some(v as int)
  }

  /** A printed natural number is read back when it fits the digit limit. */
  lemma ParseDigitsOfNatToString(n: nat)
    ensures ParseDigits(NatToString(n)) == if |NatToString(n)| <= MaxStrDigits then Some(n) else None
  {
    var d := NatToString(n);
    assert WellFormedDigits(d);
    RemoveUnderscoresDigits(d);
    DigitsValueOfNatToString(n);
  }

  /** Python's `str(i)` for an integer: `None` stands for the `ValueError`
      it raises when `i` has more than `MaxStrDigits` digits. */
  function PyIntToString(i: int): (r: Option<string>)
    ensures r.Some? ==> r.value == IntToString(i)
  {
    var n: nat := if i < 0 then -i else i;
    if |NatToString(n)| <= MaxStrDigits then Some(IntToString(i)) else None
  }

  /** `int(str(i)) == i`: whenever `str(i)` succeeds, parsing its text gives
      back `i`; on an integer too long to print, reading its numeral raises
      too. */
  lemma ParseIntOfIntToString(i: int)
    ensures PyIntToString(i).Some? ==> ParseInt(PyIntToString(i).value) == Some(i)
    ensures PyIntToString(i).None? ==> ParseInt(IntToString(i)).None?
  {
    var n: nat := if i < 0 then -i else i;
    var digits := NatToString(n);
    var s := IntToString(i);
    forall k | 0 <= k < |s|
      ensures !IsSpace(s[k])
    {
      assert s[k] == '-' || IsDigit(s[k]);
    }
    StripNoSpace(s);
    assert Strip(s) == s;
    ParseDigitsOfNatToString(n);
    if i < 0 {
      assert s[1..] == digits;
      assert s[0] == '-';
    } else {
      assert s == digits;
      assert IsDigit(s[0]);
    }
  }

  /** A plain string of digits is read as the number it denotes when it has
      at most `MaxStrDigits` digits; a longer one makes `int()` raise. */
  lemma ParseIntOfDigits(d: string)
    requires |d| > 0 && forall k :: 0 <= k < |d| ==> IsDigit(d[k])
    ensures ParseInt(d) == if |d| <= MaxStrDigits then Some(DigitsValue(d) as int) else None
  {
    forall k | 0 <= k < |d|
      ensures !IsSpace(d[k])
    {
      assert IsDigit(d[k]);
    }
    StripNoSpace(d);
    assert Strip(d) == d;
    assert !(d[0] == '+' || d[0] == '-') by { assert IsDigit(d[0]); }
    assert WellFormedDigits(d);
    RemoveUnderscoresDigits(d);
  }
}

/**
 * The handful of Python `str` operations the bot relies on: `in` (substring),
 * `startswith`, `split()` with no argument, `sep.join(...)`, `int(...)` on a
 * string and `str(...)` / `%0Nd` on a non-negative integer.
 */
module Text {
  import opened Wrappers

  // ---------------------------------------------------------------------------
  // Substrings and prefixes

  /** `needle` occurs in `haystack` starting at index `k`. */
  predicate OccursAt(haystack: string, needle: string, k: int) {
    0 <= k && k + |needle| <= |haystack| && haystack[k..k + |needle|] == needle
  }

  /** Python's `needle in haystack` for two strings. */
  predicate Contains(haystack: string, needle: string) {
    exists k | 0 <= k <= |haystack| - |needle| :: OccursAt(haystack, needle, k)
  }

  /** Python's `s.startswith(prefix)`. */
  predicate StartsWith(s: string, prefix: string) {
    |prefix| <= |s| && s[..|prefix|] == prefix
  }

  predicate EndsWith(s: string, suffix: string) {
    |suffix| <= |s| && s[|s| - |suffix|..] == suffix
  }

  /** `[line(x) for x in items]`, built from the front as a loop that appends builds it. */
  function MapLines<T>(items: seq<T>, line: T -> string): (lines: seq<string>)
    ensures |lines| == |items|
    ensures forall i | 0 <= i < |items| :: lines[i] == line(items[i])
    decreases |items|
  {
    if items == [] then [] else MapLines(items[..|items| - 1], line) + [line(items[|items| - 1])]
  }

  /** A string occurs in itself with anything around it. */
  lemma ContainsInfix(before: string, needle: string, after: string)
    ensures Contains(before + needle + after, needle)
  {
    var h := before + needle + after;
    assert OccursAt(h, needle, |before|);
  }

  /** What occurs in the middle of a string occurs in the whole. */
  lemma ContainsWiden(before: string, middle: string, after: string, needle: string)
    requires Contains(middle, needle)
    ensures Contains(before + middle + after, needle)
  {
    var k :| 0 <= k <= |middle| - |needle| && OccursAt(middle, needle, k);
    var whole := before + middle + after;
    assert whole[|before| + k..|before| + k + |needle|] == middle[k..k + |needle|];
    assert OccursAt(whole, needle, |before| + k);
  }

  /** A string contains itself. */
  lemma ContainsSelf(s: string)
    ensures Contains(s, s)
  {
    assert OccursAt(s, s, 0);
  }

  /** What occurs in the left part occurs in the concatenation. */
  lemma ContainsInLeft(x: string, y: string, needle: string)
    requires Contains(x, needle)
    ensures Contains(x + y, needle)
  {
    ContainsWiden([], x, y, needle);
    assert [] + x + y == x + y;
  }

  /** What occurs in the right part occurs in the concatenation. */
  lemma ContainsInRight(x: string, y: string, needle: string)
    requires Contains(y, needle)
    ensures Contains(x + y, needle)
  {
    ContainsWiden(x, y, [], needle);
    assert x + y + [] == x + y;
  }

  /** A concatenation starts with its left part. */
  lemma StartsWithConcat(prefix: string, rest: string)
    ensures StartsWith(prefix + rest, prefix)
  {
    assert (prefix + rest)[..|prefix|] == prefix;
  }

  /** A string wrapped in a fixed prefix and suffix can be cut back out of it. */
  lemma InfixSlice(before: string, x: string, after: string)
    ensures (before + x + after)[|before|..|before| + |x|] == x
  {
  }

  /** Wrapping in the same prefix and suffix never maps two strings to one. */
  lemma WrapInjective(before: string, x: string, y: string, after: string)
    requires before + x + after == before + y + after
    ensures x == y
  {
    InfixSlice(before, x, after);
    InfixSlice(before, y, after);
  }

  /** Two strings with a common prefix differ where their remainders do. */
  lemma DifferAfterPrefix(prefix: string, x: string, y: string, k: nat)
    requires k < |x| && k < |y| && x[k] != y[k]
    ensures prefix + x != prefix + y
  {
    assert (prefix + x)[|prefix| + k] == x[k];
    assert (prefix + y)[|prefix| + k] == y[k];
  }

  /** A character that does not occur in the haystack rules out every needle that holds it. */
  lemma NotContainsByChar(haystack: string, needle: string, i: nat)
    requires i < |needle| && needle[i] !in haystack
    ensures !Contains(haystack, needle)
  {
    forall k | 0 <= k && k + |needle| <= |haystack|
      ensures !OccursAt(haystack, needle, k)
    {
      assert haystack[k..k + |needle|][i] == haystack[k + i];
      assert haystack[k + i] in haystack;
    }
  }

  // ---------------------------------------------------------------------------
  // Whitespace and str.split()

  /** The characters for which Python's `str.isspace()` holds: what `split()` and `int()` skip. */
  predicate IsSpace(c: char) {
    ('\t' <= c <= '\r') || ('\U{1C}' <= c <= '\U{1F}') || c == ' '
    || c == '\U{85}' || c == '\U{A0}' || c == '\U{1680}' || ('\U{2000}' <= c <= '\U{200A}')
    || c == '\U{2028}' || c == '\U{2029}' || c == '\U{202F}' || c == '\U{205F}' || c == '\U{3000}'
  }

  /** A non-empty run of non-whitespace characters: what `split()` yields. */
  predicate IsWord(w: string) {
    w != [] && forall i :: 0 <= i < |w| ==> !IsSpace(w[i])
  }

  /** Length of the run of non-whitespace characters at the head of `s`. */
  function WordLength(s: string): (n: nat)
    requires s != [] && !IsSpace(s[0])
    ensures 1 <= n <= |s|
    ensures forall i :: 0 <= i < n ==> !IsSpace(s[i])
    ensures n < |s| ==> IsSpace(s[n])
  {
    if |s| == 1 || IsSpace(s[1]) then 1 else 1 + WordLength(s[1..])
  }

  /** Python's `s.split()`: the maximal runs of non-whitespace characters, in order. */
  function Split(s: string): (parts: seq<string>)
    ensures forall i :: 0 <= i < |parts| ==> IsWord(parts[i])
    decreases |s|
  {
    if s == [] then []
    else if IsSpace(s[0]) then Split(s[1..])
    else
      var n := WordLength(s);
      [s[..n]] + Split(s[n..])
  }

  /** A string that starts with a non-space character splits into at least one part. */
  lemma {:induction false} SplitNonEmpty(s: string)
    requires s != [] && !IsSpace(s[0])
    ensures |Split(s)| >= 1 && StartsWith(s, Split(s)[0])
  {
  }

  lemma {:induction false} WordLengthOfWord(w: string, rest: string)
    requires IsWord(w)
    requires rest == [] || IsSpace(rest[0])
    ensures WordLength(w + rest) == |w|
    decreases |w|
  {
    if |w| > 1 {
      assert (w + rest)[1..] == w[1..] + rest;
      WordLengthOfWord(w[1..], rest);
    }
  }

  /** `" ".join(words).split() == words` whenever every element is a word. */
  lemma {:induction false} SplitJoin(words: seq<string>)
    requires forall i :: 0 <= i < |words| ==> IsWord(words[i])
    ensures Split(Join(words, " ")) == words
    decreases |words|
  {
    if words == [] {
    } else if |words| == 1 {
      var w := words[0];
      WordLengthOfWord(w, []);
      assert w + [] == w;
      assert w[|w|..] == [];
    } else {
      var w, rest := words[0], Join(words[1..], " ");
      assert Join(words, " ") == w + (" " + rest);
      WordLengthOfWord(w, " " + rest);
      assert (w + (" " + rest))[..|w|] == w;
      assert (w + (" " + rest))[|w|..] == " " + rest;
      assert (" " + rest)[1..] == rest;
      SplitJoin(words[1..]);
      assert words == [w] + words[1..];
    }
  }

  // ---------------------------------------------------------------------------
  // sep.join(parts)

  /** Python's `sep.join(parts)`: the separator goes between parts, never after the last. */
  function Join(parts: seq<string>, sep: string): string {
    if parts == [] then ""
    else if |parts| == 1 then parts[0]
    else parts[0] + sep + Join(parts[1..], sep)
  }

  /** Joining one more part appends the separator and that part, so the result ends with the last part. */
  lemma {:induction false} JoinSnoc(parts: seq<string>, sep: string, last: string)
    requires parts != []
    ensures Join(parts + [last], sep) == Join(parts, sep) + sep + last
    decreases |parts|
  {
    if |parts| == 1 {
      assert parts + [last] == [parts[0], last];
      assert [parts[0], last][1..] == [last];
    } else {
      assert (parts + [last])[1..] == parts[1..] + [last];
      JoinSnoc(parts[1..], sep, last);
    }
  }

  /** Every part occurs in the joined string. */
  lemma {:induction false} JoinContains(parts: seq<string>, sep: string, i: nat)
    requires i < |parts|
    ensures Contains(Join(parts, sep), parts[i])
    decreases |parts|
  {
    if |parts| == 1 {
      ContainsInfix([], parts[0], []);
      assert [] + parts[0] + [] == parts[0];
    } else if i == 0 {
      ContainsInfix([], parts[0], sep + Join(parts[1..], sep));
      assert [] + parts[0] + (sep + Join(parts[1..], sep)) == Join(parts, sep);
    } else {
      JoinContains(parts[1..], sep, i - 1);
      var j := Join(parts[1..], sep);
      assert parts[1..][i - 1] == parts[i];
      var k :| 0 <= k <= |j| - |parts[i]| && OccursAt(j, parts[i], k);
      var h := Join(parts, sep);
      var off := |parts[0] + sep|;
      assert h == (parts[0] + sep) + j;
      assert h[off + k..off + k + |parts[i]|] == j[k..k + |parts[i]|];
      assert OccursAt(h, parts[i], off + k);
    }
  }

  // ---------------------------------------------------------------------------
  // Decimal digits

  predicate IsDigit(c: char) {
    '0' <= c <= '9'
  }

  predicate AllDigits(s: string) {
    forall i :: 0 <= i < |s| ==> IsDigit(s[i])
  }

  function DigitChar(d: nat): (c: char)
    requires d < 10
    ensures IsDigit(c)
  {
    ('0' as int + d) as char
  }

  /** The number an all-digit string denotes in base ten. */
  function DigitsValue(s: string): nat
    requires AllDigits(s)
  {
    if s == [] then 0
    else DigitsValue(s[..|s| - 1]) * 10 + (s[|s| - 1] as int - '0' as int)
  }

  function Pow10(n: nat): (p: nat)
    ensures p >= 1
  {
    if n == 0 then 1 else 10 * Pow10(n - 1)
  }

  /** `"%0*d" % (width, n)` for `n` that fits: exactly `width` digits, zero-padded on the left. */
  function Digits(n: nat, width: nat): (s: string)
    ensures |s| == width && AllDigits(s)
  {
    if width == 0 then [] else Digits(n / 10, width - 1) + [DigitChar(n % 10)]
  }

  /** The zero-padded rendering reads back as the number it renders. */
  lemma {:induction false} DigitsRoundTrip(n: nat, width: nat)
    requires n < Pow10(width)
    ensures DigitsValue(Digits(n, width)) == n
  {
    if width > 0 {
      var s := Digits(n, width);
      var q, r := n / 10, n % 10;
      assert n == q * 10 + r;
      assert q < Pow10(width - 1);
      assert s[..|s| - 1] == Digits(q, width - 1);
      assert s[|s| - 1] as int - '0' as int == r;
      DigitsRoundTrip(q, width - 1);
    }
  }

  /** Python's `str(n)` for a natural number: no leading zeros, at least one digit. */
  function NatToString(n: nat): (s: string)
    ensures |s| >= 1 && AllDigits(s)
  {
    if n < 10 then [DigitChar(n)] else NatToString(n / 10) + [DigitChar(n % 10)]
  }

  lemma {:induction false} NatToStringRoundTrip(n: nat)
    ensures DigitsValue(NatToString(n)) == n
  {
    if n >= 10 {
      var s := NatToString(n);
      assert s[..|s| - 1] == NatToString(n / 10);
      NatToStringRoundTrip(n / 10);
    }
  }

  /** Python's `str(n)` for an integer. */
  function IntToString(n: int): string {
    if n < 0 then "-" + NatToString(-n) else NatToString(n)
  }

  // ---------------------------------------------------------------------------
  // int(s)

  function StripLeft(s: string): (t: string)
    ensures t == [] || !IsSpace(t[0])
    ensures |t| <= |s| && t == s[|s| - |t|..]
  {
    if s != [] && IsSpace(s[0]) then StripLeft(s[1..]) else s
  }

  function StripRight(s: string): (t: string)
    ensures t == [] || !IsSpace(t[|t| - 1])
    ensures |t| <= |s| && t == s[..|t|]
  {
    if s != [] && IsSpace(s[|s| - 1]) then StripRight(s[..|s| - 1]) else s
  }

  /** Python's `s.strip()` with no argument. */
  function Strip(s: string): string {
    StripRight(StripLeft(s))
  }

  function RemoveUnderscores(s: string): (t: string)
    ensures forall i :: 0 <= i < |t| ==> t[i] != '_' && t[i] in s
  {
    if s == [] then []
    else (if s[0] == '_' then [] else [s[0]]) + RemoveUnderscores(s[1..])
  }

  /**
   * The body of an integer literal as `int()` accepts it: ASCII digits, with single
   * underscores allowed between two digits.
   */
  predicate IsDigitGroups(s: string) {
    && s != [] && IsDigit(s[0]) && IsDigit(s[|s| - 1])
    && (forall i :: 0 <= i < |s| ==> IsDigit(s[i]) || s[i] == '_')
    && !Contains(s, "__")
  }

  /** The value of digit groups, or `None` when `s` is not made of them. */
  function ParseDigitGroups(s: string): (r: Option<nat>)
    ensures r.Some? ==> s != [] && IsDigit(s[0])
  {
    if !IsDigitGroups(s) then None
    else
      var digits := RemoveUnderscores(s);
      assert AllDigits(digits);
      Some(DigitsValue(digits))
  }

  /**
   * Python's `int(s)` in base ten: surrounding whitespace is ignored, one optional
   * sign, then digit groups. `None` stands for the `ValueError` it raises otherwise.
   */
  function ParseInt(s: string): (r: Option<int>)
  {
    var t := Strip(s);
    if t != [] && (t[0] == '+' || t[0] == '-') then
      match ParseDigitGroups(t[1..])
      case None => None
      case Some(n) => Some(if t[0] == '-' then 0 - n else n)
    else
      match ParseDigitGroups(t)
      case None => None
      case Some(n) => Some(n)
  }

  lemma {:induction false} RemoveUnderscoresOfDigits(s: string)
    requires AllDigits(s)
    ensures RemoveUnderscores(s) == s
  {
    if s != [] {
      RemoveUnderscoresOfDigits(s[1..]);
    }
  }

  lemma {:induction false} StripOfNoSpaceEnds(s: string)
    requires s != [] && !IsSpace(s[0]) && !IsSpace(s[|s| - 1])
    ensures Strip(s) == s
  {
  }

  lemma DigitGroupsOfDigits(digits: string)
    requires digits != [] && AllDigits(digits)
    ensures ParseDigitGroups(digits) == Some(DigitsValue(digits))
  {
    assert '_' !in digits;
    NotContainsByChar(digits, "__", 0);
    assert IsDigitGroups(digits);
    RemoveUnderscoresOfDigits(digits);
  }

  lemma ParseIntOfDigits(digits: string)
    requires digits != [] && AllDigits(digits)
    ensures ParseInt(digits).Some? && ParseInt(digits).value == DigitsValue(digits)
  {
    assert IsDigit(digits[0]) && IsDigit(digits[|digits| - 1]);
    StripOfNoSpaceEnds(digits);
    DigitGroupsOfDigits(digits);
  }

  lemma ParseIntOfNegative(digits: string)
    requires digits != [] && AllDigits(digits)
    ensures ParseInt("-" + digits).Some? && ParseInt("-" + digits).value == 0 - DigitsValue(digits)
  {
    var s := "-" + digits;
    assert IsDigit(digits[|digits| - 1]);
    assert s[|s| - 1] == digits[|digits| - 1];
    StripOfNoSpaceEnds(s);
    assert s[1..] == digits;
    DigitGroupsOfDigits(digits);
  }

  /** `int(str(n)) == n` for every integer `n`. */
  lemma ParseIntRoundTrip(n: int)
    ensures ParseInt(IntToString(n)).Some? && ParseInt(IntToString(n)).value == n
  {
    if n < 0 {
      ParseIntRoundTripNegative(n);
    } else {
      var digits := NatToString(n);
      NatToStringRoundTrip(n);
      ParseIntOfDigits(digits);
    }
  }

  lemma ParseIntRoundTripNegative(n: int)
    requires n < 0
    ensures ParseInt(IntToString(n)).Some? && ParseInt(IntToString(n)).value == n
  {
    var digits := NegativeDigits(n);
    ParseIntOfNegative(digits);
  }

  /** The digits after the minus sign of a negative number's string, and their value. */
  lemma NegativeDigits(n: int) returns (digits: string)
    requires n < 0
    ensures digits != [] && AllDigits(digits)
    ensures IntToString(n) == "-" + digits && DigitsValue(digits) == -n
  {
    digits := NatToString(-n);
    NatToStringRoundTrip(-n);
  }
}

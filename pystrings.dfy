/** Python `str` operations the modelled code relies on, written out over
    `seq<char>`: case mapping (ASCII letters only), `startswith`, the `in`
    substring test, `split`, `join`, `replace`, `lstrip`/`rstrip`, `str(int)`
    and `int(str)`. */
module PyStrings {
  import opened Wrappers

  predicate IsUpperAscii(c: char) { 'A' <= c <= 'Z' }
  predicate IsLowerAscii(c: char) { 'a' <= c <= 'z' }
  predicate IsDigit(c: char) { '0' <= c <= '9' }

  function LowerChar(c: char): char { if IsUpperAscii(c) then (c as int + 32) as char else c }
  function UpperChar(c: char): char { if IsLowerAscii(c) then (c as int - 32) as char else c }

  /** `s.lower()` */
  function Lower(s: string): (r: string)
    ensures |r| == |s|
    ensures forall i :: 0 <= i < |s| ==> r[i] == LowerChar(s[i])
  {
    if s == [] then [] else [LowerChar(s[0])] + Lower(s[1..])
  }

  /** `s.upper()` */
  function Upper(s: string): (r: string)
    ensures |r| == |s|
    ensures forall i :: 0 <= i < |s| ==> r[i] == UpperChar(s[i])
  {
    if s == [] then [] else [UpperChar(s[0])] + Upper(s[1..])
  }

  /** `s.startswith(p)` */
  predicate StartsWith(s: string, p: string) { |p| <= |s| && s[..|p|] == p }

  /** `t in s` for two strings: t occurs in s at some position. */
  predicate IsSubstring(t: string, s: string)
    decreases |s|
  {
    StartsWith(s, t) || (|s| > 0 && IsSubstring(t, s[1..]))
  }

  lemma {:induction false} SubstringOfSuffix(t: string, a: string, b: string)
    ensures IsSubstring(t, a + t + b)
    decreases |a|
  {
    if a == [] {
      assert (a + t + b)[..|t|] == t;
    } else {
      assert (a + t + b)[1..] == a[1..] + t + b;
      SubstringOfSuffix(t, a[1..], b);
    }
  }

  /** `sep.join(parts)` */
  function Join(parts: seq<string>, sep: string): (r: string)
  {
    if |parts| == 0 then ""
    else if |parts| == 1 then parts[0]
    else parts[0] + sep + Join(parts[1..], sep)
  }

  /** `s.split(sep)` for a non-empty separator: cut at every occurrence of
      `sep`, scanning left to right without overlaps. There is always at
      least one piece and joining the pieces back with `sep` gives `s`. */
  function Split(s: string, sep: string): (parts: seq<string>)
    requires sep != ""
    ensures |parts| >= 1
    ensures Join(parts, sep) == s
    decreases |s|
  {
    if s == [] then [""]
    else if StartsWith(s, sep) then
      var rest := Split(s[|sep|..], sep);
      assert s == sep + s[|sep|..];
      [""] + rest
    else
      var rest := Split(s[1..], sep);
      assert s == [s[0]] + s[1..];
      JoinConsFirst(s[0], rest, sep);
      [[s[0]] + rest[0]] + rest[1..]
  }

  lemma JoinConsFirst(c: char, parts: seq<string>, sep: string)
    requires |parts| >= 1
    ensures Join([[c] + parts[0]] + parts[1..], sep) == [c] + Join(parts, sep)
  {
    var q := [[c] + parts[0]] + parts[1..];
    if |parts| > 1 {
      assert q[1..] == parts[1..];
    }
  }

  /** A single-character separator that does not occur in `s` leaves it whole. */
  lemma {:induction false} SplitWithoutSeparator(s: string, c: char)
    requires c !in s
    ensures Split(s, [c]) == [s]
    decreases |s|
  {
    if s != [] {
      assert !StartsWith(s, [c]) by { assert s[0] != c; }
      SplitWithoutSeparator(s[1..], c);
      assert [s[0]] + s[1..] == s;
    }
  }

  /** No piece of a split on a single character contains that character. */
  lemma {:induction false} SplitPiecesAvoidSeparator(s: string, c: char)
    ensures forall i :: 0 <= i < |Split(s, [c])| ==> c !in Split(s, [c])[i]
    decreases |s|
  {
    if s != [] {
      if StartsWith(s, [c]) {
        SplitPiecesAvoidSeparator(s[1..], c);
      } else {
        SplitPiecesAvoidSeparator(s[1..], c);
        assert s[0] != c;
      }
    }
  }

  /** `s.replace(pat, rep)`, including Python's rule for an empty `pat`:
      `rep` is inserted before every character and at the end. */
  function Replace(s: string, pat: string, rep: string): (r: string)
    decreases |s|
  {
    if pat == [] then
      (if s == [] then rep else rep + [s[0]] + Replace(s[1..], pat, rep))
    else if s == [] then []
    else if StartsWith(s, pat) then rep + Replace(s[|pat|..], pat, rep)
    else [s[0]] + Replace(s[1..], pat, rep)
  }

  /** For a non-empty pattern, `s.replace(pat, rep) == rep.join(s.split(pat))`:
      every occurrence is replaced and the text between occurrences is kept. */
  lemma {:induction false} ReplaceIsJoinOfSplit(s: string, pat: string, rep: string)
    requires pat != []
    ensures Replace(s, pat, rep) == Join(Split(s, pat), rep)
    decreases |s|
  {
    if s == [] {
    } else if StartsWith(s, pat) {
      var rest := Split(s[|pat|..], pat);
      assert Replace(s, pat, rep) == rep + Join(rest, rep) by {
        ReplaceIsJoinOfSplit(s[|pat|..], pat, rep);
      }
      JoinAfterEmpty(rest, rep);
    } else {
      var rest := Split(s[1..], pat);
      assert Replace(s, pat, rep) == [s[0]] + Join(rest, rep) by {
        ReplaceIsJoinOfSplit(s[1..], pat, rep);
      }
      JoinConsFirst(s[0], rest, rep);
    }
  }

  lemma JoinAfterEmpty(parts: seq<string>, sep: string)
    requires |parts| >= 1
    ensures Join([""] + parts, sep) == sep + Join(parts, sep)
  {
    assert ([""] + parts)[1..] == parts;
  }

  /** Replacing a pattern that does not occur returns the string unchanged. */
  lemma {:induction false} ReplaceAbsent(s: string, pat: string, rep: string)
    requires pat != [] && !IsSubstring(pat, s)
    ensures Replace(s, pat, rep) == s
    decreases |s|
  {
    if s != [] {
      ReplaceAbsent(s[1..], pat, rep);
      assert [s[0]] + s[1..] == s;
    }
  }

  /** `c.isspace()`: the ASCII whitespace, the information separators
      U+001C to U+001F, NEL, NO-BREAK SPACE and the Unicode space,
      line and paragraph separators. */
  predicate IsSpace(c: char)
  {
    ('\t' <= c <= '\r') || ('\U{001C}' <= c <= ' ') || c == '\U{0085}' || c == '\U{00A0}' ||
    c == '\U{1680}' || ('\U{2000}' <= c <= '\U{200A}') || c == '\U{2028}' || c == '\U{2029}' ||
    c == '\U{202F}' || c == '\U{205F}' || c == '\U{3000}'
  }

  /** Whether `lstrip(chars)`/`rstrip(chars)` removes `c`: a character of
      the argument, or whitespace when the argument is `None`. */
  predicate Strips(chars: Option<string>, c: char)
  {
    match chars
    case Some(cs) => c in cs
    case None => IsSpace(c)
  }

  /** `s.lstrip(chars)`: drop leading characters that the argument strips. */
  function LStrip(s: string, chars: Option<string>): (r: string)
    ensures |r| <= |s| && r == s[|s| - |r|..]
    ensures r == [] || !Strips(chars, r[0])
    decreases |s|
  {
    if s != [] && Strips(chars, s[0]) then LStrip(s[1..], chars) else s
  }

  /** `s.rstrip(chars)`: drop trailing characters that the argument strips. */
  function RStrip(s: string, chars: Option<string>): (r: string)
    ensures |r| <= |s| && r == s[..|r|]
    ensures r == [] || !Strips(chars, r[|r| - 1])
    decreases |s|
  {
    if s != [] && Strips(chars, s[|s| - 1]) then RStrip(s[..|s| - 1], chars) else s
  }

  /** `s.strip()` */
  function Strip(s: string): string
  {
    RStrip(LStrip(s, None), None)
  }

  function DigitChar(d: nat): char
    requires d < 10
  {
    ('0' as int + d) as char
  }

  /** The decimal digits of a natural number, most significant first. */
  function Digits(n: nat): (r: string)
    ensures |r| >= 1 && forall i :: 0 <= i < |r| ==> IsDigit(r[i])
    decreases n
  {
    if n < 10 then [DigitChar(n)] else Digits(n / 10) + [DigitChar(n % 10)]
  }

  /** The value of a string of decimal digits. */
  function DigitsValue(s: string): nat
    requires forall i :: 0 <= i < |s| ==> IsDigit(s[i])
  {
    if s == [] then 0
    else DigitsValue(s[..|s| - 1]) * 10 + DigitValue(s[|s| - 1])
  }

  function DigitValue(c: char): nat
    requires IsDigit(c)
  {
    c as int - '0' as int
  }

  /** `str(n)` for an integer. */
  function IntToDecimal(n: int): string
  {
    if n < 0 then "-" + Digits(-n) else Digits(n)
  }

  /** Decimal digits in groups joined by single underscores, the digit
      part of an integer literal `int()` accepts: it ends with a digit,
      and an underscore before that digit must follow another group. */
  predicate DigitGroups(b: string)
    decreases |b|
  {
    |b| > 0 && IsDigit(b[|b| - 1]) &&
    (|b| == 1 || if b[|b| - 2] == '_' then DigitGroups(b[..|b| - 2]) else DigitGroups(b[..|b| - 1]))
  }

  /** The digits of a digit-group string without its underscores. */
  function DropUnderscores(b: string): (r: string)
    requires DigitGroups(b)
    ensures |r| > 0 && forall i :: 0 <= i < |r| ==> IsDigit(r[i])
    decreases |b|
  {
    if |b| == 1 then b
    else if b[|b| - 2] == '_' then DropUnderscores(b[..|b| - 2]) + [b[|b| - 1]]
    else DropUnderscores(b[..|b| - 1]) + [b[|b| - 1]]
  }

  /** `int(s)` for a string: optional surrounding whitespace, an optional
      sign, then decimal digits, possibly grouped by underscores. */
  function ParseInt(s: string): (r: Option<int>)
  {
    ParseStripped(Strip(s))
  }

  /** `int()` once the surrounding whitespace is gone. */
  function ParseStripped(t: string): (r: Option<int>)
  {
    var neg := |t| > 0 && t[0] == '-';
    var body := if |t| > 0 && (t[0] == '-' || t[0] == '+') then t[1..] else t;
    if DigitGroups(body) then
      var v: int := DigitsValue(DropUnderscores(body));
      Some(if neg then -v else v)
    else None
  }

  lemma {:induction false} DigitsRoundTrip(n: nat)
    ensures DigitsValue(Digits(n)) == n
    decreases n
  {
    if n >= 10 {
      DigitsRoundTrip(n / 10);
      var d := Digits(n / 10) + [DigitChar(n % 10)];
      assert d[..|d| - 1] == Digits(n / 10);
    }
  }

  /** `int()` of a string that starts and ends with a character that is
      not whitespace parses the string as it is. */
  lemma {:induction false} StripNothing(s: string)
    requires |s| > 0 && !IsSpace(s[0]) && !IsSpace(s[|s| - 1])
    ensures ParseInt(s) == ParseStripped(s)
  {
  }

  /** A plain run of digits is a digit group and has no underscore to
      drop. */
  lemma {:induction false} PlainDigits(b: string)
    requires |b| > 0 && forall i :: 0 <= i < |b| ==> IsDigit(b[i])
    ensures DigitGroups(b) && DropUnderscores(b) == b
    decreases |b|
  {
    if |b| > 1 {
      PlainDigits(b[..|b| - 1]);
      assert b[..|b| - 1] + [b[|b| - 1]] == b;
    }
  }

  /** `int()` of a run of digits. */
  lemma {:induction false} ParseDigits(d: string)
    requires |d| > 0 && forall i :: 0 <= i < |d| ==> IsDigit(d[i])
    ensures ParseInt(d) == Some(DigitsValue(d))
  {
    StripNothing(d);
    ParseStrippedDigits(d);
  }

  lemma ParseStrippedDigits(d: string)
    requires |d| > 0 && forall i :: 0 <= i < |d| ==> IsDigit(d[i])
    ensures ParseStripped(d) == Some(DigitsValue(d))
  {
    PlainDigits(d);
  }

  /** `int()` of a minus sign followed by digit groups, such as `-1_000`. */
  lemma {:induction false} ParseSigned(b: string)
    requires DigitGroups(b)
    ensures ParseInt("-" + b) == Some(-(DigitsValue(DropUnderscores(b)) as int))
  {
    var s := "-" + b;
    assert s[1..] == b;
    assert ParseInt(s) == ParseStripped(s) by {
      assert s[|s| - 1] == b[|b| - 1];
      StripNothing(s);
    }
  }

  /** `int(str(n)) == n` for every integer. */
  lemma {:induction false} IntRoundTrip(n: int)
    ensures ParseInt(IntToDecimal(n)) == Some(n)
  {
    var m: nat := if n < 0 then -n else n;
    var d := Digits(m);
    if n < 0 {
      assert DigitGroups(d) && DropUnderscores(d) == d by { PlainDigits(d); }
      assert DigitsValue(d) == m by { DigitsRoundTrip(m); }
      ParseSigned(d);
    } else {
      DigitsRoundTrip(m);
      ParseDigits(d);
    }
  }
}

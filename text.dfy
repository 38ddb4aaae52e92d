/** String helpers that app.js takes from JavaScript: the `||` fallback on
    strings, the save handler's `truncate`, `substr`, `toLowerCase`, the `\s`
    character class, `join`/`split` on one separator character, and the decimal
    rendering of a non-negative number. Strings are sequences of Unicode scalar
    values. */
module Text {

  function Min(a: nat, b: nat): nat { if a <= b then a else b }

  /** `s || fallback` for a string: the empty string is the only falsy one. */
  function Or(s: string, fallback: string): (r: string)
    ensures s != "" ==> r == s
    ensures s == "" ==> r == fallback
  {
    if s == "" then fallback else s
  }

  /** The first `Min(|s|, cap)` characters of `s`: the longest prefix of `s`
      that fits in `cap` characters. */
  ghost predicate CappedPrefix(r: string, s: string, cap: nat) {
    |r| == Min(|s|, cap) && r == s[..|r|]
  }

  /** The save handler's `truncate(str, maxLength)`: "" for an empty string,
      otherwise `str.substring(0, maxLength)` when `str` is longer than
      `maxLength`, and `str` itself when it is not. */
  function Truncate(s: string, maxLength: nat): (r: string)
    ensures CappedPrefix(r, s, maxLength)
    ensures |r| <= maxLength
    ensures |s| <= maxLength ==> r == s
  {
    if s == "" then "" else if |s| > maxLength then s[..maxLength] else s
  }

  /** Truncating to `m` and then to `n` is truncating to the smaller of the two;
      in particular truncation to one length is idempotent. */
  lemma TruncateTwice(s: string, m: nat, n: nat)
    ensures Truncate(Truncate(s, m), n) == Truncate(s, Min(m, n))
    ensures Truncate(Truncate(s, n), n) == Truncate(s, n)
  {
    var once := Truncate(s, m);
    assert once == s[..|once|];
    assert Truncate(once, n) == once[..Min(|once|, n)];
  }

  /** JavaScript's `s.substr(start, length)` for non-negative arguments. */
  function Substr(s: string, start: nat, length: nat): (r: string)
    ensures |r| <= length
    ensures start >= |s| ==> r == ""
    ensures start < |s| ==> |r| == Min(length, |s| - start) && r == s[start..start + |r|]
  {
    s[Min(start, |s|)..Min(start + length, |s|)]
  }

  predicate IsAsciiUpper(c: char) { 'A' <= c <= 'Z' }

  /** `toLowerCase` on one character, for the ASCII letters; every other
      character is left as it is. */
  function LowerChar(c: char): (r: char)
    ensures !IsAsciiUpper(r)
    ensures !IsAsciiUpper(c) ==> r == c
    ensures IsAsciiUpper(c) ==> r as int == c as int + 32
  {
    if IsAsciiUpper(c) then (c as int + 32) as char else c
  }

  function ToLowerAscii(s: string): (r: string)
    ensures |r| == |s|
    ensures forall i :: 0 <= i < |r| ==> !IsAsciiUpper(r[i])
    ensures forall i :: 0 <= i < |r| && !IsAsciiUpper(s[i]) ==> r[i] == s[i]
    ensures forall i :: 0 <= i < |r| && IsAsciiUpper(s[i]) ==> r[i] as int == s[i] as int + 32
  {
    seq(|s|, i requires 0 <= i < |s| => LowerChar(s[i]))
  }

  /** Lower-casing works character by character, so it distributes over
      concatenation. */
  lemma ToLowerAsciiAppend(a: string, b: string)
    ensures ToLowerAscii(a + b) == ToLowerAscii(a) + ToLowerAscii(b)
  {
    var l, la, lb := ToLowerAscii(a + b), ToLowerAscii(a), ToLowerAscii(b);
    forall i | 0 <= i < |l| ensures l[i] == (la + lb)[i] {
      if i < |a| {
        assert (a + b)[i] == a[i];
      } else {
        assert (a + b)[i] == b[i - |a|];
      }
    }
  }

  /** The characters JavaScript's `\s` matches: the Unicode white space
      characters and line terminators of ECMAScript, plus the byte order mark. */
  predicate IsJsWhitespace(c: char) {
    c == '\t' || c == '\n' || c == '\U{B}' || c == '\U{C}' || c == '\r' || c == ' '
    || c == '\U{A0}' || c == '\U{1680}' || ('\U{2000}' <= c <= '\U{200A}')
    || c == '\U{2028}' || c == '\U{2029}' || c == '\U{202F}' || c == '\U{205F}'
    || c == '\U{3000}' || c == '\U{FEFF}'
  }

  predicate NoWhitespace(s: string) {
    forall i :: 0 <= i < |s| ==> !IsJsWhitespace(s[i])
  }

  /** `s.replace(/\s+/g, "")`: every white space character is dropped, every
      other character is kept, in order. */
  function RemoveWhitespace(s: string): (r: string)
    ensures |r| <= |s|
    ensures NoWhitespace(r)
    ensures NoWhitespace(s) ==> r == s
    ensures forall c :: !IsJsWhitespace(c) ==> multiset(r)[c] == multiset(s)[c]
  {
    if s == "" then ""
    else
      assert s == [s[0]] + s[1..];
      if IsJsWhitespace(s[0]) then RemoveWhitespace(s[1..])
      else [s[0]] + RemoveWhitespace(s[1..])
  }

  /** The characters `RemoveWhitespace` keeps stay in their order: removing
      white space from two pieces and joining them is removing it from the
      joined text. */
  lemma {:induction false} RemoveWhitespaceAppend(a: string, b: string)
    ensures RemoveWhitespace(a + b) == RemoveWhitespace(a) + RemoveWhitespace(b)
  {
    if a != "" {
      assert (a + b)[0] == a[0];
      assert (a + b)[1..] == a[1..] + b;
      RemoveWhitespaceAppend(a[1..], b);
    } else {
      assert a + b == b;
    }
  }

  /** On one character `RemoveWhitespace` drops white space and keeps
      anything else. */
  lemma RemoveWhitespaceChar(c: char)
    ensures RemoveWhitespace([c]) == if IsJsWhitespace(c) then "" else [c]
  {
    assert [c][1..] == "";
  }

  /** `xs.join(sep)` for a one-character separator: the pieces in order with
      one separator between neighbours, so a join of pieces free of the
      separator holds exactly one fewer separator than pieces. */
  function Join(xs: seq<string>, sep: char): (r: string)
    ensures |xs| >= 1 ==> xs[0] <= r
    ensures (forall i :: 0 <= i < |xs| ==> sep !in xs[i]) ==>
      multiset(r)[sep] == if |xs| == 0 then 0 else |xs| - 1
  {
    if |xs| == 0 then ""
    else if |xs| == 1 then xs[0]
    else xs[0] + [sep] + Join(xs[1..], sep)
  }

  /** `s.split(sep)` for a one-character separator: never an empty list; two
      adjacent separators give an empty piece between them. */
  function Split(s: string, sep: char): (r: seq<string>)
    ensures |r| >= 1
  {
    if s == "" then [""]
    else
      var rest := Split(s[1..], sep);
      if s[0] == sep then [""] + rest else [[s[0]] + rest[0]] + rest[1..]
  }

  lemma {:induction false} SplitNoSeparator(a: string, sep: char)
    requires sep !in a
    ensures Split(a, sep) == [a]
  {
    if a != "" {
      SplitNoSeparator(a[1..], sep);
      assert [a[0]] + a[1..] == a;
    }
  }

  lemma {:induction false} SplitAtFirstSeparator(a: string, b: string, sep: char)
    requires sep !in a
    ensures Split(a + [sep] + b, sep) == [a] + Split(b, sep)
  {
    var s := a + [sep] + b;
    if a == "" {
      assert s[1..] == b;
    } else {
      assert s[1..] == a[1..] + [sep] + b;
      SplitAtFirstSeparator(a[1..], b, sep);
      assert [a[0]] + a[1..] == a;
    }
  }

  /** Splitting a join at the same separator gives the pieces back, as long as
      there is at least one piece and no piece contains the separator. */
  lemma {:induction false} SplitJoin(xs: seq<string>, sep: char)
    requires |xs| >= 1
    requires forall i :: 0 <= i < |xs| ==> sep !in xs[i]
    ensures Split(Join(xs, sep), sep) == xs
  {
    if |xs| == 1 {
      SplitNoSeparator(xs[0], sep);
    } else {
      SplitAtFirstSeparator(xs[0], Join(xs[1..], sep), sep);
      SplitJoin(xs[1..], sep);
      assert [xs[0]] + xs[1..] == xs;
    }
  }

  predicate IsDigit(c: char) { '0' <= c <= '9' }

  predicate IsDigits(s: string) {
    forall i :: 0 <= i < |s| ==> IsDigit(s[i])
  }

  function DigitChar(d: nat): (c: char)
    requires d < 10
    ensures IsDigit(c)
    ensures c as int - '0' as int == d
  {
    ('0' as int + d) as char
  }

  /** The decimal text of a non-negative integer, as `'' + n` gives it in
      JavaScript for an integral number: no sign and no leading zeros. */
  function Decimal(n: nat): (r: string)
    ensures |r| >= 1 && IsDigits(r)
    ensures |r| > 1 ==> r[0] != '0'
  {
    if n < 10 then [DigitChar(n)] else Decimal(n / 10) + [DigitChar(n % 10)]
  }

  /** The number a string of decimal digits denotes. */
  function DecimalValue(s: string): nat
    requires IsDigits(s)
  {
    if s == "" then 0
    else DecimalValue(s[..|s| - 1]) * 10 + (s[|s| - 1] as int - '0' as int)
  }

  lemma {:induction false} DecimalRoundTrip(n: nat)
    ensures DecimalValue(Decimal(n)) == n
  {
    var d := Decimal(n);
    if n < 10 {
      assert d[..|d| - 1] == "";
    } else {
      assert d[..|d| - 1] == Decimal(n / 10);
      DecimalRoundTrip(n / 10);
    }
  }

  /** The index of the first `c` in `s`, or `|s|` when there is none. */
  function IndexOf(s: string, c: char): (k: nat)
    ensures k <= |s|
    ensures k < |s| ==> s[k] == c
    ensures forall i :: 0 <= i < k ==> s[i] != c
  {
    if s == "" then 0 else if s[0] == c then 0 else 1 + IndexOf(s[1..], c)
  }

  lemma {:induction false} IndexOfAfterDigits(d: string, rest: string)
    requires IsDigits(d)
    ensures IndexOf(d + "_" + rest, '_') == |d|
  {
    if d != "" {
      assert (d + "_" + rest)[1..] == d[1..] + "_" + rest;
      IndexOfAfterDigits(d[1..], rest);
    }
  }
}

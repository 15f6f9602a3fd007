/** String helpers used by the front end and the license parser, written as the Kotlin
    standard library defines them. A `char` here is a Unicode scalar value, while a Kotlin
    `Char` is a UTF-16 code unit; `Utf16Length` gives the length Kotlin's `String.length`
    reports. */
module Text {

  predicate StartsWith(s: string, prefix: string) {
    |prefix| <= |s| && s[..|prefix|] == prefix
  }

  /** Kotlin's `Char.isWhitespace()`: Java's `isWhitespace` or `isSpaceChar`. */
  predicate IsWhitespace(c: char) {
    c == ' ' || c == '\t' || c == '\n' || c == '\U{000B}' || c == '\U{000C}' || c == '\r'
    || ('\U{001C}' <= c <= '\U{001F}')
    || c == '\U{00A0}' || c == '\U{1680}' || ('\U{2000}' <= c <= '\U{200A}')
    || c == '\U{2028}' || c == '\U{2029}' || c == '\U{202F}' || c == '\U{205F}' || c == '\U{3000}'
  }

  /** Kotlin's `String.length`: one code unit per character of the Basic Multilingual Plane,
      two (a surrogate pair) per character above it. */
  function Utf16Length(s: string): (n: nat)
    ensures |s| <= n <= 2 * |s|
    ensures n == |s| <==> forall i :: 0 <= i < |s| ==> (s[i] as int) < 0x1_0000
  {
    if s == [] then 0
    else Utf16Length(s[..|s| - 1]) + (if (s[|s| - 1] as int) < 0x1_0000 then 1 else 2)
  }

  /** `s.replace("\"", "")`: every double quote removed, every other character kept as
      often as it occurs, and (`RemoveQuotesAppend`) in the order it occurs. */
  function RemoveQuotes(s: string): (r: string)
    ensures forall i :: 0 <= i < |r| ==> r[i] != '"'
    ensures multiset(r) == multiset(s)['"' := 0]
    ensures (forall i :: 0 <= i < |s| ==> s[i] != '"') ==> r == s
  {
    if s == [] then []
    else
      assert s == [s[0]] + s[1..];
      if s[0] == '"' then RemoveQuotes(s[1..])
      else [s[0]] + RemoveQuotes(s[1..])
  }

  /** Quote removal works piece by piece, so the kept characters stay in their order. */
  lemma {:induction false} RemoveQuotesAppend(a: string, b: string)
    ensures RemoveQuotes(a + b) == RemoveQuotes(a) + RemoveQuotes(b)
  {
    if a == [] {
      assert a + b == b;
    } else {
      assert (a + b)[0] == a[0] && (a + b)[1..] == a[1..] + b;
      RemoveQuotesAppend(a[1..], b);
    }
  }

  /** Number of leading whitespace characters. */
  function LeadingSpace(s: string): (n: nat)
    ensures n <= |s|
    ensures forall i :: 0 <= i < n ==> IsWhitespace(s[i])
    ensures n < |s| ==> !IsWhitespace(s[n])
  {
    if s == [] || !IsWhitespace(s[0]) then 0 else 1 + LeadingSpace(s[1..])
  }

  /** Number of trailing whitespace characters. */
  function TrailingSpace(s: string): (n: nat)
    ensures n <= |s|
    ensures forall i :: |s| - n <= i < |s| ==> IsWhitespace(s[i])
    ensures n < |s| ==> !IsWhitespace(s[|s| - n - 1])
  {
    if s == [] || !IsWhitespace(s[|s| - 1]) then 0 else 1 + TrailingSpace(s[..|s| - 1])
  }

  /** Kotlin's `String.trim()`: the longest slice that neither starts nor ends with whitespace. */
  function Trim(s: string): (r: string)
    ensures exists i, j :: 0 <= i <= j <= |s| && r == s[i..j]
                           && (forall k :: 0 <= k < i ==> IsWhitespace(s[k]))
                           && (forall k :: j <= k < |s| ==> IsWhitespace(s[k]))
    ensures r != [] ==> !IsWhitespace(r[0]) && !IsWhitespace(r[|r| - 1])
  {
    var a := LeadingSpace(s);
    var rest := s[a..];
    var b := TrailingSpace(rest);
    assert rest[..|rest| - b] == s[a..|s| - b];
    s[a..|s| - b]
  }

  /** Kotlin's `substringAfter(delimiter)`: the text after the first occurrence of `d`,
      or the whole string when `d` does not occur. */
  function SubstringAfter(s: string, d: char): (r: string)
    ensures d !in s ==> r == s
    ensures d in s ==> exists i :: 0 <= i < |s| && s[i] == d && d !in s[..i] && r == s[i + 1..]
  {
    if d !in s then s else AfterFirst(s, d)
  }

  function AfterFirst(s: string, d: char): (r: string)
    requires d in s
    ensures exists i :: 0 <= i < |s| && s[i] == d && d !in s[..i] && r == s[i + 1..]
  {
    if s[0] == d then
      assert s[..0] == [];
      s[1..]
    else
      var r := AfterFirst(s[1..], d);
      ghost var i :| 0 <= i < |s[1..]| && s[1..][i] == d && d !in s[1..][..i] && r == s[1..][i + 1..];
      assert s[..i + 1] == [s[0]] + s[1..][..i];
      assert s[i + 2..] == s[1..][i + 1..];
      r
  }

  /** Decimal text of an integer, as Kotlin's string templates print an `Int`. */
  function IntToString(n: int): (r: string)
    ensures r != []
    ensures n < 0 <==> r[0] == '-'
    ensures var digits := if n < 0 then r[1..] else r;
            && (forall i :: 0 <= i < |digits| ==> '0' <= digits[i] <= '9')
            && DigitsValue(digits) == (if n < 0 then -n else n)
  {
    if n < 0 then "-" + NatToString(-n) else NatToString(n)
  }

  function NatToString(n: nat): (r: string)
    ensures r != [] && '0' <= r[0] <= '9'
    ensures forall i :: 0 <= i < |r| ==> '0' <= r[i] <= '9'
    ensures n == DigitsValue(r)
    decreases n
  {
    if n < 10 then [Digit(n)]
    else
      var prefix := NatToString(n / 10);
      assert (prefix + [Digit(n % 10)])[..|prefix|] == prefix;
      prefix + [Digit(n % 10)]
  }

  function Digit(d: nat): (c: char)
    requires d < 10
    ensures '0' <= c <= '9' && (c as int) - ('0' as int) == d
  {
    ('0' as int + d) as char
  }

  /** The number a sequence of decimal digits denotes. */
  function DigitsValue(s: string): nat
    requires forall i :: 0 <= i < |s| ==> '0' <= s[i] <= '9'
  {
    if s == [] then 0
    else 10 * DigitsValue(s[..|s| - 1]) + ((s[|s| - 1] as int) - ('0' as int))
  }

  /** Removing quotes and trimming is idempotent: a cleaned string is its own cleaning. */
  lemma {:induction false} CleanIdempotent(s: string)
    ensures Trim(RemoveQuotes(Trim(RemoveQuotes(s)))) == Trim(RemoveQuotes(s))
  {
    var q := RemoveQuotes(s);
    var c := Trim(q);
    SliceKeepsNoQuotes(q, c);
    assert RemoveQuotes(c) == c;
    TrimOfTrimmed(c);
  }

  lemma SliceKeepsNoQuotes(q: string, c: string)
    requires forall i :: 0 <= i < |q| ==> q[i] != '"'
    requires exists i, j :: 0 <= i <= j <= |q| && c == q[i..j]
    ensures forall k :: 0 <= k < |c| ==> c[k] != '"'
  {
    var i, j :| 0 <= i <= j <= |q| && c == q[i..j];
    assert forall k :: 0 <= k < |c| ==> c[k] == q[i + k];
  }

  lemma TrimOfTrimmed(c: string)
    requires c != [] ==> !IsWhitespace(c[0]) && !IsWhitespace(c[|c| - 1])
    ensures Trim(c) == c
  {
    assert LeadingSpace(c) == 0;
    assert c[0..] == c;
    assert TrailingSpace(c) == 0;
  }
}

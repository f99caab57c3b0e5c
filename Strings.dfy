/**
  The pieces of Python's `str` that the tool modules use, over Dafny strings:
  `strip`, `split` with a one-character separator, `join`, ASCII case
  mapping, `isdigit`/`int` on ASCII digits and decimal rendering of counts.
  Only the ASCII range is given case and whitespace meaning; every other
  character is left as it is.
*/
module Strings {

  // ---------------------------------------------------------------------------
  // Character classes
  // ---------------------------------------------------------------------------

  /** `str.isspace` on ASCII: space, \t \n \v \f \r and the separators \x1c-\x1f. */
  predicate IsSpace(c: char) {
    c == ' ' || ('\t' <= c <= '\r') || ('\U{1c}' <= c <= '\U{1f}')
  }

  predicate IsUpperAscii(c: char) { 'A' <= c <= 'Z' }

  predicate IsLowerAscii(c: char) { 'a' <= c <= 'z' }

  /** A cased character in the sense of `str.title`, on ASCII. */
  predicate IsLetter(c: char) { IsUpperAscii(c) || IsLowerAscii(c) }

  predicate IsDigit(c: char) { '0' <= c <= '9' }

  function LowerChar(c: char): char {
    if IsUpperAscii(c) then (c as int + 32) as char else c
  }

  function UpperChar(c: char): char {
    if IsLowerAscii(c) then (c as int - 32) as char else c
  }

  // ---------------------------------------------------------------------------
  // Case mapping (`str.lower`, `str.upper`)
  // ---------------------------------------------------------------------------

  function Lower(s: string): string {
    seq(|s|, i requires 0 <= i < |s| => LowerChar(s[i]))
  }

  function Upper(s: string): string {
    seq(|s|, i requires 0 <= i < |s| => UpperChar(s[i]))
  }

  /** No ASCII upper-case letter occurs in `s`. */
  predicate IsLowerCase(s: string) {
    forall i :: 0 <= i < |s| ==> !IsUpperAscii(s[i])
  }

  lemma LowerIsLowerCase(s: string)
    ensures IsLowerCase(Lower(s))
  {
  }

  lemma LowerOfLowerCase(s: string)
    requires IsLowerCase(s)
    ensures Lower(s) == s
  {
  }

  /** `lower` and `upper` are idempotent, and `upper` forgets a preceding `lower`. */
  lemma CaseMappingLaws(s: string)
    ensures Lower(Lower(s)) == Lower(s)
    ensures Upper(Upper(s)) == Upper(s)
    ensures Upper(Lower(s)) == Upper(s)
    ensures Lower(Upper(s)) == Lower(s)
  {
  }

  // ---------------------------------------------------------------------------
  // Prefixes and suffixes
  // ---------------------------------------------------------------------------

  predicate StartsWith(s: string, prefix: string) {
    |prefix| <= |s| && s[..|prefix|] == prefix
  }

  predicate EndsWith(s: string, suffix: string) {
    |suffix| <= |s| && s[|s| - |suffix|..] == suffix
  }

  /** `pattern` occurs in `s` as a contiguous substring. */
  predicate Contains(s: string, pattern: string) {
    exists i :: 0 <= i <= |s| - |pattern| && StartsWith(s[i..], pattern)
  }

  // ---------------------------------------------------------------------------
  // `str.strip`
  // ---------------------------------------------------------------------------

  function LStrip(s: string): (r: string)
    ensures |r| <= |s| && r == s[|s| - |r|..]
    ensures r == [] || !IsSpace(r[0])
    ensures forall i :: 0 <= i < |s| - |r| ==> IsSpace(s[i])
  {
    if s != [] && IsSpace(s[0]) then LStrip(s[1..]) else s
  }

  function RStrip(s: string): (r: string)
    ensures |r| <= |s| && r == s[..|r|]
    ensures r == [] || !IsSpace(r[|r| - 1])
    ensures forall i :: |r| <= i < |s| ==> IsSpace(s[i])
  {
    if s != [] && IsSpace(s[|s| - 1]) then RStrip(s[..|s| - 1]) else s
  }

  /** `str.strip()`: drop leading and trailing whitespace. */
  function Strip(s: string): (r: string)
    ensures r == [] || (!IsSpace(r[0]) && !IsSpace(r[|r| - 1]))
    ensures r == [] <==> forall i :: 0 <= i < |s| ==> IsSpace(s[i])
  {
    var l := LStrip(s);
    RStrip(l)
  }

  /** How many whitespace characters `strip` removes from the front. */
  function LeadingSpace(s: string): (n: nat)
    ensures n <= |s| && (n == |s| || !IsSpace(s[n]))
  {
    |s| - |LStrip(s)|
  }

  /**
    What `strip` keeps is one contiguous slice of the input, starting right
    after the leading whitespace.
  */
  lemma StripIsSlice(s: string)
    ensures var a := LeadingSpace(s);
      a + |Strip(s)| <= |s| && Strip(s) == s[a..a + |Strip(s)|]
  {
    SliceOfSuffix(s, LStrip(s), Strip(s), LeadingSpace(s));
  }

  lemma SliceOfSuffix(s: string, l: string, r: string, a: nat)
    requires a <= |s| && l == s[a..] && |r| <= |l| && r == l[..|r|]
    ensures a + |r| <= |s| && r == s[a..a + |r|]
  {
  }

  /** Everything `strip` drops, before that slice and after it, is whitespace. */
  lemma StripDropsOnlySpace(s: string)
    ensures var a := LeadingSpace(s);
      && (forall i :: 0 <= i < a ==> IsSpace(s[i]))
      && (forall i :: a + |Strip(s)| <= i < |s| ==> IsSpace(s[i]))
  {
    var l := LStrip(s);
    var r := RStrip(l);
    var a := |s| - |l|;
    assert l == s[a..];
    forall i | a + |r| <= i < |s|
      ensures IsSpace(s[i])
    {
      assert s[i] == l[i - a];
    }
  }

  lemma StripOfStripped(s: string)
    requires s == [] || (!IsSpace(s[0]) && !IsSpace(s[|s| - 1]))
    ensures Strip(s) == s
  {
  }

  /** Stripping twice strips nothing more. */
  lemma StripIdempotent(s: string)
    ensures Strip(Strip(s)) == Strip(s)
  {
    StripOfStripped(Strip(s));
  }

  // ---------------------------------------------------------------------------
  // `str.split(sep)` with a one-character separator, and `sep.join(pieces)`
  // ---------------------------------------------------------------------------

  /** Number of occurrences of `c` in `s` (`s.count(c)`). */
  function Occurrences(s: string, c: char): nat {
    if s == [] then 0 else (if s[0] == c then 1 else 0) + Occurrences(s[1..], c)
  }

  /** `sep.join(pieces)`. */
  function Join(pieces: seq<string>, sep: string): string {
    if pieces == [] then ""
    else if |pieces| == 1 then pieces[0]
    else pieces[0] + sep + Join(pieces[1..], sep)
  }

  /**
    `s.split(d)`: the pieces between occurrences of `d`. There is always one
    piece more than there are separators, so the empty string splits into [""].
  */
  function Split(s: string, d: char): (pieces: seq<string>)
    ensures |pieces| == Occurrences(s, d) + 1
    ensures forall k :: 0 <= k < |pieces| ==> d !in pieces[k]
    ensures Join(pieces, [d]) == s
  {
    if s == [] then [""]
    else
      var rest := Split(s[1..], d);
      if s[0] == d then
        assert Join([""] + rest, [d]) == [d] + Join(rest, [d]);
        [""] + rest
      else
        var pieces := [[s[0]] + rest[0]] + rest[1..];
        assert Join(pieces, [d]) == [s[0]] + Join(rest, [d]) by {
          if |rest| > 1 {
            assert pieces[1..] == rest[1..];
          }
        }
        pieces
  }

  /** A string without the separator is a single piece. */
  lemma SplitWithoutSeparator(s: string, d: char)
    requires d !in s
    ensures Split(s, d) == [s]
  {
    if s != [] {
      SplitWithoutSeparator(s[1..], d);
    }
  }

  /** Splitting distributes over a separator placed between two strings. */
  lemma {:induction false} SplitAround(a: string, d: char, b: string)
    ensures Split(a + [d] + b, d) == Split(a, d) + Split(b, d)
  {
    if a == [] {
      assert a + [d] + b == [d] + b;
      assert ([d] + b)[1..] == b;
    } else {
      assert (a + [d] + b)[1..] == a[1..] + [d] + b;
      SplitAround(a[1..], d, b);
    }
  }

  /** `split` undoes `join` when no piece contains the separator. */
  lemma {:induction false} SplitOfJoin(pieces: seq<string>, d: char)
    requires pieces != []
    requires forall k :: 0 <= k < |pieces| ==> d !in pieces[k]
    ensures Split(Join(pieces, [d]), d) == pieces
  {
    SplitWithoutSeparator(pieces[0], d);
    if |pieces| > 1 {
      SplitOfJoin(pieces[1..], d);
      SplitAround(pieces[0], d, Join(pieces[1..], [d]));
    }
  }

  // ---------------------------------------------------------------------------
  // Decimal numbers (`str.isdigit`, `int(...)`, `str(n)`)
  // ---------------------------------------------------------------------------

  /** `str.isdigit()` on ASCII: non-empty and all decimal digits. */
  predicate IsDigits(s: string) {
    s != [] && forall i :: 0 <= i < |s| ==> IsDigit(s[i])
  }

  /** `int(s)` for a string of decimal digits; leading zeros are allowed. */
  function DecimalValue(s: string): nat
    requires forall i :: 0 <= i < |s| ==> IsDigit(s[i])
  {
    if s == [] then 0
    else
      assert IsDigit(s[|s| - 1]);
      10 * DecimalValue(s[..|s| - 1]) + (s[|s| - 1] as int - '0' as int)
  }

  function DigitChar(d: nat): (c: char)
    requires d < 10
    ensures IsDigit(c) && c as int - '0' as int == d
  {
    (d + '0' as int) as char
  }

  /** `str(n)`: the shortest decimal rendering of `n`, read back by `int`. */
  function NatToString(n: nat): (r: string)
    ensures IsDigits(r)
    ensures DecimalValue(r) == n
    ensures r[0] == '0' ==> n == 0
  {
    if n < 10 then [DigitChar(n)]
    else
      var r := NatToString(n / 10) + [DigitChar(n % 10)];
      assert r[..|r| - 1] == NatToString(n / 10);
      r
  }
}

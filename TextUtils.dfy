/**
  The text tools of tools/text_utils.py: the eight case and style
  conversions of `_format_text`, on ASCII text, and the listing
  `_regex_search` builds from the matches of a pattern. The regular
  expression engine is not modelled: the matches (or the reason the pattern
  was rejected) are given.
*/
module TextUtils {
  import opened Strings

  // ---------------------------------------------------------------------------
  // `str.title` and `str.capitalize`
  // ---------------------------------------------------------------------------

  /** Case mapping of one character: idempotent, each undoes the other's effect, letters stay letters. */
  lemma CharCaseLaws(c: char)
    ensures LowerChar(LowerChar(c)) == LowerChar(c) && UpperChar(UpperChar(c)) == UpperChar(c)
    ensures LowerChar(UpperChar(c)) == LowerChar(c) && UpperChar(LowerChar(c)) == UpperChar(c)
    ensures IsLetter(LowerChar(c)) == IsLetter(c) && IsLetter(UpperChar(c)) == IsLetter(c)
  {
  }

  /** `str.title`: a letter is upper-cased when the character before it is not a letter, lower-cased otherwise. */
  function Title(s: string): (t: string)
    ensures |t| == |s|
  {
    seq(|s|, i requires 0 <= i < |s| =>
      if i > 0 && IsLetter(s[i - 1]) then LowerChar(s[i]) else UpperChar(s[i]))
  }

  /** Title-casing twice is title-casing once. */
  lemma TitleIdempotent(s: string)
    ensures Title(Title(s)) == Title(s)
  {
    var t := Title(s);
    forall i | 0 <= i < |s|
      ensures Title(t)[i] == t[i]
    {
      CharCaseLaws(s[i]);
      if i > 0 {
        CharCaseLaws(s[i - 1]);
      }
    }
  }

  /** Title-casing ignores the case the text had: upper- or lower-casing first gives the same title. */
  lemma TitleIgnoresCase(s: string)
    ensures Title(Lower(s)) == Title(s)
    ensures Title(Upper(s)) == Title(s)
  {
    forall i | 0 <= i < |s|
      ensures Title(Lower(s))[i] == Title(s)[i]
      ensures Title(Upper(s))[i] == Title(s)[i]
    {
      CharCaseLaws(s[i]);
      if i > 0 {
        CharCaseLaws(s[i - 1]);
      }
    }
  }

  /** `str.capitalize`: the first character upper-cased, the rest lower-cased. */
  function Capitalize(s: string): (r: string)
    ensures |r| == |s|
  {
    if s == [] then [] else [UpperChar(s[0])] + Lower(s[1..])
  }

  /** Capitalising is idempotent and ignores the case the text had. */
  lemma CapitalizeLaws(s: string)
    ensures Capitalize(Capitalize(s)) == Capitalize(s)
    ensures Capitalize(Lower(s)) == Capitalize(s)
    ensures Capitalize(Upper(s)) == Capitalize(s)
  {
    var c := Capitalize(s);
    forall i | 0 <= i < |s|
      ensures Capitalize(c)[i] == c[i]
      ensures Capitalize(Lower(s))[i] == c[i]
      ensures Capitalize(Upper(s))[i] == c[i]
    {
      CharCaseLaws(s[i]);
    }
  }

  /**
    What `str.title` means: the title differs from the text only in case, and
    a letter of it is upper-case exactly when it starts a run of letters.
  */
  lemma TitleMeaning(s: string)
    ensures Lower(Title(s)) == Lower(s)
    ensures forall i :: 0 <= i < |Title(s)| && IsLetter(Title(s)[i]) ==>
      (IsUpperAscii(Title(s)[i]) <==> i == 0 || !IsLetter(Title(s)[i - 1]))
  {
    var t := Title(s);
    forall i | 0 <= i < |s|
      ensures LowerChar(t[i]) == LowerChar(s[i])
      ensures IsLetter(t[i]) == IsLetter(s[i])
      ensures IsLetter(t[i]) ==> (IsUpperAscii(t[i]) <==> i == 0 || !IsLetter(t[i - 1]))
    {
      CharCaseLaws(s[i]);
      if i > 0 {
        CharCaseLaws(s[i - 1]);
      }
    }
  }

  /**
    What `str.capitalize` means: the result differs from the text only in
    case, its first character is not a lower-case letter and no later one is
    an upper-case letter.
  */
  lemma CapitalizeMeaning(s: string)
    ensures Lower(Capitalize(s)) == Lower(s)
    ensures Capitalize(s) != [] ==> !IsLowerAscii(Capitalize(s)[0])
    ensures forall i :: 0 < i < |Capitalize(s)| ==> !IsUpperAscii(Capitalize(s)[i])
  {
    var c := Capitalize(s);
    forall i | 0 <= i < |s|
      ensures LowerChar(c[i]) == LowerChar(s[i])
    {
      CharCaseLaws(s[i]);
    }
  }

  // ---------------------------------------------------------------------------
  // `snake_case` and `kebab-case`
  // ---------------------------------------------------------------------------

  /** What `re.sub(r'(?<!^)(?=[A-Z])', sep, s)` makes of the character at `i`. */
  function MarkedAt(s: string, sep: char, i: nat): string
    requires i < |s|
  {
    if i > 0 && IsUpperAscii(s[i]) then [sep, s[i]] else [s[i]]
  }

  /** The marking of the characters from `i` on. */
  function MarkCapitalsFrom(s: string, sep: char, i: nat): string
    requires i <= |s|
    decreases |s| - i
  {
    if i == |s| then [] else MarkedAt(s, sep, i) + MarkCapitalsFrom(s, sep, i + 1)
  }

  /**
    `re.sub(r'(?<!^)(?=[A-Z])', sep, s)`: the separator goes before every
    upper-case letter except one at the very start.
  */
  function MarkCapitals(s: string, sep: char): string {
    MarkCapitalsFrom(s, sep, 0)
  }

  /** `s` with every occurrence of `c` removed. */
  function Remove(s: string, c: char): string {
    if s == [] then [] else (if s[0] == c then [] else [s[0]]) + Remove(s[1..], c)
  }

  lemma {:induction false} RemoveAppend(a: string, b: string, c: char)
    ensures Remove(a + b, c) == Remove(a, c) + Remove(b, c)
  {
    if a != [] {
      RemoveAppend(a[1..], b, c);
      assert (a + b)[1..] == a[1..] + b;
    } else {
      assert a + b == b;
    }
  }

  /** From `i` on, every upper-case letter is preceded by the separator, except one at the very start. */
  lemma {:induction false} MarkedCapitalsFollowSeparator(s: string, sep: char, i: nat)
    requires i <= |s| && !IsUpperAscii(sep)
    ensures forall j :: 0 < j < |MarkCapitalsFrom(s, sep, i)| && IsUpperAscii(MarkCapitalsFrom(s, sep, i)[j]) ==>
      MarkCapitalsFrom(s, sep, i)[j - 1] == sep
    ensures MarkCapitalsFrom(s, sep, i) != [] && IsUpperAscii(MarkCapitalsFrom(s, sep, i)[0]) ==> i == 0
    decreases |s| - i
  {
    if i < |s| {
      MarkedCapitalsFollowSeparator(s, sep, i + 1);
      var piece := MarkedAt(s, sep, i);
      var rest := MarkCapitalsFrom(s, sep, i + 1);
      var r := piece + rest;
      forall j | 0 < j < |r| && IsUpperAscii(r[j])
        ensures r[j - 1] == sep
      {
        if j > |piece| {
          assert r[j] == rest[j - |piece|] && r[j - 1] == rest[j - 1 - |piece|];
        }
      }
    }
  }

  /** Removing the separators undoes the marking of a text that had none. */
  lemma {:induction false} MarkCapitalsFromRoundTrip(s: string, sep: char, i: nat)
    requires i <= |s| && sep !in s
    ensures Remove(MarkCapitalsFrom(s, sep, i), sep) == s[i..]
    decreases |s| - i
  {
    if i < |s| {
      MarkCapitalsFromRoundTrip(s, sep, i + 1);
      var piece := MarkedAt(s, sep, i);
      RemoveAppend(piece, MarkCapitalsFrom(s, sep, i + 1), sep);
      if |piece| == 2 {
        assert piece[1..] == [s[i]];
      }
      assert Remove(piece, sep) == [s[i]];
      assert s[i..] == [s[i]] + s[i + 1..];
    }
  }

  /** How many upper-case letters from `i` on are not at the very start: one inserted separator each. */
  function MarkedCount(s: string, i: nat): nat
    requires i <= |s|
    decreases |s| - i
  {
    if i == |s| then 0 else (if i > 0 && IsUpperAscii(s[i]) then 1 else 0) + MarkedCount(s, i + 1)
  }

  /** The marking of the characters from `i` on keeps them and adds one separator per marked letter. */
  lemma {:induction false} MarkCapitalsFromLength(s: string, sep: char, i: nat)
    requires i <= |s|
    ensures |MarkCapitalsFrom(s, sep, i)| == |s| - i + MarkedCount(s, i)
    decreases |s| - i
  {
    if i < |s| {
      MarkCapitalsFromLength(s, sep, i + 1);
    }
  }

  /**
    Every upper-case letter after the first character is preceded by the
    separator; the first character is kept in place; the text grows by one
    separator per upper-case letter after the first character; and removing
    the separators gives back a text that had none.
  */
  lemma MarkCapitalsPlacesSeparators(s: string, sep: char)
    requires !IsUpperAscii(sep)
    ensures forall i :: 0 < i < |MarkCapitals(s, sep)| && IsUpperAscii(MarkCapitals(s, sep)[i]) ==>
      MarkCapitals(s, sep)[i - 1] == sep
    ensures s != [] ==> MarkCapitals(s, sep) != [] && MarkCapitals(s, sep)[0] == s[0]
    ensures |MarkCapitals(s, sep)| == |s| + MarkedCount(s, 0)
    ensures sep !in s ==> Remove(MarkCapitals(s, sep), sep) == s
  {
    MarkedCapitalsFollowSeparator(s, sep, 0);
    MarkCapitalsFromLength(s, sep, 0);
    var r := MarkCapitals(s, sep);
    assert r == MarkCapitalsFrom(s, sep, 0);
    if s != [] {
      assert r == [s[0]] + MarkCapitalsFrom(s, sep, 1);
    }
    if sep !in s {
      MarkCapitalsFromRoundTrip(s, sep, 0);
    }
  }

  /** The characters that `\s+`, `-+` and `_+` collapse. */
  datatype Run = Whitespace | Hyphens | Underscores

  predicate InRun(c: char, run: Run) {
    match run
    case Whitespace => IsSpace(c)
    case Hyphens => c == '-'
    case Underscores => c == '_'
  }

  /** What replacing runs makes of the character at `i`: itself, nothing inside a run, `r` at a run's start. */
  function ReplacedAt(s: string, run: Run, r: char, i: nat): string
    requires i < |s|
  {
    if !InRun(s[i], run) then [s[i]]
    else if i > 0 && InRun(s[i - 1], run) then []
    else [r]
  }

  function ReplaceRunsFrom(s: string, run: Run, r: char, i: nat): string
    requires i <= |s|
    decreases |s| - i
  {
    if i == |s| then [] else ReplacedAt(s, run, r, i) + ReplaceRunsFrom(s, run, r, i + 1)
  }

  /** `re.sub(pattern, [r], s)` with a pattern matching maximal runs of the class: each run becomes one `r`. */
  function ReplaceRuns(s: string, run: Run, r: char): string {
    ReplaceRunsFrom(s, run, r, 0)
  }

  /** The property lemma below, from position `i` on. */
  lemma {:induction false} ReplaceRunsFromKeeps(s: string, run: Run, r: char, p: char -> bool, i: nat)
    requires i <= |s|
    requires p(r) && !InRun(r, run)
    requires forall j :: 0 <= j < |s| && !InRun(s[j], run) ==> p(s[j])
    ensures forall j :: 0 <= j < |ReplaceRunsFrom(s, run, r, i)| ==>
      p(ReplaceRunsFrom(s, run, r, i)[j]) && !InRun(ReplaceRunsFrom(s, run, r, i)[j], run)
    decreases |s| - i
  {
    if i < |s| {
      ReplaceRunsFromKeeps(s, run, r, p, i + 1);
      var piece := ReplacedAt(s, run, r, i);
      var rest := ReplaceRunsFrom(s, run, r, i + 1);
      var out := piece + rest;
      assert p(s[i]) || InRun(s[i], run);
      forall j | 0 <= j < |out|
        ensures p(out[j]) && !InRun(out[j], run)
      {
        if j >= |piece| {
          assert out[j] == rest[j - |piece|];
        } else if !InRun(s[i], run) {
          assert out[j] == s[i];
        } else {
          assert out[j] == r;
        }
      }
    }
  }

  /**
    No character of the class survives, and any property shared by the
    replacement and the characters outside the class holds of the whole result.
  */
  lemma ReplaceRunsKeeps(s: string, run: Run, r: char, p: char -> bool)
    requires p(r) && !InRun(r, run)
    requires forall i :: 0 <= i < |s| && !InRun(s[i], run) ==> p(s[i])
    ensures forall i :: 0 <= i < |ReplaceRuns(s, run, r)| ==>
      p(ReplaceRuns(s, run, r)[i]) && !InRun(ReplaceRuns(s, run, r)[i], run)
  {
    ReplaceRunsFromKeeps(s, run, r, p, 0);
    assert ReplaceRuns(s, run, r) == ReplaceRunsFrom(s, run, r, 0);
  }

  /** `s` without the characters of the class and without `r`: what run replacement leaves alone. */
  function Untouched(s: string, run: Run, r: char): string {
    if s == [] then [] else UntouchedChar(s[0], run, r) + Untouched(s[1..], run, r)
  }

  function UntouchedChar(c: char, run: Run, r: char): string {
    if InRun(c, run) || c == r then [] else [c]
  }

  lemma {:induction false} UntouchedAppend(a: string, b: string, run: Run, r: char)
    ensures Untouched(a + b, run, r) == Untouched(a, run, r) + Untouched(b, run, r)
  {
    if a != [] {
      UntouchedAppend(a[1..], b, run, r);
      assert (a + b)[0] == a[0] && (a + b)[1..] == a[1..] + b;
    } else {
      assert a + b == b;
    }
  }

  lemma {:induction false} OccurrencesAppend(a: string, b: string, c: char)
    ensures Occurrences(a + b, c) == Occurrences(a, c) + Occurrences(b, c)
  {
    if a != [] {
      OccurrencesAppend(a[1..], b, c);
      assert (a + b)[1..] == a[1..] + b;
    } else {
      assert a + b == b;
    }
  }

  /** `s[i]` is the first character of a maximal run of the class. */
  predicate StartsRun(s: string, run: Run, i: nat)
    requires i < |s|
  {
    InRun(s[i], run) && (i == 0 || !InRun(s[i - 1], run))
  }

  /** The number of maximal runs of the class that start at `i` or later. */
  function RunsFrom(s: string, run: Run, i: nat): nat
    requires i <= |s|
    decreases |s| - i
  {
    if i == |s| then 0 else (if StartsRun(s, run, i) then 1 else 0) + RunsFrom(s, run, i + 1)
  }

  /** The property lemma below, from position `i` on. */
  lemma {:induction false} ReplaceRunsFromCounts(s: string, run: Run, r: char, i: nat)
    requires i <= |s| && !InRun(r, run)
    ensures Untouched(ReplaceRunsFrom(s, run, r, i), run, r) == Untouched(s[i..], run, r)
    ensures Occurrences(ReplaceRunsFrom(s, run, r, i), r) == Occurrences(s[i..], r) + RunsFrom(s, run, i)
    decreases |s| - i
  {
    if i < |s| {
      ReplaceRunsFromCounts(s, run, r, i + 1);
      var piece := ReplacedAt(s, run, r, i);
      var rest := ReplaceRunsFrom(s, run, r, i + 1);
      assert s[i..] == [s[i]] + s[i + 1..];
      UntouchedAppend(piece, rest, run, r);
      UntouchedAppend([s[i]], s[i + 1..], run, r);
      OccurrencesAppend(piece, rest, r);
      OccurrencesAppend([s[i]], s[i + 1..], r);
    }
  }

  /**
    What run replacement means: every character outside the class other
    than `r` is kept, in order, and each maximal run of the class adds
    exactly one `r` to those the text already had.
  */
  lemma ReplaceRunsMeaning(s: string, run: Run, r: char)
    requires !InRun(r, run)
    ensures Untouched(ReplaceRuns(s, run, r), run, r) == Untouched(s, run, r)
    ensures Occurrences(ReplaceRuns(s, run, r), r) == Occurrences(s, r) + RunsFrom(s, run, 0)
  {
    ReplaceRunsFromCounts(s, run, r, 0);
    assert s[0..] == s;
  }

  /** The snake_case conversion. */
  function Snake(text: string): string {
    var marked := Lower(MarkCapitals(text, '_'));
    ReplaceRuns(ReplaceRuns(marked, Whitespace, '_'), Hyphens, '_')
  }

  /** The kebab-case conversion. */
  function Kebab(text: string): string {
    var marked := Lower(MarkCapitals(text, '-'));
    ReplaceRuns(ReplaceRuns(marked, Whitespace, '-'), Underscores, '-')
  }

  /** snake_case output has no whitespace, no hyphen and no upper-case letter. */
  lemma SnakeIsClean(text: string)
    ensures var out := Snake(text);
      forall i :: 0 <= i < |out| ==> !IsSpace(out[i]) && out[i] != '-' && !IsUpperAscii(out[i])
  {
    var marked := Lower(MarkCapitals(text, '_'));
    var spaced := ReplaceRuns(marked, Whitespace, '_');
    LowerIsLowerCase(MarkCapitals(text, '_'));
    ReplaceRunsKeeps(marked, Whitespace, '_', c => !IsUpperAscii(c));
    assert forall i :: 0 <= i < |spaced| ==> !IsUpperAscii(spaced[i]) && !IsSpace(spaced[i]);
    ReplaceRunsKeeps(spaced, Hyphens, '_', c => !IsUpperAscii(c) && !IsSpace(c));
  }

  /** kebab-case output has no whitespace, no underscore and no upper-case letter. */
  lemma KebabIsClean(text: string)
    ensures var out := Kebab(text);
      forall i :: 0 <= i < |out| ==> !IsSpace(out[i]) && out[i] != '_' && !IsUpperAscii(out[i])
  {
    var marked := Lower(MarkCapitals(text, '-'));
    var spaced := ReplaceRuns(marked, Whitespace, '-');
    LowerIsLowerCase(MarkCapitals(text, '-'));
    ReplaceRunsKeeps(marked, Whitespace, '-', c => !IsUpperAscii(c));
    assert forall i :: 0 <= i < |spaced| ==> !IsUpperAscii(spaced[i]) && !IsSpace(spaced[i]);
    ReplaceRunsKeeps(spaced, Underscores, '-', c => !IsUpperAscii(c) && !IsSpace(c));
  }

  /**
    The separator is inserted before the capital before whitespace is
    collapsed, so the space before a capitalised word adds a second one.
  */
  lemma SpaceBeforeCapitalDoublesSeparator()
    ensures Snake("Ab Cd") == "ab__cd"
  {
    var s := "Ab Cd";
    assert MarkCapitalsFrom(s, '_', 5) == "";
    assert MarkCapitalsFrom(s, '_', 4) == "d";
    assert MarkCapitalsFrom(s, '_', 3) == "_Cd";
    assert MarkCapitalsFrom(s, '_', 2) == " _Cd";
    assert MarkCapitalsFrom(s, '_', 1) == "b _Cd";
    assert MarkCapitalsFrom(s, '_', 0) == "Ab _Cd";
    var m := "ab _cd";
    assert Lower("Ab _Cd") == m;
    assert ReplaceRunsFrom(m, Whitespace, '_', 6) == "";
    assert ReplaceRunsFrom(m, Whitespace, '_', 5) == "d";
    assert ReplaceRunsFrom(m, Whitespace, '_', 4) == "cd";
    assert ReplaceRunsFrom(m, Whitespace, '_', 3) == "_cd";
    assert ReplaceRunsFrom(m, Whitespace, '_', 2) == "__cd";
    assert ReplaceRunsFrom(m, Whitespace, '_', 1) == "b__cd";
    assert ReplaceRunsFrom(m, Whitespace, '_', 0) == "ab__cd";
    var c := "ab__cd";
    assert ReplaceRunsFrom(c, Hyphens, '_', 6) == "";
    assert ReplaceRunsFrom(c, Hyphens, '_', 5) == "d";
    assert ReplaceRunsFrom(c, Hyphens, '_', 4) == "cd";
    assert ReplaceRunsFrom(c, Hyphens, '_', 3) == "_cd";
    assert ReplaceRunsFrom(c, Hyphens, '_', 2) == "__cd";
    assert ReplaceRunsFrom(c, Hyphens, '_', 1) == "b__cd";
    assert ReplaceRunsFrom(c, Hyphens, '_', 0) == "ab__cd";
  }

  // ---------------------------------------------------------------------------
  // `camelCase` and `PascalCase`
  // ---------------------------------------------------------------------------

  /** The separators of `[_\s-]+`. */
  predicate IsWordSeparator(c: char) {
    c == '_' || IsSpace(c) || c == '-'
  }

  predicate SeparatorFree(s: string) {
    forall i :: 0 <= i < |s| ==> !IsWordSeparator(s[i])
  }

  /**
    `re.split(r'[_\s-]+', s)`: the pieces between maximal runs of separators;
    a leading or trailing run gives an empty first or last piece.
  */
  function Words(s: string): (words: seq<string>)
    ensures words != []
  {
    if s == [] then [""]
    else
      var n := |s| - 1;
      var init := Words(s[..n]);
      if IsWordSeparator(s[n]) then
        if n > 0 && IsWordSeparator(s[n - 1]) then init else init + [""]
      else init[..|init| - 1] + [init[|init| - 1] + [s[n]]]
  }

  /** The words of a text concatenated. */
  function Concat(words: seq<string>): string {
    if words == [] then "" else Concat(words[..|words| - 1]) + words[|words| - 1]
  }

  /** The text with its separators removed. */
  function Unseparated(s: string): string {
    if s == [] then ""
    else Unseparated(s[..|s| - 1]) + (if IsWordSeparator(s[|s| - 1]) then "" else [s[|s| - 1]])
  }

  /** Splitting loses only the separators: the words put back together are the text without them. */
  lemma {:induction false} WordsKeepEverythingElse(s: string)
    ensures Concat(Words(s)) == Unseparated(s)
  {
    if s != [] {
      var n := |s| - 1;
      var init := Words(s[..n]);
      WordsKeepEverythingElse(s[..n]);
      if IsWordSeparator(s[n]) {
        if !(n > 0 && IsWordSeparator(s[n - 1])) {
          assert (init + [""])[..|init|] == init;
        }
      } else {
        var front := init[..|init| - 1];
        var w := Words(s);
        assert w[..|w| - 1] == front;
        assert init[..|init| - 1] == front;
        assert Concat(w) == Concat(front) + init[|init| - 1] + [s[n]];
      }
    }
  }

  /**
    No word contains a separator, and any property the text's other
    characters share holds of every character of every word.
  */
  lemma {:induction false} WordsKeep(s: string, p: char -> bool)
    requires forall i :: 0 <= i < |s| && !IsWordSeparator(s[i]) ==> p(s[i])
    ensures forall k, i :: 0 <= k < |Words(s)| && 0 <= i < |Words(s)[k]| ==>
      p(Words(s)[k][i]) && !IsWordSeparator(Words(s)[k][i])
  {
    if s != [] {
      var n := |s| - 1;
      WordsKeep(s[..n], p);
      var init := Words(s[..n]);
      var words := Words(s);
      var m := |init| - 1;
      forall k, i | 0 <= k < |words| && 0 <= i < |words[k]|
        ensures p(words[k][i]) && !IsWordSeparator(words[k][i])
      {
        if IsWordSeparator(s[n]) {
          if k < |init| {
            assert words[k] == init[k];
          }
        } else if k < m {
          assert words[k] == init[k];
        } else {
          assert words[k] == init[m] + [s[n]];
          if i < |init[m]| {
            assert words[k][i] == init[m][i];
          } else {
            assert words[k][i] == s[n];
          }
        }
      }
    }
  }

  /** A separator-free text is one word. */
  lemma {:induction false} WordsOfSeparatorFree(w: string)
    requires SeparatorFree(w)
    ensures Words(w) == [w]
  {
    if w != [] {
      var n := |w| - 1;
      WordsOfSeparatorFree(w[..n]);
      assert w[..n] + [w[n]] == w;
    }
  }

  /** The last word of `words` extended by `c`. */
  function ExtendLast(words: seq<string>, c: char): (r: seq<string>)
    requires words != []
    ensures |r| == |words|
  {
    words[..|words| - 1] + [words[|words| - 1] + [c]]
  }

  lemma ExtendLastAppend(x: seq<string>, y: seq<string>, c: char)
    requires y != []
    ensures ExtendLast(x + y, c) == x + ExtendLast(y, c)
  {
    assert (x + y)[..|x + y| - 1] == x + y[..|y| - 1];
  }

  /** How one more character changes the words: a separator may open an empty word, any other character extends the last word. */
  lemma WordsStep(s: string, c: char)
    ensures IsWordSeparator(c) && s != [] && IsWordSeparator(s[|s| - 1]) ==> Words(s + [c]) == Words(s)
    ensures IsWordSeparator(c) && (s == [] || !IsWordSeparator(s[|s| - 1])) ==> Words(s + [c]) == Words(s) + [""]
    ensures !IsWordSeparator(c) ==> Words(s + [c]) == ExtendLast(Words(s), c)
  {
    assert (s + [c])[..|s|] == s;
  }

  /** A non-empty text made only of separators. */
  predicate IsSeparatorRun(t: string) {
    t != [] && forall i :: 0 <= i < |t| ==> IsWordSeparator(t[i])
  }

  /** A run of separators closing the text ends the last word and opens an empty one. */
  lemma {:induction false} WordsBeforeTrailingRun(a: string, t: string)
    requires IsSeparatorRun(t)
    requires a == [] || !IsWordSeparator(a[|a| - 1])
    ensures Words(a + t) == Words(a) + [""]
    decreases |t|
  {
    var t' := t[..|t| - 1];
    var c := t[|t| - 1];
    assert a + t == (a + t') + [c];
    WordsStep(a + t', c);
    if t' != [] {
      WordsBeforeTrailingRun(a, t');
    } else {
      assert a + t' == a;
    }
  }

  /** One character after a closing run of separators starts a new word. */
  lemma WordsAfterRun(a: string, t: string, c: char)
    requires IsSeparatorRun(t) && !IsWordSeparator(c)
    requires a == [] || !IsWordSeparator(a[|a| - 1])
    ensures Words(a + t + [c]) == Words(a) + Words([c])
  {
    WordsStep(a + t, c);
    WordsStep([], c);
    assert [] + [c] == [c];
    WordsBeforeTrailingRun(a, t);
    ExtendLastAppend(Words(a), [""], c);
  }

  /** Two texts ending alike gain the same words from one more character. */
  lemma WordsStepAlike(s: string, b: string, x: seq<string>, c: char)
    requires s != [] && b != [] && s[|s| - 1] == b[|b| - 1]
    requires Words(s) == x + Words(b)
    ensures Words(s + [c]) == x + Words(b + [c])
  {
    WordsStep(s, c);
    WordsStep(b, c);
    ExtendLastAppend(x, Words(b), c);
  }

  /**
    `re.split` cuts at every maximal run of separators: a run between `a`
    and `b` separates the words of `a` from those of `b`. Together with
    `WordsOfSeparatorFree` this fixes the words of every text.
  */
  lemma {:induction false} WordsAroundRun(a: string, t: string, b: string)
    requires IsSeparatorRun(t)
    requires a == [] || !IsWordSeparator(a[|a| - 1])
    requires b == [] || !IsWordSeparator(b[0])
    ensures Words(a + t + b) == Words(a) + Words(b)
    decreases |b|
  {
    if b == [] {
      assert a + t + b == a + t;
      WordsBeforeTrailingRun(a, t);
    } else {
      var b' := b[..|b| - 1];
      var c := b[|b| - 1];
      assert b == b' + [c];
      assert a + t + b == a + t + b' + [c];
      if b' == [] {
        assert b == [c] && a + t + b == a + t + [c];
        WordsAfterRun(a, t, c);
      } else {
        WordsAroundRun(a, t, b');
        assert (a + t + b')[|a + t + b'| - 1] == b'[|b'| - 1];
        WordsStepAlike(a + t + b', b', Words(a), c);
      }
    }
  }

  /** Each word capitalised. */
  function CapitalizeAll(words: seq<string>): (caps: seq<string>)
    ensures |caps| == |words|
  {
    seq(|words|, k requires 0 <= k < |words| => Capitalize(words[k]))
  }

  /** The PascalCase conversion: every word of the lower-cased text capitalised. */
  function Pascal(text: string): string {
    Concat(CapitalizeAll(Words(Lower(text))))
  }

  /** The camelCase conversion: the first word as it is, the others capitalised. */
  function Camel(text: string): string {
    var words := Words(Lower(text));
    words[0] + Concat(CapitalizeAll(words[1..]))
  }

  lemma {:induction false} ConcatFront(words: seq<string>)
    requires words != []
    ensures Concat(words) == words[0] + Concat(words[1..])
  {
    if |words| > 1 {
      var n := |words| - 1;
      ConcatFront(words[..n]);
      assert words[..n][1..] == words[1..][..n - 1];
      assert words[..n][0] == words[0];
    } else {
      assert words[..0] == [];
    }
  }

  /** The capitalised words concatenated: the first capitalised word, then the rest. */
  lemma CapitalizedFront(words: seq<string>)
    requires words != []
    ensures Concat(CapitalizeAll(words)) == Capitalize(words[0]) + Concat(CapitalizeAll(words[1..]))
  {
    var caps := CapitalizeAll(words);
    ConcatFront(caps);
    assert caps[1..] == CapitalizeAll(words[1..]);
  }

  lemma SeparatorFreeAppend(a: string, b: string)
    requires SeparatorFree(a) && SeparatorFree(b)
    ensures SeparatorFree(a + b)
  {
    forall i | 0 <= i < |a + b|
      ensures !IsWordSeparator((a + b)[i])
    {
      if i >= |a| {
        assert (a + b)[i] == b[i - |a|];
      }
    }
  }

  /** Changing case maps letters to letters, so it neither makes nor removes a separator. */
  lemma CaseKeepsSeparators(c: char)
    ensures IsWordSeparator(UpperChar(c)) == IsWordSeparator(c)
    ensures IsWordSeparator(LowerChar(c)) == IsWordSeparator(c)
  {
    if IsLowerAscii(c) {
      assert IsUpperAscii(UpperChar(c));
    }
    if IsUpperAscii(c) {
      assert IsLowerAscii(LowerChar(c));
    }
  }

  lemma CapitalizeSeparatorFree(w: string)
    requires SeparatorFree(w)
    ensures SeparatorFree(Capitalize(w))
  {
    forall i | 0 <= i < |w|
      ensures !IsWordSeparator(Capitalize(w)[i])
    {
      CaseKeepsSeparators(w[i]);
      if i == 0 {
        assert Capitalize(w)[0] == UpperChar(w[0]);
      } else {
        assert Capitalize(w)[i] == LowerChar(w[i]);
      }
    }
  }

  /** Capitalised separator-free words concatenate to a separator-free text. */
  lemma {:induction false} CapitalizedSeparatorFree(words: seq<string>)
    requires forall k :: 0 <= k < |words| ==> SeparatorFree(words[k])
    ensures SeparatorFree(Concat(CapitalizeAll(words)))
    decreases |words|
  {
    if words != [] {
      CapitalizedFront(words);
      CapitalizedSeparatorFree(words[1..]);
      CapitalizeSeparatorFree(words[0]);
      SeparatorFreeAppend(Capitalize(words[0]), Concat(CapitalizeAll(words[1..])));
    }
  }

  /** A non-empty concatenation of capitalised words starts with an upper-cased character. */
  lemma {:induction false} CapitalizedStartsUpper(words: seq<string>)
    requires Concat(CapitalizeAll(words)) != []
    ensures var r := Concat(CapitalizeAll(words)); UpperChar(r[0]) == r[0]
    decreases |words|
  {
    if words != [] {
      CapitalizedFront(words);
      if words[0] == [] {
        CapitalizedStartsUpper(words[1..]);
      } else {
        CharCaseLaws(words[0][0]);
      }
    }
  }

  /** The words of the lower-cased text: separator-free and lower-case. */
  lemma LoweredWords(text: string)
    ensures forall k :: 0 <= k < |Words(Lower(text))| ==>
      SeparatorFree(Words(Lower(text))[k]) && IsLowerCase(Words(Lower(text))[k])
  {
    var lowered := Lower(text);
    LowerIsLowerCase(text);
    WordsKeep(lowered, c => !IsUpperAscii(c));
  }

  /** Neither camelCase nor PascalCase output contains a separator. */
  lemma CamelAndPascalHaveNoSeparators(text: string)
    ensures SeparatorFree(Pascal(text))
    ensures SeparatorFree(Camel(text))
  {
    var words := Words(Lower(text));
    LoweredWords(text);
    CapitalizedSeparatorFree(words);
    CapitalizedSeparatorFree(words[1..]);
    var first := words[0];
    var rest := Concat(CapitalizeAll(words[1..]));
    assert Camel(text) == first + rest;
  }

  /** A lower-case first word joined to the rest, with and without capitalising it. */
  lemma CapitalizedFirstDiffersOnlyFirst(first: string, rest: string)
    requires IsLowerCase(first)
    requires first == [] && rest != [] ==> UpperChar(rest[0]) == rest[0]
    ensures |first + rest| == |Capitalize(first) + rest|
    ensures forall i :: 0 < i < |first + rest| ==> (first + rest)[i] == (Capitalize(first) + rest)[i]
    ensures first + rest != [] ==> (Capitalize(first) + rest)[0] == UpperChar((first + rest)[0])
  {
    if first == [] {
      assert first + rest == rest && Capitalize(first) + rest == rest;
    } else {
      var tail := first[1..];
      assert IsLowerCase(tail) by {
        forall i | 0 <= i < |tail| ensures !IsUpperAscii(tail[i]) {
          assert tail[i] == first[i + 1];
        }
      }
      LowerOfLowerCase(tail);
      assert first + rest == [first[0]] + (tail + rest);
      assert Capitalize(first) + rest == [UpperChar(first[0])] + (tail + rest);
    }
  }

  /**
    camelCase and PascalCase have the same length and differ at most in the
    first character, which PascalCase has upper-cased.
  */
  lemma CamelAndPascalDifferOnlyFirst(text: string)
    ensures |Camel(text)| == |Pascal(text)|
    ensures forall i :: 0 < i < |Camel(text)| ==> Camel(text)[i] == Pascal(text)[i]
    ensures Camel(text) != [] ==> Pascal(text)[0] == UpperChar(Camel(text)[0])
  {
    var words := Words(Lower(text));
    LoweredWords(text);
    CapitalizedFront(words);
    var rest := Concat(CapitalizeAll(words[1..]));
    if words[0] == [] && rest != [] {
      CapitalizedStartsUpper(words[1..]);
    }
    CapitalizedFirstDiffersOnlyFirst(words[0], rest);
  }

  // ---------------------------------------------------------------------------
  // `_format_text`
  // ---------------------------------------------------------------------------

  /** The eight operations `_format_text` accepts. */
  datatype Operation =
    | ToUpper | ToLower | ToTitle | ToCapitalized
    | ToSnakeCase | ToCamelCase | ToPascalCase | ToKebabCase
  {
    /** The name a caller passes to select the operation. */
    function Name(): string {
      match this
      case ToUpper => "upper"
      case ToLower => "lower"
      case ToTitle => "title"
      case ToCapitalized => "capitalize"
      case ToSnakeCase => "snake_case"
      case ToCamelCase => "camelCase"
      case ToPascalCase => "PascalCase"
      case ToKebabCase => "kebab-case"
    }
  }

  predicate IsOperationName(name: string) {
    name == "upper" || name == "lower" || name == "title" || name == "capitalize"
    || name == "snake_case" || name == "camelCase" || name == "PascalCase" || name == "kebab-case"
  }

  /** The operation a name selects. */
  function OperationNamed(name: string): (op: Operation)
    requires IsOperationName(name)
    ensures op.Name() == name
  {
    if name == "upper" then ToUpper
    else if name == "lower" then ToLower
    else if name == "title" then ToTitle
    else if name == "capitalize" then ToCapitalized
    else if name == "snake_case" then ToSnakeCase
    else if name == "camelCase" then ToCamelCase
    else if name == "PascalCase" then ToPascalCase
    else ToKebabCase
  }

  /** Every operation's name is accepted and selects that operation and no other. */
  lemma OperationNamesRoundTrip(op: Operation)
    ensures IsOperationName(op.Name())
    ensures OperationNamed(op.Name()) == op
  {
  }

  function Apply(op: Operation, text: string): (r: string)
    ensures op.ToUpper? || op.ToLower? || op.ToTitle? || op.ToCapitalized? ==> |r| == |text|
    ensures op.ToUpper? ==> forall i :: 0 <= i < |r| ==> !IsLowerAscii(r[i])
    ensures op.ToLower? ==> forall i :: 0 <= i < |r| ==> !IsUpperAscii(r[i])
  {
    match op
    case ToUpper => Upper(text)
    case ToLower => Lower(text)
    case ToTitle => Title(text)
    case ToCapitalized => Capitalize(text)
    case ToSnakeCase => Snake(text)
    case ToCamelCase => Camel(text)
    case ToPascalCase => Pascal(text)
    case ToKebabCase => Kebab(text)
  }

  function UnknownOperationMessage(operation: string): string {
    "Error: Unknown operation '" + operation
      + "'. Use: upper, lower, title, capitalize, snake_case, camelCase, PascalCase, kebab-case"
  }

  /** What `_format_text` returns: the selected conversion, or the error naming the accepted operations. */
  function FormatText(text: string, operation: string): (r: string)
    ensures !IsOperationName(operation) ==> r == UnknownOperationMessage(operation)
    ensures IsOperationName(operation) ==> r == Apply(OperationNamed(operation), text)
  {
    if IsOperationName(operation) then Apply(OperationNamed(operation), text)
    else UnknownOperationMessage(operation)
  }

  /** Passing an operation's name applies that operation. */
  lemma FormatTextSelects(text: string, op: Operation)
    ensures FormatText(text, op.Name()) == Apply(op, text)
  {
    OperationNamesRoundTrip(op);
  }

  // ---------------------------------------------------------------------------
  // `_regex_search`
  // ---------------------------------------------------------------------------

  /** One item of `re.findall`: the whole match, or the groups when the pattern has several. */
  datatype Match = Whole(text: string) | Groups(groups: seq<string>)

  /** The outcome of `re.findall(pattern, text)`. */
  datatype Findall = Found(matches: seq<Match>) | InvalidPattern(reason: string)

  /** At most this many matches are listed. */
  const MaxListedMatches: nat := 50

  /** A group tuple is shown with its groups separated by a comma. */
  function MatchText(m: Match): string {
    match m
    case Whole(text) => text
    case Groups(groups) => Join(groups, ", ")
  }

  function MatchLine(number: nat, m: Match): string {
    NatToString(number) + ". " + MatchText(m)
  }

  function MatchesHeader(count: nat): string {
    "Found " + NatToString(count) + " match(es):\n"
  }

  function MoreMatchesLine(hidden: nat): string {
    "\n... and " + NatToString(hidden) + " more matches"
  }

  function Listed(count: nat): nat {
    if count < MaxListedMatches then count else MaxListedMatches
  }

  /** The numbered lines of the first `k` matches. */
  function NumberedMatches(matches: seq<Match>, k: nat): (lines: seq<string>)
    requires k <= |matches|
    ensures |lines| == k
    ensures forall i :: 0 <= i < k ==> lines[i] == MatchLine(i + 1, matches[i])
  {
    seq(k, i requires 0 <= i < k => MatchLine(i + 1, matches[i]))
  }

  /** The lines of the listing: the count, the first 50 matches numbered from 1, and how many were left out. */
  function MatchLines(matches: seq<Match>): (lines: seq<string>)
    ensures |lines| == 1 + Listed(|matches|) + (if |matches| > MaxListedMatches then 1 else 0)
    ensures lines[0] == MatchesHeader(|matches|)
    ensures forall i :: 0 <= i < Listed(|matches|) ==> lines[i + 1] == MatchLine(i + 1, matches[i])
    ensures |matches| > MaxListedMatches ==>
      lines[|lines| - 1] == MoreMatchesLine(|matches| - MaxListedMatches)
  {
    var shown := Listed(|matches|);
    [MatchesHeader(|matches|)] + NumberedMatches(matches, shown)
      + (if |matches| > shown then [MoreMatchesLine(|matches| - shown)] else [])
  }

  function NoMatchesMessage(pattern: string): string {
    "No matches found for pattern: " + pattern
  }

  function InvalidPatternMessage(reason: string): string {
    "Error: Invalid regex pattern - " + reason
  }

  /** What `_regex_search` returns for the outcome of `re.findall`. */
  function RegexReport(pattern: string, outcome: Findall): (report: string)
    ensures outcome.InvalidPattern? ==> report == InvalidPatternMessage(outcome.reason)
    ensures outcome.Found? && outcome.matches == [] ==> report == NoMatchesMessage(pattern)
    ensures outcome.Found? && outcome.matches != [] ==> StartsWith(report, MatchesHeader(|outcome.matches|))
    ensures outcome.Found? && outcome.matches != [] ==> report == Join(MatchLines(outcome.matches), "\n")
  {
    match outcome
    case InvalidPattern(reason) => InvalidPatternMessage(reason)
    case Found(matches) =>
      if matches == [] then NoMatchesMessage(pattern)
      else
        var lines := MatchLines(matches);
        var report := Join(lines, "\n");
        assert report[..|lines[0]|] == lines[0];
        report
  }

  /** The listing loop of `_regex_search`. */
  method RegexSearch(pattern: string, outcome: Findall) returns (report: string)
    ensures report == RegexReport(pattern, outcome)
  {
    if outcome.InvalidPattern? {
      return InvalidPatternMessage(outcome.reason);
    }
    var matches := outcome.matches;
    if matches == [] {
      return NoMatchesMessage(pattern);
    }
    var header := MatchesHeader(|matches|);
    var maxMatches := Listed(|matches|);
    var listed := [];
    for i := 0 to maxMatches
      invariant listed == NumberedMatches(matches, i)
    {
      listed := listed + [MatchLine(i + 1, matches[i])];
    }
    var result := [header] + listed;
    if |matches| > maxMatches {
      result := result + [MoreMatchesLine(|matches| - maxMatches)];
    }
    assert result == MatchLines(matches);
    report := Join(result, "\n");
  }
}

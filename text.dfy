/**
 * The string operations of the Kotlin standard library, of `java.util.regex` and of
 * C++ stream extraction that the orchestration layer relies on, stated on `seq<char>`.
 * Functions that scan take a start index rather than slicing, so that the lemmas
 * about them need no reasoning about slices of slices.
 */
module Text {
  import opened Wrappers

  // ---------------------------------------------------------------------------
  // Character classes
  // ---------------------------------------------------------------------------

  /** `\s` of java.util.regex and `isspace` in the "C" locale: space, TAB, LF, VT, FF, CR. */
  predicate IsSpace(c: char) {
    c == ' ' || c == '\t' || c == '\n' || c == '\r' || c as int == 0x0B || c as int == 0x0C
  }

  /** Kotlin's `Char.isWhitespace()`, the class that `trim()` removes. */
  predicate IsWhitespace(c: char) {
    var n := c as int;
    (0x09 <= n <= 0x0D) || (0x1C <= n <= 0x20) || n == 0xA0 || n == 0x1680
    || (0x2000 <= n <= 0x200A) || n == 0x2028 || n == 0x2029 || n == 0x202F
    || n == 0x205F || n == 0x3000
  }

  predicate IsDigit(c: char) {
    '0' <= c <= '9'
  }

  // ---------------------------------------------------------------------------
  // Length in UTF-16 code units
  // ---------------------------------------------------------------------------

  /** A character outside the Basic Multilingual Plane, which UTF-16 writes as a surrogate pair. */
  predicate IsSupplementary(c: char) {
    c as int >= 0x1_0000
  }

  /**
   * Kotlin's `String.length`: the number of UTF-16 code units, one per character of
   * the Basic Multilingual Plane and two per supplementary character.
   */
  function Utf16Length(s: string): (n: nat)
    ensures |s| <= n <= 2 * |s|
    ensures n == |s| <==> forall i :: 0 <= i < |s| ==> !IsSupplementary(s[i])
  {
    if s == [] then 0
    else
      var rest := Utf16Length(s[1..]);
      assert forall i :: 1 <= i < |s| ==> s[i] == s[1..][i - 1];
      (if IsSupplementary(s[0]) then 2 else 1) + rest
  }

  /** The lengths of two texts add up. */
  lemma {:induction false} Utf16LengthConcat(a: string, b: string)
    ensures Utf16Length(a + b) == Utf16Length(a) + Utf16Length(b)
    decreases |a|
  {
    if a != [] {
      assert (a + b)[0] == a[0] && (a + b)[1..] == a[1..] + b;
      Utf16LengthConcat(a[1..], b);
    } else {
      assert a + b == b;
    }
  }

  /** An emoji is one character of the model's strings and two units of Kotlin's `length`. */
  lemma Utf16LengthOfEmoji()
    ensures |"\U{1F600}"| == 1 && Utf16Length("\U{1F600}") == 2
  {
  }

  // ---------------------------------------------------------------------------
  // Searching
  // ---------------------------------------------------------------------------

  predicate StartsWith(s: string, prefix: string) {
    |prefix| <= |s| && s[..|prefix|] == prefix
  }

  /** `pattern` occurs in `s` starting at index `i`. */
  predicate OccursAt(s: string, pattern: string, i: nat) {
    i + |pattern| <= |s| && s[i..i + |pattern|] == pattern
  }

  predicate Contains(s: string, pattern: string) {
    exists i: nat | i <= |s| :: OccursAt(s, pattern, i)
  }

  /** The first index at or after `i` where `pattern` occurs, as Kotlin's `indexOf(pattern, i)`. */
  function IndexFrom(s: string, pattern: string, i: nat): (r: Option<nat>)
    ensures r.Some? ==> i <= r.value && OccursAt(s, pattern, r.value)
    ensures r.Some? ==> forall j: nat :: i <= j < r.value ==> !OccursAt(s, pattern, j)
    ensures r.None? ==> forall j: nat :: i <= j ==> !OccursAt(s, pattern, j)
    decreases |s| - i
  {
    if i + |pattern| > |s| then None
    else if OccursAt(s, pattern, i) then Some(i)
    else IndexFrom(s, pattern, i + 1)
  }

  function IndexOf(s: string, pattern: string): (r: Option<nat>)
    ensures r.None? <==> !Contains(s, pattern)
    ensures r.Some? ==> OccursAt(s, pattern, r.value)
    ensures r.Some? ==> forall j: nat :: j < r.value ==> !OccursAt(s, pattern, j)
  {
    IndexFrom(s, pattern, 0)
  }

  /** Kotlin's `substringBefore(delimiter)`: everything before the first occurrence, or all of `s`. */
  function SubstringBefore(s: string, delimiter: string): (r: string)
    ensures StartsWith(s, r)
    ensures !Contains(s, delimiter) ==> r == s
    ensures Contains(s, delimiter) ==> OccursAt(s, delimiter, |r|)
    ensures |delimiter| > 0 ==> !Contains(r, delimiter)
  {
    match IndexOf(s, delimiter)
    case None => s
    case Some(i) =>
      var r := s[..i];
      assert forall j: nat :: OccursAt(r, delimiter, j) ==> OccursAt(s, delimiter, j) by {
        forall j: nat | OccursAt(r, delimiter, j) ensures OccursAt(s, delimiter, j) {
          assert s[j..j + |delimiter|] == r[j..j + |delimiter|];
        }
      }
      r
  }

  lemma {:induction false} IndexFromAt(s: string, pattern: string, i: nat, k: nat)
    requires i <= k && OccursAt(s, pattern, k)
    requires forall j: nat :: i <= j < k ==> !OccursAt(s, pattern, j)
    ensures IndexFrom(s, pattern, i) == Some(k)
    decreases k - i
  {
    if i < k {
      assert !OccursAt(s, pattern, i);
      IndexFromAt(s, pattern, i + 1, k);
    }
  }

  /** The text after the first ':' of `key + ":" + rest`, when `key` holds no ':'. */
  lemma SubstringAfterKey(key: string, rest: string)
    requires ':' !in key
    ensures SubstringAfter(key + ":" + rest, ":", "") == rest
  {
    var s := key + ":" + rest;
    forall j: nat | j < |key| ensures !OccursAt(s, ":", j) {
      assert s[j] == key[j];
      assert s[j..j + 1] == [s[j]];
    }
    assert s[|key|..|key| + 1] == ":";
    IndexFromAt(s, ":", 0, |key|);
    assert s[|key| + 1..] == rest;
  }

  /** Kotlin's `substringAfter(delimiter, missing)`: everything after the first occurrence, or `missing`. */
  function SubstringAfter(s: string, delimiter: string, missing: string): (r: string)
    ensures !Contains(s, delimiter) ==> r == missing
    ensures Contains(s, delimiter) ==> exists i: nat :: OccursAt(s, delimiter, i) && r == s[i + |delimiter|..]
  {
    match IndexOf(s, delimiter)
    case None => missing
    case Some(i) => s[i + |delimiter|..]
  }

  // ---------------------------------------------------------------------------
  // trim()
  // ---------------------------------------------------------------------------

  /** The first index at or after `i` whose character is not whitespace, or |s|. */
  function SkipWhitespace(s: string, i: nat): (k: nat)
    requires i <= |s|
    ensures i <= k <= |s|
    ensures forall j :: i <= j < k ==> IsWhitespace(s[j])
    ensures k == |s| || !IsWhitespace(s[k])
    decreases |s| - i
  {
    if i == |s| || !IsWhitespace(s[i]) then i else SkipWhitespace(s, i + 1)
  }

  /** Moves the end `e` left over whitespace, but not below `lo`. */
  function TrimEndIndex(s: string, lo: nat, e: nat): (k: nat)
    requires lo <= e <= |s|
    ensures lo <= k <= e
    ensures forall j :: k <= j < e ==> IsWhitespace(s[j])
    ensures k == lo || !IsWhitespace(s[k - 1])
    decreases e
  {
    if e == lo || !IsWhitespace(s[e - 1]) then e else TrimEndIndex(s, lo, e - 1)
  }

  /** Kotlin's `trim()`: `s` without its leading and trailing whitespace. */
  function Trim(s: string): (r: string)
    ensures |r| <= |s|
    ensures r == [] || (!IsWhitespace(r[0]) && !IsWhitespace(r[|r| - 1]))
    ensures r == [] ==> forall j :: 0 <= j < |s| ==> IsWhitespace(s[j])
  {
    var a := SkipWhitespace(s, 0);
    var b := TrimEndIndex(s, a, |s|);
    s[a..b]
  }

  lemma SkipWhitespaceAt(s: string, i: nat, k: nat)
    requires i <= k <= |s|
    requires forall j :: i <= j < k ==> IsWhitespace(s[j])
    requires k == |s| || !IsWhitespace(s[k])
    ensures SkipWhitespace(s, i) == k
    decreases k - i
  {
    if i < k { SkipWhitespaceAt(s, i + 1, k); }
  }

  lemma TrimEndIndexAt(s: string, lo: nat, e: nat, k: nat)
    requires lo <= k <= e <= |s|
    requires forall j :: k <= j < e ==> IsWhitespace(s[j])
    requires k == lo || !IsWhitespace(s[k - 1])
    ensures TrimEndIndex(s, lo, e) == k
    decreases e - k
  {
    if k < e { TrimEndIndexAt(s, lo, e - 1, k); }
  }

  /** Trim removes exactly the surrounding whitespace: its result is the unique core. */
  lemma TrimPadded(pre: string, core: string, post: string)
    requires forall j :: 0 <= j < |pre| ==> IsWhitespace(pre[j])
    requires forall j :: 0 <= j < |post| ==> IsWhitespace(post[j])
    requires core == [] || (!IsWhitespace(core[0]) && !IsWhitespace(core[|core| - 1]))
    ensures Trim(pre + core + post) == core
  {
    var s := pre + core + post;
    var e := |pre| + |core|;
    assert forall j :: 0 <= j < |pre| ==> s[j] == pre[j];
    assert forall j :: e <= j < |s| ==> s[j] == post[j - e];
    if core == [] {
      SkipWhitespaceAt(s, 0, |s|);
      TrimEndIndexAt(s, |s|, |s|, |s|);
    } else {
      assert s[|pre|] == core[0];
      assert s[e - 1] == core[|core| - 1];
      SkipWhitespaceAt(s, 0, |pre|);
      TrimEndIndexAt(s, |pre|, |s|, e);
      assert s[|pre|..e] == core;
    }
  }

  // ---------------------------------------------------------------------------
  // lineSequence() and firstOrNull { startsWith }
  // ---------------------------------------------------------------------------

  /** The first index at or after `i` holding '\n' or '\r', or |s|. */
  function LineBreakFrom(s: string, i: nat): (k: nat)
    requires i <= |s|
    ensures i <= k <= |s|
    ensures forall j :: i <= j < k ==> s[j] != '\n' && s[j] != '\r'
    ensures k < |s| ==> s[k] == '\n' || s[k] == '\r'
    decreases |s| - i
  {
    if i == |s| || s[i] == '\n' || s[i] == '\r' then i else LineBreakFrom(s, i + 1)
  }

  /** Kotlin's `lineSequence()` from index `i`: split at "\r\n", "\n" and "\r". */
  function LinesFrom(s: string, i: nat): (ls: seq<string>)
    requires i <= |s|
    ensures |ls| >= 1
    decreases |s| - i
  {
    var k := LineBreakFrom(s, i);
    if k == |s| then [s[i..]]
    else
      var next := if s[k] == '\r' && k + 1 < |s| && s[k + 1] == '\n' then k + 2 else k + 1;
      [s[i..k]] + LinesFrom(s, next)
  }

  function Lines(s: string): seq<string> {
    LinesFrom(s, 0)
  }

  lemma LineBreakFromAt(s: string, i: nat, k: nat)
    requires i <= k <= |s|
    requires forall j :: i <= j < k ==> s[j] != '\n' && s[j] != '\r'
    requires k == |s| || s[k] == '\n' || s[k] == '\r'
    ensures LineBreakFrom(s, i) == k
    decreases k - i
  {
    if i < k { LineBreakFromAt(s, i + 1, k); }
  }

  predicate NoLineBreak(s: string) {
    forall j :: 0 <= j < |s| ==> s[j] != '\n' && s[j] != '\r'
  }

  lemma NoLineBreakConcat(a: string, b: string)
    requires NoLineBreak(a) && NoLineBreak(b)
    ensures NoLineBreak(a + b)
  {
    assert forall j :: |a| <= j < |a + b| ==> (a + b)[j] == b[j - |a|];
  }

  /** Two lines each ended by '\n' read back as those two lines and a final empty one. */
  lemma LinesOfTwo(a: string, b: string)
    requires NoLineBreak(a) && NoLineBreak(b)
    ensures Lines(a + "\n" + b + "\n") == [a, b, ""]
  {
    var s := a + "\n" + b + "\n";
    var k1 := |a|;
    var k2 := |a| + 1 + |b|;
    assert forall j :: 0 <= j < k1 ==> s[j] == a[j];
    assert forall j :: k1 + 1 <= j < k2 ==> s[j] == b[j - k1 - 1];
    LineBreakFromAt(s, 0, k1);
    assert s[k1] == '\n';
    LineBreakFromAt(s, k1 + 1, k2);
    assert s[k2] == '\n';
    LineBreakFromAt(s, |s|, |s|);
    assert s[0..k1] == a;
    assert s[k1 + 1..k2] == b;
    assert k2 + 1 == |s| && s[|s|..] == "";
    assert LinesFrom(s, k2 + 1) == [""];
    assert LinesFrom(s, k1 + 1) == [b] + LinesFrom(s, k2 + 1);
  }

  /** `firstOrNull { it.startsWith(prefix) }` over a list of lines. */
  function FirstStartingWith(lines: seq<string>, prefix: string): (r: Option<string>)
    ensures r.Some? ==> r.value in lines && StartsWith(r.value, prefix)
    ensures r.None? ==> forall l :: l in lines ==> !StartsWith(l, prefix)
  {
    if lines == [] then None
    else if StartsWith(lines[0], prefix) then Some(lines[0])
    else FirstStartingWith(lines[1..], prefix)
  }

  // ---------------------------------------------------------------------------
  // Decimal numbers: string templates and toLongOrNull()
  // ---------------------------------------------------------------------------

  const LONG_MIN: int := -0x8000_0000_0000_0000
  const LONG_MAX: int := 0x7FFF_FFFF_FFFF_FFFF

  function DigitChar(d: nat): (c: char)
    requires d < 10
    ensures IsDigit(c) && c as int - '0' as int == d
  {
    ('0' as int + d) as char
  }

  /** The decimal digits of `n`, without leading zeros. */
  function NatToString(n: nat): (s: string)
    ensures |s| >= 1
    ensures forall i :: 0 <= i < |s| ==> IsDigit(s[i])
    decreases n
  {
    if n < 10 then [DigitChar(n)] else NatToString(n / 10) + [DigitChar(n % 10)]
  }

  /** How Kotlin renders an integer in a string template: "-" and the digits for a negative value. */
  function IntToString(n: int): string {
    if n < 0 then "-" + NatToString(-n) else NatToString(n)
  }

  /** The value of a string of decimal digits. */
  function DigitsValue(s: string): nat
    requires forall i :: 0 <= i < |s| ==> IsDigit(s[i])
    decreases |s|
  {
    if s == [] then 0
    else
      assert IsDigit(s[|s| - 1]);
      DigitsValue(s[..|s| - 1]) * 10 + (s[|s| - 1] as int - '0' as int)
  }

  /** Kotlin's `String.toLongOrNull()` (radix 10): optional sign, digits, and no overflow. */
  function ToLongOrNull(s: string): (r: Option<int>)
    ensures r.Some? ==> LONG_MIN <= r.value <= LONG_MAX
  {
    if s == [] then None
    else if s[0] < '0' && (|s| == 1 || (s[0] != '-' && s[0] != '+')) then None
    else
      var start := if s[0] < '0' then 1 else 0;
      if forall i :: start <= i < |s| ==> IsDigit(s[i]) then
        var v: int := DigitsValue(s[start..]);
        var x: int := if s[0] == '-' then -v else v;
        if LONG_MIN <= x <= LONG_MAX then Some(x) else None
      else None
  }

  lemma {:induction false} DigitsValueOfNatToString(n: nat)
    ensures DigitsValue(NatToString(n)) == n
    decreases n
  {
    var s := NatToString(n);
    if n < 10 {
      assert s[..0] == [];
    } else {
      DigitsValueOfNatToString(n / 10);
      assert s[..|s| - 1] == NatToString(n / 10);
    }
  }

  /** Parsing what a string template printed gives back the number. */
  lemma LongRoundTrip(n: int)
    requires LONG_MIN <= n <= LONG_MAX
    ensures ToLongOrNull(IntToString(n)) == Some(n)
  {
    var s := IntToString(n);
    if n < 0 {
      DigitsValueOfNatToString(-n);
      assert s[1..] == NatToString(-n);
    } else {
      DigitsValueOfNatToString(n);
      assert s[0..] == s;
    }
  }

  // ---------------------------------------------------------------------------
  // split(Regex("\\s+")), stream extraction and joining
  // ---------------------------------------------------------------------------

  /** The first index at or after `i` holding a space character, or |s|. */
  function NextSpace(s: string, i: nat): (k: nat)
    requires i <= |s|
    ensures i <= k <= |s|
    ensures forall j :: i <= j < k ==> !IsSpace(s[j])
    ensures k == |s| || IsSpace(s[k])
    decreases |s| - i
  {
    if i == |s| || IsSpace(s[i]) then i else NextSpace(s, i + 1)
  }

  /** The first index at or after `i` not holding a space character, or |s|. */
  function SkipSpaces(s: string, i: nat): (k: nat)
    requires i <= |s|
    ensures i <= k <= |s|
    ensures forall j :: i <= j < k ==> IsSpace(s[j])
    ensures k == |s| || !IsSpace(s[k])
    decreases |s| - i
  {
    if i == |s| || !IsSpace(s[i]) then i else SkipSpaces(s, i + 1)
  }

  /**
   * Kotlin's `s.substring(i).split(Regex("\\s+"))`: the pieces between maximal runs of
   * spaces, keeping the empty piece before a leading run and after a trailing one.
   */
  function SplitFrom(s: string, i: nat): (parts: seq<string>)
    requires i <= |s|
    ensures |parts| >= 1
    decreases |s| - i
  {
    var k := NextSpace(s, i);
    if k == |s| then [s[i..]] else [s[i..k]] + SplitFrom(s, SkipSpaces(s, k))
  }

  function RegexSplit(s: string): seq<string> {
    SplitFrom(s, 0)
  }

  /** Reference definition: every maximal run of spaces replaced by one ' '. */
  function CollapseFrom(s: string, i: nat): string
    requires i <= |s|
    decreases |s| - i
  {
    if i == |s| then ""
    else if IsSpace(s[i]) then " " + CollapseFrom(s, SkipSpaces(s, i))
    else [s[i]] + CollapseFrom(s, i + 1)
  }

  function Collapse(s: string): string {
    CollapseFrom(s, 0)
  }

  /**
   * The words of `s`: its maximal runs of non-space characters, as C++ `stream >> word`
   * extracts them and as Kotlin's split-then-drop-empties leaves them.
   */
  function WordsFrom(s: string, i: nat): (ws: seq<string>)
    requires i <= |s|
    ensures forall j :: 0 <= j < |ws| ==> ws[j] != []
    ensures forall j, c :: 0 <= j < |ws| && c in ws[j] ==> !IsSpace(c)
    decreases |s| - i
  {
    var a := SkipSpaces(s, i);
    if a == |s| then []
    else
      var b := NextSpace(s, a);
      [s[a..b]] + WordsFrom(s, b)
  }

  function Words(s: string): seq<string> {
    WordsFrom(s, 0)
  }

  /** Kotlin's `filter { it.isNotEmpty() }`. */
  function FilterNonEmpty(xs: seq<string>): (r: seq<string>)
    ensures forall j :: 0 <= j < |r| ==> r[j] != []
    ensures forall x :: x in r ==> x in xs
  {
    if xs == [] then [] else (if xs[0] != [] then [xs[0]] else []) + FilterNonEmpty(xs[1..])
  }

  /** `joinToString(sep)`: the elements with `sep` between neighbours. */
  function Join(xs: seq<string>, sep: string): string {
    if |xs| == 0 then "" else if |xs| == 1 then xs[0] else xs[0] + sep + Join(xs[1..], sep)
  }

  lemma {:induction false} CollapseNoSpaces(s: string, i: nat, k: nat)
    requires i <= k <= |s|
    requires forall j :: i <= j < k ==> !IsSpace(s[j])
    ensures CollapseFrom(s, i) == s[i..k] + CollapseFrom(s, k)
    decreases k - i
  {
    if i < k {
      assert !IsSpace(s[i]);
      CollapseNoSpaces(s, i + 1, k);
      calc {
        CollapseFrom(s, i);
        [s[i]] + CollapseFrom(s, i + 1);
        [s[i]] + (s[i + 1..k] + CollapseFrom(s, k));
        { assert [s[i]] + s[i + 1..k] == s[i..k]; }
        s[i..k] + CollapseFrom(s, k);
      }
    } else {
      assert s[i..k] == [];
    }
  }

  /** Rejoining the split pieces with single spaces collapses every run of spaces. */
  lemma {:induction false} JoinSplitFrom(s: string, i: nat)
    requires i <= |s|
    ensures Join(SplitFrom(s, i), " ") == CollapseFrom(s, i)
    decreases |s| - i
  {
    var k := NextSpace(s, i);
    CollapseNoSpaces(s, i, k);
    if k == |s| {
      assert s[i..k] + "" == s[i..];
    } else {
      var m := SkipSpaces(s, k);
      JoinSplitFrom(s, m);
      var rest := SplitFrom(s, m);
      assert SplitFrom(s, i) == [s[i..k]] + rest;
      assert ([s[i..k]] + rest)[1..] == rest;
    }
  }

  lemma JoinRegexSplit(s: string)
    ensures Join(RegexSplit(s), " ") == Collapse(s)
  {
    JoinSplitFrom(s, 0);
  }

  lemma WordsFromSkip(s: string, i: nat)
    requires i <= |s|
    ensures WordsFrom(s, i) == WordsFrom(s, SkipSpaces(s, i))
  {
  }

  lemma FilterCons(x: string, rest: seq<string>)
    ensures FilterNonEmpty([x] + rest) == (if x != [] then [x] else []) + FilterNonEmpty(rest)
  {
    assert ([x] + rest)[1..] == rest;
  }

  /** Dropping the empty pieces of the regex split leaves exactly the words. */
  lemma {:induction false} FilterSplitFrom(s: string, i: nat)
    requires i <= |s|
    ensures FilterNonEmpty(SplitFrom(s, i)) == WordsFrom(s, i)
    decreases |s| - i
  {
    var k := NextSpace(s, i);
    if k == |s| {
      if i == |s| {
        assert SplitFrom(s, i) == [""];
        FilterCons("", []);
      } else {
        assert SplitFrom(s, i) == [s[i..]];
        assert !IsSpace(s[i]);
        assert WordsFrom(s, |s|) == [];
        assert WordsFrom(s, i) == [s[i..|s|]] + WordsFrom(s, |s|);
        assert s[i..|s|] == s[i..];
        FilterCons(s[i..], []);
        assert [s[i..]] + [] == [s[i..]];
      }
    } else {
      var m := SkipSpaces(s, k);
      FilterSplitFrom(s, m);
      var rest := SplitFrom(s, m);
      assert SplitFrom(s, i) == [s[i..k]] + rest;
      FilterCons(s[i..k], rest);
      WordsFromSkip(s, k);
      if k == i {
        assert s[i..k] == [];
        WordsFromSkip(s, i);
      } else {
        assert !IsSpace(s[i]);
        assert SkipSpaces(s, i) == i;
        assert WordsFrom(s, i) == [s[i..k]] + WordsFrom(s, k);
      }
    }
  }

  lemma FilterRegexSplit(s: string)
    ensures FilterNonEmpty(RegexSplit(s)) == Words(s)
  {
    FilterSplitFrom(s, 0);
  }

  /** Appending one element to the joined list. */
  lemma {:induction false} JoinSnoc(xs: seq<string>, x: string, sep: string)
    ensures Join(xs + [x], sep) == if xs == [] then x else Join(xs, sep) + sep + x
    decreases |xs|
  {
    if |xs| >= 2 {
      JoinSnoc(xs[1..], x, sep);
      assert (xs + [x])[1..] == xs[1..] + [x];
    } else if |xs| == 1 {
      assert (xs + [x])[1..] == [x];
    }
  }

  /** The first element begins the joined string. */
  lemma {:induction false} JoinStartsWithHead(xs: seq<string>, sep: string)
    requires xs != []
    ensures StartsWith(Join(xs, sep), xs[0])
  {
    if |xs| > 1 {
      assert (xs[0] + sep + Join(xs[1..], sep))[..|xs[0]|] == xs[0];
    }
  }

  /** Joining a prefix of a list gives a prefix of the joined list. */
  lemma {:induction false} JoinPrefix(xs: seq<string>, k: nat, sep: string)
    requires k <= |xs|
    ensures StartsWith(Join(xs, sep), Join(xs[..k], sep))
    decreases |xs|
  {
    if k == 0 {
      assert Join(xs[..0], sep) == "";
    } else if k == |xs| {
      assert xs[..k] == xs;
    } else if k == 1 {
      assert xs[..1] == [xs[0]];
      JoinStartsWithHead(xs, sep);
    } else {
      JoinPrefix(xs[1..], k - 1, sep);
      assert xs[..k][1..] == xs[1..][..k - 1];
      var tail := Join(xs[1..][..k - 1], sep);
      var whole := Join(xs[1..], sep);
      assert Join(xs[..k], sep) == xs[0] + sep + tail;
      assert Join(xs, sep) == xs[0] + sep + whole;
      assert whole[..|tail|] == tail;
      assert (xs[0] + sep + whole)[..|xs[0] + sep + tail|] == xs[0] + sep + tail;
    }
  }

  // ---------------------------------------------------------------------------
  // replace(old, new)
  // ---------------------------------------------------------------------------

  /**
   * Kotlin's `s.substring(i).replace(pattern, replacement)`: the occurrences of `pattern`
   * found scanning left to right, each resuming after the previous one, are replaced.
   */
  function ReplaceFrom(s: string, pattern: string, replacement: string, i: nat): string
    requires |pattern| > 0 && i <= |s|
    decreases |s| - i
  {
    if i == |s| then ""
    else if OccursAt(s, pattern, i) then replacement + ReplaceFrom(s, pattern, replacement, i + |pattern|)
    else [s[i]] + ReplaceFrom(s, pattern, replacement, i + 1)
  }

  function ReplaceAll(s: string, pattern: string, replacement: string): string
    requires |pattern| > 0
  {
    ReplaceFrom(s, pattern, replacement, 0)
  }

  /** The number of occurrences `ReplaceFrom` replaces. */
  function CountFrom(s: string, pattern: string, i: nat): nat
    requires |pattern| > 0 && i <= |s|
    decreases |s| - i
  {
    if i == |s| then 0
    else if OccursAt(s, pattern, i) then 1 + CountFrom(s, pattern, i + |pattern|)
    else CountFrom(s, pattern, i + 1)
  }

  function CountOccurrences(s: string, pattern: string): nat
    requires |pattern| > 0
  {
    CountFrom(s, pattern, 0)
  }

  lemma MulSucc(c: int, d: int)
    ensures (1 + c) * d == d + c * d
  {
  }

  lemma {:induction false} ReplaceFromLength(s: string, pattern: string, replacement: string, i: nat)
    requires |pattern| > 0 && i <= |s|
    ensures |ReplaceFrom(s, pattern, replacement, i)|
            == |s| - i + CountFrom(s, pattern, i) * (|replacement| - |pattern|)
    decreases |s| - i
  {
    var d := |replacement| - |pattern|;
    if i == |s| {
      assert CountFrom(s, pattern, i) == 0;
    } else if OccursAt(s, pattern, i) {
      var j := i + |pattern|;
      ReplaceFromLength(s, pattern, replacement, j);
      var rest := ReplaceFrom(s, pattern, replacement, j);
      var c := CountFrom(s, pattern, j);
      assert |rest| == |s| - j + c * d;
      assert ReplaceFrom(s, pattern, replacement, i) == replacement + rest;
      assert CountFrom(s, pattern, i) == 1 + c;
      MulSucc(c, d);
    } else {
      ReplaceFromLength(s, pattern, replacement, i + 1);
      var rest := ReplaceFrom(s, pattern, replacement, i + 1);
      assert ReplaceFrom(s, pattern, replacement, i) == [s[i]] + rest;
      assert CountFrom(s, pattern, i) == CountFrom(s, pattern, i + 1);
    }
  }

  lemma {:induction false} ReplaceFromAbsent(s: string, pattern: string, replacement: string, i: nat)
    requires |pattern| > 0 && i <= |s|
    requires forall j: nat :: i <= j ==> !OccursAt(s, pattern, j)
    ensures ReplaceFrom(s, pattern, replacement, i) == s[i..]
    decreases |s| - i
  {
    if i < |s| {
      assert !OccursAt(s, pattern, i);
      ReplaceFromAbsent(s, pattern, replacement, i + 1);
      assert s[i..] == [s[i]] + s[i + 1..];
    }
  }

  lemma {:induction false} ReplaceFromSelf(s: string, pattern: string, i: nat)
    requires |pattern| > 0 && i <= |s|
    ensures ReplaceFrom(s, pattern, pattern, i) == s[i..]
    decreases |s| - i
  {
    if i == |s| {
    } else if OccursAt(s, pattern, i) {
      ReplaceFromSelf(s, pattern, i + |pattern|);
      assert s[i..] == s[i..i + |pattern|] + s[i + |pattern|..];
    } else {
      ReplaceFromSelf(s, pattern, i + 1);
      assert s[i..] == [s[i]] + s[i + 1..];
    }
  }

  /** Prepending a character shifts every occurrence by one. */
  lemma OccursAfterCons(c: char, t: string, pattern: string, q: nat)
    requires OccursAt(t, pattern, q)
    ensures OccursAt([c] + t, pattern, q + 1)
  {
    assert ([c] + t)[q + 1..q + 1 + |pattern|] == t[q..q + |pattern|];
  }

  lemma {:induction false} ReplaceFromContains(s: string, pattern: string, replacement: string, i: nat, j: nat)
    requires |pattern| > 0 && i <= j
    requires OccursAt(s, pattern, j)
    ensures Contains(ReplaceFrom(s, pattern, replacement, i), replacement)
    decreases |s| - i
  {
    var r := ReplaceFrom(s, pattern, replacement, i);
    if OccursAt(s, pattern, i) {
      assert r[0..|replacement|] == replacement;
      assert OccursAt(r, replacement, 0);
    } else {
      var rest := ReplaceFrom(s, pattern, replacement, i + 1);
      ReplaceFromContains(s, pattern, replacement, i + 1, j);
      var q: nat :| q <= |rest| && OccursAt(rest, replacement, q);
      OccursAfterCons(s[i], rest, replacement, q);
      assert r == [s[i]] + rest;
      assert OccursAt(r, replacement, q + 1);
    }
  }

  /** Every character of the result comes from the replacement or from the text between occurrences. */
  lemma {:induction false} ReplaceFromChars(s: string, pattern: string, replacement: string, i: nat, c: char)
    requires |pattern| > 0 && i <= |s|
    requires c in ReplaceFrom(s, pattern, replacement, i)
    ensures c in ReplaceFrom(s, pattern, "", i) || c in replacement
    decreases |s| - i
  {
    if OccursAt(s, pattern, i) {
      if c !in replacement {
        ReplaceFromChars(s, pattern, replacement, i + |pattern|, c);
      }
    } else {
      if c != s[i] {
        ReplaceFromChars(s, pattern, replacement, i + 1, c);
      }
    }
  }
}

/** The parts of Swift's and Foundation's string library that the app relies on,
    modelled over Unicode scalar values (Dafny's `char`). Swift compares strings by
    grapheme cluster and canonical equivalence; this model compares scalars. */
module SwiftText {
  import opened Wrappers

  // ---------------------------------------------------------------------------
  // Character classes

  /** Unicode general category Zs (space separators). */
  predicate IsSpaceSeparator(c: char) {
    c == ' ' || c == '\U{00A0}' || c == '\U{1680}' || ('\U{2000}' <= c <= '\U{200A}')
    || c == '\U{202F}' || c == '\U{205F}' || c == '\U{3000}'
  }

  /** `CharacterSet.whitespaces`: the horizontal tab and the space separators. */
  predicate IsWhitespace(c: char) {
    c == '\t' || IsSpaceSeparator(c)
  }

  /** `CharacterSet.newlines`: U+000A to U+000D, U+0085, U+2028 and U+2029. */
  predicate IsNewline(c: char) {
    ('\n' <= c <= '\r') || c == '\U{0085}' || c == '\U{2028}' || c == '\U{2029}'
  }

  /** `CharacterSet.whitespacesAndNewlines`. */
  predicate IsWhitespaceOrNewline(c: char) {
    IsWhitespace(c) || IsNewline(c)
  }

  /** `\s` in an ICU regular expression: `[\t\n\f\r\p{Z}]`. */
  predicate IsRegexSpace(c: char) {
    c == '\t' || c == '\n' || c == '\U{000C}' || c == '\r'
    || IsSpaceSeparator(c) || c == '\U{2028}' || c == '\U{2029}'
  }

  /** An ASCII decimal digit, `0` to `9`. */
  predicate IsAsciiDigit(c: char) {
    '0' <= c <= '9'
  }

  predicate AllDigits(d: string) {
    forall k | 0 <= k < |d| :: IsAsciiDigit(d[k])
  }

  // ---------------------------------------------------------------------------
  // Searching and deleting

  /** `w` occurs in `s` starting at index `i`. */
  predicate OccursAt(s: string, w: string, i: int) {
    0 <= i <= |s| - |w| && s[i..i + |w|] == w
  }

  /** `s.contains(w)`: `w` occurs in `s` as a contiguous run of scalars. */
  predicate Contains(s: string, w: string)
    ensures Contains(s, w) ==> |w| <= |s|
  {
    exists i | 0 <= i <= |s| - |w| :: OccursAt(s, w, i)
  }

  /** An occurrence of a longer word is an occurrence of every part of it. */
  lemma ContainsPart(s: string, w: string, v: string)
    requires Contains(s, v) && Contains(v, w)
    ensures Contains(s, w)
  {
    var i :| 0 <= i <= |s| - |v| && OccursAt(s, v, i);
    var j :| 0 <= j <= |v| - |w| && OccursAt(v, w, j);
    forall k | 0 <= k < |w| ensures s[i + j + k] == w[k] {
      assert v[j + k] == w[k];
      assert s[i + (j + k)] == v[j + k];
    }
    assert s[i + j..i + j + |w|] == w;
    assert OccursAt(s, w, i + j);
  }

  /** A word with a scalar the text lacks does not occur in it. */
  lemma MissingScalar(s: string, w: string, k: nat)
    requires k < |w| && w[k] !in s
    ensures !Contains(s, w)
  {
  }

  /** `s.replacingOccurrences(of: w, with: "")`: the occurrences of `w` are found
      left to right, never overlapping, and deleted; an empty `w` changes nothing. */
  function RemoveAll(s: string, w: string): (r: string)
    ensures |r| <= |s|
    ensures forall c | c in r :: c in s
    ensures |w| == 1 ==> w[0] !in r
    decreases |s|
  {
    if w == [] || |s| < |w| then s
    else if s[..|w|] == w then RemoveAll(s[|w|..], w)
    else [s[0]] + RemoveAll(s[1..], w)
  }

  /** Deleting changes the text exactly when the word occurs in it. */
  lemma {:induction false} RemoveAllChanges(s: string, w: string)
    requires w != []
    ensures RemoveAll(s, w) == s <==> !Contains(s, w)
    decreases |s|
  {
    if |s| < |w| {
    } else if s[..|w|] == w {
      assert OccursAt(s, w, 0);
    } else {
      RemoveAllChanges(s[1..], w);
      ContainsTail(s, w);
      if RemoveAll(s, w) == s {
        assert RemoveAll(s[1..], w) == s[1..];
      }
    }
  }

  /** Where the word does not start the text, it occurs in the text exactly when it
      occurs after the first scalar. */
  lemma ContainsTail(s: string, w: string)
    requires w != [] && |w| <= |s| && s[..|w|] != w
    ensures Contains(s, w) <==> Contains(s[1..], w)
  {
    if Contains(s, w) {
      var i :| 0 <= i <= |s| - |w| && OccursAt(s, w, i);
      assert i != 0;
      assert s[1..][i - 1..i - 1 + |w|] == s[i..i + |w|];
      assert OccursAt(s[1..], w, i - 1);
    }
    if Contains(s[1..], w) {
      var i :| 0 <= i <= |s| - 1 - |w| && OccursAt(s[1..], w, i);
      assert s[i + 1..i + 1 + |w|] == s[1..][i..i + |w|];
      assert OccursAt(s, w, i + 1);
    }
  }

  // ---------------------------------------------------------------------------
  // Trimming

  /** The first index at or after `i` whose scalar is not white space or a newline. */
  function SkipForward(s: string, i: nat): (k: nat)
    requires i <= |s|
    ensures i <= k <= |s|
    ensures forall m | i <= m < k :: IsWhitespaceOrNewline(s[m])
    ensures k < |s| ==> !IsWhitespaceOrNewline(s[k])
    decreases |s| - i
  {
    if i < |s| && IsWhitespaceOrNewline(s[i]) then SkipForward(s, i + 1) else i
  }

  /** The least `k` down to `lo` such that `s[k..j]` is all white space or newlines. */
  function SkipBackward(s: string, lo: nat, j: nat): (k: nat)
    requires lo <= j <= |s|
    ensures lo <= k <= j
    ensures forall m | k <= m < j :: IsWhitespaceOrNewline(s[m])
    ensures k > lo ==> !IsWhitespaceOrNewline(s[k - 1])
    decreases j
  {
    if j > lo && IsWhitespaceOrNewline(s[j - 1]) then SkipBackward(s, lo, j - 1) else j
  }

  /** `r` is `s` with only white space and newlines around it: it occurs at `i`, and
      everything before and after that occurrence is white space or a newline. */
  predicate TrimmedAt(s: string, r: string, i: int) {
    && 0 <= i <= |s| - |r| && s[i..i + |r|] == r
    && (forall k | 0 <= k < i :: IsWhitespaceOrNewline(s[k]))
    && (forall k | i + |r| <= k < |s| :: IsWhitespaceOrNewline(s[k]))
  }

  /** `s.trimmingCharacters(in: .whitespacesAndNewlines)`: `s` without its leading and
      trailing white space and newlines, which neither starts nor ends with white
      space, and is empty exactly when `s` is all white space. */
  function Trim(s: string): (r: string)
    ensures exists i :: TrimmedAt(s, r, i)
    ensures Contains(s, r)
    ensures r != [] ==> !IsWhitespaceOrNewline(r[0]) && !IsWhitespaceOrNewline(r[|r| - 1])
    ensures r == [] <==> forall k | 0 <= k < |s| :: IsWhitespaceOrNewline(s[k])
  {
    var a := SkipForward(s, 0);
    var b := SkipBackward(s, a, |s|);
    assert OccursAt(s, s[a..b], a);
    assert TrimmedAt(s, s[a..b], a);
    s[a..b]
  }

  lemma TrimKeepsScalars(s: string)
    ensures forall c | c in Trim(s) :: c in s
  {
    var r := Trim(s);
    forall c | c in r ensures c in s {
      var i :| 0 <= i <= |s| - |r| && OccursAt(s, r, i);
      var k :| 0 <= k < |r| && r[k] == c;
      assert s[i..i + |r|][k] == c;
    }
  }

  // ---------------------------------------------------------------------------
  // Splitting and joining

  /** `parts.joined(separator: sep)`: every part and every separator between two
      parts is kept. */
  function Join(parts: seq<string>, sep: string): (r: string)
    ensures |parts| >= 1 ==> |r| >= (|parts| - 1) * |sep|
    ensures forall k | 0 <= k < |parts| :: |parts[k]| <= |r|
  {
    if parts == [] then []
    else if |parts| == 1 then parts[0]
    else
      var rest := Join(parts[1..], sep);
      assert forall k | 1 <= k < |parts| :: parts[k] == parts[1..][k - 1];
      parts[0] + sep + rest
  }

  /** `s.components(separatedBy: String(sep))`: the pieces between the occurrences
      of `sep`, which are never part of a piece. */
  function Components(s: string, sep: char): (parts: seq<string>)
    ensures |parts| >= 1
    ensures forall p | p in parts :: sep !in p
  {
    if s == [] then [[]]
    else
      var rest := Components(s[1..], sep);
      if s[0] == sep then [[]] + rest
      else [[s[0]] + rest[0]] + rest[1..]
  }

  /** Splitting and joining again with the same separator gives back the text. */
  lemma {:induction false} JoinComponents(s: string, sep: char)
    ensures Join(Components(s, sep), [sep]) == s
  {
    if s != [] {
      var rest := Components(s[1..], sep);
      JoinComponents(s[1..], sep);
      if s[0] != sep && |rest| > 1 {
        assert Join(rest, [sep]) == rest[0] + [sep] + Join(rest[1..], [sep]);
        assert [[s[0]] + rest[0]] + rest[1..] == [[s[0]] + rest[0]] + rest[1..];
        assert s == [s[0]] + s[1..];
      }
    }
  }

  /** `s.components(separatedBy: CharacterSet.decimalDigits.inverted)`: every scalar
      that is not a digit separates two pieces. */
  function DigitGroups(s: string): (parts: seq<string>)
    ensures |parts| >= 1
    ensures forall p | p in parts :: AllDigits(p)
  {
    if s == [] then [[]]
    else
      var rest := DigitGroups(s[1..]);
      if !IsAsciiDigit(s[0]) then [[]] + rest
      else
        assert rest[0] in rest;
        assert forall p | p in rest[1..] :: p in rest;
        [[s[0]] + rest[0]] + rest[1..]
  }

  /** A run of digits followed by a separator forms the first piece on its own. */
  lemma {:induction false} DigitGroupsAfterDigits(d: string, r: string)
    requires AllDigits(d) && r != [] && !IsAsciiDigit(r[0])
    ensures DigitGroups(d + r) == [d] + DigitGroups(r[1..])
  {
    if d == [] {
      assert d + r == r;
    } else {
      assert (d + r)[1..] == d[1..] + r;
      assert AllDigits(d[1..]);
      DigitGroupsAfterDigits(d[1..], r);
      var rest := DigitGroups(d[1..] + r);
      assert rest[0] == d[1..] && rest[1..] == DigitGroups(r[1..]);
      assert [d[0]] + d[1..] == d;
    }
  }

  // ---------------------------------------------------------------------------
  // Integers and their decimal text

  const IntMax: int := 0x7FFF_FFFF_FFFF_FFFF
  const IntMin: int := -0x8000_0000_0000_0000

  function DigitValue(c: char): (v: nat)
    requires IsAsciiDigit(c)
    ensures v < 10
  {
    c as int - '0' as int
  }

  /** The number an all-digit text denotes, read left to right in base ten. */
  function DigitsValue(d: string): nat
    requires AllDigits(d)
  {
    if d == [] then 0 else DigitsValue(d[..|d| - 1]) * 10 + DigitValue(d[|d| - 1])
  }

  /** `Int(t)`: an optional `+` or `-` and one or more ASCII digits, within the
      range of a 64-bit `Int`; anything else is `nil`. */
  function SwiftInt(t: string): (r: Option<int>)
    ensures r.Some? ==> IntMin <= r.value <= IntMax
    ensures r.Some? && AllDigits(t) ==> t != [] && r.value == DigitsValue(t)
    ensures t != [] && AllDigits(t) && DigitsValue(t) <= IntMax ==> r == Some(DigitsValue(t))
    ensures t == [] || (AllDigits(t) && DigitsValue(t) > IntMax) ==> r.None?
  {
    if t != [] && (t[0] == '+' || t[0] == '-') then
      var d := t[1..];
      if d == [] || !AllDigits(d) then None
      else
        var n: int := DigitsValue(d);
        var v := if t[0] == '-' then -n else n;
        if IntMin <= v <= IntMax then Some(v) else None
    else if t == [] || !AllDigits(t) then None
    else if DigitsValue(t) <= IntMax then Some(DigitsValue(t))
    else None
  }

  function DigitChar(v: nat): (c: char)
    requires v < 10
    ensures IsAsciiDigit(c) && DigitValue(c) == v
  {
    ('0' as int + v) as char
  }

  /** The decimal digits of `n`, most significant first, without leading zeros. */
  function NatDigits(n: nat): (d: string)
    ensures |d| >= 1 && AllDigits(d)
    ensures DigitsValue(d) == n
    ensures |d| > 1 ==> d[0] != '0'
  {
    if n < 10 then [DigitChar(n)]
    else
      var front := NatDigits(n / 10);
      assert (front + [DigitChar(n % 10)])[..|front|] == front;
      front + [DigitChar(n % 10)]
  }

  /** `"\(n)"` for an `Int`: a `-` before the digits of a negative number. */
  function DecimalString(n: int): (r: string)
    requires IntMin <= n <= IntMax
    ensures SwiftInt(r) == Some(n)
  {
    if n < 0 then "-" + NatDigits(-n) else NatDigits(n)
  }

  // ---------------------------------------------------------------------------
  // Case mapping

  /** ASCII case mapping: `A` to `Z` become `a` to `z`. */
  function LowerChar(c: char): char {
    if 'A' <= c <= 'Z' then (c as int + 32) as char else c
  }

  /** `s.lowercased()`, restricted to ASCII letters. */
  function Lowercased(s: string): (r: string)
    ensures |r| == |s|
  {
    seq(|s|, k requires 0 <= k < |s| => LowerChar(s[k]))
  }

  /** A text without Latin letters. */
  predicate NoLatinLetters(w: string) {
    forall k | 0 <= k < |w| :: !('A' <= w[k] <= 'Z') && !('a' <= w[k] <= 'z')
  }

  /** Lower-casing neither creates nor destroys an occurrence of a word that has
      no Latin letters, such as every Korean cue the parser looks for. */
  lemma ContainsLowercased(s: string, w: string)
    requires NoLatinLetters(w)
    ensures Contains(Lowercased(s), w) <==> Contains(s, w)
  {
    var l := Lowercased(s);
    if Contains(l, w) {
      var i :| 0 <= i <= |l| - |w| && OccursAt(l, w, i);
      forall k | 0 <= k < |w| ensures s[i + k] == w[k] {
        assert l[i..i + |w|][k] == w[k];
      }
      assert s[i..i + |w|] == w;
      assert OccursAt(s, w, i);
    }
    if Contains(s, w) {
      var i :| 0 <= i <= |s| - |w| && OccursAt(s, w, i);
      forall k | 0 <= k < |w| ensures l[i + k] == w[k] {
        assert s[i..i + |w|][k] == w[k];
      }
      assert l[i..i + |w|] == w;
      assert OccursAt(l, w, i);
    }
  }
}

/** Hand-written matchers for the two ICU regular expressions of the command parser:
    `(\d+)월\s*(\d+)일` (an explicit month and day) and `([가-힣]+)<particle>` (a
    run of Hangul syllables before a location particle). Each matcher is proved
    against a declarative description of what the regular expression accepts,
    with the engine's leftmost-first and greedy choices. */
module KoreanPatterns {
  import opened Wrappers
  import opened SwiftText

  /** `[가-힣]`: a precomposed Hangul syllable, U+AC00 to U+D7A3. */
  predicate IsHangulSyllable(c: char) {
    '\U{AC00}' <= c <= '\U{D7A3}'
  }

  /** The first index at or after `i` whose scalar is outside the class. */
  function RunEnd(s: string, i: nat, inClass: char -> bool): (e: nat)
    requires i <= |s|
    ensures i <= e <= |s|
    ensures forall k | i <= k < e :: inClass(s[k])
    ensures e < |s| ==> !inClass(s[e])
    decreases |s| - i
  {
    if i < |s| && inClass(s[i]) then RunEnd(s, i + 1, inClass) else i
  }

  /** A run that is followed by a scalar outside the class is the one `RunEnd` finds. */
  lemma RunEndIs(s: string, i: nat, e: nat, inClass: char -> bool)
    requires i <= e <= |s|
    requires forall k | i <= k < e :: inClass(s[k])
    requires e < |s| ==> !inClass(s[e])
    ensures RunEnd(s, i, inClass) == e
  {
  }

  // ---------------------------------------------------------------------------
  // (\d+)월\s*(\d+)일

  /** Where one match of `(\d+)월\s*(\d+)일` lies: month digits `s[start..monthEnd]`,
      `월` at `monthEnd`, white space up to `dayStart`, day digits
      `s[dayStart..dayEnd]` and `일` at `dayEnd`. */
  datatype MonthDaySpan = MonthDaySpan(start: nat, monthEnd: nat, dayStart: nat, dayEnd: nat) {
    /** One past the `일`. */
    function End(): nat { dayEnd + 1 }
  }

  /** `s[m.start..m.End()]` is a match of `(\d+)월\s*(\d+)일` split as `m` says. */
  predicate IsMonthDayMatch(s: string, m: MonthDaySpan) {
    && m.start < m.monthEnd < m.dayStart < m.dayEnd < |s|
    && (forall k | m.start <= k < m.monthEnd :: IsAsciiDigit(s[k]))
    && s[m.monthEnd] == '월'
    && (forall k | m.monthEnd < k < m.dayStart :: IsRegexSpace(s[k]))
    && (forall k | m.dayStart <= k < m.dayEnd :: IsAsciiDigit(s[k]))
    && s[m.dayEnd] == '일'
  }

  /** The regular expression tried at index `i`: greedy digits, `월`, greedy white
      space, greedy digits, `일`. Backtracking cannot help, because digits, white
      space, `월` and `일` are disjoint classes. */
  function MonthDayAt(s: string, i: nat): (r: Option<MonthDaySpan>)
    requires i <= |s|
    ensures r.Some? ==> r.value.start == i && IsMonthDayMatch(s, r.value)
    ensures forall m: MonthDaySpan | m.start == i && IsMonthDayMatch(s, m) :: r == Some(m)
  {
    var a := RunEnd(s, i, IsAsciiDigit);
    if a == i || a == |s| || s[a] != '월' then
      MonthDayAtNone(s, i);
      None
    else
      var b := RunEnd(s, a + 1, IsRegexSpace);
      var c := RunEnd(s, b, IsAsciiDigit);
      if c == b || c == |s| || s[c] != '일' then
        MonthDayAtNone(s, i);
        None
      else
        MonthDayAtUnique(s, MonthDaySpan(i, a, b, c));
        Some(MonthDaySpan(i, a, b, c))
  }

  /** Every match starting at `i` is cut at the places the greedy runs end. */
  lemma MonthDayRuns(s: string, m: MonthDaySpan)
    requires IsMonthDayMatch(s, m)
    ensures RunEnd(s, m.start, IsAsciiDigit) == m.monthEnd
    ensures RunEnd(s, m.monthEnd + 1, IsRegexSpace) == m.dayStart
    ensures RunEnd(s, m.dayStart, IsAsciiDigit) == m.dayEnd
  {
    RunEndIs(s, m.start, m.monthEnd, IsAsciiDigit);
    RunEndIs(s, m.monthEnd + 1, m.dayStart, IsRegexSpace);
    RunEndIs(s, m.dayStart, m.dayEnd, IsAsciiDigit);
  }

  lemma MonthDayAtNone(s: string, i: nat)
    requires i <= |s|
    requires var a := RunEnd(s, i, IsAsciiDigit);
             a == i || a == |s| || s[a] != '월' ||
             (var b := RunEnd(s, a + 1, IsRegexSpace);
              var c := RunEnd(s, b, IsAsciiDigit);
              c == b || c == |s| || s[c] != '일')
    ensures forall m: MonthDaySpan | m.start == i :: !IsMonthDayMatch(s, m)
  {
    forall m: MonthDaySpan | m.start == i && IsMonthDayMatch(s, m) ensures false {
      MonthDayRuns(s, m);
    }
  }

  lemma MonthDayAtUnique(s: string, found: MonthDaySpan)
    requires IsMonthDayMatch(s, found)
    ensures forall m: MonthDaySpan | m.start == found.start && IsMonthDayMatch(s, m) :: m == found
  {
    MonthDayRuns(s, found);
    forall m: MonthDaySpan | m.start == found.start && IsMonthDayMatch(s, m) ensures m == found {
      MonthDayRuns(s, m);
    }
  }

  /** The leftmost match at or after `from`, as `NSString.range(of:options:)` with
      `.regularExpression` finds it. */
  function FindMonthDay(s: string, from: nat): (r: Option<MonthDaySpan>)
    requires from <= |s|
    ensures r.Some? ==> from <= r.value.start && IsMonthDayMatch(s, r.value)
    ensures r.Some? ==> forall m: MonthDaySpan | from <= m.start && IsMonthDayMatch(s, m) ::
                          r.value.start < m.start || m == r.value
    ensures r.None? ==> forall m: MonthDaySpan | IsMonthDayMatch(s, m) :: m.start < from
    decreases |s| - from
  {
    if from == |s| then None
    else
      match MonthDayAt(s, from)
      case Some(m) => Some(m)
      case None => FindMonthDay(s, from + 1)
  }

  /** `s.replacingOccurrences(of: #"(\d+)월\s*(\d+)일"#, with: "", options:
      .regularExpression)` applied to `s[from..]`: each leftmost match is cut out and
      the search resumes after it. The text changes exactly when there is a match. */
  function RemoveMonthDaysFrom(s: string, from: nat): (r: string)
    requires from <= |s|
    ensures |r| <= |s| - from
    ensures r == s[from..] <==> FindMonthDay(s, from).None?
    ensures forall c | c in r :: c in s
    decreases |s| - from
  {
    match FindMonthDay(s, from)
    case None => s[from..]
    case Some(m) =>
      var rest := RemoveMonthDaysFrom(s, m.End());
      assert forall c | c in s[from..m.start] :: c in s;
      s[from..m.start] + rest
  }

  function RemoveMonthDays(s: string): (r: string)
    ensures |r| <= |s|
    ensures r == s <==> forall m: MonthDaySpan :: !IsMonthDayMatch(s, m)
    ensures forall c | c in r :: c in s
  {
    assert s[0..] == s;
    RemoveMonthDaysFrom(s, 0)
  }

  // ---------------------------------------------------------------------------
  // ([가-힣]+)<suffix>

  /** `s[start..end]` is a match of `([가-힣]+)<suffix>`: one or more Hangul
      syllables, then the suffix. */
  predicate IsSuffixMatch(s: string, suffix: string, start: nat, end: nat) {
    && start + |suffix| < end <= |s|
    && (forall k | start <= k < end - |suffix| :: IsHangulSyllable(s[k]))
    && s[end - |suffix|..end] == suffix
  }

  /** The greedy group backing off from `k`: the largest group end `g` with
      `start < g <= k` that the suffix follows. */
  function LongestGroup(s: string, suffix: string, start: nat, k: nat): (r: Option<nat>)
    requires start <= k <= |s|
    requires forall m | start <= m < k :: IsHangulSyllable(s[m])
    ensures r.Some? ==> IsSuffixMatch(s, suffix, start, r.value)
    ensures forall e: nat | IsSuffixMatch(s, suffix, start, e) && e - |suffix| <= k ::
              r.Some? && e <= r.value
    decreases k
  {
    if k <= start then None
    else if k + |suffix| <= |s| && s[k..k + |suffix|] == suffix then Some(k + |suffix|)
    else LongestGroup(s, suffix, start, k - 1)
  }

  /** The regular expression tried at index `start`: the longest match there. */
  function SuffixMatchAt(s: string, suffix: string, start: nat): (r: Option<nat>)
    requires start <= |s|
    ensures r.Some? ==> IsSuffixMatch(s, suffix, start, r.value)
    ensures forall e: nat | IsSuffixMatch(s, suffix, start, e) :: r.Some? && e <= r.value
  {
    var run := RunEnd(s, start, IsHangulSyllable);
    assert forall e: nat | IsSuffixMatch(s, suffix, start, e) :: e - |suffix| <= run;
    LongestGroup(s, suffix, start, run)
  }

  /** A stretch `s[start..end]` of the text. */
  datatype Span = Span(start: nat, end: nat)

  /** `sp` is the match a search of the whole text reports: the leftmost one,
      longest at its start. */
  ghost predicate IsFirstMatch(s: string, suffix: string, sp: Span) {
    && IsSuffixMatch(s, suffix, sp.start, sp.end)
    && forall st: nat, e: nat | IsSuffixMatch(s, suffix, st, e) ::
         sp.start < st || (st == sp.start && e <= sp.end)
  }

  /** The leftmost match at or after `from`, longest at its start. */
  function FindSuffixMatch(s: string, suffix: string, from: nat): (r: Option<Span>)
    requires from <= |s|
    ensures r.Some? ==> from <= r.value.start && IsSuffixMatch(s, suffix, r.value.start, r.value.end)
    ensures r.Some? ==> forall st: nat, e: nat | from <= st && IsSuffixMatch(s, suffix, st, e) ::
                          r.value.start < st || (st == r.value.start && e <= r.value.end)
    ensures r.None? ==> forall st: nat, e: nat | from <= st :: !IsSuffixMatch(s, suffix, st, e)
    decreases |s| - from
  {
    if from == |s| then None
    else
      match SuffixMatchAt(s, suffix, from)
      case Some(e) => Some(Span(from, e))
      case None => FindSuffixMatch(s, suffix, from + 1)
  }

  /** A text whose scalars never include the suffix's last one has no match. */
  lemma NoSuffixMatch(s: string, suffix: string)
    requires suffix != [] && suffix[|suffix| - 1] !in s
    ensures forall st: nat, e: nat :: !IsSuffixMatch(s, suffix, st, e)
  {
  }

  /** The search from the start reports exactly the first match. */
  lemma FindsFirstMatch(s: string, suffix: string, sp: Span)
    requires IsFirstMatch(s, suffix, sp)
    ensures FindSuffixMatch(s, suffix, 0) == Some(sp)
  {
  }
}

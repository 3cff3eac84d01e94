/** The rule-based Korean scheduling-command parser and the calendar-add contract of
    `NaturalLanguageProcessor.swift`. The clock reading `now`, the calendar permission
    and the outcome of saving the event are inputs; Foundation's calendar arithmetic
    is left symbolic in `Date`. */
module NaturalLanguageProcessor {
  import opened Wrappers
  import opened SwiftText
  import opened KoreanPatterns

  // ---------------------------------------------------------------------------
  // Dates

  /** A reading of the device clock in Gregorian components; `weekday` uses
      Foundation's numbering, 1 for Sunday to 7 for Saturday. */
  datatype Moment = Moment(year: int, month: int, day: int, hour: int, minute: int, second: int, weekday: int)

  datatype CalendarUnit = Day | WeekOfYear

  /** A point in time, named by the Foundation call that produces it. */
  datatype Date =
      /** `calendar.date(from:)` on these components, not normalised */
    | FromComponents(year: int, month: int, day: int, hour: int, minute: int, second: int)
      /** `calendar.date(byAdding: unit, value: value, to: base)` */
    | ByAdding(unit: CalendarUnit, value: int, base: Moment)
      /** `calendar.nextDate(after:matching:matchingPolicy: .nextTime)`: the first time
          strictly after `after` on weekday component `weekday` at `hour`:`minute` */
    | NextDate(after: Moment, weekday: int, hour: int, minute: int)
      /** `start.addingTimeInterval(seconds)` */
    | AddingInterval(start: Date, seconds: int)

  /** `calendar.startOfDay(for: now)`: midnight of the current day. */
  function StartOfDay(now: Moment): (d: Date)
    ensures d.FromComponents? && d.hour == 0 && d.minute == 0 && d.second == 0
    ensures d.year == now.year && d.month == now.month && d.day == now.day
  {
    FromComponents(now.year, now.month, now.day, 0, 0, 0)
  }

  // ---------------------------------------------------------------------------
  // The date rule

  /** The weekday names, Monday first, in the order the parser tries them. */
  const Weekdays: seq<string> := ["월요일", "화요일", "수요일", "목요일", "금요일", "토요일", "일요일"]

  /** `compactMap { Int($0) }.filter { $0 > 0 }`: the positive integers among the pieces, in order. */
  function PositiveInts(pieces: seq<string>): (r: seq<int>)
    ensures |r| <= |pieces|
    ensures forall k | 0 <= k < |r| :: r[k] > 0
  {
    if pieces == [] then []
    else
      var rest := PositiveInts(pieces[1..]);
      match SwiftInt(pieces[0])
      case Some(n) => if n > 0 then [n] + rest else rest
      case None => rest
  }

  lemma {:induction false} PositiveIntsAppend(a: seq<string>, b: seq<string>)
    ensures PositiveInts(a + b) == PositiveInts(a) + PositiveInts(b)
  {
    if a == [] {
      assert a + b == b;
    } else {
      assert (a + b)[0] == a[0];
      assert (a + b)[1..] == a[1..] + b;
      PositiveIntsAppend(a[1..], b);
    }
  }

  /** Pieces between non-digits contribute nothing to `PositiveInts`. */
  lemma {:induction false} SkipSeparators(w: string, x: string)
    requires forall k | 0 <= k < |w| :: !IsAsciiDigit(w[k])
    ensures PositiveInts(DigitGroups(w + x)) == PositiveInts(DigitGroups(x))
  {
    if w == [] {
      assert w + x == x;
    } else {
      assert (w + x)[0] == w[0];
      assert (w + x)[1..] == w[1..] + x;
      SkipSeparators(w[1..], x);
      var groups := DigitGroups(w + x);
      assert groups == [[]] + DigitGroups(w[1..] + x);
      assert groups[0] == [] && groups[1..] == DigitGroups(w[1..] + x);
      assert SwiftInt([]).None?;
    }
  }

  /** The month and day the `<N>월 <M>일` rule reads off the first regular-expression
      match: the first two positive numbers among its digit groups, if there are two. */
  function MonthDayRule(command: string): (r: Option<(int, int)>)
    ensures r.Some? ==> r.value.0 > 0 && r.value.1 > 0
    ensures (forall m: MonthDaySpan :: !IsMonthDayMatch(command, m)) ==> r.None?
  {
    match FindMonthDay(command, 0)
    case None => None
    case Some(m) =>
      var components := PositiveInts(DigitGroups(command[m.start..m.End()]));
      if |components| >= 2 then Some((components[0], components[1])) else None
  }

  /** The matched text splits into exactly the month digits and the day digits. */
  lemma MatchComponents(s: string, m: MonthDaySpan)
    requires IsMonthDayMatch(s, m)
    ensures PositiveInts(DigitGroups(s[m.start..m.End()]))
         == PositiveInts([s[m.start..m.monthEnd]]) + PositiveInts([s[m.dayStart..m.dayEnd]])
  {
    var d1, w, d2 := s[m.start..m.monthEnd], s[m.monthEnd + 1..m.dayStart], s[m.dayStart..m.dayEnd];
    var rest := w + d2 + ['일'];
    assert s[m.start..m.End()] == d1 + (['월'] + rest);
    DigitGroupsAfterDigits(d1, ['월'] + rest);
    assert (['월'] + rest)[1..] == rest;
    SkipSeparators(w, d2 + ['일']);
    assert rest == w + (d2 + ['일']);
    DigitGroupsAfterDigits(d2, ['일']);
    assert ['일'][1..] == [];
    assert DigitGroups(d2 + ['일']) == [d2] + [[]];
    assert [d2] + [[]] == [d2] + [[]];
    PositiveIntsAppend([d2], [[]]);
    PositiveIntsAppend([d1], DigitGroups(rest));
  }

  /** The month/day rule uses only the leftmost match: with month digits `M` and day
      digits `D` there, it yields `(Int(M), Int(D))` when both are positive integers
      and is skipped otherwise, whatever later matches say. */
  lemma MonthDayRuleReadsLeftmostMatch(command: string, m: MonthDaySpan)
    requires IsMonthDayMatch(command, m)
    requires forall m': MonthDaySpan | IsMonthDayMatch(command, m') :: m.start <= m'.start
    ensures var month := SwiftInt(command[m.start..m.monthEnd]);
            var day := SwiftInt(command[m.dayStart..m.dayEnd]);
            MonthDayRule(command)
              == if month.Some? && month.value > 0 && day.Some? && day.value > 0
                 then Some((month.value, day.value)) else None
  {
    var found := FindMonthDay(command, 0);
    assert found == Some(m);
    MatchComponents(command, m);
  }

  /** The index of the first of `names[i..]` that occurs in the text. */
  function FirstListed(text: string, names: seq<string>, i: nat): (r: Option<nat>)
    requires i <= |names|
    ensures r.Some? ==> i <= r.value < |names| && Contains(text, names[r.value])
    ensures r.Some? ==> forall k | i <= k < r.value :: !Contains(text, names[k])
    ensures r.None? ==> forall k | i <= k < |names| :: !Contains(text, names[k])
    decreases |names| - i
  {
    if i == |names| then None
    else if Contains(text, names[i]) then Some(i)
    else FirstListed(text, names, i + 1)
  }

  /** The weekday component the parser asks Foundation for, for `Weekdays[index]`. */
  function WeekdayComponent(index: nat): (c: int)
    requires index < |Weekdays|
    ensures 1 <= c <= 7
  {
    index + 1
  }

  /** `parseDate(from:)`: the explicit month and day, else `오늘`, `내일`, `다음주`,
      else the first listed weekday name; absent exactly when no cue occurs. */
  function ParseDate(command: string, now: Moment): (r: Option<Date>)
    ensures r.None? <==>
              && MonthDayRule(command).None?
              && !Contains(command, "오늘") && !Contains(command, "내일") && !Contains(command, "다음주")
              && forall k | 0 <= k < |Weekdays| :: !Contains(command, Weekdays[k])
    ensures r.Some? && r.value.FromComponents? ==> r.value.year == now.year
    ensures MonthDayRule(command).Some? ==>
              var (month, day) := MonthDayRule(command).value;
              r == Some(FromComponents(now.year, month, day, 10, 0, 0))
    ensures MonthDayRule(command).None? && Contains(command, "오늘") ==> r == Some(StartOfDay(now))
    ensures MonthDayRule(command).None? && !Contains(command, "오늘") && Contains(command, "내일") ==>
              r == Some(ByAdding(Day, 1, now))
    ensures (MonthDayRule(command).None? && !Contains(command, "오늘") && !Contains(command, "내일")
             && Contains(command, "다음주")) ==> r == Some(ByAdding(WeekOfYear, 1, now))
    ensures (MonthDayRule(command).None? && !Contains(command, "오늘") && !Contains(command, "내일")
             && !Contains(command, "다음주")) ==> r.None? || r.value.NextDate?
    ensures r.Some? && r.value.NextDate? ==>
              && r.value.after == now && r.value.hour == 10 && r.value.minute == 0
              && 1 <= r.value.weekday <= |Weekdays|
              && Contains(command, Weekdays[r.value.weekday - 1])
              && forall k | 0 <= k < r.value.weekday - 1 :: !Contains(command, Weekdays[k])
  {
    match MonthDayRule(command)
    case Some((month, day)) => Some(FromComponents(now.year, month, day, 10, 0, 0))
    case None =>
      if Contains(command, "오늘") then Some(StartOfDay(now))
      else if Contains(command, "내일") then Some(ByAdding(Day, 1, now))
      else if Contains(command, "다음주") then Some(ByAdding(WeekOfYear, 1, now))
      else
        match FirstListed(command, Weekdays, 0)
        case Some(index) => Some(NextDate(now, WeekdayComponent(index), 10, 0))
        case None => None
  }

  /** Foundation's Gregorian weekday numbering, named in Korean: component 1 is
      Sunday (`일요일`), 2 is Monday, and so on to 7, Saturday. */
  function FoundationWeekdayName(component: int): string
    requires 1 <= component <= 7
  {
    ["일요일", "월요일", "화요일", "수요일", "목요일", "금요일", "토요일"][component - 1]
  }

  /** As written, the weekday rule asks for the day BEFORE the one named: `월요일`
      (Monday) becomes component 1, which Foundation takes for Sunday. */
  lemma WeekdayRuleNamesDayBefore(index: nat)
    requires index < |Weekdays|
    ensures FoundationWeekdayName(WeekdayComponent(index)) != Weekdays[index]
    ensures FoundationWeekdayName(WeekdayComponent(index)) == Weekdays[(index + 6) % 7]
  {
    assert Weekdays[index][0] != FoundationWeekdayName(WeekdayComponent(index))[0];
  }

  /** `월요일 회의` ("Monday meeting") is scheduled for the next Sunday at 10:00. */
  lemma MondayCommandLandsOnSunday(command: string, now: Moment)
    requires command == "월요일 회의"
    ensures ParseDate(command, now) == Some(NextDate(now, 1, 10, 0))
    ensures FoundationWeekdayName(1) == "일요일"
  {
    assert MonthDayRule(command).None? by {
      NoDigits(command);
    }
    MissingScalar(command, "오늘", 0);
    MissingScalar(command, "내일", 0);
    MissingScalar(command, "다음주", 0);
    assert OccursAt(command, Weekdays[0], 0);
  }

  /** A text without digits has no month/day expression. */
  lemma NoDigits(command: string)
    requires forall k | 0 <= k < |command| :: !IsAsciiDigit(command[k])
    ensures forall m: MonthDaySpan :: !IsMonthDayMatch(command, m)
  {
    forall m: MonthDaySpan ensures !IsMonthDayMatch(command, m) {
      if m.start < |command| {
        assert !IsAsciiDigit(command[m.start]);
      }
    }
  }

  /** The component that names the same day as `Weekdays[index]` in Foundation's numbering. */
  function IntendedWeekdayComponent(index: nat): (c: int)
    requires index < |Weekdays|
    ensures 1 <= c <= 7 && FoundationWeekdayName(c) == Weekdays[index]
  {
    (index + 1) % 7 + 1
  }

  /** Where Foundation's weekday component `component` stands in `Weekdays`. */
  function WeekdayIndex(component: int): (i: nat)
    requires 1 <= component <= 7
    ensures i < |Weekdays| && Weekdays[i] == FoundationWeekdayName(component)
  {
    (component + 5) % 7
  }

  /** `ParseDate` with the weekday numbered as Foundation numbers it: the date asked
      for is on the first listed weekday the command names. */
  function CorrectedParseDate(command: string, now: Moment): (r: Option<Date>)
    ensures r.None? <==> ParseDate(command, now).None?
    ensures r.Some? && !r.value.NextDate? ==> r == ParseDate(command, now)
    ensures ParseDate(command, now).Some? && !ParseDate(command, now).value.NextDate? ==>
              r == ParseDate(command, now)
    ensures r.Some? && r.value.NextDate? ==>
              && r.value.after == now && r.value.hour == 10 && r.value.minute == 0
              && 1 <= r.value.weekday <= 7
              && Contains(command, FoundationWeekdayName(r.value.weekday))
              && forall k | 0 <= k < WeekdayIndex(r.value.weekday) :: !Contains(command, Weekdays[k])
  {
    match ParseDate(command, now)
    case Some(NextDate(after, component, hour, minute)) =>
      Some(NextDate(after, IntendedWeekdayComponent(component - 1), hour, minute))
    case other => other
  }

  // ---------------------------------------------------------------------------
  // The title rule

  /** An entry of `datePatterns`: the month/day regular expression or a literal word
      (the other entries contain no regular-expression syntax). */
  datatype DatePattern = MonthDayPattern | Literal(text: string)

  const DatePatterns: seq<DatePattern> :=
    [MonthDayPattern, Literal("오늘"), Literal("내일"), Literal("다음주"),
     Literal("월요일"), Literal("화요일"), Literal("수요일"), Literal("목요일"),
     Literal("금요일"), Literal("토요일"), Literal("일요일")]

  const ActionWords: seq<string> := ["추가해줘", "등록해줘", "일정", "캘린더에", "에"]

  const AttendeeWords: seq<string> := ["우리 가족", "가족", "친구", "동료", "팀"]

  const DefaultTitle: string := "새로운 일정"

  /** `replacingOccurrences(of: pattern, with: "", options: .regularExpression)` */
  function RemovePattern(s: string, p: DatePattern): (r: string)
    ensures |r| <= |s|
    ensures forall c | c in r :: c in s
  {
    match p
    case MonthDayPattern => RemoveMonthDays(s)
    case Literal(w) => RemoveAll(s, w)
  }

  /** The patterns deleted one after another, in list order; the text never grows
      and no new scalar appears. */
  function RemovePatterns(s: string, ps: seq<DatePattern>): (r: string)
    ensures |r| <= |s|
    ensures forall c | c in r :: c in s
  {
    if ps == [] then s else RemovePattern(RemovePatterns(s, ps[..|ps| - 1]), ps[|ps| - 1])
  }

  /** The words deleted one after another, in list order; no new scalar appears. */
  function RemoveWords(s: string, ws: seq<string>): (r: string)
    ensures forall c | c in r :: c in s
  {
    if ws == [] then s else RemoveAll(RemoveWords(s, ws[..|ws| - 1]), ws[|ws| - 1])
  }

  /** `extractTitle(from:date:)`: the command without date expressions, action words
      and attendee words, trimmed, or the default title when nothing is left. It is
      never empty, starts and ends with something other than white space, and holds no
      `에`, because every `에` is deleted. */
  function Title(command: string): (r: string)
    ensures r != []
    ensures !IsWhitespaceOrNewline(r[0]) && !IsWhitespaceOrNewline(r[|r| - 1])
    ensures '에' !in r
    ensures r == DefaultTitle || forall c | c in r :: c in command
    ensures (forall k | 0 <= k < |command| :: IsWhitespaceOrNewline(command[k])) ==> r == DefaultTitle
  {
    var undated := RemovePatterns(command, DatePatterns);
    var unactioned := RemoveWords(undated, ActionWords);
    assert ActionWords[..|ActionWords| - 1] == ["추가해줘", "등록해줘", "일정", "캘린더에"];
    assert '에' !in unactioned;
    var bare := RemoveWords(unactioned, AttendeeWords);
    var trimmed := Trim(bare);
    TrimKeepsScalars(bare);
    BlankKept(command, bare);
    if trimmed == [] then DefaultTitle else trimmed
  }

  /** A text made of the scalars of an all-blank text is all blank. */
  lemma BlankKept(s: string, t: string)
    requires forall c | c in t :: c in s
    ensures (forall k | 0 <= k < |s| :: IsWhitespaceOrNewline(s[k])) ==>
              forall k | 0 <= k < |t| :: IsWhitespaceOrNewline(t[k])
  {
    if forall k | 0 <= k < |s| :: IsWhitespaceOrNewline(s[k]) {
      forall k | 0 <= k < |t| ensures IsWhitespaceOrNewline(t[k]) {
        assert t[k] in s;
        var j :| 0 <= j < |s| && s[j] == t[k];
      }
    }
  }

  /** A date pattern that cannot occur in `s`: no digit for the month/day
      expression, a word that does not occur for a literal. */
  predicate Absent(s: string, p: DatePattern) {
    match p
    case MonthDayPattern => forall k | 0 <= k < |s| :: !IsAsciiDigit(s[k])
    case Literal(w) => w != [] && !Contains(s, w)
  }

  /** Deleting patterns that do not occur leaves the text as it is. */
  lemma {:induction false} RemovePatternsAbsent(s: string, ps: seq<DatePattern>)
    requires forall k | 0 <= k < |ps| :: Absent(s, ps[k])
    ensures RemovePatterns(s, ps) == s
  {
    if ps != [] {
      RemovePatternsAbsent(s, ps[..|ps| - 1]);
      match ps[|ps| - 1]
      case MonthDayPattern => NoDigits(s);
      case Literal(w) => RemoveAllChanges(s, w);
    }
  }

  /** Deleting words that do not occur leaves the text as it is. */
  lemma {:induction false} RemoveWordsAbsent(s: string, ws: seq<string>)
    requires forall k | 0 <= k < |ws| :: ws[k] != [] && !Contains(s, ws[k])
    ensures RemoveWords(s, ws) == s
  {
    if ws != [] {
      RemoveWordsAbsent(s, ws[..|ws| - 1]);
      RemoveAllChanges(s, ws[|ws| - 1]);
    }
  }

  /** Deleting two lists of words is deleting one after the other. */
  lemma {:induction false} RemoveWordsAppend(s: string, a: seq<string>, b: seq<string>)
    ensures RemoveWords(s, a + b) == RemoveWords(RemoveWords(s, a), b)
  {
    if b == [] {
      assert a + b == a;
    } else {
      assert (a + b)[..|a + b| - 1] == a + b[..|b| - 1];
      RemoveWordsAppend(s, a, b[..|b| - 1]);
    }
  }

  /** `친구와 만나기` has none of the date patterns. */
  lemma FriendMeetingUndated(command: string)
    requires command == "친구와 만나기"
    ensures RemovePatterns(command, DatePatterns) == command
  {
    MissingScalar(command, "오늘", 0);
    MissingScalar(command, "내일", 0);
    MissingScalar(command, "다음주", 0);
    MissingScalar(command, "월요일", 0);
    MissingScalar(command, "화요일", 0);
    MissingScalar(command, "수요일", 0);
    MissingScalar(command, "목요일", 0);
    MissingScalar(command, "금요일", 0);
    MissingScalar(command, "토요일", 0);
    MissingScalar(command, "일요일", 0);
    RemovePatternsAbsent(command, DatePatterns);
  }

  /** `친구와 만나기` has none of the action words. */
  lemma FriendMeetingUnactioned(command: string)
    requires command == "친구와 만나기"
    ensures RemoveWords(command, ActionWords) == command
  {
    MissingScalar(command, "추가해줘", 0);
    MissingScalar(command, "등록해줘", 0);
    MissingScalar(command, "일정", 0);
    MissingScalar(command, "캘린더에", 0);
    MissingScalar(command, "에", 0);
    RemoveWordsAbsent(command, ActionWords);
  }

  /** The first three attendee words take `친구` off the front of `친구와 만나기`. */
  lemma FriendMeetingFriendRemoved(command: string)
    requires command == "친구와 만나기"
    ensures RemoveWords(command, ["우리 가족", "가족", "친구"]) == command[2..]
  {
    MissingScalar(command, "우리 가족", 0);
    MissingScalar(command, "가족", 0);
    RemoveWordsAbsent(command, ["우리 가족", "가족"]);
    var rest := command[2..];
    assert command[..2] == "친구";
    MissingScalar(rest, "친구", 0);
    RemoveAllChanges(rest, "친구");
    assert RemoveAll(command, "친구") == RemoveAll(rest, "친구");
    RemoveWordsAppend(command, ["우리 가족", "가족"], ["친구"]);
    assert ["우리 가족", "가족"] + ["친구"] == ["우리 가족", "가족", "친구"];
  }

  /** `와 만나기` holds neither of the last two attendee words. */
  lemma FriendMeetingRest(rest: string)
    requires rest == "와 만나기"
    ensures RemoveWords(rest, ["동료", "팀"]) == rest
  {
    MissingScalar(rest, "동료", 0);
    MissingScalar(rest, "팀", 0);
    RemoveWordsAbsent(rest, ["동료", "팀"]);
  }

  /** Of the attendee words, only `친구` occurs in `친구와 만나기`, at its start. */
  lemma FriendMeetingBare(command: string)
    requires command == "친구와 만나기"
    ensures RemoveWords(command, AttendeeWords) == command[2..]
  {
    FriendMeetingFriendRemoved(command);
    FriendMeetingRest(command[2..]);
    RemoveWordsAppend(command, ["우리 가족", "가족", "친구"], ["동료", "팀"]);
    assert AttendeeWords == ["우리 가족", "가족", "친구"] + ["동료", "팀"];
  }

  /** `친구와 만나기` ("meeting a friend") is titled `와 만나기`: only the attendee
      word is deleted. */
  lemma FriendMeetingTitle(command: string)
    requires command == "친구와 만나기"
    ensures Title(command) == "와 만나기"
  {
    FriendMeetingUndated(command);
    FriendMeetingUnactioned(command);
    FriendMeetingBare(command);
    var rest := command[2..];
    assert rest == "와 만나기";
    assert Trim(rest) == rest by {
      assert !IsWhitespaceOrNewline(rest[0]) && !IsWhitespaceOrNewline(rest[|rest| - 1]);
    }
  }

  method ExtractTitle(command: string) returns (title: string)
    ensures title == Title(command)
  {
    title := command;
    for k := 0 to |DatePatterns|
      invariant title == RemovePatterns(command, DatePatterns[..k])
    {
      assert DatePatterns[..k + 1][..k] == DatePatterns[..k];
      match DatePatterns[k]
      case MonthDayPattern => title := RemoveMonthDays(title);
      case Literal(w) => title := RemoveAll(title, w);
    }
    assert DatePatterns[..|DatePatterns|] == DatePatterns;
    var undated := title;
    for k := 0 to |ActionWords|
      invariant title == RemoveWords(undated, ActionWords[..k])
    {
      assert ActionWords[..k + 1][..k] == ActionWords[..k];
      title := RemoveAll(title, ActionWords[k]);
    }
    assert ActionWords[..|ActionWords|] == ActionWords;
    var unactioned := title;
    for k := 0 to |AttendeeWords|
      invariant title == RemoveWords(unactioned, AttendeeWords[..k])
    {
      assert AttendeeWords[..k + 1][..k] == AttendeeWords[..k];
      title := RemoveAll(title, AttendeeWords[k]);
    }
    assert AttendeeWords[..|AttendeeWords|] == AttendeeWords;
    title := Trim(title);
    if title == [] {
      title := DefaultTitle;
    }
  }

  // ---------------------------------------------------------------------------
  // The attendee rule

  /** The attendee labels, in the order the parser adds them. */
  const Groups: seq<string> := ["가족", "친구", "동료"]

  function GroupRank(group: string): nat {
    if group == "가족" then 0 else if group == "친구" then 1 else 2
  }

  /** `extractAttendees(from:)`: the labels whose cue occurs, each at most once, in
      the order of `Groups`. `우리 가족` needs no cue of its own, as it contains `가족`. */
  function Attendees(command: string): (r: seq<string>)
    ensures "가족" in r <==> Contains(command, "가족")
    ensures "친구" in r <==> Contains(command, "친구")
    ensures "동료" in r <==> Contains(command, "동료") || Contains(command, "팀")
    ensures forall x | x in r :: x in Groups
    ensures forall i, j | 0 <= i < j < |r| :: GroupRank(r[i]) < GroupRank(r[j])
  {
    FamilyCueContainsFamily(command);
    (if Contains(command, "우리 가족") || Contains(command, "가족") then ["가족"] else [])
    + (if Contains(command, "친구") then ["친구"] else [])
    + (if Contains(command, "동료") || Contains(command, "팀") then ["동료"] else [])
  }

  /** A command that says `우리 가족` also says `가족`. */
  lemma FamilyCueContainsFamily(command: string)
    ensures Contains(command, "우리 가족") ==> Contains(command, "가족")
  {
    if Contains(command, "우리 가족") {
      assert OccursAt("우리 가족", "가족", 3);
      ContainsPart(command, "가족", "우리 가족");
    }
  }

  method ExtractAttendees(command: string) returns (attendees: seq<string>)
    ensures attendees == Attendees(command)
  {
    attendees := [];
    if Contains(command, "우리 가족") || Contains(command, "가족") {
      attendees := attendees + ["가족"];
    }
    if Contains(command, "친구") {
      attendees := attendees + ["친구"];
    }
    if Contains(command, "동료") || Contains(command, "팀") {
      attendees := attendees + ["동료"];
    }
  }

  // ---------------------------------------------------------------------------
  // The location rule

  /** The particles of `([가-힣]+)에서`, `([가-힣]+)에` and `([가-힣]+)로`, in the order tried. */
  const LocationSuffixes: seq<string> := ["에서", "에", "로"]

  /** The first location pattern, from index `p` on, that matches at all, and its
      leftmost match, longest at its start. */
  function LocationMatch(command: string, p: nat): (r: Option<(nat, Span)>)
    requires p <= |LocationSuffixes|
    ensures r.Some? ==> p <= r.value.0 < |LocationSuffixes|
                        && IsFirstMatch(command, LocationSuffixes[r.value.0], r.value.1)
    ensures r.Some? ==> forall q, st: nat, e: nat | p <= q < r.value.0 ::
                          !IsSuffixMatch(command, LocationSuffixes[q], st, e)
    ensures r.None? ==> forall q, st: nat, e: nat | p <= q < |LocationSuffixes| ::
                          !IsSuffixMatch(command, LocationSuffixes[q], st, e)
    decreases |LocationSuffixes| - p
  {
    if p == |LocationSuffixes| then None
    else
      match FindSuffixMatch(command, LocationSuffixes[p], 0)
      case Some(span) => Some((p, span))
      case None => LocationMatch(command, p + 1)
  }

  /** The particles deleted from a matched text: every `에서`, then every `에`, then
      every `로`. */
  function StripParticles(matched: string): (r: string)
    ensures '에' !in r && '로' !in r
    ensures forall c | c in r :: c in matched
  {
    RemoveAll(RemoveAll(RemoveAll(matched, "에서"), "에"), "로")
  }

  /** `sp` is the match `extractLocation` uses: pattern `q` is the first of the
      location patterns that matches at all, and `sp` is its leftmost match, longest
      at its start. */
  ghost predicate LocatedBy(command: string, q: nat, sp: Span) {
    && q < |LocationSuffixes|
    && IsFirstMatch(command, LocationSuffixes[q], sp)
    && forall q': nat, st: nat, e: nat | q' < q :: !IsSuffixMatch(command, LocationSuffixes[q'], st, e)
  }

  /** `extractLocation(from:)`: the particle-free text of the first matching pattern's
      leftmost match; absent exactly when no pattern matches. */
  function ExtractLocation(command: string): (r: Option<string>)
    ensures r.Some? ==> '에' !in r.value && '로' !in r.value
    ensures r.None? <==> forall q, st: nat, e: nat | 0 <= q < |LocationSuffixes| ::
                           !IsSuffixMatch(command, LocationSuffixes[q], st, e)
    ensures r.Some? ==> exists q: nat, sp: Span ::
                          LocatedBy(command, q, sp) && r.value == StripParticles(command[sp.start..sp.end])
  {
    match LocationMatch(command, 0)
    case None => None
    case Some((p, span)) =>
      assert LocatedBy(command, p, span);
      Some(StripParticles(command[span.start..span.end]))
  }

  /** The match `extractLocation` uses is determined by the text, so whenever `sp` is
      that match the location is its particle-free text. */
  lemma LocationOfMatch(command: string, q: nat, sp: Span)
    requires LocatedBy(command, q, sp)
    ensures ExtractLocation(command) == Some(StripParticles(command[sp.start..sp.end]))
  {
    assert IsSuffixMatch(command, LocationSuffixes[q], sp.start, sp.end);
    match LocationMatch(command, 0)
    case None =>
      assert false;
    case Some((p, span)) =>
      assert IsSuffixMatch(command, LocationSuffixes[p], span.start, span.end);
      assert p == q;
      assert span == sp;
  }

  /** The `에` of a date is taken for a location particle: in `8월 8일에 저녁` the
      leftmost match of `([가-힣]+)에` is `일에`, so the location is `일`. */
  lemma DateParticleReadAsLocation(command: string)
    requires command == "8월 8일에 저녁"
    ensures ExtractLocation(command) == Some("일")
  {
    assert FindSuffixMatch(command, "에서", 0).None? by {
      NoSuffixMatch(command, "에서");
    }
    assert FindSuffixMatch(command, "에", 0) == Some(Span(4, 6)) by {
      assert IsSuffixMatch(command, "에", 4, 6);
      assert !IsHangulSyllable(command[3]);
      forall st: nat, e: nat | IsSuffixMatch(command, "에", st, e) ensures st == 4 && e == 6 {
        assert command[e - 1] == command[e - 1..e][0] == '에';
        assert e == 6;
      }
      FindsFirstMatch(command, "에", Span(4, 6));
    }
    assert LocationMatch(command, 0) == Some((1, Span(4, 6)));
    assert command[4..6] == "일에";
    assert StripParticles("일에") == "일";
  }

  // ---------------------------------------------------------------------------
  // The duration rule

  const DefaultDuration: int := 3600

  /** The durations, in seconds, the parser can produce. */
  const DurationChoices: set<int> := {3600, 7200, 10800, 14400, 86400}

  /** `extractDuration(from:)`: a whole day, half a day, two, three or four hours, or
      one hour when no cue occurs; never absent. */
  function ExtractDuration(command: string): (r: Option<int>)
    ensures r.Some? && r.value in DurationChoices
    ensures Contains(command, "하루") || Contains(command, "종일") ==> r == Some(86400)
    ensures !Contains(command, "하루") && !Contains(command, "종일") && Contains(command, "반나절") ==>
              r == Some(14400)
    ensures (!Contains(command, "하루") && !Contains(command, "종일") && !Contains(command, "반나절")
             && Contains(command, "2시간")) ==> r == Some(7200)
    ensures (!Contains(command, "하루") && !Contains(command, "종일") && !Contains(command, "반나절")
             && !Contains(command, "2시간") && Contains(command, "3시간")) ==> r == Some(10800)
    ensures (!Contains(command, "하루") && !Contains(command, "종일") && !Contains(command, "반나절")
             && !Contains(command, "2시간") && !Contains(command, "3시간") && Contains(command, "4시간"))
            ==> r == Some(14400)
    ensures r == Some(DefaultDuration) <==>
              && !Contains(command, "하루") && !Contains(command, "종일") && !Contains(command, "반나절")
              && !Contains(command, "2시간") && !Contains(command, "3시간") && !Contains(command, "4시간")
  {
    if Contains(command, "하루") || Contains(command, "종일") then Some(24 * 3600)
    else if Contains(command, "반나절") then Some(4 * 3600)
    else if Contains(command, "2시간") then Some(2 * 3600)
    else if Contains(command, "3시간") then Some(3 * 3600)
    else if Contains(command, "4시간") then Some(4 * 3600)
    else Some(DefaultDuration)
  }

  // ---------------------------------------------------------------------------
  // The whole command

  /** `ParsedCommand`. */
  datatype ParsedCommand = ParsedCommand(
    action: string,
    date: Option<Date>,
    title: string,
    description: Option<string>,
    attendees: seq<string>,
    location: Option<string>,
    duration: Option<int>)

  /** What `parseCommand(_:)` returns for `command` at clock reading `now`: the title
      from the command as typed, every other field from its lower-cased form. */
  function Parsed(command: string, now: Moment): (p: ParsedCommand)
    ensures p.action == "add" && p.description.None?
    ensures p.title != [] && '에' !in p.title
    ensures p.duration.Some? && p.duration.value in DurationChoices
  {
    var lowered := Lowercased(command);
    ParsedCommand("add", ParseDate(lowered, now), Title(command), None,
                  Attendees(lowered), ExtractLocation(lowered), ExtractDuration(lowered))
  }

  method ParseCommand(command: string, now: Moment) returns (parsed: ParsedCommand)
    ensures parsed == Parsed(command, now)
  {
    var lowercasedCommand := Lowercased(command);
    var action := "add";
    var description: Option<string> := None;
    var date := ParseDate(lowercasedCommand, now);
    var title := ExtractTitle(command);
    var attendees := ExtractAttendees(lowercasedCommand);
    var location := ExtractLocation(lowercasedCommand);
    var duration := ExtractDuration(lowercasedCommand);
    parsed := ParsedCommand(action, date, title, description, attendees, location, duration);
  }

  /** Lower-casing does not affect the attendee cues: each label is present exactly
      when the command as typed contains its cue. */
  lemma ParsedAttendeesFollowCues(command: string, now: Moment)
    ensures var a := Parsed(command, now).attendees;
            && ("가족" in a <==> Contains(command, "가족"))
            && ("친구" in a <==> Contains(command, "친구"))
            && ("동료" in a <==> Contains(command, "동료") || Contains(command, "팀"))
  {
    ContainsLowercased(command, "가족");
    ContainsLowercased(command, "친구");
    ContainsLowercased(command, "동료");
    ContainsLowercased(command, "팀");
  }

  // ---------------------------------------------------------------------------
  // Adding the event to the calendar

  /** `CalendarError`. */
  datatype CalendarError = AccessDenied | InvalidDate | SaveFailed(message: string)

  const SaveFailedPrefix: string := "일정 저장에 실패했습니다: "

  /** `CalendarError.errorDescription`: a fixed text for each of the first two errors,
      and the save failure's message after a fixed prefix. */
  function ErrorDescription(e: CalendarError): (r: string)
    ensures e == AccessDenied ==> r == "캘린더 접근 권한이 거부되었습니다."
    ensures e == InvalidDate ==> r == "유효하지 않은 날짜입니다."
    ensures e.SaveFailed? ==>
              (&& |r| == |SaveFailedPrefix| + |e.message|
               && r[..|SaveFailedPrefix|] == SaveFailedPrefix
               && r[|SaveFailedPrefix|..] == e.message)
  {
    match e
    case AccessDenied => "캘린더 접근 권한이 거부되었습니다."
    case InvalidDate => "유효하지 않은 날짜입니다."
    case SaveFailed(message) => SaveFailedPrefix + message
  }

  /** The user sees which error it was: distinct errors have distinct descriptions,
      and a save failure's description carries its message verbatim. */
  lemma ErrorDescriptionInjective(e1: CalendarError, e2: CalendarError)
    requires ErrorDescription(e1) == ErrorDescription(e2)
    ensures e1 == e2
  {
    var d := ErrorDescription(e1);
    assert d[0] == ErrorDescription(e2)[0];
    if e1.SaveFailed? && e2.SaveFailed? {
      assert e1.message == d[|SaveFailedPrefix|..] == e2.message;
    }
  }

  /** The fields of an `EKEvent` the app sets. */
  datatype EventFields = EventFields(
    title: string,
    notes: Option<string>,
    location: Option<string>,
    startDate: Option<Date>,
    endDate: Option<Date>)

  /** The `EKEvent` the app fills in, field by field, before saving it. */
  class CalendarEvent {
    var title: string
    var notes: Option<string>
    var location: Option<string>
    var startDate: Option<Date>
    var endDate: Option<Date>

    constructor ()
      ensures title == [] && notes.None? && location.None? && startDate.None? && endDate.None?
    {
      title, notes, location, startDate, endDate := [], None, None, None, None;
    }

    function Fields(): EventFields
      reads this
    {
      EventFields(title, notes, location, startDate, endDate)
    }
  }

  const AttendeesLabel: string := "참석자: "

  /** The notes text: the description, then a newline and the attendee line when
      there are attendees. */
  function EventNotes(description: Option<string>, attendees: seq<string>): (r: Option<string>)
    ensures r.None? <==> description.None? && attendees == []
    ensures attendees == [] ==> r == description
    ensures attendees != [] ==>
              var line := "\n" + AttendeesLabel + Join(attendees, ", ");
              |line| <= |r.value| && r.value[|r.value| - |line|..] == line
              && r.value[..|r.value| - |line|] == description.GetOr("")
  {
    if attendees == [] then description
    else Some(description.GetOr("") + "\n" + AttendeesLabel + Join(attendees, ", "))
  }

  /** The event built for a command whose date is `start`. */
  function EventFor(command: ParsedCommand, start: Date): (event: EventFields)
    ensures event.title == command.title && event.location == command.location
    ensures event.startDate == Some(start) && event.endDate.Some?
    ensures event.endDate.value.AddingInterval? && event.endDate.value.start == start
    ensures command.duration.Some? ==> event.endDate.value.seconds == command.duration.value
    ensures command.duration.None? ==> event.endDate.value.seconds == 3600
    ensures event.notes.Some? <==> command.description.Some? || command.attendees != []
  {
    EventFields(command.title, EventNotes(command.description, command.attendees), command.location,
                Some(start), Some(AddingInterval(start, command.duration.GetOr(DefaultDuration))))
  }

  /** `addEventToCalendar(parsedCommand:)`. Access is checked before the date; the
      event is saved only when both pass, and a failed save surfaces its message
      verbatim. `saved` is the event handed to the store. */
  method AddEventToCalendar(parsedCommand: ParsedCommand, accessGranted: bool, saveError: Option<string>)
    returns (outcome: Result<bool, CalendarError>, saved: Option<EventFields>)
    ensures !accessGranted ==> outcome == Failure(AccessDenied) && saved.None?
    ensures accessGranted && parsedCommand.date.None? ==> outcome == Failure(InvalidDate) && saved.None?
    ensures accessGranted && parsedCommand.date.Some? ==>
              && saved == Some(EventFor(parsedCommand, parsedCommand.date.value))
              && outcome == if saveError.None? then Success(true) else Failure(SaveFailed(saveError.value))
    ensures outcome.Success? ==> outcome.value
  {
    if !accessGranted {
      return Failure(AccessDenied), None;
    }
    if parsedCommand.date.None? {
      return Failure(InvalidDate), None;
    }
    var date := parsedCommand.date.value;
    var event := new CalendarEvent();
    event.title := parsedCommand.title;
    event.notes := parsedCommand.description;
    event.location := parsedCommand.location;
    event.startDate := Some(date);
    event.endDate := Some(AddingInterval(date, parsedCommand.duration.GetOr(DefaultDuration)));
    if parsedCommand.attendees != [] {
      var attendeesText := AttendeesLabel + Join(parsedCommand.attendees, ", ");
      var existing := event.notes.GetOr("");
      assert existing + "\n" + attendeesText == existing + "\n" + AttendeesLabel + Join(parsedCommand.attendees, ", ");
      event.notes := Some(existing + "\n" + attendeesText);
    }
    saved := Some(event.Fields());
    match saveError
    case None => outcome := Success(true);
    case Some(message) => outcome := Failure(SaveFailed(message));
  }

  /** The event for a command with no description: it lasts the command's duration
      and carries notes exactly when there are attendees, holding only the attendee line. */
  lemma EventShape(p: ParsedCommand, start: Date)
    requires p.description.None? && p.duration.Some?
    ensures var event := EventFor(p, start);
            && event.title == p.title && event.location == p.location
            && event.startDate == Some(start)
            && event.endDate == Some(AddingInterval(start, p.duration.value))
            && (event.notes.Some? <==> p.attendees != [])
            && (event.notes.Some? ==> event.notes.value == "\n" + AttendeesLabel + Join(p.attendees, ", "))
  {
  }

  /** For a parsed command with a date, the event starts then, lasts one of the
      parser's durations, has a nonempty title and carries notes exactly when there
      are attendees. */
  lemma ParsedEventShape(command: string, now: Moment)
    requires Parsed(command, now).date.Some?
    ensures var p := Parsed(command, now);
            var event := EventFor(p, p.date.value);
            && event.title != []
            && event.startDate == p.date
            && event.endDate.Some? && event.endDate.value.AddingInterval?
            && event.endDate.value.start == p.date.value
            && event.endDate.value.seconds in DurationChoices
            && (event.notes.Some? <==> p.attendees != [])
  {
    var p := Parsed(command, now);
    EventShape(p, p.date.value);
  }
}

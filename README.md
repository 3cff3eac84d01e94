# Korean scheduling assistant: parser, message draft, context history and command screen

A Dafny model of the non-UI logic of a SwiftUI test app (an iOS scheduling
assistant):

- **NaturalLanguageProcessor** turns a Korean command such as
  `8월 8일에 우리 가족과 만나는 일정을 캘린더에 추가해줘` into a `ParsedCommand`.
  Five rule-based scans produce its fields:
  - the date: an explicit `<N>월 <M>일`, else `오늘`/`내일`/`다음주`, else the first
    weekday name;
  - the title: the command with date, action and attendee words deleted, then trimmed;
  - the attendees: three cue tests;
  - the location: the first of three Hangul-particle patterns;
  - the duration: a keyword ladder with a one-hour default.

  `AddEventToCalendar` checks calendar access first, then the date. It builds the
  event (its end time, and its notes with the attendee line) and reports a failed
  save with its message.
- **MeetingToMessage** turns meeting notes into an iMessage draft:
  - blank lines are dropped;
  - every kept line goes into one of four sections: the first of the date, attendee
    and to-do keyword tests it passes, else the summary;
  - the sections are laid out between a fixed header and footer.
- **MCPService** holds the model-context-protocol client's state:
  - the tool names and requests;
  - the history of contexts returned by the server, at most ten and oldest first;
  - the unwrapping of tool results shared by the tool wrappers;
  - the view model's copy of the history.
- **VoiceCommand** formats durations (days, hours or minutes). It also holds the
  state machine of the command screen: preview, start adding, and finish adding.

Two support modules model the Foundation behaviour the app relies on:

- **SwiftText**:
  - `contains`;
  - `replacingOccurrences` with an empty replacement;
  - trimming;
  - `components(separatedBy:)` and `joined`;
  - `Int(String)` and `"\(n)"`;
  - `lowercased()`.
- **KoreanPatterns**: hand-written matchers for the two ICU regular expressions,
  `(\d+)월\s*(\d+)일` and `([가-힣]+)<particle>`. Each is proved to find the
  leftmost match (and the longest one at that position) of a declarative match
  predicate.

Inputs stand in for the outside world:

- the clock reading `now` (a `Moment`);
- whether calendar access is granted;
- the outcome of saving an event (`None`, or the error message);
- the decoded server reply of a tool call, or the error the call failed with;
- the answer the calendar gives the screen.

Foundation's calendar arithmetic is kept symbolic. A `Date` names the call that
produces it: `date(from:)`, `date(byAdding:)`, `nextDate(after:matching:)` or
`addingTimeInterval`. `startOfDay` is written as the `date(from:)` value for
midnight of the current day.

Three behaviours of the parser are easy to miss:

- **Location.** A date's `에` counts as a location particle. So `8월 8일에 저녁`
  gets the location `일` (`DateParticleReadAsLocation`). An `에서` right after a
  Hangul syllable would win instead, because that pattern is tried first; an `에서`
  at the start of the text or after a space matches no pattern.
- **Particles.** Every `에서`, `에` and `로` inside the matched text is deleted, not
  just the trailing particle.
- **Weekdays.** The weekday rule asks for the day before the one named (see Findings).

## Model

| member | source | states |
|---|---|---|
| SwiftText.Contains | testProjectWithCursor/NaturalLanguageProcessor.swift:152 | a text contains only words no longer than itself |
| SwiftText.ContainsPart | testProjectWithCursor/NaturalLanguageProcessor.swift:152 | a text containing `v` contains every word inside `v` (why the `우리 가족` cue adds nothing beyond `가족`) |
| SwiftText.RemoveAll | testProjectWithCursor/NaturalLanguageProcessor.swift:133 | deleting a word never lengthens the text or adds a scalar, and deleting a one-scalar word leaves none of it |
| SwiftText.RemoveAllChanges | testProjectWithCursor/NaturalLanguageProcessor.swift:133 | deleting a nonempty word changes the text exactly when the word occurs in it |
| SwiftText.Trim | testProjectWithCursor/NaturalLanguageProcessor.swift:143 | the trimmed text sits in the text at some index with only white space and newlines before and after it, neither starts nor ends with white space or a newline, and is empty exactly when the text is all white space |
| SwiftText.TrimKeepsScalars | testProjectWithCursor/NaturalLanguageProcessor.swift:143 | trimming adds no scalar |
| SwiftText.Join | testProjectWithCursor/MeetingToMessageView.swift:80-83 | the joined text is at least as long as the separators between the parts, and no part is longer than it |
| SwiftText.Components | testProjectWithCursor/MeetingToMessageView.swift:58 | splitting gives at least one piece and no piece holds the separator |
| SwiftText.JoinComponents | testProjectWithCursor/MeetingToMessageView.swift:58 | joining the pieces with the separator gives back the text |
| SwiftText.DigitGroups | testProjectWithCursor/NaturalLanguageProcessor.swift:66 | splitting at non-digits gives at least one piece, each made of digits only |
| SwiftText.DigitGroupsAfterDigits | testProjectWithCursor/NaturalLanguageProcessor.swift:66 | a run of digits before a non-digit forms the first piece by itself |
| SwiftText.SwiftInt | testProjectWithCursor/NaturalLanguageProcessor.swift:67 | `Int(_:)` yields only values within `Int`'s 64-bit range; a nonempty all-digit text within the range gives exactly the number its digits denote, and an empty text or an all-digit text beyond the range gives nil |
| SwiftText.NatDigits | testProjectWithCursor/VoiceCommandView.swift:299 | the decimal digits of a natural number denote it and have no leading zero |
| SwiftText.DecimalString | testProjectWithCursor/VoiceCommandView.swift:299 | the decimal text of an `Int` parses back to it with `Int(_:)` |
| SwiftText.Lowercased | testProjectWithCursor/NaturalLanguageProcessor.swift:21 | lower-casing keeps the length |
| SwiftText.ContainsLowercased | testProjectWithCursor/NaturalLanguageProcessor.swift:21 | lower-casing neither creates nor destroys an occurrence of a word without Latin letters |
| KoreanPatterns.RunEnd | testProjectWithCursor/NaturalLanguageProcessor.swift:64 | the greedy run of a character class ends at the first scalar outside it |
| KoreanPatterns.MonthDayAt | testProjectWithCursor/NaturalLanguageProcessor.swift:64 | the regular expression tried at one position finds a match exactly when one starts there, and that match is the only one |
| KoreanPatterns.FindMonthDay | testProjectWithCursor/NaturalLanguageProcessor.swift:64 | the search reports the leftmost match of `(\d+)월\s*(\d+)일`, or none when no match starts at or after the given index |
| KoreanPatterns.RemoveMonthDaysFrom | testProjectWithCursor/NaturalLanguageProcessor.swift:127 | deleting matches from an index on never lengthens the text or adds a scalar, and the text is unchanged exactly when there is no match from there on |
| KoreanPatterns.RemoveMonthDays | testProjectWithCursor/NaturalLanguageProcessor.swift:119-127 | the regular-expression deletion adds no scalar and changes the text exactly when it holds a month/day expression |
| KoreanPatterns.LongestGroup | testProjectWithCursor/NaturalLanguageProcessor.swift:176 | backing off the greedy Hangul group finds the longest group the particle follows |
| KoreanPatterns.SuffixMatchAt | testProjectWithCursor/NaturalLanguageProcessor.swift:176 | at one position the pattern `([가-힣]+)<particle>` finds the longest match there, and finds one whenever one exists |
| KoreanPatterns.FindSuffixMatch | testProjectWithCursor/NaturalLanguageProcessor.swift:176 | the search reports the leftmost match (the longest at its start), or none when nothing matches at or after the index |
| KoreanPatterns.NoSuffixMatch | testProjectWithCursor/NaturalLanguageProcessor.swift:170 | a text without the particle's last scalar has no match |
| KoreanPatterns.FindsFirstMatch | testProjectWithCursor/NaturalLanguageProcessor.swift:176 | the match the search reports is the first match |
| NaturalLanguageProcessor.StartOfDay | testProjectWithCursor/NaturalLanguageProcessor.swift:87 | `오늘` stands for midnight of the current year, month and day |
| NaturalLanguageProcessor.PositiveInts | testProjectWithCursor/NaturalLanguageProcessor.swift:67-68 | only positive numbers are kept, and there are no more of them than pieces |
| NaturalLanguageProcessor.PositiveIntsAppend | testProjectWithCursor/NaturalLanguageProcessor.swift:67-68 | the kept numbers of two lists of pieces are those of each, in order |
| NaturalLanguageProcessor.SkipSeparators | testProjectWithCursor/NaturalLanguageProcessor.swift:66-68 | the empty pieces between non-digits contribute no number |
| NaturalLanguageProcessor.MonthDayRule | testProjectWithCursor/NaturalLanguageProcessor.swift:64-72 | the rule yields positive month and day values, and is skipped when the text has no match |
| NaturalLanguageProcessor.MatchComponents | testProjectWithCursor/NaturalLanguageProcessor.swift:65-68 | the numbers read off a match are those of its month digits and its day digits |
| NaturalLanguageProcessor.MonthDayRuleReadsLeftmostMatch | testProjectWithCursor/NaturalLanguageProcessor.swift:64-82 | only the leftmost match counts: the rule gives `(Int(month digits), Int(day digits))` when both are positive integers, and is skipped otherwise |
| NaturalLanguageProcessor.FirstListed | testProjectWithCursor/NaturalLanguageProcessor.swift:95-97 | the index found is the first listed name the text contains, and none means it contains none of them |
| NaturalLanguageProcessor.WeekdayComponent | testProjectWithCursor/NaturalLanguageProcessor.swift:99 | the component requested for a listed weekday lies in Foundation's range 1 to 7 |
| NaturalLanguageProcessor.ParseDate | testProjectWithCursor/NaturalLanguageProcessor.swift:59-111 | the rules are tried in order: a month/day read off the first match gives that month and day of the current year at 10:00, whatever keywords follow; otherwise `오늘` gives midnight today, then `내일` one day later, then `다음주` one week later; otherwise a weekday date is requested after `now` at 10:00 for component i+1, where i is the first listed weekday name present; the date is absent exactly when no cue occurs |
| NaturalLanguageProcessor.WeekdayRuleNamesDayBefore | testProjectWithCursor/NaturalLanguageProcessor.swift:95-106 | as written, each weekday name is turned into the component of the day before it in Foundation's numbering |
| NaturalLanguageProcessor.MondayCommandLandsOnSunday | testProjectWithCursor/NaturalLanguageProcessor.swift:95-106 | `월요일 회의` asks for component 1, which is Sunday |
| NaturalLanguageProcessor.IntendedWeekdayComponent | testProjectWithCursor/NaturalLanguageProcessor.swift:99 | the corrected component names the same day as the weekday name |
| NaturalLanguageProcessor.WeekdayIndex | testProjectWithCursor/NaturalLanguageProcessor.swift:95 | a Foundation weekday component names an entry of the weekday list |
| NaturalLanguageProcessor.CorrectedParseDate | testProjectWithCursor/NaturalLanguageProcessor.swift:95-107 | with corrected numbering the weekday asked for is the first listed weekday the command names, and every other branch is unchanged |
| NaturalLanguageProcessor.RemovePatterns | testProjectWithCursor/NaturalLanguageProcessor.swift:126-128 | deleting the date patterns in turn never lengthens the text or adds a scalar |
| NaturalLanguageProcessor.RemovePatternsAbsent | testProjectWithCursor/NaturalLanguageProcessor.swift:126-128 | date patterns that do not occur leave the text unchanged |
| NaturalLanguageProcessor.RemoveWords | testProjectWithCursor/NaturalLanguageProcessor.swift:132-140 | deleting words adds no scalar |
| NaturalLanguageProcessor.RemoveWordsAbsent | testProjectWithCursor/NaturalLanguageProcessor.swift:132-140 | words that do not occur leave the text unchanged |
| NaturalLanguageProcessor.RemoveWordsAppend | testProjectWithCursor/NaturalLanguageProcessor.swift:132-140 | deleting two word lists one after the other is deleting their concatenation |
| NaturalLanguageProcessor.Title | testProjectWithCursor/NaturalLanguageProcessor.swift:114-146 | the title is never empty, neither starts nor ends with white space, and contains no `에`; it is the default `새로운 일정` or made only of scalars of the command, and it is the default for an all-blank command |
| NaturalLanguageProcessor.BlankKept | testProjectWithCursor/NaturalLanguageProcessor.swift:143-145 | what is left of an all-blank command is all blank, so it trims to nothing |
| NaturalLanguageProcessor.FriendMeetingUndated | testProjectWithCursor/NaturalLanguageProcessor.swift:117-128 | `친구와 만나기` holds no date pattern, so that loop leaves it as it is |
| NaturalLanguageProcessor.FriendMeetingUnactioned | testProjectWithCursor/NaturalLanguageProcessor.swift:131-134 | `친구와 만나기` holds no action word |
| NaturalLanguageProcessor.FriendMeetingFriendRemoved | testProjectWithCursor/NaturalLanguageProcessor.swift:137-140 | the first three attendee words turn `친구와 만나기` into `와 만나기` |
| NaturalLanguageProcessor.FriendMeetingRest | testProjectWithCursor/NaturalLanguageProcessor.swift:137-140 | `동료` and `팀` leave `와 만나기` as it is |
| NaturalLanguageProcessor.FriendMeetingBare | testProjectWithCursor/NaturalLanguageProcessor.swift:137-140 | the attendee loop turns `친구와 만나기` into `와 만나기` |
| NaturalLanguageProcessor.FriendMeetingTitle | testProjectWithCursor/NaturalLanguageProcessor.swift:114-146 | the command `친구와 만나기` gets the title `와 만나기` |
| NaturalLanguageProcessor.ExtractTitle | testProjectWithCursor/NaturalLanguageProcessor.swift:114-146 | the three deletion loops, the trim and the fallback compute `Title` |
| NaturalLanguageProcessor.Attendees | testProjectWithCursor/NaturalLanguageProcessor.swift:149-165 | `가족` is listed iff the text contains `가족`, `친구` iff `친구`, `동료` iff `동료` or `팀`; the list is in the order 가족, 친구, 동료 with no repeats |
| NaturalLanguageProcessor.FamilyCueContainsFamily | testProjectWithCursor/NaturalLanguageProcessor.swift:152 | a command that says `우리 가족` says `가족` |
| NaturalLanguageProcessor.ExtractAttendees | testProjectWithCursor/NaturalLanguageProcessor.swift:149-165 | the appends compute `Attendees` |
| NaturalLanguageProcessor.LocationMatch | testProjectWithCursor/NaturalLanguageProcessor.swift:169-177 | the pattern used is the first of `에서`, `에`, `로` that matches at all, and its match is that pattern's leftmost, longest-at-start match |
| NaturalLanguageProcessor.StripParticles | testProjectWithCursor/NaturalLanguageProcessor.swift:178-180 | after the deletions no `에` or `로` is left, and no scalar is added |
| NaturalLanguageProcessor.ExtractLocation | testProjectWithCursor/NaturalLanguageProcessor.swift:168-185 | the location is absent exactly when none of the three patterns matches; otherwise it is the text of the leftmost (longest at its start) match of the first pattern that matches at all, with every `에서`, `에` and `로` deleted, so it holds no `에` or `로` |
| NaturalLanguageProcessor.LocationOfMatch | testProjectWithCursor/NaturalLanguageProcessor.swift:168-185 | the match the location is read from is determined by the text: for any first-matching pattern and its leftmost, longest match, the location is that match's particle-free text |
| NaturalLanguageProcessor.DateParticleReadAsLocation | testProjectWithCursor/NaturalLanguageProcessor.swift:170-180 | in `8월 8일에 저녁` the location found is `일` |
| NaturalLanguageProcessor.ExtractDuration | testProjectWithCursor/NaturalLanguageProcessor.swift:188-206 | the first cue on the ladder wins: `하루` or `종일` gives 86400, then `반나절` 14400, then `2시간` 7200, `3시간` 10800, `4시간` 14400; the 3600 default is given exactly when no cue occurs, so the duration is never absent |
| NaturalLanguageProcessor.Parsed | testProjectWithCursor/NaturalLanguageProcessor.swift:20-56 | a parsed command has action `add`, no description, a nonempty title without `에` and a duration from the parser's choices |
| NaturalLanguageProcessor.ParseCommand | testProjectWithCursor/NaturalLanguageProcessor.swift:20-56 | filling the local variables computes `Parsed` (title from the command as typed, everything else from its lower-cased form) |
| NaturalLanguageProcessor.ParsedAttendeesFollowCues | testProjectWithCursor/NaturalLanguageProcessor.swift:21-39 | lower-casing does not change which attendee cues are found |
| NaturalLanguageProcessor.ErrorDescription | testProjectWithCursor/NaturalLanguageProcessor.swift:267-276 | denied access reads `캘린더 접근 권한이 거부되었습니다.`, an invalid date `유효하지 않은 날짜입니다.`, and a save failure `일정 저장에 실패했습니다: ` followed by its message |
| NaturalLanguageProcessor.ErrorDescriptionInjective | testProjectWithCursor/NaturalLanguageProcessor.swift:267-276 | distinct calendar errors have distinct descriptions, and a save failure's description carries its message |
| NaturalLanguageProcessor.CalendarEvent.constructor | testProjectWithCursor/NaturalLanguageProcessor.swift:238 | a new event has no fields set |
| NaturalLanguageProcessor.AddEventToCalendar | testProjectWithCursor/NaturalLanguageProcessor.swift:229-258 | denied access fails with `accessDenied` before the date is looked at; a missing date fails with `invalidDate`; otherwise the event handed to the store is `EventFor`, and saving yields `true` or `saveFailed` with the store's message |
| NaturalLanguageProcessor.EventNotes | testProjectWithCursor/NaturalLanguageProcessor.swift:239-250 | the notes are absent exactly when there is neither a description nor an attendee; without attendees they are the description; with attendees they end with a newline, `참석자: ` and the names joined by `, `, after the description or nothing |
| NaturalLanguageProcessor.EventFor | testProjectWithCursor/NaturalLanguageProcessor.swift:238-250 | the event takes the command's title and location, starts at the date, ends an interval after it of the command's duration or 3600 seconds, and has notes exactly when there is a description or an attendee |
| NaturalLanguageProcessor.EventShape | testProjectWithCursor/NaturalLanguageProcessor.swift:239-250 | the event ends `duration` seconds after it starts, and has notes exactly when there are attendees, holding only the attendee line when there is no description |
| NaturalLanguageProcessor.ParsedEventShape | testProjectWithCursor/NaturalLanguageProcessor.swift:239-250 | for a parsed command the event's title is nonempty, it lasts one of the parser's durations, and it has notes exactly when there are attendees |
| MeetingToMessage.NonBlank | testProjectWithCursor/MeetingToMessageView.swift:58 | exactly the non-blank lines are kept |
| MeetingToMessage.NonBlankAppend | testProjectWithCursor/MeetingToMessageView.swift:58 | the filter works line by line, so the kept lines stay in note order with their repeats |
| MeetingToMessage.NoteLines | testProjectWithCursor/MeetingToMessageView.swift:58 | every kept line is nonempty and holds no newline |
| MeetingToMessage.Classify | testProjectWithCursor/MeetingToMessageView.swift:64-74 | a line is a date line iff it contains `일시` or `날짜`, an attendee line iff it contains `참석자` but neither date keyword, and a summary line iff it contains no keyword at all |
| MeetingToMessage.LinesIn | testProjectWithCursor/MeetingToMessageView.swift:70-73 | a section holds only lines sorted into it, taken from the note |
| MeetingToMessage.Layout | testProjectWithCursor/MeetingToMessageView.swift:76-86 | the laid-out draft starts with `[회의 요약]\n` and ends with the fixed footer |
| MeetingToMessage.MessageDraft | testProjectWithCursor/MeetingToMessageView.swift:57-87 | every draft starts with `[회의 요약]\n` and ends with the fixed footer |
| MeetingToMessage.SortStep | testProjectWithCursor/MeetingToMessageView.swift:64-74 | sorting one more line changes only its own section |
| MeetingToMessage.GenerateMessageDraft | testProjectWithCursor/MeetingToMessageView.swift:56-87 | the loop and the `+=` steps compute `MessageDraft`: header, last date line, last attendee line, summary lines, to-do lines, footer |
| MeetingToMessage.SectionsPartitionLines | testProjectWithCursor/MeetingToMessageView.swift:64-74 | every kept line lands in exactly one section |
| MeetingToMessage.LastInIsLastOfLinesIn | testProjectWithCursor/MeetingToMessageView.swift:65-68 | the date and attendee sections show the last line sorted there |
| MeetingToMessage.SectionsEmptyIffNoLines | testProjectWithCursor/MeetingToMessageView.swift:77-84 | some section is shown exactly when a line was kept |
| MeetingToMessage.EmptyDraftIffBlankNote | testProjectWithCursor/MeetingToMessageView.swift:58-86 | the draft is exactly header plus footer iff every line of the note is blank |
| MeetingToMessage.DateLineOpensDraft | testProjectWithCursor/MeetingToMessageView.swift:76-77 | a note with a date line opens its draft, right after the header, with the last such line as an item |
| MCPService.RawValue | testProjectWithCursor/MCPService.swift:8-14 | a tool is recovered from its raw value, so the five raw values are distinct |
| MCPService.ToolNamedIsRawValue | testProjectWithCursor/MCPService.swift:8-14 | a name that names a tool is that tool's raw value |
| MCPService.NewRequest | testProjectWithCursor/MCPService.swift:22-26 | the request carries a name from which the tool is recovered, and the parameters and context as given |
| MCPService.RecordContext | testProjectWithCursor/MCPService.swift:72-78 | no context leaves the history as it is; a context becomes the last entry, the history grows by one below ten entries and otherwise keeps its length by losing its oldest entry only; at most ten stays at most ten |
| MCPService.LastN | testProjectWithCursor/MCPService.swift:75-76 | the window holds `n` elements, or all of them when there are fewer |
| MCPService.HistoryIsSlidingWindow | testProjectWithCursor/MCPService.swift:72-78 | starting empty, the history is always the ten most recent contexts the server sent, oldest first |
| MCPService.ReplayStaysBounded | testProjectWithCursor/MCPService.swift:73-77 | no sequence of replies takes a history of at most ten entries beyond ten |
| MCPService.DataOrFailure | testProjectWithCursor/MCPService.swift:87-91 | the result is the data iff the response succeeded and carries data, otherwise `executionFailed` with the server's error text or `Unknown error` |
| MCPService.WrapperResult | testProjectWithCursor/MCPService.swift:84-91 | a wrapper yields data iff the call returned a successful response with data, and then that data; a failed call's own error passes through, and a response without data becomes `executionFailed` |
| MCPService.Unwrapped | testProjectWithCursor/MCPService.swift:115-119 | the guard computes the wrapper result |
| MCPService.MCPService.constructor | testProjectWithCursor/MCPService.swift:41 | a new service has an empty history |
| MCPService.MCPService.ExecuteTool | testProjectWithCursor/MCPService.swift:44-81 | sends `MCPRequest(tool, parameters, context)`, returns the reply, and records a decoded reply's context by `RecordContext`; a failed call leaves the history alone |
| MCPService.MCPService.GetUserData | testProjectWithCursor/MCPService.swift:84-92 | sends `user_id` and returns the unwrapped result |
| MCPService.MCPService.UpdateUserProfile | testProjectWithCursor/MCPService.swift:95-98 | sends `user_id` and `profile` and returns the response's success flag as is |
| MCPService.MCPService.SearchItems | testProjectWithCursor/MCPService.swift:101-109 | sends `query` and returns the unwrapped result |
| MCPService.MCPService.AnalyzeData | testProjectWithCursor/MCPService.swift:112-120 | sends `data` and `analysis_type` and returns the unwrapped result |
| MCPService.MCPService.GenerateReport | testProjectWithCursor/MCPService.swift:123-131 | sends `report_type` and `parameters` and returns the unwrapped result |
| MCPService.MCPService.GetContextHistory | testProjectWithCursor/MCPService.swift:134-136 | returns the history and changes nothing |
| MCPService.MCPService.ClearContextHistory | testProjectWithCursor/MCPService.swift:139-141 | leaves the history empty |
| MCPService.MCPViewModel.constructor | testProjectWithCursor/MCPService.swift:170-172 | a new view model owns a fresh service, and both histories are empty |
| MCPService.MCPViewModel.UpdateContextHistory | testProjectWithCursor/MCPService.swift:196-198 | the published copy becomes the service's history |
| MCPService.MCPViewModel.ClearContextHistory | testProjectWithCursor/MCPService.swift:201-204 | both the service's history and the published copy end empty |
| VoiceCommand.TruncDiv | testProjectWithCursor/VoiceCommandView.swift:297 | Swift's integer division rounds toward zero: the remainder has the sign of the dividend and is smaller than the divisor |
| VoiceCommand.FormatDuration | testProjectWithCursor/VoiceCommandView.swift:296-305 | from one day on the text is the number of whole days with `일`, from one hour on the number of whole hours with `시간`, below that (negative durations too) the minutes, rounded toward zero, with `분`; the preview sheet's copy at lines 399-408 is the same function |
| VoiceCommand.ParsedDurationsShowWhole | testProjectWithCursor/VoiceCommandView.swift:296-305 | every parsed duration shows as `1시간`, `2시간`, `3시간`, `4시간` or `1일`, and as `1일` exactly for a whole day |
| VoiceCommand.FormattedNumberReadsBack | testProjectWithCursor/VoiceCommandView.swift:298-301 | the number in the text parses back to the whole units it stands for |
| VoiceCommand.VoiceCommandScreen.constructor | testProjectWithCursor/VoiceCommandView.swift:5-9 | the screen starts with an empty command, no parse, not loading and no notice |
| VoiceCommand.VoiceCommandScreen.EditCommand | testProjectWithCursor/VoiceCommandView.swift:89 | typing changes only the command text |
| VoiceCommand.VoiceCommandScreen.ParseCommand | testProjectWithCursor/VoiceCommandView.swift:248-254 | an empty command changes nothing; otherwise the parse replaces the previous one and both notices are cleared |
| VoiceCommand.VoiceCommandScreen.BeginAddToCalendar | testProjectWithCursor/VoiceCommandView.swift:257-262 | without a parse nothing changes; otherwise the screen is loading with both notices cleared |
| VoiceCommand.VoiceCommandScreen.FinishAddToCalendar | testProjectWithCursor/VoiceCommandView.swift:264-283 | loading stops; `true` shows success and clears command and parse; `false` shows the fixed failure message; an error shows its description |
| VoiceCommand.VoiceCommandScreen.AddToCalendar | testProjectWithCursor/VoiceCommandView.swift:257-284 | with a parse the screen ends not loading, either cleared with the success notice or showing the access, date or save error with the command text and the parse kept; success and an error message are never shown together |

## Left out

- Network and JSON I/O. The URL, the headers, the bearer `sessionToken`, the request
  encoding, the status-code check and the response decoding are out. Their combined
  effect is the `reply` input of `ExecuteTool`: a decoded `MCPResponse`, or an
  `MCPServiceError`. The errors `URLSession`, `JSONEncoder` and `JSONDecoder` throw
  through every wrapper are not distinguished; the model narrows them to
  `MCPServiceError`.
- `MCPViewModel.performSearch` and the view model's `searchResults`, `isLoading` and
  `errorMessage`. Apart from the `searchItems` call already modelled, this is
  asynchronous UI bookkeeping.
- `MCPServiceError.errorDescription`. Nothing in the model shows these messages.
- EventKit. The permission request becomes the boolean `accessGranted`, and `save`
  becomes the `saveError` input. The event's calendar (`defaultCalendarForNewEvents`)
  is not kept.
- Foundation calendar arithmetic is kept symbolic:
  - no normalisation of impossible dates such as `13월 40일`;
  - no search performed by `nextDate`;
  - no week arithmetic;
  - `date(from:)`, `date(byAdding:)` and `nextDate`, which all return optionals, are
    assumed never to return nil.
- `TimeInterval` is a floating-point number of seconds. The model uses whole seconds,
  so `Int(duration)` is the identity.
- VoiceCommand.FormatDuration requires a duration within `Int`'s range, which is
  where `Int(duration)` does not trap; that is the caller's obligation in Swift too.
- `async`, `Task` and `MainActor`. Each transition is atomic. The add operation is
  split into its synchronous start and its continuation.
- VoiceCommand.VoiceCommandScreen.FinishAddToCalendar requires the screen to be
  loading. The continuation only runs after `BeginAddToCalendar`, and the add button
  is disabled while loading, so this holds in the app.
- VoiceCommand.VoiceCommandScreen.AddToCalendar requires the screen not to be loading.
  This is the same disabled-button condition, for the whole add operation.
- The preview sheet flag `showingPreview`, `formatDate`, and all view bodies and layout.
- SwiftText.Lowercased lowers only ASCII `A` to `Z`, whereas `lowercased()` maps all
  of Unicode. Every cue the parser tests has no letters outside Hangul and ASCII, so
  the results described here do not depend on it.
- SwiftText.IsWhitespace and SwiftText.IsRegexSpace use the Unicode space separators
  and control characters listed in their definitions. Digits are the ASCII `0` to
  `9`; `\d` and `decimalDigits` also accept other Unicode decimal digits.
- Strings are sequences of Unicode scalars. Grapheme clustering and canonical
  equivalence, which Swift's `String` comparison uses, are not modelled.

## Findings

| source | as written | input that shows it | evidently intended | confidence | as-written member | corrected member |
|---|---|---|---|---|---|---|
| testProjectWithCursor/NaturalLanguageProcessor.swift:99 | `weekdayComponent = index + 1` over a list that starts with `월요일`; Foundation numbers Sunday as 1 | `월요일 회의` is scheduled on Sunday (and `일요일` on Saturday) | the component of the weekday named, `(index + 1) % 7 + 1` | not executed | NaturalLanguageProcessor.WeekdayRuleNamesDayBefore, NaturalLanguageProcessor.MondayCommandLandsOnSunday | NaturalLanguageProcessor.IntendedWeekdayComponent, NaturalLanguageProcessor.CorrectedParseDate |

`ParseDate`, and with it `Parsed` and the command screen, keep the numbering as
written, so the model describes the app as it behaves. `CorrectedParseDate` is the
same rule with the corrected numbering.

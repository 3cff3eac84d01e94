/** The logic of `VoiceCommandView.swift`: how a duration is shown, and how the
    screen's state moves when a command is previewed and added to the calendar. The
    clock reading, the calendar permission and the outcome of saving are inputs. */
module VoiceCommand {
  import opened Wrappers
  import opened SwiftText
  import opened NaturalLanguageProcessor

  // ---------------------------------------------------------------------------
  // Showing a duration

  /** Swift's `/` on `Int`: the quotient rounded toward zero. */
  function TruncDiv(a: int, b: int): (q: int)
    requires b > 0
    ensures var r := a - b * q; (a >= 0 ==> 0 <= r < b) && (a < 0 ==> -b < r <= 0)
  {
    if a >= 0 then a / b else -((-a) / b)
  }

  /** A truncated quotient of an `Int` is an `Int`. */
  lemma TruncDivInRange(a: int, b: int)
    requires b > 0 && IntMin <= a <= IntMax
    ensures IntMin <= TruncDiv(a, b) <= IntMax
  {
  }

  /** Whole hours, then whole days of those hours, are whole days. */
  lemma DaysOfHours(d: int)
    requires d >= 0
    ensures (d / 3600) / 24 == d / 86400
  {
    var q, rem := d / 86400, d % 86400;
    var h, s := rem / 3600, rem % 3600;
    assert d == 86400 * q + rem;
    assert rem == 3600 * h + s && 0 <= s < 3600 && 0 <= h < 24;
    assert d == 3600 * (24 * q + h) + s;
    assert d / 3600 == 24 * q + h;
  }

  /** `formatDuration(_:)` for a duration of `duration` whole seconds: whole days
      from one day on, whole hours from one hour on, and otherwise minutes, rounded
      toward zero; a negative duration shows as minutes too. */
  function FormatDuration(duration: int): (r: string)
    requires IntMin <= duration <= IntMax
    ensures duration >= 86400 ==> r == DecimalString(duration / 86400) + "일"
    ensures 3600 <= duration < 86400 ==> r == DecimalString(duration / 3600) + "시간"
    ensures duration < 3600 ==> r == DecimalString(TruncDiv(duration, 60)) + "분"
  {
    var hours := TruncDiv(duration, 3600);
    TruncDivInRange(duration, 3600);
    TruncDivInRange(duration, 60);
    if hours >= 24 then
      DaysOfHours(duration);
      DecimalString(hours / 24) + "일"
    else if hours > 0 then DecimalString(hours) + "시간"
    else DecimalString(TruncDiv(duration, 60)) + "분"
  }

  /** Every duration the parser produces shows as one, two, three or four hours or
      one day. */
  lemma ParsedDurationsShowWhole(duration: int)
    requires duration in DurationChoices
    ensures FormatDuration(duration) in {"1시간", "2시간", "3시간", "4시간", "1일"}
    ensures duration == 86400 <==> FormatDuration(duration) == "1일"
  {
    var hours := duration / 3600;
    if duration == 86400 {
      assert DecimalString(1) + "일" == "1일";
    } else {
      assert 1 <= hours <= 4 && DecimalString(hours) == [DigitChar(hours)];
      assert FormatDuration(duration) == [DigitChar(hours)] + "시간";
      assert FormatDuration(duration)[|FormatDuration(duration)| - 1] != '일';
      if hours == 1 {
        assert [DigitChar(hours)] + "시간" == "1시간";
      } else if hours == 2 {
        assert [DigitChar(hours)] + "시간" == "2시간";
      } else if hours == 3 {
        assert [DigitChar(hours)] + "시간" == "3시간";
      } else {
        assert [DigitChar(hours)] + "시간" == "4시간";
      }
    }
  }

  /** The number of a duration's text reads back as the whole units it stands for. */
  lemma FormattedNumberReadsBack(duration: int)
    requires 3600 <= duration <= IntMax
    ensures var r := FormatDuration(duration);
            var unit := if duration >= 86400 then 86400 else 3600;
            var suffix := if duration >= 86400 then "일" else "시간";
            && r[|r| - |suffix|..] == suffix
            && SwiftInt(r[..|r| - |suffix|]) == Some(duration / unit)
  {
    var r := FormatDuration(duration);
    var unit := if duration >= 86400 then 86400 else 3600;
    var suffix := if duration >= 86400 then "일" else "시간";
    var digits := DecimalString(duration / unit);
    assert r == digits + suffix;
    assert r[..|r| - |suffix|] == digits;
  }

  // ---------------------------------------------------------------------------
  // The screen

  const AddFailedMessage: string := "캘린더에 추가하는데 실패했습니다."

  /** The `@State` of `VoiceCommandView` that its actions change. */
  class VoiceCommandScreen {
    var commandText: string
    var parsedCommand: Option<ParsedCommand>
    var isLoading: bool
    var showSuccess: bool
    var errorMessage: Option<string>

    /** A success notice and an error message are never shown together, and while
        an add is under way neither is shown. */
    predicate Valid()
      reads this
    {
      && !(showSuccess && errorMessage.Some?)
      && (isLoading ==> !showSuccess && errorMessage.None?)
    }

    constructor ()
      ensures Valid()
      ensures commandText == [] && parsedCommand.None? && !isLoading && !showSuccess && errorMessage.None?
    {
      commandText, parsedCommand, isLoading, showSuccess, errorMessage := [], None, false, false, None;
    }

    /** Typing into the command field. */
    method EditCommand(text: string)
      requires Valid()
      modifies this
      ensures Valid()
      ensures commandText == text
      ensures parsedCommand == old(parsedCommand) && isLoading == old(isLoading)
      ensures showSuccess == old(showSuccess) && errorMessage == old(errorMessage)
    {
      commandText := text;
    }

    /** `parseCommand()`: nothing happens for an empty command; otherwise the parse
        replaces the previous one and any notice is cleared. */
    method ParseCommand(now: Moment)
      requires Valid()
      modifies this
      ensures Valid()
      ensures old(commandText) == [] ==>
                && parsedCommand == old(parsedCommand) && showSuccess == old(showSuccess)
                && errorMessage == old(errorMessage)
      ensures old(commandText) != [] ==>
                && parsedCommand == Some(Parsed(old(commandText), now))
                && errorMessage.None? && !showSuccess
      ensures commandText == old(commandText) && isLoading == old(isLoading)
    {
      if commandText == [] {
        return;
      }
      var parsed := NaturalLanguageProcessor.ParseCommand(commandText, now);
      parsedCommand := Some(parsed);
      errorMessage := None;
      showSuccess := false;
    }

    /** The synchronous part of `addToCalendar()`: without a parsed command nothing
        happens; otherwise the screen starts loading with every notice cleared and
        the command to add is handed on. */
    method BeginAddToCalendar() returns (command: Option<ParsedCommand>)
      requires Valid()
      modifies this
      ensures Valid()
      ensures command == old(parsedCommand)
      ensures old(parsedCommand).None? ==>
                && isLoading == old(isLoading) && showSuccess == old(showSuccess)
                && errorMessage == old(errorMessage)
      ensures old(parsedCommand).Some? ==> isLoading && !showSuccess && errorMessage.None?
      ensures commandText == old(commandText) && parsedCommand == old(parsedCommand)
    {
      command := parsedCommand;
      if command.None? {
        return;
      }
      isLoading := true;
      errorMessage := None;
      showSuccess := false;
    }

    /** The continuation of `addToCalendar()` once the calendar has answered:
        loading stops; success clears the command and shows the notice, a `false`
        answer or an error shows its message. */
    method FinishAddToCalendar(outcome: Result<bool, CalendarError>)
      requires Valid() && isLoading
      modifies this
      ensures Valid() && !isLoading
      ensures outcome == Success(true) ==>
                && showSuccess && commandText == [] && parsedCommand.None?
                && errorMessage == old(errorMessage)
      ensures outcome == Success(false) ==>
                && errorMessage == Some(AddFailedMessage)
                && showSuccess == old(showSuccess) && commandText == old(commandText)
                && parsedCommand == old(parsedCommand)
      ensures outcome.Failure? ==>
                && errorMessage == Some(NaturalLanguageProcessor.ErrorDescription(outcome.error))
                && showSuccess == old(showSuccess) && commandText == old(commandText)
                && parsedCommand == old(parsedCommand)
    {
      isLoading := false;
      match outcome
      case Success(success) =>
        if success {
          showSuccess := true;
          commandText := [];
          parsedCommand := None;
        } else {
          errorMessage := Some(AddFailedMessage);
        }
      case Failure(e) =>
        errorMessage := Some(NaturalLanguageProcessor.ErrorDescription(e));
    }

    /** `addToCalendar()` run to its end with the calendar's answers given: with a
        parsed command the screen ends either cleared with the success notice or
        showing the calendar's error, and never loading. */
    method AddToCalendar(accessGranted: bool, saveError: Option<string>)
      returns (saved: Option<EventFields>)
      requires Valid()
      requires !isLoading
      modifies this
      ensures Valid() && !isLoading
      ensures old(parsedCommand).None? ==>
                && saved.None? && commandText == old(commandText) && parsedCommand.None?
                && showSuccess == old(showSuccess) && errorMessage == old(errorMessage)
      ensures old(parsedCommand).Some? ==>
                var command := old(parsedCommand).value;
                if !accessGranted then
                  && errorMessage == Some(NaturalLanguageProcessor.ErrorDescription(AccessDenied))
                  && !showSuccess && saved.None? && parsedCommand == old(parsedCommand)
                  && commandText == old(commandText)
                else if command.date.None? then
                  && errorMessage == Some(NaturalLanguageProcessor.ErrorDescription(InvalidDate))
                  && !showSuccess && saved.None? && parsedCommand == old(parsedCommand)
                  && commandText == old(commandText)
                else
                  && saved == Some(EventFor(command, command.date.value))
                  && (saveError.None? ==>
                        showSuccess && errorMessage.None? && commandText == [] && parsedCommand.None?)
                  && (saveError.Some? ==>
                        && errorMessage == Some(NaturalLanguageProcessor.ErrorDescription(SaveFailed(saveError.value)))
                        && !showSuccess && parsedCommand == old(parsedCommand)
                        && commandText == old(commandText))
    {
      var command := BeginAddToCalendar();
      if command.None? {
        return None;
      }
      var outcome;
      outcome, saved := AddEventToCalendar(command.value, accessGranted, saveError);
      FinishAddToCalendar(outcome);
    }
  }
}

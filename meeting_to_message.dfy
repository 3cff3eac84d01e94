/** The meeting-notes to message-draft formatter of `MeetingToMessageView.swift`:
    the note is split into lines, blank lines are dropped, every line is sorted into
    one section by the keywords it contains, and the sections are laid out between a
    fixed header and footer. */
module MeetingToMessage {
  import opened SwiftText

  const Header: string := "[회의 요약]\n"
  const Footer: string := "\n(이 메시지는 회의록을 바탕으로 자동 생성되었습니다.)"
  const SummaryHeading: string := "- 주요 내용: \n  "
  const TodoHeading: string := "- 할 일: \n  "
  const ItemSeparator: string := "\n  "

  /** Trimming `.whitespaces` leaves nothing: the line is tabs and space separators only. */
  predicate IsBlank(line: string) {
    forall k | 0 <= k < |line| :: IsWhitespace(line[k])
  }

  /** `filter { !$0.trimmingCharacters(in: .whitespaces).isEmpty }` */
  function NonBlank(lines: seq<string>): (r: seq<string>)
    ensures |r| <= |lines|
    ensures forall k | 0 <= k < |r| :: !IsBlank(r[k]) && r[k] in lines
    ensures forall line | line in lines && !IsBlank(line) :: line in r
  {
    if lines == [] then []
    else
      var rest := NonBlank(lines[1..]);
      assert forall line | line in lines[1..] :: line in lines;
      if IsBlank(lines[0]) then rest else [lines[0]] + rest
  }

  /** The filter keeps note order and repeats: it works line by line. */
  lemma {:induction false} NonBlankAppend(a: seq<string>, b: seq<string>)
    ensures NonBlank(a + b) == NonBlank(a) + NonBlank(b)
  {
    if a == [] {
      assert a + b == b;
    } else {
      assert (a + b)[0] == a[0];
      assert (a + b)[1..] == a[1..] + b;
      NonBlankAppend(a[1..], b);
    }
  }

  /** The lines of the note that are kept: none is blank, so none is empty. */
  function NoteLines(note: string): (lines: seq<string>)
    ensures forall k | 0 <= k < |lines| :: lines[k] != [] && '\n' !in lines[k]
  {
    NonBlank(Components(note, '\n'))
  }

  /** The section a line is sorted into. */
  datatype Section = DateSection | AttendeesSection | TodoSection | SummarySection

  /** The first keyword test a line passes, in the order the formatter tries them. */
  function Classify(line: string): (s: Section)
    ensures s == DateSection <==> Contains(line, "일시") || Contains(line, "날짜")
    ensures s == AttendeesSection <==>
              !Contains(line, "일시") && !Contains(line, "날짜") && Contains(line, "참석자")
    ensures s == SummarySection <==>
              && !Contains(line, "일시") && !Contains(line, "날짜") && !Contains(line, "참석자")
              && !Contains(line, "할 일") && !Contains(line, "TODO")
  {
    if Contains(line, "일시") || Contains(line, "날짜") then DateSection
    else if Contains(line, "참석자") then AttendeesSection
    else if Contains(line, "할 일") || Contains(line, "TODO") then TodoSection
    else SummarySection
  }

  /** The lines sorted into `s`, in note order. */
  function LinesIn(lines: seq<string>, s: Section): (r: seq<string>)
    ensures |r| <= |lines|
    ensures forall k | 0 <= k < |r| :: Classify(r[k]) == s && r[k] in lines
  {
    if lines == [] then []
    else
      var prefix := lines[..|lines| - 1];
      var rest := LinesIn(prefix, s);
      assert forall line | line in prefix :: line in lines;
      var last := lines[|lines| - 1];
      if Classify(last) == s then rest + [last] else rest
  }

  /** The last line sorted into `s`, or the empty text when there is none: a later
      date or attendee line replaces an earlier one. */
  function LastIn(lines: seq<string>, s: Section): string
  {
    if lines == [] then []
    else if Classify(lines[|lines| - 1]) == s then lines[|lines| - 1]
    else LastIn(lines[..|lines| - 1], s)
  }

  /** `"- \(line)\n"`: a line as an item of the draft. */
  function Item(line: string): string {
    "- " + line + "\n"
  }

  /** The section of a date or attendee line: its item, or nothing when there is no
      such line. */
  function LineItem(line: string): string {
    if line == [] then [] else Item(line)
  }

  /** A section of several lines under a heading, one per indented line, or nothing
      when there are none. */
  function ListItem(heading: string, lines: seq<string>): string {
    if lines == [] then [] else heading + Join(lines, ItemSeparator) + "\n"
  }

  /** The draft `generateMessageDraft(from:)` returns for `note`: the header, the last
      date line, the last attendee line, the summary lines and the to-do lines, then
      the footer. */
  function MessageDraft(note: string): (draft: string)
    ensures |draft| >= |Header| + |Footer|
    ensures draft[..|Header|] == Header && draft[|draft| - |Footer|..] == Footer
  {
    Layout(NoteLines(note))
  }

  /** The draft laid out from the kept lines; it always opens with the header and
      closes with the footer. */
  function Layout(lines: seq<string>): (draft: string)
    ensures |draft| >= |Header| + |Footer|
    ensures draft[..|Header|] == Header && draft[|draft| - |Footer|..] == Footer
  {
    var t1 := Header + LineItem(LastIn(lines, DateSection));
    var t2 := t1 + LineItem(LastIn(lines, AttendeesSection));
    var t3 := t2 + ListItem(SummaryHeading, LinesIn(lines, SummarySection));
    var t4 := t3 + ListItem(TodoHeading, LinesIn(lines, TodoSection));
    PrefixKept(Header, LineItem(LastIn(lines, DateSection)), |Header|);
    PrefixKept(t1, LineItem(LastIn(lines, AttendeesSection)), |Header|);
    PrefixKept(t2, ListItem(SummaryHeading, LinesIn(lines, SummarySection)), |Header|);
    PrefixKept(t3, ListItem(TodoHeading, LinesIn(lines, TodoSection)), |Header|);
    PrefixKept(t4, Footer, |Header|);
    SuffixKept(t4, Footer);
    t4 + Footer
  }

  /** Sorting one more line changes only the section it belongs to. */
  lemma SortStep(lines: seq<string>, i: nat)
    requires i < |lines|
    ensures forall s: Section :: LastIn(lines[..i + 1], s)
              == if Classify(lines[i]) == s then lines[i] else LastIn(lines[..i], s)
    ensures forall s: Section :: LinesIn(lines[..i + 1], s)
              == if Classify(lines[i]) == s then LinesIn(lines[..i], s) + [lines[i]] else LinesIn(lines[..i], s)
  {
    var next := lines[..i + 1];
    assert next[..i] == lines[..i] && next[i] == lines[i];
    forall s: Section ensures LastIn(next, s) == if Classify(lines[i]) == s then lines[i] else LastIn(lines[..i], s) {
    }
  }

  method GenerateMessageDraft(note: string) returns (draft: string)
    ensures draft == MessageDraft(note)
  {
    var lines := NoteLines(note);
    var dateLine := "";
    var attendeesLine := "";
    var todoLines: seq<string> := [];
    var summaryLines: seq<string> := [];
    for i := 0 to |lines|
      invariant dateLine == LastIn(lines[..i], DateSection)
      invariant attendeesLine == LastIn(lines[..i], AttendeesSection)
      invariant todoLines == LinesIn(lines[..i], TodoSection)
      invariant summaryLines == LinesIn(lines[..i], SummarySection)
    {
      var line := lines[i];
      SortStep(lines, i);
      if Contains(line, "일시") || Contains(line, "날짜") {
        dateLine := line;
      } else if Contains(line, "참석자") {
        attendeesLine := line;
      } else if Contains(line, "할 일") || Contains(line, "TODO") {
        todoLines := todoLines + [line];
      } else {
        summaryLines := summaryLines + [line];
      }
    }
    assert lines[..|lines|] == lines;
    draft := Header;
    if dateLine != [] {
      draft := draft + Item(dateLine);
    }
    assert draft == Header + LineItem(dateLine);
    if attendeesLine != [] {
      draft := draft + Item(attendeesLine);
    }
    assert draft == Header + LineItem(dateLine) + LineItem(attendeesLine);
    if summaryLines != [] {
      draft := draft + (SummaryHeading + Join(summaryLines, ItemSeparator) + "\n");
    }
    assert draft == Header + LineItem(dateLine) + LineItem(attendeesLine)
                    + ListItem(SummaryHeading, summaryLines);
    if todoLines != [] {
      draft := draft + (TodoHeading + Join(todoLines, ItemSeparator) + "\n");
    }
    assert draft == Header + LineItem(dateLine) + LineItem(attendeesLine)
                    + ListItem(SummaryHeading, summaryLines) + ListItem(TodoHeading, todoLines);
    draft := draft + Footer;
  }

  // ---------------------------------------------------------------------------
  // Properties

  /** Every kept line is sorted into exactly one section: the four sections hold as
      many lines as the note has, counting a date or attendee section once for each
      line that was sorted there. */
  lemma {:induction false} SectionsPartitionLines(lines: seq<string>)
    ensures |LinesIn(lines, DateSection)| + |LinesIn(lines, AttendeesSection)|
          + |LinesIn(lines, TodoSection)| + |LinesIn(lines, SummarySection)| == |lines|
  {
    if lines != [] {
      SectionsPartitionLines(lines[..|lines| - 1]);
    }
  }

  /** The date and attendee sections show the last line sorted there. */
  lemma {:induction false} LastInIsLastOfLinesIn(lines: seq<string>, s: Section)
    ensures var sorted := LinesIn(lines, s);
            LastIn(lines, s) == if sorted == [] then [] else sorted[|sorted| - 1]
  {
    if lines != [] {
      var prefix := lines[..|lines| - 1];
      var last := lines[|lines| - 1];
      LastInIsLastOfLinesIn(prefix, s);
      if Classify(last) == s {
        assert LinesIn(lines, s) == LinesIn(prefix, s) + [last];
      } else {
        assert LinesIn(lines, s) == LinesIn(prefix, s);
        assert LastIn(lines, s) == LastIn(prefix, s);
      }
    }
  }

  /** Appending keeps a prefix. */
  lemma PrefixKept(t: string, u: string, n: nat)
    requires n <= |t|
    ensures (t + u)[..n] == t[..n]
  {
  }

  /** What is appended is the suffix. */
  lemma SuffixKept(t: string, u: string)
    ensures (t + u)[|t|..] == u
  {
  }

  /** The draft holds more than its header and footer exactly when a line was kept. */
  lemma {:induction false} SectionsEmptyIffNoLines(note: string)
    ensures |MessageDraft(note)| == |Header| + |Footer| <==> NoteLines(note) == []
  {
    var lines := NoteLines(note);
    if lines != [] {
      var last := lines[|lines| - 1];
      var s := Classify(last);
      assert LastIn(lines, s) == last;
      assert LinesIn(lines, s) != [];
    }
  }

  /** The draft is the bare header and footer exactly when every line of the note is
      blank. */
  lemma EmptyDraftIffBlankNote(note: string)
    ensures MessageDraft(note) == Header + Footer <==>
              forall line | line in Components(note, '\n') :: IsBlank(line)
  {
    SectionsEmptyIffNoLines(note);
    if exists line | line in Components(note, '\n') :: !IsBlank(line) {
      var line :| line in Components(note, '\n') && !IsBlank(line);
      assert line in NoteLines(note);
    }
  }


  /** A note with a date line opens its draft, right after the header, with the last
      such line as an item. */
  lemma DateLineOpensDraft(lines: seq<string>)
    requires LinesIn(lines, DateSection) != []
    ensures var sorted := LinesIn(lines, DateSection);
            var opening := Header + Item(sorted[|sorted| - 1]);
            |opening| <= |Layout(lines)| && Layout(lines)[..|opening|] == opening
  {
    LastInIsLastOfLinesIn(lines, DateSection);
    var sorted := LinesIn(lines, DateSection);
    var opening := Header + Item(sorted[|sorted| - 1]);
    var t1 := Header + LineItem(LastIn(lines, DateSection));
    assert t1 == opening;
    var t2 := t1 + LineItem(LastIn(lines, AttendeesSection));
    var t3 := t2 + ListItem(SummaryHeading, LinesIn(lines, SummarySection));
    var t4 := t3 + ListItem(TodoHeading, LinesIn(lines, TodoSection));
    PrefixKept(t1, LineItem(LastIn(lines, AttendeesSection)), |opening|);
    PrefixKept(t2, ListItem(SummaryHeading, LinesIn(lines, SummarySection)), |opening|);
    PrefixKept(t3, ListItem(TodoHeading, LinesIn(lines, TodoSection)), |opening|);
    PrefixKept(t4, Footer, |opening|);
  }
}

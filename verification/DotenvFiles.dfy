/** What the reader and the rewriter make of files that are given character by character. */
module DotenvFiles {
  import opened Dotenv
  import opened DotenvLines
  import opened DotenvRoundTrip
  import opened Text
  import opened Wrappers

  // ---- reading one line ----

  lemma OneEntryReads(line: string, key: string, value: string)
    requires Entry(line) == Some((key, value))
    ensures ReadLines([line]) == map[key := value]
  {
    hide Entry, ReadLines;
    NothingReadsNothing(key);
    assert [] + [line] == [line];
    ReadLast([], line);
  }

  lemma OneLineSplits(line: string)
    requires SingleLine(line)
    ensures Lines(Some(line + "\n")) == [line]
  {
    hide SplitLines, SingleLine;
    SplitJoined([line]);
    assert Join([line]) == line;
  }

  lemma OneLineReads(key: string, value: string)
    requires WritableKey(key) && SingleLine(key) && SingleLine(value)
    ensures Read(Some(key + "=" + value + "\n")) == map[key := Meaning(value)]
  {
    hide Lines, SingleLine, WritableKey, Meaning, Entry, ReadLines;
    SingleLineAssignment(key, value);
    OneLineSplits(key + "=" + value);
    WritableLineReads(key, value);
    OneEntryReads(key + "=" + value, key, Meaning(value));
  }

  lemma WrappedMeansContent(value: string, quote: char)
    requires quote == '\'' || quote == '"'
    ensures Meaning([quote] + value + [quote]) == value
  {
    hide Strip;
    var wrapped := [quote] + value + [quote];
    assert "" + wrapped + "" == wrapped;
    StripIs("", wrapped, "", Blank);
    assert wrapped[1..|wrapped| - 1] == value;
  }

  /** A value between two single or two double quotes reads as what is between them, blanks and quotes included. */
  lemma QuotesAreTakenOff(key: string, value: string, quote: char)
    requires WritableKey(key) && SingleLine(key) && SingleLine(value) && (quote == '\'' || quote == '"')
    ensures Read(Some(key + "=" + [quote] + value + [quote] + "\n")) == map[key := value]
  {
    hide Read, WritableKey, Meaning;
    var wrapped := [quote] + value + [quote];
    WrappedMeansContent(value, quote);
    OneLineReads(key, wrapped);
    assert key + "=" + [quote] + value + [quote] + "\n" == key + "=" + wrapped + "\n";
  }

  lemma TrimmedMeansItself(value: string)
    requires value != "" ==> !Blank(value[0]) && !Blank(value[|value| - 1])
    requires |value| < 2 || value[0] != value[|value| - 1] || (value[0] != '\'' && value[0] != '"')
    ensures Meaning(value) == value
  {
    hide Strip;
    assert "" + value + "" == value;
    StripIs("", value, "", Blank);
  }

  /** Blanks around a value do not belong to it, and quotes that do not match do. */
  lemma OtherValuesAreTrimmed(key: string, head: string, value: string, tail: string)
    requires WritableKey(key) && SingleLine(key) && SingleLine(head + value + tail)
    requires (forall c <- head :: c == ' ' || c == '\t') && (forall c <- tail :: c == ' ' || c == '\t')
    requires value != "" ==> !Blank(value[0]) && !Blank(value[|value| - 1])
    requires |value| < 2 || value[0] != value[|value| - 1] || (value[0] != '\'' && value[0] != '"')
    ensures Read(Some(key + "=" + head + value + tail + "\n")) == map[key := value]
  {
    hide Read, WritableKey, Strip;
    var whole := head + value + tail;
    StripIgnoresBlanks(head, value, tail, Blank);
    TrimmedMeansItself(value);
    OneLineReads(key, whole);
    assert key + "=" + head + value + tail + "\n" == key + "=" + whole + "\n";
  }

  lemma ExportedBody(line: string)
    requires line != "" && !Blank(line[0])
    ensures Body("export " + line) == line
  {
    hide StripLeft;
    assert ("export " + line)[7..] == line && "" + line == line;
    StripLeftOf("", line, Blank);
  }

  lemma EntryOfBody(raw: string, line: string)
    requires Strip(raw, Blank) != "" && Strip(raw, Blank)[0] != '#' && Body(Strip(raw, Blank)) == line
    requires Strip(line, Blank) == line == Body(line) && line != "" && line[0] != '#'
    ensures Entry(raw) == Entry(line)
  {
    hide Strip, Body, IndexOf, Meaning;
    BodyKeepsEqualSigns(Strip(raw, Blank));
  }

  lemma SolidIsStripped(line: string)
    requires line != "" && !Blank(line[0]) && !Blank(line[|line| - 1])
    ensures Strip(line, Blank) == line
  {
    hide Strip;
    assert "" + line + "" == line;
    StripIs("", line, "", Blank);
  }

  lemma BodyOfPlain(line: string)
    requires !("export " <= line)
    ensures Body(line) == line
  {
  }

  lemma ExportedEntry(line: string)
    requires line != "" && !Blank(line[0]) && !Blank(line[|line| - 1]) && line[0] != '#' && !("export " <= line)
    ensures Entry("export " + line) == Entry(line)
  {
    hide Strip, Entry;
    SolidIsStripped(line);
    SolidIsStripped("export " + line);
    ExportedBody(line);
    hide Body;
    assert Body(line) == line by { BodyOfPlain(line); }
    EntryOfBody("export " + line, line);
  }

  lemma SolidKey(key: string)
    requires key != "" && WritableKey(key)
    ensures !Blank(key[0]) && key[0] != '#'
  {
    hide Strip;
    var _, _ := StripSplits(key, Blank);
  }

  /** A line for the shell means the same as one without its leading word. */
  lemma ExportIsIgnored(key: string, value: string)
    requires key != "" && WritableKey(key) && value != "" && !Blank(value[|value| - 1])
    ensures Entry("export " + (key + "=" + value)) == Some((key, Meaning(value)))
  {
    hide Entry, Meaning, Strip;
    var line := key + "=" + value;
    WritableLineReads(key, value);
    SolidKey(key);
    ExportStaysOut(key, value);
    assert line[0] == key[0] && line[|line| - 1] == value[|value| - 1];
    hide WritableKey;
    ExportedEntry(line);
  }

  // ---- writing one key ----

  lemma OneKeyIsSorted(key: string, value: string)
    ensures Sorted(map[key := value]) == [key]
  {
    var keys := Sorted(map[key := value]);
    hide Sorted;
    assert key in keys;
    if |keys| > 1 {
      assert keys[0] in keys && keys[1] in keys;
      BeforeIsIrreflexive(key);
    }
  }

  lemma OneKeyIsAppended(before: seq<string>, key: string, value: string)
    ensures Appendix(before, map[key := value])
         == (if before != [] && Strip(before[|before| - 1], Blank) != "" then [""] else [])
            + ["# Updated by scripts/setup_wizard.py", key + "=" + value]
  {
    hide Sorted, Strip;
    OneKeyIsSorted(key, value);
    assert [key][..0] == [];
    assert Assignments([key], map[key := value]) == [key + "=" + value];
  }

  lemma NothingIsMentioned(lines: seq<string>, key: string, value: string)
    requires !Mentions(lines, key)
    ensures Rewritten(lines, map[key := value]) == lines
    ensures Unplaced(lines, map[key := value]) == map[key := value]
  {
    hide KeyOf;
    forall i | 0 <= i < |lines|
      ensures Replaced(lines, map[key := value], i) == lines[i]
    {
      assert KeyOf(lines[i]) != Some(key);
    }
  }

  lemma TrimmedAssignment(lines: seq<string>, last: string)
    requires last != "" && !Blank(last[|last| - 1])
    ensures StripRight(Join(lines + [last]), Blank) == Join(lines + [last])
  {
    hide StripRight;
    assert StripRight(last, Blank) == last by {
      assert last + "" == last;
      StripRightOf(last, "", Blank);
    }
    TrimmingJoins(lines + [last]);
    assert (lines + [last])[..|lines|] == lines;
  }

  lemma WrittenRenders(file: Option<string>, lines: seq<string>, key: string, value: string)
    requires Lines(file) == lines && !Mentions(lines, key) && value != "" && !Blank(value[|value| - 1])
    ensures Written(file, map[key := value]) == Join(lines + Appendix(lines, map[key := value])) + "\n"
  {
    hide Lines, Mentions, Rewritten, Unplaced, Strip, StripRight, Join;
    NothingIsMentioned(lines, key, value);
    OneKeyIsAppended(lines, key, value);
    hide Appendix;
    var added := Appendix(lines, map[key := value]);
    var n := |added| - 1;
    assert lines + added == (lines + added[..n]) + [key + "=" + value];
    TrimmedAssignment(lines + added[..n], key + "=" + value);
  }

  /**
   A key that no line of the file has is appended after a comment, with a blank line before it if the file does not end
   with one; a file that does not exist yet holds just the comment and the key.
   */
  lemma NewKeyFollowsAComment(lines: seq<string>, key: string, value: string)
    requires (forall line <- lines :: SingleLine(line)) && !Mentions(lines, key)
    requires value != "" && !Blank(value[|value| - 1])
    ensures var gap := if lines != [] && Strip(lines[|lines| - 1], Blank) != "" then [""] else [];
            var added := gap + ["# Updated by scripts/setup_wizard.py", key + "=" + value];
            && (lines != [] ==> Written(Some(Join(lines) + "\n"), map[key := value]) == Join(lines + added) + "\n")
            && (lines == [] ==> Written(None, map[key := value]) == Join(lines + added) + "\n")
  {
    hide Mentions, SplitLines, Written, Join, SingleLine, Strip, Appendix;
    OneKeyIsAppended(lines, key, value);
    if lines != [] {
      SplitJoined(lines);
      WrittenRenders(Some(Join(lines) + "\n"), lines, key, value);
    } else {
      WrittenRenders(None, lines, key, value);
    }
  }

  // ---- characters ----

  /** The ten characters that end a line are among those that are stripped. */
  lemma LineEndsAreBlank(c: char)
    ensures Boundary(c) <==> c as int in {0x0A, 0x0B, 0x0C, 0x0D, 0x1C, 0x1D, 0x1E, 0x85, 0x2028, 0x2029}
    ensures Boundary(c) ==> Blank(c)
    ensures Blank(c) <==>
              || c as int in {0x09, 0x0A, 0x0B, 0x0C, 0x0D, 0x1C, 0x1D, 0x1E, 0x1F, 0x20, 0x85, 0xA0, 0x1680, 0x2028, 0x2029}
              || c as int in {0x2000, 0x2001, 0x2002, 0x2003, 0x2004, 0x2005, 0x2006, 0x2007, 0x2008, 0x2009, 0x200A}
              || c as int in {0x202F, 0x205F, 0x3000}
  {
  }
}

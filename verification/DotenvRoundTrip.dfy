/** The dotenv reader and rewriter agree: what a rewrite puts into a file is what a read finds there. */
module DotenvRoundTrip {
  import opened Dotenv
  import opened DotenvLines
  import opened Text
  import opened Wrappers

  /** How many lines assign a key. */
  function Occurrences(lines: seq<string>, key: string): nat {
    if lines == [] then 0 else
    var n := |lines| - 1;
    Occurrences(lines[..n], key) + if Assigns(lines[n], key) then 1 else 0
  }

  /** The updates whose key is assigned on a given number of lines, with the meaning of their values. */
  function Placed(lines: seq<string>, updates: map<string, string>, times: nat): map<string, string> {
    map key | key in updates && Occurrences(lines, key) == times :: Meaning(updates[key])
  }

  lemma StripKeepsHash(head: string)
    requires "#" <= head
    ensures "#" <= Strip(head, Blank)
  {
  }

  /** Reader and writer see the same key on a line, except for comments. */
  lemma SameKey(raw: string, key: string)
    requires !("#" <= key)
    ensures KeyOf(raw) == Some(key) <==> Assigns(raw, key)
  {
    hide Strip, StripLeft, IndexOf, Meaning;
    var line := Strip(raw, Blank);
    BodyKeepsEqualSigns(line);
    if line != "" && line[0] == '#' && '=' in line {
      assert Body(line) == line by { assert "export "[0] == 'e'; }
      assert line[0] == line[..IndexOf(line, '=')][0];
      StripKeepsHash(line[..IndexOf(line, '=')]);
    }
  }

  lemma TailsDoNotMatter(raw: string)
    ensures Entry(StripRight(raw, Blank)) == Entry(raw)
    ensures KeyOf(StripRight(raw, Blank)) == KeyOf(raw)
  {
    hide Strip, StripRight, Body, IndexOf, Meaning;
    StripIgnoresTail(raw, Blank);
  }

  lemma EmptyLinesReadNothing()
    ensures Entry("").None? && KeyOf("").None?
  {
  }

  lemma CommentsReadNothing(raw: string)
    requires "#" <= raw
    ensures Entry(raw).None?
  {
    hide Strip, Body, IndexOf, Meaning;
    StripKeepsHash(raw);
  }

  function ReadOne(line: string, earlier: map<string, string>): map<string, string> {
    match Entry(line)
    case None => earlier
    case Some((key, value)) => earlier[key := value]
  }

  lemma ReadLast(lines: seq<string>, line: string)
    ensures ReadLines(lines + [line]) == ReadOne(line, ReadLines(lines))
  {
  }

  lemma StrippedLastReads(front: seq<string>, raw: string)
    ensures ReadLines(front + [StripRight(raw, Blank)]) == ReadLines(front + [raw])
    ensures StripRight(raw, Blank) == "" ==> ReadLines(front + [raw]) == ReadLines(front)
  {
    hide Entry, StripRight, ReadLines;
    var last := StripRight(raw, Blank);
    TailsDoNotMatter(raw);
    ReadLast(front, raw);
    ReadLast(front, last);
    EmptyLinesReadNothing();
  }

  lemma {:induction false} TrimmingReads(lines: seq<string>)
    ensures ReadLines(Trimmed(lines)) == ReadLines(lines)
  {
    hide StripRight, ReadLines;
    if lines == [] {
      EmptyLinesReadNothing();
      ReadLast([], "");
      assert [] + [""] == [""];
    } else {
      var n := |lines| - 1;
      var front := lines[..n];
      assert lines == front + [lines[n]];
      StrippedLastReads(front, lines[n]);
      if n > 0 && StripRight(lines[n], Blank) == "" {
        TrimmingReads(front);
      }
    }
  }

  lemma {:induction false} MentionedIffAssigned(lines: seq<string>, key: string)
    requires !("#" <= key)
    ensures Mentions(lines, key) <==> Occurrences(lines, key) > 0
  {
    hide KeyOf, Entry;
    if lines != [] {
      var n := |lines| - 1;
      SameKey(lines[n], key);
      MentionedIffAssigned(lines[..n], key);
      assert forall i | 0 <= i < n :: lines[..n][i] == lines[i];
    }
  }

  lemma OccursLast(front: seq<string>, line: string, key: string)
    ensures Occurrences(front + [line], key) == Occurrences(front, key) + if Assigns(line, key) then 1 else 0
  {
  }

  /** One more line: the counts, and with them the placed updates, change for its key only. */
  lemma PlacedLast(front: seq<string>, line: string, updates: map<string, string>)
    ensures forall key <- updates | !Assigns(line, key) ::
              Occurrences(front + [line], key) == Occurrences(front, key)
    ensures forall key <- updates | Assigns(line, key) ::
              Occurrences(front + [line], key) == Occurrences(front, key) + 1
  {
  }

  lemma WritableIsNoComment(key: string)
    requires WritableKey(key)
    ensures !("#" <= key)
  {}

  /** What the rewrite does to the last line if that assigns an updated key. */
  lemma AssignmentIsRewritten(front: seq<string>, line: string, updates: map<string, string>, key: string)
    requires key in updates && WritableKey(key) && Assigns(line, key)
    ensures Entry(Replaced(front + [line], updates, |front|))
         == if Occurrences(front, key) == 0 then Some((key, Meaning(updates[key]))) else Entry(line)
  {
    hide KeyOf, Meaning, Entry, Mentions, Occurrences, WritableKey;
    WritableIsNoComment(key);
    SameKey(line, key);
    MentionedIffAssigned(front, key);
    WritableLineReads(key, updates[key]);
    assert (front + [line])[..|front|] == front;
  }

  lemma OtherLinesStay(front: seq<string>, line: string, updates: map<string, string>)
    requires forall key <- updates :: WritableKey(key) && !Assigns(line, key)
    ensures Replaced(front + [line], updates, |front|) == line
  {
    hide Meaning, Entry, Mentions, WritableKey, Assigns;
    if KeyOf(line).Some? && KeyOf(line).value in updates {
      WritableIsNoComment(KeyOf(line).value);
      SameKey(line, KeyOf(line).value);
    }
  }

  lemma RewritingLast(front: seq<string>, line: string, updates: map<string, string>)
    ensures Rewritten(front + [line], updates)
         == Rewritten(front, updates) + [Replaced(front + [line], updates, |front|)]
  {
    hide KeyOf, Mentions;
    var lines := front + [line];
    assert forall i | 0 <= i < |front| :: lines[..i] == front[..i];
  }

  lemma NothingOccurs()
    ensures forall key :: Occurrences([], key) == 0
  {}

  lemma Overlaid(base: map<string, string>, top: map<string, string>, key: string, value: string, written: string)
    ensures (base + top)[key := written] == base[key := value] + top[key := written]
    ensures (base + top)[key := value] == base[key := value] + (top - {key})
    ensures key !in top ==> top - {key} == top
  {}

  lemma LineReads(front: seq<string>, line: string, updates: map<string, string>, replaced: string)
    requires if Entry(line).Some? && Entry(line).value.0 in updates then
               var key := Entry(line).value.0;
               Entry(replaced)
               == if Occurrences(front, key) == 0 then Some((key, Meaning(updates[key]))) else Entry(line)
             else
               replaced == line
    ensures ReadOne(replaced, ReadLines(front) + Placed(front, updates, 1))
         == ReadOne(line, ReadLines(front)) + Placed(front + [line], updates, 1)
  {
    hide Entry, Meaning, Occurrences, ReadLines;
    var base, before, after := ReadLines(front), Placed(front, updates, 1), Placed(front + [line], updates, 1);
    match Entry(line)
    case None =>
      assert after == before by { PlacedLast(front, line, updates); }
    case Some((key, value)) =>
      assert after == if key in updates && Occurrences(front, key) == 0 then before[key := Meaning(updates[key])]
                      else before - {key} by { PlacedLast(front, line, updates); }
      Overlaid(base, before, key, value, if key in updates then Meaning(updates[key]) else value);
  }

  /** The rewritten lines read like the old ones, with the updates of all keys that are assigned once. */
  lemma {:induction false} RewritingReads(lines: seq<string>, updates: map<string, string>)
    requires forall key <- updates :: WritableKey(key)
    ensures ReadLines(Rewritten(lines, updates)) == ReadLines(lines) + Placed(lines, updates, 1)
  {
    hide Entry, WritableKey, Meaning, Replaced, Occurrences;
    if lines == [] {
      assert forall key :: Occurrences([], key) == 0 by { NothingOccurs(); }
    } else {
      var n := |lines| - 1;
      var front, line := lines[..n], lines[n];
      assert lines == front + [line];
      RewritingReads(front, updates);
      RewritingLast(front, line, updates);
      ReadLast(Rewritten(front, updates), Replaced(lines, updates, n));
      ReadLast(front, line);
      if Entry(line).Some? && Entry(line).value.0 in updates {
        AssignmentIsRewritten(front, line, updates, Entry(line).value.0);
      } else {
        OtherLinesStay(front, line, updates);
      }
      LineReads(front, line, updates, Replaced(lines, updates, n));
    }
  }

  function Meanings(keys: seq<string>, updates: map<string, string>): map<string, string> {
    map key | key in keys && key in updates :: Meaning(updates[key])
  }

  lemma MeaningsLast(keys: seq<string>, key: string, updates: map<string, string>)
    requires key in updates
    ensures Meanings(keys + [key], updates) == Meanings(keys, updates)[key := Meaning(updates[key])]
  {
  }

  lemma ReadTwice(before: seq<string>, lines: seq<string>, line: string)
    ensures ReadLines(before + (lines + [line])) == ReadOne(line, ReadLines(before + lines))
  {
    hide ReadOne, ReadLines;
    assert before + (lines + [line]) == before + lines + [line];
    ReadLast(before + lines, line);
  }

  lemma NothingMeant(updates: map<string, string>)
    ensures Meanings([], updates) == map[]
  {}

  lemma OverlaidLast(base: map<string, string>, top: map<string, string>, key: string, value: string)
    ensures (base + top)[key := value] == base + top[key := value]
  {}

  lemma {:induction false} AssignmentsRead(before: seq<string>, keys: seq<string>, updates: map<string, string>)
    requires forall key <- keys :: key in updates && WritableKey(key)
    ensures ReadLines(before + Assignments(keys, updates)) == ReadLines(before) + Meanings(keys, updates)
  {
    hide Entry, Meaning, WritableKey, ReadLines, Meanings;
    if keys == [] {
      assert before + [] == before;
      assert Meanings([], updates) == map[] by { NothingMeant(updates); }
    } else {
      var n := |keys| - 1;
      var front, key := keys[..n], keys[n];
      assert keys == front + [key];
      AssignmentsRead(before, front, updates);
      ReadTwice(before, Assignments(front, updates), key + "=" + updates[key]);
      assert Entry(key + "=" + updates[key]) == Some((key, Meaning(updates[key]))) by {
        WritableLineReads(key, updates[key]);
      }
      MeaningsLast(front, key, updates);
      OverlaidLast(ReadLines(before), Meanings(front, updates), key, Meaning(updates[key]));
    }
  }

  lemma HeaderReadsNothing()
    ensures Entry(Header()).None?
  {
    CommentsReadNothing(Header());
  }

  lemma GapReadsNothing(before: seq<string>, gap: seq<string>)
    requires gap == [] || gap == [""]
    ensures ReadLines(before + gap + [Header()]) == ReadLines(before)
  {
    hide Entry, ReadLines, Header;
    EmptyLinesReadNothing();
    HeaderReadsNothing();
    assert before + [] == before;
    ReadLast(before, "");
    ReadLast(before + gap, Header());
  }

  lemma AppendixReads(before: seq<string>, unplaced: map<string, string>)
    requires forall key <- unplaced :: WritableKey(key)
    ensures ReadLines(before + Appendix(before, unplaced))
         == ReadLines(before) + map key | key in unplaced :: Meaning(unplaced[key])
  {
    hide Entry, Meaning, WritableKey, ReadLines, Header, Sorted, Assignments, Strip;
    if unplaced == map[] {
      assert before + [] == before;
    } else {
      var keys := Sorted(unplaced);
      var gap := if before != [] && Strip(before[|before| - 1], Blank) != "" then [""] else [];
      GapReadsNothing(before, gap);
      AssignmentsRead(before + gap + [Header()], keys, unplaced);
      assert before + (gap + [Header()] + Assignments(keys, unplaced))
          == before + gap + [Header()] + Assignments(keys, unplaced);
      assert Meanings(keys, unplaced) == map key | key in unplaced :: Meaning(unplaced[key]);
    }
  }

  lemma SingleLineAssignment(key: string, value: string)
    requires SingleLine(key) && SingleLine(value)
    ensures SingleLine(key + "=" + value)
  {}

  lemma {:induction false} AssignmentsAreSingle(keys: seq<string>, updates: map<string, string>)
    requires forall key <- keys :: key in updates && SingleLine(key + "=" + updates[key])
    ensures forall line <- Assignments(keys, updates) :: SingleLine(line)
  {
    hide SingleLine;
    if keys != [] {
      AssignmentsAreSingle(keys[..|keys| - 1], updates);
    }
  }

  lemma HeaderIsSingle()
    ensures SingleLine("") && SingleLine(Header())
  {
    assert forall c <- Header() :: ' ' <= c <= 'z';
  }

  lemma RenderedLinesAreSingle(lines: seq<string>, updates: map<string, string>)
    requires Writable(updates)
    requires forall line <- lines :: SingleLine(line)
    ensures forall line <- Rendered(lines, updates) :: SingleLine(line)
  {
    hide SingleLine, WritableKey, KeyOf, Mentions, Header, Sorted, Strip;
    forall key | key in updates ensures SingleLine(key + "=" + updates[key]) {
      SingleLineAssignment(key, updates[key]);
    }
    var unplaced := Unplaced(lines, updates);
    AssignmentsAreSingle(Sorted(unplaced), unplaced);
    assert SingleLine("") && SingleLine(Header()) by { HeaderIsSingle(); }
  }

  /** The lines of a file after it has been rewritten. */
  lemma LinesAfterWriting(file: Option<string>, updates: map<string, string>)
    requires Writable(updates)
    ensures Lines(Some(Written(file, updates))) == Trimmed(Rendered(Lines(file), updates))
  {
    hide SplitLines, Rendered, Join, Trimmed, StripRight;
    var lines := Lines(file);
    RenderedLinesAreSingle(lines, updates);
    TrimmingJoins(Rendered(lines, updates));
    TrimmedStaysSplit(Rendered(lines, updates));
    SplitJoined(Trimmed(Rendered(lines, updates)));
  }

  lemma UnplacedNeverOccur(lines: seq<string>, updates: map<string, string>)
    requires forall key <- updates :: WritableKey(key)
    ensures var unplaced := Unplaced(lines, updates);
            (map key | key in unplaced :: Meaning(unplaced[key])) == Placed(lines, updates, 0)
  {
    hide Meaning, Occurrences, Mentions, WritableKey;
    forall key | key in updates ensures !Mentions(lines, key) <==> Occurrences(lines, key) == 0 {
      WritableIsNoComment(key);
      MentionedIffAssigned(lines, key);
    }
    var unplaced := Unplaced(lines, updates);
    assert forall key :: key in unplaced <==> key in updates && Occurrences(lines, key) == 0;
  }

  /**
   * Reading a rewritten file gives the old map, overridden by the meaning of every update whose key the
   * file assigned on at most one line. A key assigned on several lines keeps the value of its last line.
   */
  lemma ReadAfterWrite(file: Option<string>, updates: map<string, string>)
    requires Writable(updates)
    ensures Read(Some(Written(file, updates)))
         == Read(file) + map key | key in updates && Occurrences(Lines(file), key) <= 1 :: Meaning(updates[key])
  {
    hide ReadLines, Rewritten, Appendix, Trimmed, Lines, WritableKey, SingleLine, Meaning, Occurrences, Mentions;
    var lines := Lines(file);
    LinesAfterWriting(file, updates);
    TrimmingReads(Rendered(lines, updates));
    RewritingReads(lines, updates);
    AppendixReads(Rewritten(lines, updates), Unplaced(lines, updates));
    UnplacedNeverOccur(lines, updates);
    assert (ReadLines(lines) + Placed(lines, updates, 1)) + Placed(lines, updates, 0)
        == ReadLines(lines) + map key | key in updates && Occurrences(lines, key) <= 1 :: Meaning(updates[key]);
  }

  /** Plain values of keys that are assigned at most once read back as they were given. */
  lemma PlainUpdatesReadBack(file: Option<string>, updates: map<string, string>)
    requires Writable(updates)
    requires forall key <- updates :: Plain(updates[key]) && Occurrences(Lines(file), key) <= 1
    ensures Read(Some(Written(file, updates))) == Read(file) + updates
  {
    hide Read, Written, Occurrences, Lines, Plain, Meaning, WritableKey, SingleLine;
    ReadAfterWrite(file, updates);
    forall key | key in updates ensures Meaning(updates[key]) == updates[key] {
      PlainValuesMeanThemselves(updates[key]);
    }
    var seen := map key | key in updates && Occurrences(Lines(file), key) <= 1 :: Meaning(updates[key]);
    assert seen == updates;
  }

  lemma {:induction false} OccurringKeysAreRead(lines: seq<string>, key: string)
    ensures key in ReadLines(lines) <==> Occurrences(lines, key) > 0
  {
    hide Entry;
    if lines != [] {
      OccurringKeysAreRead(lines[..|lines| - 1], key);
    }
  }

  /** Exactly when an update is what the next read finds. */
  lemma UpdateIsSeenIff(file: Option<string>, updates: map<string, string>, key: string)
    requires Writable(updates) && key in updates
    ensures Occurrences(Lines(file), key) > 0 ==> key in Read(file)
    ensures var found := Read(Some(Written(file, updates)));
            && key in found
            && (found[key] == Meaning(updates[key]) <==>
                Occurrences(Lines(file), key) <= 1 || Read(file)[key] == Meaning(updates[key]))
  {
    hide ReadLines, Written, Occurrences, Lines, Meaning, WritableKey, SingleLine;
    OccurringKeysAreRead(Lines(file), key);
    ReadAfterWrite(file, updates);
  }

  lemma NothingReadsNothing(key: string)
    ensures ReadLines([]) == map[] && Occurrences([], key) == 0
  {}

  lemma TwoEntriesRead(one: string, two: string, key: string, first: string, last: string)
    requires Entry(one) == Some((key, first)) && Entry(two) == Some((key, last))
    ensures ReadLines([one, two]) == map[key := last] && Occurrences([one, two], key) == 2
  {
    hide Entry, ReadLines, Occurrences;
    NothingReadsNothing(key);
    assert [] + [one] == [one] && [one] + [two] == [one, two];
    ReadLast([], one);
    ReadLast([one], two);
    OccursLast([], one, key);
    OccursLast([one], two, key);
  }

  /** A file with two lines for a key. */
  function TwoLines(key: string, first: string, last: string): string {
    key + "=" + first + "\n" + key + "=" + last + "\n"
  }

  lemma TwoLinesSplit(key: string, first: string, last: string)
    requires SingleLine(key) && SingleLine(first) && SingleLine(last)
    ensures SplitLines(TwoLines(key, first, last)) == [key + "=" + first, key + "=" + last]
  {
    hide SplitLines, SingleLine;
    var one, two := key + "=" + first, key + "=" + last;
    SingleLineAssignment(key, first);
    SingleLineAssignment(key, last);
    SplitJoined([one, two]);
    assert [one, two][1..] == [two];
    assert Join([one, two]) + "\n" == one + "\n" + two + "\n";
    assert TwoLines(key, first, last) == one + "\n" + two + "\n";
  }

  lemma RepeatedLines(file: Option<string>, key: string, first: string, last: string, update: string)
    requires Writable(map[key := update])
    requires var lines := Lines(file); |lines| == 2 && Entry(lines[0]) == Some((key, first))
                                       && Entry(lines[1]) == Some((key, last))
    ensures Read(Some(Written(file, map[key := update]))) == Read(file) == map[key := last]
  {
    hide Written, Lines, Writable, Meaning, ReadLines, Occurrences, Entry;
    var lines := Lines(file);
    TwoEntriesRead(lines[0], lines[1], key, first, last);
    assert lines == [lines[0], lines[1]];
    ReadAfterWrite(file, map[key := update]);
  }

  lemma OneUpdateIsWritable(key: string, update: string)
    requires WritableKey(key) && SingleLine(key) && SingleLine(update)
    ensures Writable(map[key := update])
  {
    hide WritableKey, SingleLine;
  }

  /** A key on two lines: the update lands on the first line and the reader still finds the second. */
  lemma RepeatedKeyKeepsItsLastValue(key: string, first: string, last: string, update: string)
    requires WritableKey(key) && SingleLine(key) && SingleLine(first) && SingleLine(last) && SingleLine(update)
    ensures var file := Some(TwoLines(key, first, last));
            Read(Some(Written(file, map[key := update]))) == Read(file) == map[key := Meaning(last)]
  {
    hide Written, SplitLines, WritableKey, SingleLine, Meaning, ReadLines, Entry, TwoLines, Writable, Read;
    var file := Some(TwoLines(key, first, last));
    TwoLinesSplit(key, first, last);
    assert Lines(file) == [key + "=" + first, key + "=" + last];
    WritableLineReads(key, first);
    WritableLineReads(key, last);
    OneUpdateIsWritable(key, update);
    RepeatedLines(file, key, Meaning(first), Meaning(last), update);
  }

  lemma OneCharacterMeansItself(c: char)
    requires !Blank(c)
    ensures Meaning([c]) == [c]
  {
    hide Strip;
    assert "" + [c] + "" == [c];
    StripIs("", [c], "", Blank);
  }

  /** The plainest such file: after setting A to 3 it still reads 2. */
  lemma UpdateOfARepeatedKeyIsLost()
    ensures Read(Some(Written(Some(TwoLines("A", "1", "2")), map["A" := "3"]))) == map["A" := "2"]
  {
    hide Written, ReadLines, Lines, TwoLines, WritableKey, Meaning, Read;
    IdentifiersAreWritable("A");
    OneCharacterMeansItself('2');
    assert SingleLine("1") && SingleLine("2") && SingleLine("3");
    RepeatedKeyKeepsItsLastValue("A", "1", "2", "3");
  }

  // ---- writing again ----

  /** The lines a rewrite leaves alone, because every updated key already stands on its first line. */
  predicate UpToDate(lines: seq<string>, updates: map<string, string>) {
    && (forall key <- updates :: Mentions(lines, key))
    && forall i | 0 <= i < |lines| :: Replaced(lines, updates, i) == lines[i]
  }

  lemma ReplacedKeepsKey(lines: seq<string>, updates: map<string, string>, i: nat)
    requires i < |lines| && forall key <- updates :: WritableKey(key)
    ensures KeyOf(Replaced(lines, updates, i)) == KeyOf(lines[i])
  {
    hide KeyOf, Entry, Meaning, WritableKey, Mentions;
    match KeyOf(lines[i])
    case None =>
    case Some(key) =>
      if key in updates {
        WritableLineReads(key, updates[key]);
      }
  }

  lemma {:induction false} AssignmentAt(keys: seq<string>, updates: map<string, string>, j: nat)
    requires j < |keys| && forall key <- keys :: key in updates
    ensures Assignments(keys, updates)[j] == keys[j] + "=" + updates[keys[j]]
  {
    if j < |keys| - 1 {
      AssignmentAt(keys[..|keys| - 1], updates, j);
    }
  }

  lemma HeaderHasNoEqualSign()
    ensures '=' !in Header()
  {}

  lemma HeaderHasNoKey()
    ensures KeyOf("").None? && KeyOf(Header()).None?
  {
    EmptyLinesReadNothing();
    HeaderHasNoEqualSign();
    var line := Strip(Header(), Blank);
    BodyKeepsEqualSigns(line);
    assert '=' !in line by {
      hide Strip, Header;
      var before, after := StripSplits(Header(), Blank);
    }
  }

  /** Every appended line is an assignment of an unplaced key or no assignment at all. */
  lemma AppendixLines(before: seq<string>, unplaced: map<string, string>, j: nat)
    requires j < |Appendix(before, unplaced)|
    ensures var line := Appendix(before, unplaced)[j];
            || KeyOf(line).None?
            || exists key <- unplaced :: line == key + "=" + unplaced[key]
  {
    hide KeyOf, Header, Sorted, Strip, Assignments;
    HeaderHasNoKey();
    var keys := Sorted(unplaced);
    var start := |Appendix(before, unplaced)| - |keys|;
    if j >= start {
      AssignmentAt(keys, unplaced, j - start);
      assert keys[j - start] in unplaced;
    }
  }

  lemma AppendixMentions(before: seq<string>, unplaced: map<string, string>, key: string)
    requires key in unplaced && WritableKey(key)
    ensures exists j | 0 <= j < |Appendix(before, unplaced)| :: KeyOf(Appendix(before, unplaced)[j]) == Some(key)
  {
    hide KeyOf, Entry, Meaning, Header, Sorted, Strip, Assignments, WritableKey;
    var keys := Sorted(unplaced);
    var start := |Appendix(before, unplaced)| - |keys|;
    var j :| 0 <= j < |keys| && keys[j] == key;
    AssignmentAt(keys, unplaced, j);
    WritableLineReads(key, unplaced[key]);
    assert Appendix(before, unplaced)[start + j] == Assignments(keys, unplaced)[j];
  }

  lemma UpToDateAfterWriting(lines: seq<string>, updates: map<string, string>)
    requires forall key <- updates :: WritableKey(key)
    ensures UpToDate(Rendered(lines, updates), updates)
  {
    hide KeyOf, Appendix, WritableKey;
    var unplaced := Unplaced(lines, updates);
    var body := Rewritten(lines, updates);
    var all := Rendered(lines, updates);
    forall i | 0 <= i < |lines| ensures KeyOf(all[i]) == KeyOf(lines[i]) {
      ReplacedKeepsKey(lines, updates, i);
    }
    forall i | 0 <= i < |all| ensures Replaced(all, updates, i) == all[i] {
      if i < |lines| {
        assert forall key :: Mentions(all[..i], key) <==> Mentions(lines[..i], key);
      } else {
        AppendixLines(body, unplaced, i - |lines|);
        if KeyOf(all[i]).Some? {
          var key :| key in unplaced && all[i] == key + "=" + unplaced[key];
          WritableLineReads(key, updates[key]);
        }
      }
    }
    forall key | key in updates ensures Mentions(all, key) {
      if key in unplaced {
        AppendixMentions(body, unplaced, key);
        var j :| 0 <= j < |Appendix(body, unplaced)| && KeyOf(Appendix(body, unplaced)[j]) == Some(key);
        assert all[|lines| + j] == Appendix(body, unplaced)[j];
      } else {
        var i :| 0 <= i < |lines| && KeyOf(lines[i]) == Some(key);
        assert KeyOf(all[i]) == Some(key);
      }
    }
  }

  lemma {:induction false} TrimmedShape(lines: seq<string>) returns (m: nat)
    requires lines != []
    ensures 0 < m <= |lines|
    ensures Trimmed(lines) == lines[..m - 1] + [StripRight(lines[m - 1], Blank)]
    ensures m == 1 || StripRight(lines[m - 1], Blank) != ""
    ensures forall i | m <= i < |lines| :: StripRight(lines[i], Blank) == ""
  {
    hide StripRight;
    m := |lines|;
    if m > 1 && StripRight(lines[m - 1], Blank) == "" {
      var front := lines[..m - 1];
      m := TrimmedShape(front);
      assert front[..m - 1] == lines[..m - 1];
      assert forall i | 0 <= i < |front| :: front[i] == lines[i];
    }
  }

  lemma BlankLinesHaveNoKey(raw: string)
    requires StripRight(raw, Blank) == ""
    ensures KeyOf(raw).None?
  {
    hide KeyOf, StripRight;
    TailsDoNotMatter(raw);
    EmptyLinesReadNothing();
  }

  /** Trimming keeps every mention of a key. */
  lemma TrimmingMentions(lines: seq<string>, key: string)
    requires Mentions(lines, key)
    ensures Mentions(Trimmed(lines), key)
  {
    hide KeyOf, StripRight, Trimmed;
    var m := TrimmedShape(lines);
    var i :| 0 <= i < |lines| && KeyOf(lines[i]) == Some(key);
    TailsDoNotMatter(lines[i]);
    var kept := Trimmed(lines);
    if i >= m {
      BlankLinesHaveNoKey(lines[i]);
    } else {
      assert kept[i] == if i < m - 1 then lines[i] else StripRight(lines[i], Blank);
      assert KeyOf(kept[i]) == Some(key);
    }
  }

  /** The rewrite treats two lines alike that hold the same key and follow the same lines. */
  lemma ReplacedAlike(lines: seq<string>, kept: seq<string>, updates: map<string, string>, i: nat)
    requires i < |lines| && i < |kept|
    requires KeyOf(kept[i]) == KeyOf(lines[i]) && kept[..i] == lines[..i]
    ensures Replaced(kept, updates, i) == kept[i] || Replaced(kept, updates, i) == Replaced(lines, updates, i)
    ensures kept[i] == lines[i] ==> Replaced(kept, updates, i) == Replaced(lines, updates, i)
  {
    hide KeyOf, Mentions;
  }

  lemma ReplacedInTrimmed(lines: seq<string>, last: string, updates: map<string, string>, m: nat, i: nat)
    requires i < m <= |lines| && KeyOf(last) == KeyOf(lines[m - 1])
    requires Replaced(lines, updates, i) == lines[i]
    ensures var kept := lines[..m - 1] + [last];
            Replaced(kept, updates, i) == lines[i] || (i == m - 1 && Replaced(kept, updates, i) == last)
  {
    hide KeyOf, Mentions, Replaced;
    var kept := lines[..m - 1] + [last];
    assert kept[..i] == lines[..i] && kept[i] == if i == m - 1 then last else lines[i];
    ReplacedAlike(lines, kept, updates, i);
  }

  lemma RewrittenAt(lines: seq<string>, updates: map<string, string>, i: nat)
    requires i < |lines|
    ensures |Rewritten(lines, updates)| == |lines| && Rewritten(lines, updates)[i] == Replaced(lines, updates, i)
  {
  }

  lemma AllButLast(lines: seq<string>, front: seq<string>)
    requires |lines| == |front| + 1 && forall i | 0 <= i < |front| :: lines[i] == front[i]
    ensures lines == front + [lines[|front|]]
  {}

  lemma RewritingTrimmedLines(lines: seq<string>, updates: map<string, string>, m: nat)
    requires 0 < m <= |lines|
    requires forall i | 0 <= i < m :: Replaced(lines, updates, i) == lines[i]
    ensures var last := StripRight(lines[m - 1], Blank);
            var again := Rewritten(lines[..m - 1] + [last], updates);
            && again == lines[..m - 1] + [again[m - 1]]
            && (again[m - 1] == lines[m - 1] || again[m - 1] == last)
  {
    hide KeyOf, StripRight, Mentions, Replaced, Rewritten;
    var front, last := lines[..m - 1], StripRight(lines[m - 1], Blank);
    var kept := front + [last];
    var again := Rewritten(kept, updates);
    TailsDoNotMatter(lines[m - 1]);
    ReplacedInTrimmed(lines, last, updates, m, m - 1);
    RewrittenAt(kept, updates, m - 1);
    forall i | 0 <= i < m - 1 ensures again[i] == front[i] {
      ReplacedInTrimmed(lines, last, updates, m, i);
      RewrittenAt(kept, updates, i);
    }
    AllButLast(again, front);
  }

  lemma EmptyIsTrimmed(updates: map<string, string>)
    ensures Trimmed([]) == [""] && Trimmed(Rewritten([""], updates)) == [""]
  {
  }

  lemma StrippedStays(raw: string)
    ensures StripRight(StripRight(raw, Blank), Blank) == StripRight(raw, Blank)
  {
  }

  lemma TrimmedKeeps(front: seq<string>, line: string, last: string)
    requires StripRight(line, Blank) == last
    requires last != "" || front == []
    ensures Trimmed(front + [line]) == front + [last]
  {
  }

  /** Rewriting up-to-date lines after their end was trimmed changes that end at most. */
  lemma RewritingTrimmed(lines: seq<string>, updates: map<string, string>)
    requires UpToDate(lines, updates)
    ensures Trimmed(Rewritten(Trimmed(lines), updates)) == Trimmed(lines)
  {
    hide StripRight, Mentions, Trimmed, Replaced, Rewritten;
    if lines == [] {
      EmptyIsTrimmed(updates);
    } else {
      var m := TrimmedShape(lines);
      RewritingTrimmedLines(lines, updates, m);
      StrippedStays(lines[m - 1]);
      TrimmedKeeps(lines[..m - 1], Rewritten(Trimmed(lines), updates)[m - 1], StripRight(lines[m - 1], Blank));
    }
  }

  /** Writing the same updates a second time leaves the file as it is. */
  lemma WritingAgainChangesNothing(file: Option<string>, updates: map<string, string>)
    requires Writable(updates)
    ensures Written(Some(Written(file, updates)), updates) == Written(file, updates)
  {
    hide Rewritten, Trimmed, Lines, WritableKey, SingleLine, Mentions, Join, StripRight, Replaced;
    var lines := Rendered(Lines(file), updates);
    LinesAfterWriting(file, updates);
    UpToDateAfterWriting(Lines(file), updates);
    forall key | key in updates ensures Mentions(Trimmed(lines), key) {
      TrimmingMentions(lines, key);
    }
    assert Unplaced(Trimmed(lines), updates) == map[];
    RewritingTrimmed(lines, updates);
    var again := Rewritten(Trimmed(lines), updates);
    assert Rendered(Trimmed(lines), updates) == again;
    TrimmingJoins(again);
    TrimmingJoins(lines);
  }
}

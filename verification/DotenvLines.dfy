/** Lines of a dotenv file: which written lines read back, and how text and lines correspond. */
module DotenvLines {
  import opened Dotenv
  import opened Text
  import opened Wrappers

  /** The keys that a written line gives back to the reader; see `KeyReadsBackIffWritable`. */
  predicate WritableKey(key: string) {
    && Strip(key, Blank) == key
    && '=' !in key
    && !("#" <= key)
    && !("export " <= key)
  }

  predicate Writable(updates: map<string, string>) {
    forall key <- updates :: WritableKey(key) && SingleLine(key) && SingleLine(updates[key])
  }

  predicate Identifier(key: string) {
    && key != "" && !('0' <= key[0] <= '9')
    && forall c <- key :: 'a' <= c <= 'z' || 'A' <= c <= 'Z' || '0' <= c <= '9' || c == '_'
  }

  /** A value without blanks at its ends that is not wrapped in matching quotes. */
  predicate Plain(value: string) {
    && Strip(value, Blank) == value
    && Unquote(value) == value
  }

  lemma IdentifiersAreWritable(key: string)
    requires Identifier(key)
    ensures WritableKey(key) && SingleLine(key)
  {
    assert Strip(key, Blank) == key by {
      hide Strip;
      assert key[0] in key && key[|key| - 1] in key;
      assert "" + key + "" == key;
      StripIs("", key, "", Blank);
    }
    assert key[0] in key && (|key| >= 7 ==> key[6] in key) && "export "[6] == ' ';
  }

  lemma PlainValuesMeanThemselves(value: string)
    ensures Meaning(value) == value <==> Plain(value)
  {
  }

  /** What is left of a written line when its ends are stripped. */
  lemma StrippedAssignment(key: string, value: string)
    requires Strip(key, Blank) == key
    ensures Strip(key + "=" + value, Blank) == key + "=" + StripRight(value, Blank)
  {
    hide Strip, StripRight;
    var kept := StripRight(value, Blank);
    var middle, after := key + "=" + kept, value[|kept|..];
    var _, _ := StripSplits(key, Blank);
    assert key + "=" + value == "" + middle + after;
    StripIs("", middle, after, Blank);
  }

  lemma ExportStaysOut(key: string, kept: string)
    requires '=' !in key && !("export " <= key)
    ensures !("export " <= key + "=" + kept)
  {
    var line, word := key + "=" + kept, "export ";
    assert line[|key|] == '=' && '=' !in word;
    assert |key| >= 7 ==> line[..7] == key[..7];
    assert |key| < 7 ==> word[|key|] in word;
  }

  lemma WritableLineReads(key: string, value: string)
    requires WritableKey(key)
    ensures Entry(key + "=" + value) == Some((key, Meaning(value)))
    ensures KeyOf(key + "=" + value) == Some(key)
  {
    hide Strip, StripRight, StripLeft, IndexOf, Unquote;
    var kept := StripRight(value, Blank);
    var line := key + "=" + kept;
    StrippedAssignment(key, value);
    assert line[0] != '#' by {
      assert key != "" ==> line[0] == key[0];
    }
    ExportStaysOut(key, kept);
    assert Body(line) == line;
    IndexIs(key, kept, '=');
    assert line[..|key|] == key && line[|key| + 1..] == kept && '=' in line;
    StripIgnoresTail(value, Blank);
  }

  /** A key that still starts with `export ` when written loses that word on the way back. */
  lemma ExportedKeyIsShorter(key: string, kept: string)
    requires "export " <= key
    ensures var body := Body(key + "=" + kept); |Strip(body[..IndexOf(body, '=')], Blank)| < |key|
  {
    hide Strip, StripLeft, IndexOf;
    var line := key + "=" + kept;
    assert line[..7] == key[..7];
    var rest := line[7..];
    var body := StripLeft(rest, Blank);
    var at := |key| - 7;
    assert rest[at] == '=';
    assert |rest| - |body| <= at;
    assert body[at - (|rest| - |body|)] == '=';
    assert body[..at - (|rest| - |body|) + 1][at - (|rest| - |body|)] == '=';
    assert IndexOf(body, '=') <= at;
    var _, _ := StripSplits(body[..IndexOf(body, '=')], Blank);
  }

  /** The reader never reports a key with blanks at its ends or with an equal sign in it. */
  lemma ReadKeysAreTrimmed(raw: string)
    requires Entry(raw).Some?
    ensures var key := Entry(raw).value.0; Strip(key, Blank) == key && '=' !in key
  {
    hide Strip, IndexOf, Body, Meaning;
    var body := Body(Strip(raw, Blank));
    var head := body[..IndexOf(body, '=')];
    var before, after := StripSplits(head, Blank);
    assert forall c <- Strip(head, Blank) :: c in head;
    StripKeepsStripped(head, Blank);
  }

  lemma ReadKeysAreNoComments(key: string, value: string)
    requires Strip(key, Blank) == key && Assigns(key + "=" + value, key)
    ensures !("#" <= key) && !("export " <= key)
  {
    hide Strip, IndexOf, Body, Meaning, StripRight;
    StrippedAssignment(key, value);
    var kept := StripRight(value, Blank);
    assert key != "" ==> (key + "=" + kept)[0] == key[0];
    if "export " <= key {
      ExportedKeyIsShorter(key, kept);
    }
  }

  /** `WritableKey` describes exactly the keys whose written line the reader assigns to that key. */
  lemma KeyReadsBackIffWritable(key: string, value: string)
    ensures Assigns(key + "=" + value, key) <==> WritableKey(key)
  {
    if WritableKey(key) {
      WritableLineReads(key, value);
    } else if Assigns(key + "=" + value, key) {
      hide Strip, IndexOf, Body, Meaning, StripRight;
      ReadKeysAreTrimmed(key + "=" + value);
      ReadKeysAreNoComments(key, value);
    }
  }

  // ---- the text of a file and its lines ----

  lemma {:induction false} LineLengthIs(line: string, rest: string)
    requires SingleLine(line)
    ensures LineLength(line + "\n" + rest) == |line|
  {
    var text := line + "\n" + rest;
    assert text[|line|] == '\n';
    if line != "" {
      assert text[1..] == line[1..] + "\n" + rest;
      LineLengthIs(line[1..], rest);
    }
  }

  /** What ends a line: nothing at the end of the text, one boundary, or a carriage return and a newline. */
  predicate Terminator(end: string) {
    end == "" || end == "\r\n" || (|end| == 1 && Boundary(end[0]))
  }

  function Terminated(lines: seq<string>, ends: seq<string>): string
    requires |ends| == |lines|
  {
    if lines == [] then "" else lines[0] + ends[0] + Terminated(lines[1..], ends[1..])
  }

  lemma SplitOnce(text: string) returns (end: string, rest: string)
    requires LineLength(text) < |text|
    ensures end != "" && Terminator(end) && |rest| < |text|
    ensures text == text[..LineLength(text)] + end + rest
    ensures SplitLines(text) == [text[..LineLength(text)]] + SplitLines(rest)
  {
    hide LineLength;
    var n := LineLength(text);
    var size := if "\r\n" <= text[n..] then 2 else 1;
    end, rest := text[n..n + size], text[n + size..];
    assert size == 2 ==> end == text[n..][..2] == "\r\n";
  }

  lemma TerminatedOnce(line: string, end: string, lines: seq<string>, ends: seq<string>)
    requires |ends| == |lines|
    ensures Terminated([line] + lines, [end] + ends) == line + end + Terminated(lines, ends)
  {
    assert ([line] + lines)[1..] == lines && ([end] + ends)[1..] == ends;
  }

  lemma UnterminatedText(text: string)
    requires text != "" && LineLength(text) == |text|
    ensures SplitLines(text) == [text]
    ensures Terminated([text], [""]) == text
  {
    assert SplitLines(text) == [text];
    hide LineLength, SplitLines;
    var none: seq<string> := [];
    TerminatedOnce(text, "", none, none);
    assert [text] + none == [text] && [""] + none == [""];
    assert text + "" + "" == text;
  }

  /** Splitting loses nothing but the ends of the lines, and only the last line may have none. */
  lemma {:induction false} SplittingLosesOnlyBoundaries(text: string) returns (ends: seq<string>)
    ensures |ends| == |SplitLines(text)| && Terminated(SplitLines(text), ends) == text
    ensures forall end <- ends :: Terminator(end)
    ensures forall i | 0 <= i < |ends| - 1 :: ends[i] != ""
    decreases |text|
  {
    if text == "" {
      ends := [];
    } else if LineLength(text) == |text| {
      ends := [""];
      UnterminatedText(text);
    } else {
      hide LineLength, SplitLines, Terminated, Terminator;
      var end, rest := SplitOnce(text);
      var more := SplittingLosesOnlyBoundaries(rest);
      ends := [end] + more;
      TerminatedOnce(text[..LineLength(text)], end, SplitLines(rest), more);
    }
  }

  lemma SplitFirst(line: string, rest: string)
    requires SingleLine(line)
    ensures SplitLines(line + "\n" + rest) == [line] + SplitLines(rest)
  {
    var text := line + "\n" + rest;
    LineLengthIs(line, rest);
    assert text[|line|] == '\n' && text[|line|..][0] == '\n';
    assert text[..|line|] == line && text[|line| + 1..] == rest;
  }

  lemma EmptyTextHasNoLines()
    ensures SplitLines("") == []
  {}

  lemma {:induction false} SplitJoined(lines: seq<string>)
    requires lines != []
    requires forall line <- lines :: SingleLine(line)
    ensures SplitLines(Join(lines) + "\n") == lines
  {
    hide SplitLines;
    if |lines| == 1 {
      assert Join(lines) + "\n" == lines[0] + "\n" + "";
      SplitFirst(lines[0], "");
      assert SplitLines("") == [] by { EmptyTextHasNoLines(); }
    } else {
      assert Join(lines) + "\n" == lines[0] + "\n" + (Join(lines[1..]) + "\n");
      SplitFirst(lines[0], Join(lines[1..]) + "\n");
      SplitJoined(lines[1..]);
    }
  }

  lemma {:induction false} JoinLast(lines: seq<string>, last: string)
    requires lines != []
    ensures Join(lines + [last]) == Join(lines) + ("\n" + last)
  {
    if |lines| == 1 {
      assert (lines + [last])[1..] == [last];
    } else {
      assert (lines + [last])[1..] == lines[1..] + [last];
      JoinLast(lines[1..], last);
      assert (lines + [last])[0] == lines[0];
    }
  }

  /** The lines that are left once the blanks at the end of the whole text are gone. */
  function Trimmed(lines: seq<string>): (kept: seq<string>)
    ensures kept != []
  {
    if lines == [] then
      [""]
    else
      var n := |lines| - 1;
      var last := StripRight(lines[n], Blank);
      if last != "" || n == 0 then lines[..n] + [last] else Trimmed(lines[..n])
  }

  lemma StripRightConcat(head: string, tail: string)
    ensures StripRight(tail, Blank) != "" ==> StripRight(head + tail, Blank) == head + StripRight(tail, Blank)
    ensures StripRight(tail, Blank) == "" ==> StripRight(head + tail, Blank) == StripRight(head, Blank)
  {
    hide StripRight;
    var kept := StripRight(tail, Blank);
    if kept != "" {
      assert head + tail == (head + kept) + tail[|kept|..];
      StripRightOf(head + kept, tail[|kept|..], Blank);
    } else {
      var front := StripRight(head, Blank);
      assert head + tail == front + (head[|front|..] + tail);
      StripRightOf(front, head[|front|..] + tail, Blank);
    }
  }

  lemma {:induction false} TrimmingJoins(lines: seq<string>)
    ensures StripRight(Join(lines), Blank) == Join(Trimmed(lines))
  {
    hide StripRight;
    if |lines| <= 1 {
      assert StripRight("", Blank) == "";
      assert |lines| == 1 ==> lines[..0] + [StripRight(lines[0], Blank)] == [StripRight(lines[0], Blank)];
    } else {
      var n := |lines| - 1;
      var front, last := lines[..n], lines[n];
      assert lines == front + [last];
      JoinLast(front, last);
      StripRightConcat("\n", last);
      assert StripRight("\n", Blank) == "";
      StripRightConcat(Join(front), "\n" + last);
      if StripRight(last, Blank) != "" {
        JoinLast(front, StripRight(last, Blank));
      } else {
        TrimmingJoins(front);
      }
    }
  }

  lemma {:induction false} TrimmedStaysSplit(lines: seq<string>)
    requires forall line <- lines :: SingleLine(line)
    ensures forall line <- Trimmed(lines) :: SingleLine(line)
  {
    if lines != [] {
      var n := |lines| - 1;
      assert SingleLine(lines[n]);
      TrimmedStaysSplit(lines[..n]);
    }
  }
}

/** The line loop and the list of events that was sent say the same. */
module SseTheorems {
  import opened SseLoop
  import opened Text
  import opened Wrappers

  // ---- how a server writes events ----

  predicate Named(event: Event) {
    && event.name != "" && Strip(event.name, Blank) == event.name
    && '\n' !in event.name
    && forall line <- event.data :: '\n' !in line
  }

  function DataLines(data: seq<string>): seq<string> {
    seq(|data|, i requires 0 <= i < |data| => "data: " + data[i])
  }

  function Frame(event: Event): seq<string> {
    ["event: " + event.name] + DataLines(event.data) + [""]
  }

  /** Between two frames a server may send blank lines, and comments to keep the connection open. */
  predicate Filler(line: string) {
    line == "" || (":" <= line && '\n' !in line)
  }

  /** A line of an event that breaks off before its blank line. */
  predicate Unfinished(line: string) {
    StripRight(line, LineEnd) != "" && '\n' !in line
  }

  function Transcript(events: seq<Event>, gaps: seq<seq<string>>): seq<string>
    requires |gaps| == |events|
  {
    if events == [] then [] else gaps[0] + Frame(events[0]) + Transcript(events[1..], gaps[1..])
  }

  predicate Eol(eol: string) {
    eol == "\n" || eol == "\r\n"
  }

  function Bytes(lines: seq<string>, eol: string): string {
    if lines == [] then "" else lines[0] + eol + Bytes(lines[1..], eol)
  }

  // ---- what a listener should make of a list of events ----

  /** The events up to and including the first "end". */
  function Heard(events: seq<Event>): seq<Event> {
    if events == [] then []
    else if events[0].name == "end" then [events[0]]
    else [events[0]] + Heard(events[1..])
  }

  function Count(events: seq<Event>, name: string): nat {
    if events == [] then 0 else (if events[0].name == name then 1 else 0) + Count(events[1..], name)
  }

  predicate Ends(events: seq<Event>) {
    exists event <- events :: event.name == "end"
  }

  /** The place of the first event that is no heartbeat. */
  function FirstNews(events: seq<Event>): Option<nat> {
    if events == [] then None
    else if events[0].name != "heartbeat" then Some(1)
    else match FirstNews(events[1..]) case None => None case Some(n) => Some(n + 1)
  }

  function Stripped(lines: seq<string>): seq<string> {
    seq(|lines|, i requires 0 <= i < |lines| => Strip(lines[i], Blank))
  }

  function DataText(event: Event): string {
    Strip(Join(Stripped(event.data)), Blank)
  }

  /** What one event says about the outcome, if anything: an error or the end, else its status, else its type. */
  function Says(event: Event, parse: string -> Option<Payload>): Option<string> {
    if event.name == "error" then Some("error")
    else if event.name == "end" then Some("completed")
    else if DataText(event) == "" then None
    else match parse(DataText(event))
      case Some(Payload(kind, status)) =>
        if status != "" then Some(status) else if kind != "" then Some(kind) else None
      case None => None
  }

  /** What the last event that says anything says. */
  function Outcome(start: string, events: seq<Event>, parse: string -> Option<Payload>): string
    decreases |events|
  {
    if events == [] then start
    else
      var last := |events| - 1;
      match Says(events[last], parse) case Some(outcome) => outcome case None => Outcome(start, events[..last], parse)
  }

  // ---- one line at a time ----

  lemma FirstLineIs(line: string, rest: string)
    requires '\n' !in line
    ensures FirstLine(line + "\n" + rest) == line + "\n"
  {
    var text := line + "\n" + rest;
    assert text[|line|] == '\n';
    assert text[..|line|] == line && text[..|line| + 1] == line + "\n";
    IndexIs(line, rest, '\n');
  }

  /** The stream's variables after some whole lines. */
  function Steps(s: Stream, lines: seq<string>, eol: string, parse: string -> Option<Payload>): Stream
    decreases |lines|
  {
    if lines == [] || s.ended then s else Steps(Step(s, lines[0] + eol, parse), lines[1..], eol, parse)
  }

  lemma ListenToLine(s: Stream, line: string, eol: string, rest: string, parse: string -> Option<Payload>)
    requires '\n' !in line && Eol(eol)
    ensures !s.ended ==> Listen(s, line + eol + rest, parse) == Listen(Step(s, line + eol, parse), rest, parse)
    ensures s.ended ==> Listen(s, line + eol + rest, parse) == s
  {
    hide Step, FirstLine;
    var whole, text := line + eol, line + eol + rest;
    var bare := whole[..|whole| - 1];
    assert whole == bare + "\n" && text == bare + "\n" + rest;
    assert '\n' !in bare by {
      assert bare == line || bare == line + "\r";
    }
    FirstLineIs(bare, rest);
    assert text[|whole|..] == rest;
  }

  lemma EndedHearsNothing(s: Stream, rest: string, parse: string -> Option<Payload>)
    ensures s.ended ==> Listen(s, rest, parse) == s
  {}

  lemma {:induction false} ListenToLines(
    s: Stream, lines: seq<string>, eol: string, rest: string, parse: string -> Option<Payload>)
    requires Eol(eol) && forall line <- lines :: '\n' !in line
    ensures var after := Steps(s, lines, eol, parse);
            Listen(s, Bytes(lines, eol) + rest, parse) == if after.ended then after else Listen(after, rest, parse)
    decreases |lines|
  {
    hide Step, Eol, Listen;
    if lines == [] {
      assert Bytes(lines, eol) + rest == rest;
      assert s.ended ==> Listen(s, rest, parse) == s by { EndedHearsNothing(s, rest, parse); }
    } else {
      var more := Bytes(lines[1..], eol) + rest;
      assert Bytes(lines, eol) + rest == lines[0] + eol + more;
      ListenToLine(s, lines[0], eol, more, parse);
      if !s.ended {
        ListenToLines(Step(s, lines[0] + eol, parse), lines[1..], eol, rest, parse);
      }
    }
  }

  lemma {:induction false} StepsConcat(
    s: Stream, front: seq<string>, back: seq<string>, eol: string, parse: string -> Option<Payload>)
    ensures Steps(s, front + back, eol, parse) == Steps(Steps(s, front, eol, parse), back, eol, parse)
    decreases |front|
  {
    hide Step;
    if front == [] {
      assert front + back == back;
    } else if !s.ended {
      assert (front + back)[1..] == front[1..] + back;
      StepsConcat(Step(s, front[0] + eol, parse), front[1..], back, eol, parse);
    }
  }

  // ---- the lines of a frame ----

  lemma EolIsStripped(line: string, eol: string)
    requires Eol(eol)
    ensures StripRight(line + eol, LineEnd) == StripRight(line, LineEnd)
  {
    hide StripRight;
    var kept := StripRight(line, LineEnd);
    assert line + eol == kept + (line[|kept|..] + eol);
    StripRightOf(kept, line[|kept|..] + eol, LineEnd);
  }

  /** Stripping line ends first does not change what a full strip leaves. */
  lemma StripAfterLineEnd(text: string)
    ensures Strip(" " + StripRight(text, LineEnd), Blank) == Strip(text, Blank)
  {
    hide Strip, StripRight;
    var kept := StripRight(text, LineEnd);
    var tail := text[|kept|..];
    assert forall c <- tail :: LineEnd(c);
    assert text == "" + kept + tail && " " + kept == " " + kept + "";
    StripIgnoresBlanks("", kept, tail, Blank);
    StripIgnoresBlanks(" ", kept, "", Blank);
  }

  lemma EventLine(s: Stream, name: string, eol: string, parse: string -> Option<Payload>)
    requires name != "" && Strip(name, Blank) == name && Eol(eol)
    ensures Step(s, "event: " + name + eol, parse) == s.(name := name)
  {
    hide Strip, StripRight, Dispatch;
    var line := "event: " + name;
    EolIsStripped(line, eol);
    var _, _ := StripSplits(name, Blank);
    assert line + "" == line && line[0] == 'e';
    StripRightOf(line, "", LineEnd);
    assert line[..6] == "event:" && line[6..] == " " + name + "";
    assert Strip(line[6..], Blank) == name by { StripIs(" ", name, "", Blank); }
  }

  lemma DataLine(s: Stream, data: string, eol: string, parse: string -> Option<Payload>)
    requires Eol(eol)
    ensures Step(s, "data: " + data + eol, parse) == s.(data := s.data + [Strip(data, Blank)])
  {
    hide Strip, StripRight, Dispatch;
    var kept := StripRight(data, LineEnd);
    var line := "data: " + kept;
    EolIsStripped("data: " + data, eol);
    assert "data: " + data == line + data[|kept|..];
    StripRightOf(line, data[|kept|..], LineEnd);
    assert line[..5] == "data:" && line[5..] == " " + kept;
    assert line[0] == 'd';
    StripAfterLineEnd(data);
  }

  lemma BlankLine(s: Stream, eol: string, parse: string -> Option<Payload>)
    requires Eol(eol)
    ensures Step(s, "" + eol, parse) == Dispatch(s, parse)
  {
    hide Dispatch, StripRight;
    EolIsStripped("", eol);
    assert StripRight("", LineEnd) == "";
  }

  lemma CommentLine(s: Stream, line: string, eol: string, parse: string -> Option<Payload>)
    requires Eol(eol) && ":" <= line
    ensures Step(s, line + eol, parse) == s
  {
    hide Dispatch, StripRight;
    EolIsStripped(line, eol);
    var kept := StripRight(line, LineEnd);
    assert line[0] == ':';
    assert kept != "" && kept[0] == ':';
  }

  lemma {:induction false} DataSteps(
    s: Stream, data: seq<string>, eol: string, parse: string -> Option<Payload>)
    requires Eol(eol) && !s.ended
    ensures Steps(s, DataLines(data), eol, parse) == s.(data := s.data + Stripped(data))
    decreases |data|
  {
    hide Step, Strip, Eol;
    if data == [] {
      assert s.data + [] == s.data;
    } else {
      DataLine(s, data[0], eol, parse);
      assert DataLines(data)[1..] == DataLines(data[1..]);
      var next := s.(data := s.data + [Strip(data[0], Blank)]);
      DataSteps(next, data[1..], eol, parse);
      assert Stripped(data) == [Strip(data[0], Blank)] + Stripped(data[1..]);
      assert next.data + Stripped(data[1..]) == s.data + Stripped(data);
    }
  }

  predicate Idle(s: Stream) {
    !s.ended && s.name == "" && s.data == []
  }

  /** A stream's variables once it has been told of an event. */
  function Hear(s: Stream, event: Event, parse: string -> Option<Payload>): Stream {
    Dispatch(s.(name := event.name, data := Stripped(event.data)), parse)
  }

  lemma OneStep(s: Stream, line: string, eol: string, parse: string -> Option<Payload>)
    requires !s.ended
    ensures Steps(s, [line], eol, parse) == Step(s, line + eol, parse)
  {
  }

  lemma FrameSteps(s: Stream, event: Event, eol: string, parse: string -> Option<Payload>)
    requires Eol(eol) && Idle(s) && Named(event)
    ensures Steps(s, Frame(event), eol, parse) == Hear(s, event, parse)
  {
    hide Step, Dispatch, Eol, Strip, DataLines, Stripped;
    var named := s.(name := event.name);
    var filled := named.(data := Stripped(event.data));
    var first, middle, last := ["event: " + event.name], DataLines(event.data), [""];
    EventLine(s, event.name, eol, parse);
    DataSteps(named, event.data, eol, parse);
    assert [] + Stripped(event.data) == Stripped(event.data);
    BlankLine(filled, eol, parse);
    assert Steps(named, [], eol, parse) == named;
    assert Steps(s, first, eol, parse) == named by { OneStep(s, first[0], eol, parse); }
    assert Steps(filled, last, eol, parse) == Dispatch(filled, parse) by { OneStep(filled, last[0], eol, parse); }
    StepsConcat(s, first, middle, eol, parse);
    StepsConcat(s, first + middle, last, eol, parse);
  }

  lemma {:induction false} GapSteps(s: Stream, gap: seq<string>, eol: string, parse: string -> Option<Payload>)
    requires Eol(eol) && Idle(s) && forall line <- gap :: Filler(line)
    ensures Steps(s, gap, eol, parse) == s
    decreases |gap|
  {
    hide Step, Eol;
    if gap != [] {
      assert Filler(gap[0]);
      if gap[0] == "" {
        BlankLine(s, eol, parse);
      } else {
        CommentLine(s, gap[0], eol, parse);
      }
      GapSteps(s, gap[1..], eol, parse);
    }
  }

  predicate SameNews(s: Stream, t: Stream) {
    s.events == t.events && s.errors == t.errors && s.ended == t.ended && s.outcome == t.outcome && s.first == t.first
  }

  lemma {:induction false} UnfinishedSteps(
    s: Stream, lines: seq<string>, eol: string, parse: string -> Option<Payload>)
    requires Eol(eol) && !s.ended && forall line <- lines :: Unfinished(line)
    ensures SameNews(Steps(s, lines, eol, parse), s)
    decreases |lines|
  {
    hide StripRight, Strip, Eol;
    if lines != [] {
      assert Unfinished(lines[0]);
      EolIsStripped(lines[0], eol);
      UnfinishedSteps(Step(s, lines[0] + eol, parse), lines[1..], eol, parse);
    }
  }

  /** The variables after a list of events, from the variables before it. */
  predicate Agrees(s: Stream, after: Stream, events: seq<Event>, parse: string -> Option<Payload>) {
    && after.events == s.events + |Heard(events)|
    && after.errors == s.errors + Count(Heard(events), "error")
    && after.ended == Ends(events)
    && after.outcome == Outcome(s.outcome, Heard(events), parse)
    && after.first == (if s.first.Some? then s.first else
                       match FirstNews(Heard(events)) case None => None case Some(n) => Some(s.events + n))
  }

  lemma AgreesWithNothing(s: Stream, parse: string -> Option<Payload>)
    requires Idle(s)
    ensures Agrees(s, s, [], parse)
  {}

  lemma ToldIsSaid(outcome: string, event: Event, parse: string -> Option<Payload>)
    ensures Told(outcome, event.name, DataText(event), parse)
         == match Says(event, parse) case Some(said) => said case None => outcome
  {
    hide DataText;
  }

  lemma {:induction false} FirstOutcomeCarries(start: string, events: seq<Event>, parse: string -> Option<Payload>)
    requires events != []
    ensures var said := Outcome(start, [events[0]], parse); Outcome(start, events, parse) == Outcome(said, events[1..], parse)
    ensures Outcome(start, [events[0]], parse) == match Says(events[0], parse) case Some(o) => o case None => start
    decreases |events|
  {
    hide Says;
    assert [events[0]][..0] == [];
    if |events| == 1 {
      assert events == [events[0]];
    } else {
      var last := |events| - 1;
      assert events[1..][..last - 1] == events[..last][1..] && events[1..][last - 1] == events[last];
      FirstOutcomeCarries(start, events[..last], parse);
    }
  }

  lemma AgreesAfterEnd(s: Stream, events: seq<Event>, parse: string -> Option<Payload>)
    requires Idle(s) && events != [] && events[0].name == "end"
    ensures Agrees(s, Hear(s, events[0], parse), events, parse)
  {
    hide Strip, Join, Stripped;
    var heard := [events[0]];
    assert heard[1..] == [] && heard[..0] == [];
    assert Says(events[0], parse) == Some("completed");
    assert Count(heard, "error") == 0;
    assert FirstNews(heard) == Some(1);
  }

  lemma HearsTold(s: Stream, event: Event, parse: string -> Option<Payload>)
    requires Named(event)
    ensures Hear(s, event, parse).outcome == Told(s.outcome, event.name, DataText(event), parse)
  {
    hide Strip, Join, Stripped, Told;
  }

  lemma AgreesOneFurther(s: Stream, after: Stream, events: seq<Event>, parse: string -> Option<Payload>)
    requires Idle(s) && events != [] && events[0].name != "end" && Named(events[0])
    requires Agrees(Hear(s, events[0], parse), after, events[1..], parse)
    ensures Agrees(s, after, events, parse)
  {
    hide Strip, Join, Stripped, Told, DataText, Says, Outcome;
    assert events == [events[0]] + events[1..];
    var heard, more := Heard(events), Heard(events[1..]);
    ToldIsSaid(s.outcome, events[0], parse);
    assert Hear(s, events[0], parse).outcome == Told(s.outcome, events[0].name, DataText(events[0]), parse) by { HearsTold(s, events[0], parse); }
    FirstOutcomeCarries(s.outcome, heard, parse);
    assert heard == [events[0]] + more && heard[1..] == more;
    assert Ends(events) == Ends(events[1..]);
  }

  lemma {:induction false} TranscriptSteps(
    s: Stream, events: seq<Event>, gaps: seq<seq<string>>, eol: string, parse: string -> Option<Payload>)
    requires Eol(eol) && Idle(s) && |gaps| == |events|
    requires forall event <- events :: Named(event)
    requires forall gap <- gaps, line <- gap :: Filler(line)
    ensures var after := Steps(s, Transcript(events, gaps), eol, parse);
            Agrees(s, after, events, parse) && (after.ended || Idle(after))
    decreases |events|
  {
    hide Step, Eol, Named, Filler, Frame, Strip, Told, Agrees, Stripped, Join;
    if events == [] {
      AgreesWithNothing(s, parse);
    } else {
      var event, next := events[0], Hear(s, events[0], parse);
      var rest := Transcript(events[1..], gaps[1..]);
      assert Named(event) && forall line <- gaps[0] :: Filler(line);
      GapSteps(s, gaps[0], eol, parse);
      FrameSteps(s, event, eol, parse);
      StepsConcat(s, gaps[0], Frame(event), eol, parse);
      StepsConcat(s, gaps[0] + Frame(event), rest, eol, parse);
      if event.name == "end" {
        AgreesAfterEnd(s, events, parse);
      } else {
        TranscriptSteps(next, events[1..], gaps[1..], eol, parse);
        AgreesOneFurther(s, Steps(next, rest, eol, parse), events, parse);
      }
    }
  }

  lemma CutOffLine(s: Stream, cut: string, parse: string -> Option<Payload>)
    requires cut == "" || Unfinished(cut)
    ensures SameNews(Listen(s, cut, parse), s)
  {
  }

  lemma FrameHasNoNewlines(event: Event)
    requires Named(event)
    ensures forall line <- Frame(event) :: '\n' !in line
  {
  }

  lemma {:induction false} TranscriptHasNoNewlines(events: seq<Event>, gaps: seq<seq<string>>)
    requires |gaps| == |events|
    requires forall event <- events :: Named(event)
    requires forall gap <- gaps, line <- gap :: Filler(line)
    ensures forall line <- Transcript(events, gaps) :: '\n' !in line
  {
    hide Strip;
    if events != [] {
      assert Named(events[0]) && forall line <- gaps[0] :: Filler(line);
      TranscriptHasNoNewlines(events[1..], gaps[1..]);
      FrameHasNoNewlines(events[0]);
    }
  }

  lemma FillersHaveNoNewlines(last: seq<string>, unfinished: seq<string>)
    requires forall line <- last :: Filler(line)
    requires forall line <- unfinished :: Unfinished(line)
    ensures forall line <- last + unfinished :: '\n' !in line
  {
  }

  /**
   * Whatever the gaps between frames and wherever the stream breaks off after the last of them, the loop
   * reports what the list of events says: it counts the events up to and including the first "end" and the
   * errors among them, has ended exactly if there is an "end", and knows the outcome those events tell.
   */
  lemma LoopAgreesWithEvents(
    events: seq<Event>, gaps: seq<seq<string>>, last: seq<string>, unfinished: seq<string>, cut: string,
    eol: string, parse: string -> Option<Payload>)
    requires Eol(eol) && |gaps| == |events|
    requires forall event <- events :: Named(event)
    requires forall gap <- gaps + [last], line <- gap :: Filler(line)
    requires forall line <- unfinished :: Unfinished(line)
    requires cut == "" || Unfinished(cut)
    ensures var r := Listen(OPENED, Bytes(Transcript(events, gaps) + last + unfinished, eol) + cut, parse);
            && r.events == |Heard(events)|
            && r.errors == Count(Heard(events), "error")
            && (r.ended <==> Ends(events))
            && r.outcome == Outcome("stream_closed", Heard(events), parse)
            && r.first == FirstNews(Heard(events))
  {
    hide Eol, Named, Filler, Transcript, Heard, Count, Ends, Outcome, FirstNews, Listen, Unfinished;
    assert forall gap <- gaps :: gap in gaps + [last];
    assert last in gaps + [last];
    var lines := Transcript(events, gaps);
    TranscriptSteps(OPENED, events, gaps, eol, parse);
    var told := Steps(OPENED, lines, eol, parse);
    StepsConcat(OPENED, lines, last, eol, parse);
    StepsConcat(OPENED, lines + last, unfinished, eol, parse);
    var after := Steps(told, last + unfinished, eol, parse);
    StepsConcat(told, last, unfinished, eol, parse);
    assert SameNews(after, told) by {
      if !told.ended {
        GapSteps(told, last, eol, parse);
        UnfinishedSteps(told, unfinished, eol, parse);
      }
    }
    var all := lines + last + unfinished;
    assert forall line <- all :: '\n' !in line by {
      TranscriptHasNoNewlines(events, gaps);
      FillersHaveNoNewlines(last, unfinished);
    }
    ListenToLines(OPENED, all, eol, cut, parse);
    CutOffLine(after, cut, parse);
  }
}

/**
 * The line loop with which the load script reads a server-sent event stream (scripts/run_pressure.py).
 * The loop is a method over the bytes of the response; `Listen` is the same reading as a function of the
 * text, and the theorems compare it with the list of events that was sent.
 */
module SseLoop {
  import opened Text
  import opened Wrappers

  /** What the loop looks up in a JSON object: its `type` and `status`, as stripped strings. */
  datatype Payload = Payload(kind: string, status: string)

  datatype Event = Event(name: string, data: seq<string>)

  /**
   * The loop's variables. `first` stands for the clock reading at the first event that is no heartbeat:
   * it holds the number of that event.
   */
  datatype Stream = Stream(
    name: string,
    data: seq<string>,
    events: nat,
    errors: nat,
    ended: bool,
    outcome: string,
    first: Option<nat>)

  const OPENED := Stream("", [], 0, 0, false, "stream_closed", None)

  predicate LineEnd(c: char) {
    c == '\r' || c == '\n'
  }

  /** What readline returns: the text up to and including the first newline; empty at the end. */
  function FirstLine(text: string): (line: string)
    ensures line <= text
    ensures text != "" ==> line != ""
    ensures line != "" ==> '\n' !in line[..|line| - 1]
    ensures line == text || (line != "" && line[|line| - 1] == '\n')
  {
    var i := IndexOf(text, '\n');
    if i < |text| then text[..i + 1] else text
  }

  /** How one event changes the last known outcome. */
  function Told(outcome: string, name: string, text: string, parse: string -> Option<Payload>): string {
    if name == "error" then
      "error"
    else if name == "end" then
      "completed"
    else
      match if text == "" then None else parse(text)
      case None => outcome
      case Some(payload) =>
        if payload.status != "" then payload.status else if payload.kind != "" then payload.kind else outcome
  }

  /** A blank line hands over the event that was read; the stream stops at "end". */
  function Dispatch(s: Stream, parse: string -> Option<Payload>): Stream {
    if s.name == "" && s.data == [] then
      s
    else
      Stream("", [], s.events + 1,
             s.errors + (if s.name == "error" then 1 else 0),
             s.name == "end",
             Told(s.outcome, s.name, Strip(Join(s.data), Blank), parse),
             if s.first.None? && s.name != "heartbeat" then Some(s.events + 1) else s.first)
  }

  function Step(s: Stream, raw: string, parse: string -> Option<Payload>): Stream {
    var line := StripRight(raw, LineEnd);
    if line == "" then
      Dispatch(s, parse)
    else if ":" <= line then
      s
    else if "event:" <= line then
      s.(name := Strip(line[6..], Blank))
    else if "data:" <= line then
      s.(data := s.data + [Strip(line[5..], Blank)])
    else
      s
  }

  function Listen(s: Stream, text: string, parse: string -> Option<Payload>): Stream
    decreases |text|
  {
    if s.ended || text == "" then
      s
    else
      Listen(Step(s, FirstLine(text), parse), text[|FirstLine(text)|..], parse)
  }

  method PostStream(response: string, parse: string -> Option<Payload>)
    returns (ended: bool, first: Option<nat>, events: nat, errorEvents: nat, lastOutcome: string)
    ensures var heard := Listen(OPENED, response, parse);
            && ended == heard.ended && first == heard.first && events == heard.events
            && errorEvents == heard.errors && lastOutcome == heard.outcome
  {
    hide FirstLine, Strip, StripRight, Join;
    first := None;
    var eventName, dataLines := "", [];
    events, errorEvents, ended, lastOutcome := 0, 0, false, "stream_closed";
    var rest := response;
    while !ended
      invariant Listen(OPENED, response, parse)
             == Listen(Stream(eventName, dataLines, events, errorEvents, ended, lastOutcome, first), rest, parse)
      decreases |rest|, if ended then 0 else 1
    {
      var rawLine := FirstLine(rest);
      if rawLine == "" {
        break;
      }
      rest := rest[|rawLine|..];
      var line := StripRight(rawLine, LineEnd);
      if line == "" {
        if eventName == "" && dataLines == [] {
          continue;
        }
        events := events + 1;
        if first.None? && eventName != "heartbeat" {
          first := Some(events);
        }
        var dataText := Strip(Join(dataLines), Blank);
        var payload := if dataText != "" then parse(dataText) else None;
        if eventName == "error" {
          errorEvents := errorEvents + 1;
          lastOutcome := "error";
        } else if eventName == "end" {
          ended := true;
          lastOutcome := "completed";
        } else if payload.Some? {
          if payload.value.kind != "" {
            lastOutcome := payload.value.kind;
          }
          if payload.value.status != "" {
            lastOutcome := payload.value.status;
          }
        }
        eventName, dataLines := "", [];
        continue;
      }
      if ":" <= line {
        continue;
      }
      if "event:" <= line {
        eventName := Strip(line[6..], Blank);
        continue;
      }
      if "data:" <= line {
        dataLines := dataLines + [Strip(line[5..], Blank)];
      }
    }
  }
}

/**
 * The setup wizard's dotenv reader and in-place rewriter (scripts/setup_wizard.py). The two loops are
 * methods on the file they work on, proved against one declarative description of each: what a line
 * assigns, and which lines a rewrite replaces.
 */
module Dotenv {
  import opened Text
  import opened Wrappers

  /** The characters at which Python's str.splitlines ends a line; "\r\n" ends one line, not two. */
  predicate Boundary(c: char) {
    || '\n' <= c <= '\r'
    || '\U{1C}' <= c <= '\U{1E}'
    || c in {'\U{85}', '\U{2028}', '\U{2029}'}
  }

  predicate SingleLine(s: string) {
    forall c <- s :: !Boundary(c)
  }

  function LineLength(text: string): (n: nat)
    ensures n <= |text| && SingleLine(text[..n])
    ensures n < |text| ==> Boundary(text[n])
  {
    if text == "" || Boundary(text[0]) then 0 else 1 + LineLength(text[1..])
  }

  function SplitLines(text: string): (lines: seq<string>)
    ensures forall line <- lines :: SingleLine(line)
  {
    if text == "" then [] else
    var n := LineLength(text);
    if n == |text| then
      [text]
    else if "\r\n" <= text[n..] then
      [text[..n]] + SplitLines(text[n + 2..])
    else
      [text[..n]] + SplitLines(text[n + 1..])
  }

  /** A stripped line without a leading `export `. */
  function Body(line: string): string {
    if "export " <= line then StripLeft(line[7..], Blank) else line
  }

  lemma {:induction false} StripLeftKeeps(s: string, c: char)
    requires !Blank(c)
    ensures c in StripLeft(s, Blank) <==> c in s
  {
  }

  lemma BodyKeepsEqualSigns(line: string)
    ensures '=' in Body(line) <==> '=' in line
  {
    if "export " <= line {
      var word := line[..7];
      assert word == "export " && '=' !in word;
      assert line == word + line[7..];
      StripLeftKeeps(line[7..], '=');
    }
  }

  function Unquote(value: string): string {
    if |value| >= 2 && value[0] == value[|value| - 1] && value[0] in {'\'', '"'} then
      value[1..|value| - 1]
    else
      value
  }

  /** What the reader takes a written value to mean. */
  function Meaning(value: string): string {
    Unquote(Strip(value, Blank))
  }

  /** The assignment the reader finds on a line. */
  function Entry(raw: string): Option<(string, string)> {
    var line := Strip(raw, Blank);
    if line == "" || line[0] == '#' || '=' !in line then
      None
    else
      BodyKeepsEqualSigns(line);
      var body := Body(line);
      var cut := IndexOf(body, '=');
      Some((Strip(body[..cut], Blank), Meaning(body[cut + 1..])))
  }

  /** The key the writer finds on a line; unlike the reader it looks into comments as well. */
  function KeyOf(raw: string): Option<string> {
    var body := Body(Strip(raw, Blank));
    var cut := IndexOf(body, '=');
    if cut < |body| then Some(Strip(body[..cut], Blank)) else None
  }

  predicate Assigns(raw: string, key: string) {
    Entry(raw).Some? && Entry(raw).value.0 == key
  }

  /** The map the reader builds: a later line overrides an earlier one. */
  function ReadLines(lines: seq<string>): map<string, string> {
    if lines == [] then
      map[]
    else
      var earlier := ReadLines(lines[..|lines| - 1]);
      match Entry(lines[|lines| - 1])
      case None => earlier
      case Some((key, value)) => earlier[key := value]
  }

  function Lines(file: Option<string>): (lines: seq<string>)
    ensures forall line <- lines :: SingleLine(line)
  {
    if file.Some? then SplitLines(file.value) else []
  }

  function Read(file: Option<string>): map<string, string> {
    ReadLines(Lines(file))
  }

  predicate Mentions(lines: seq<string>, key: string) {
    exists i | 0 <= i < |lines| :: KeyOf(lines[i]) == Some(key)
  }

  /** Line i after the rewrite: only the first line of an updated key is replaced. */
  function Replaced(lines: seq<string>, updates: map<string, string>, i: nat): string
    requires i < |lines|
  {
    match KeyOf(lines[i])
    case None => lines[i]
    case Some(key) =>
      if key in updates && !Mentions(lines[..i], key) then key + "=" + updates[key] else lines[i]
  }

  function Rewritten(lines: seq<string>, updates: map<string, string>): seq<string> {
    seq(|lines|, i requires 0 <= i < |lines| => Replaced(lines, updates, i))
  }

  /** The updates that no line of the file mentions. */
  function Unplaced(lines: seq<string>, updates: map<string, string>): map<string, string> {
    map key | key in updates && !Mentions(lines, key) :: updates[key]
  }

  predicate IsLeast(key: string, keys: set<string>) {
    key in keys && forall other <- keys :: other == key || Before(key, other)
  }

  lemma LeastExists(keys: set<string>)
    requires keys != {}
    ensures exists key :: IsLeast(key, keys)
    decreases |keys|
  {
    var some :| some in keys;
    if keys == {some} {
      assert IsLeast(some, keys);
    } else {
      LeastExists(keys - {some});
      var key :| IsLeast(key, keys - {some});
      BeforeIsTotal(some, key);
      if Before(some, key) {
        forall other | other in keys && other != some ensures Before(some, other) {
          if other != key { BeforeIsTransitive(some, key, other); }
        }
        assert IsLeast(some, keys);
      } else {
        assert IsLeast(key, keys);
      }
    }
  }

  lemma LeastIsUnique(keys: set<string>)
    ensures forall a, b | IsLeast(a, keys) && IsLeast(b, keys) :: a == b
  {
    forall a, b | IsLeast(a, keys) && IsLeast(b, keys) ensures a == b {
      if a != b { BeforeIsAsymmetric(a, b); }
    }
  }

  /** Python's sorted, on the keys of a map. */
  function Sorted(updates: map<string, string>): (keys: seq<string>)
    ensures forall key :: key in keys <==> key in updates
    ensures forall i, j | 0 <= i < j < |keys| :: Before(keys[i], keys[j])
  {
    if updates == map[] then
      []
    else
      LeastExists(updates.Keys);
      LeastIsUnique(updates.Keys);
      var key :| IsLeast(key, updates.Keys);
      [key] + Sorted(updates - {key})
  }

  function Assignments(keys: seq<string>, updates: map<string, string>): (lines: seq<string>)
    requires forall key <- keys :: key in updates
    ensures |lines| == |keys|
  {
    if keys == [] then
      []
    else
      var n := |keys| - 1;
      Assignments(keys[..n], updates) + [keys[n] + "=" + updates[keys[n]]]
  }

  function Header(): string {
    "# Updated by scripts/setup_wizard.py"
  }

  /** What follows the rewritten lines when some updates found no line. */
  function Appendix(before: seq<string>, unplaced: map<string, string>): seq<string> {
    if unplaced == map[] then
      []
    else
      (if before != [] && Strip(before[|before| - 1], Blank) != "" then [""] else [])
      + [Header()] + Assignments(Sorted(unplaced), unplaced)
  }

  function Rendered(lines: seq<string>, updates: map<string, string>): seq<string> {
    var body := Rewritten(lines, updates);
    body + Appendix(body, Unplaced(lines, updates))
  }

  function Written(file: Option<string>, updates: map<string, string>): string {
    StripRight(Join(Rendered(Lines(file), updates)), Blank) + "\n"
  }

  method AppendAssignments(before: seq<string>, updates: map<string, string>) returns (rendered: seq<string>)
    ensures rendered == before + Assignments(Sorted(updates), updates)
  {
    hide Sorted;
    rendered := before;
    var keys := Sorted(updates);
    for i := 0 to |keys|
      invariant rendered == before + Assignments(keys[..i], updates)
    {
      assert keys[..i + 1][..i] == keys[..i];
      rendered := rendered + [keys[i] + "=" + updates[keys[i]]];
    }
    assert keys[..|keys|] == keys;
  }

  method AppendUnplaced(before: seq<string>, pending: map<string, string>) returns (rendered: seq<string>)
    ensures rendered == before + Appendix(before, pending)
  {
    hide Header, Sorted, Strip, Assignments;
    rendered := before;
    if pending != map[] {
      if before != [] && Strip(before[|before| - 1], Blank) != "" {
        rendered := rendered + [""];
      }
      rendered := rendered + [Header()];
      rendered := AppendAssignments(rendered, pending);
    }
  }

  /** A dotenv file on disk; `None` while it does not exist. */
  class EnvFile {
    var contents: Option<string>

    constructor (contents: Option<string>)
      ensures this.contents == contents
    {
      this.contents := contents;
    }

    method ParseDotenv() returns (values: map<string, string>)
      ensures values == Read(contents)
    {
      hide Body, Strip, IndexOf;
      values := map[];
      var lines := Lines(contents);
      for i := 0 to |lines|
        invariant values == ReadLines(lines[..i])
      {
        assert lines[..i + 1][..i] == lines[..i];
        var line := Strip(lines[i], Blank);
        if line == "" || line[0] == '#' || '=' !in line {
          continue;
        }
        BodyKeepsEqualSigns(line);
        line := Body(line);
        var cut := IndexOf(line, '=');
        var key, value := Strip(line[..cut], Blank), Strip(line[cut + 1..], Blank);
        if |value| >= 2 && value[0] == value[|value| - 1] && value[0] in {'\'', '"'} {
          value := value[1..|value| - 1];
        }
        values := values[key := value];
      }
      assert lines[..|lines|] == lines;
    }

    method WriteDotenvUpdates(updates: map<string, string>)
      modifies this
      ensures contents == Some(Written(old(contents), updates))
    {
      hide Body, Strip, IndexOf, Header, Sorted;
      var lines := Lines(contents);
      var pending := updates;
      var rendered := [];
      for i := 0 to |lines|
        invariant pending == Unplaced(lines[..i], updates)
        invariant rendered == Rewritten(lines, updates)[..i]
      {
        assert lines[..i + 1][..i] == lines[..i];
        var keyPart := Body(Strip(lines[i], Blank));
        if '=' in keyPart {
          var key := Strip(keyPart[..IndexOf(keyPart, '=')], Blank);
          if key in pending {
            rendered := rendered + [key + "=" + pending[key]];
            pending := pending - {key};
            continue;
          }
        }
        rendered := rendered + [lines[i]];
      }
      assert lines[..|lines|] == lines;
      assert rendered == Rewritten(lines, updates);
      rendered := AppendUnplaced(rendered, pending);
      contents := Some(StripRight(Join(rendered), Blank) + "\n");
    }
  }
}

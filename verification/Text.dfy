/** Character-level string operations: stripping by a character class, and the order of strings. */
module Text {

  /** The characters that Python's str.strip removes. */
  predicate Blank(c: char) {
    || '\t' <= c <= '\r'
    || '\U{1C}' <= c <= ' '
    || c in {'\U{85}', '\U{A0}', '\U{1680}', '\U{2028}', '\U{2029}', '\U{202F}', '\U{205F}', '\U{3000}'}
    || '\U{2000}' <= c <= '\U{200A}'
  }

  function StripLeft(s: string, blank: char -> bool): (r: string)
    ensures |r| <= |s| && r == s[|s| - |r|..]
    ensures r == "" || !blank(r[0])
    ensures forall i | 0 <= i < |s| - |r| :: blank(s[i])
  {
    if s != "" && blank(s[0]) then StripLeft(s[1..], blank) else s
  }

  function StripRight(s: string, blank: char -> bool): (r: string)
    ensures |r| <= |s| && r == s[..|r|]
    ensures r == "" || !blank(r[|r| - 1])
    ensures forall i | |r| <= i < |s| :: blank(s[i])
  {
    if s != "" && blank(s[|s| - 1]) then StripRight(s[..|s| - 1], blank) else s
  }

  function Strip(s: string, blank: char -> bool): string {
    StripRight(StripLeft(s, blank), blank)
  }

  lemma {:induction false} StripLeftOf(head: string, kept: string, blank: char -> bool)
    requires forall c <- head :: blank(c)
    requires kept == "" || !blank(kept[0])
    ensures StripLeft(head + kept, blank) == kept
  {
    if head == "" {
      assert head + kept == kept;
    } else {
      assert (head + kept)[1..] == head[1..] + kept;
      StripLeftOf(head[1..], kept, blank);
    }
  }

  lemma {:induction false} StripRightOf(kept: string, tail: string, blank: char -> bool)
    requires forall c <- tail :: blank(c)
    requires kept == "" || !blank(kept[|kept| - 1])
    ensures StripRight(kept + tail, blank) == kept
  {
    if tail == "" {
      assert kept + tail == kept;
    } else {
      assert (kept + tail)[..|kept + tail| - 1] == kept + tail[..|tail| - 1];
      StripRightOf(kept, tail[..|tail| - 1], blank);
    }
  }

  /** Stripping finds exactly the middle of a string whose ends are blank. */
  lemma StripIs(before: string, middle: string, after: string, blank: char -> bool)
    requires forall c <- before :: blank(c)
    requires forall c <- after :: blank(c)
    requires middle == "" || (!blank(middle[0]) && !blank(middle[|middle| - 1]))
    ensures Strip(before + middle + after, blank) == middle
  {
    if middle == "" {
      assert before + middle + after == before + after + "";
      StripLeftOf(before + after, "", blank);
    } else {
      assert before + middle + after == before + (middle + after);
      StripLeftOf(before, middle + after, blank);
      StripRightOf(middle, after, blank);
    }
  }

  /** A string is its blank head, its strip and its blank tail. */
  lemma StripSplits(s: string, blank: char -> bool) returns (before: string, after: string)
    ensures s == before + Strip(s, blank) + after
    ensures forall c <- before :: blank(c)
    ensures forall c <- after :: blank(c)
    ensures var middle := Strip(s, blank); middle == "" || (!blank(middle[0]) && !blank(middle[|middle| - 1]))
  {
    hide StripLeft, StripRight;
    var left := StripLeft(s, blank);
    var middle := StripRight(left, blank);
    before, after := s[..|s| - |left|], left[|middle|..];
    assert s == before + left && left == middle + after;
  }

  /** Blanks around a string do not matter to its strip. */
  lemma StripIgnoresBlanks(head: string, s: string, tail: string, blank: char -> bool)
    requires forall c <- head :: blank(c)
    requires forall c <- tail :: blank(c)
    ensures Strip(head + s + tail, blank) == Strip(s, blank)
  {
    hide Strip;
    var before, after := StripSplits(s, blank);
    var middle := Strip(s, blank);
    assert head + s + tail == (head + before) + middle + (after + tail);
    StripIs(head + before, middle, after + tail, blank);
  }

  lemma StripIgnoresTail(s: string, blank: char -> bool)
    ensures Strip(StripRight(s, blank), blank) == Strip(s, blank)
  {
    hide Strip, StripRight;
    var kept := StripRight(s, blank);
    assert s == "" + kept + s[|kept|..];
    StripIgnoresBlanks("", kept, s[|kept|..], blank);
  }

  lemma StripKeepsStripped(s: string, blank: char -> bool)
    ensures Strip(Strip(s, blank), blank) == Strip(s, blank)
  {
  }

  function IndexOf(s: string, c: char): (i: nat)
    ensures i <= |s| && c !in s[..i]
    ensures i < |s| ==> s[i] == c
    ensures i < |s| <==> c in s
  {
    if s == "" || s[0] == c then 0 else 1 + IndexOf(s[1..], c)
  }

  lemma IndexIs(s: string, t: string, c: char)
    requires c !in s
    ensures IndexOf(s + [c] + t, c) == |s|
  {
    var all := s + [c] + t;
    assert all[|s|] == c && all[..|s|] == s;
  }

  /** Strict lexicographic order by code point. */
  predicate Before(a: string, b: string) {
    b != "" && (a == "" || a[0] < b[0] || (a[0] == b[0] && Before(a[1..], b[1..])))
  }

  lemma {:induction false} BeforeIsTotal(a: string, b: string)
    ensures Before(a, b) || a == b || Before(b, a)
  {
    if a != "" && b != "" && a[0] == b[0] {
      BeforeIsTotal(a[1..], b[1..]);
      assert a == [a[0]] + a[1..] && b == [b[0]] + b[1..];
    }
  }

  lemma {:induction false} BeforeIsAsymmetric(a: string, b: string)
    requires Before(a, b)
    ensures a != b && !Before(b, a)
  {
    if a != "" && a[0] == b[0] {
      BeforeIsAsymmetric(a[1..], b[1..]);
    }
  }

  lemma BeforeIsIrreflexive(a: string)
    ensures !Before(a, a)
  {
    if Before(a, a) {
      BeforeIsAsymmetric(a, a);
    }
  }

  lemma {:induction false} BeforeIsTransitive(a: string, b: string, c: string)
    requires Before(a, b) && Before(b, c)
    ensures Before(a, c)
  {
    if a != "" && a[0] == b[0] && b[0] == c[0] {
      BeforeIsTransitive(a[1..], b[1..], c[1..]);
    }
  }

  /** Lines put together with a newline between any two of them. */
  function Join(lines: seq<string>): string {
    if lines == [] then "" else if |lines| == 1 then lines[0] else lines[0] + "\n" + Join(lines[1..])
  }
}

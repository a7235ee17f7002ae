/** The string operations of the tick that the model needs exactly: Python's
    `str.strip()` on the recognized text, and the newline join that builds the
    displayed text (with its inverse, `str.split("\n")`, as a partner). */
module Text {

  /** Python's `str.isspace()` for one character: the characters with Unicode
      bidirectional class WS, B or S, or general category Zs. */
  predicate IsSpace(c: char)
  {
    || ('\t' <= c <= '\r')
    || ('\U{1c}' <= c <= '\U{1f}')
    || c == ' '
    || c == '\U{85}'
    || c == '\U{a0}'
    || c == '\U{1680}'
    || ('\U{2000}' <= c <= '\U{200a}')
    || c == '\U{2028}'
    || c == '\U{2029}'
    || c == '\U{202f}'
    || c == '\U{205f}'
    || c == '\U{3000}'
  }

  /** `s.lstrip()`. */
  function StripStart(s: string): string
  {
    if s != [] && IsSpace(s[0]) then StripStart(s[1..]) else s
  }

  /** `s.rstrip()`. */
  function StripEnd(s: string): string
  {
    if s != [] && IsSpace(s[|s| - 1]) then StripEnd(s[..|s| - 1]) else s
  }

  /** `s.strip()`, applied to the speech engine's text. */
  function Strip(s: string): string
  {
    StripEnd(StripStart(s))
  }

  /** `lstrip` keeps a suffix; everything it drops is whitespace and what it
      keeps does not start with whitespace. */
  lemma {:induction false} StripStartSpec(s: string)
    ensures var r := StripStart(s);
            && |r| <= |s| && r == s[|s| - |r|..]
            && (forall k :: 0 <= k < |s| - |r| ==> IsSpace(s[k]))
            && (r != [] ==> !IsSpace(r[0]))
    decreases |s|
  {
    if s != [] && IsSpace(s[0]) {
      StripStartSpec(s[1..]);
      var r := StripStart(s);
      forall k | 0 < k < |s| - |r| ensures IsSpace(s[k]) {
        assert s[k] == s[1..][k - 1];
      }
    }
  }

  /** `rstrip` keeps a prefix; everything it drops is whitespace and what it
      keeps does not end with whitespace. */
  lemma {:induction false} StripEndSpec(s: string)
    ensures var r := StripEnd(s);
            && |r| <= |s| && r == s[..|r|]
            && (forall k :: |r| <= k < |s| ==> IsSpace(s[k]))
            && (r != [] ==> !IsSpace(r[|r| - 1]))
    decreases |s|
  {
    if s != [] && IsSpace(s[|s| - 1]) {
      StripEndSpec(s[..|s| - 1]);
      var r := StripEnd(s);
      forall k | |r| <= k < |s| - 1 ensures IsSpace(s[k]) {
        assert s[k] == s[..|s| - 1][k];
      }
    }
  }

  /** What `strip` removes is whitespace on both sides and nothing else: the
      result is the slice of `s` between its leading and its trailing run of
      whitespace, and neither starts nor ends with whitespace. */
  lemma StripSpec(s: string)
    ensures |StripStart(s)| <= |s|
    ensures var lead := |s| - |StripStart(s)|;
            var r := Strip(s);
            && lead + |r| <= |s|
            && r == s[lead..lead + |r|]
            && (forall k :: 0 <= k < lead ==> IsSpace(s[k]))
            && (forall k :: lead + |r| <= k < |s| ==> IsSpace(s[k]))
            && (r != [] ==> !IsSpace(r[0]) && !IsSpace(r[|r| - 1]))
  {
    var t := StripStart(s);
    StripStartSpec(s);
    StripEndSpec(t);
    var lead := |s| - |t|;
    var r := StripEnd(t);
    assert r == t[..|r|];
    assert t == s[lead..];
    forall k | lead + |r| <= k < |s| ensures IsSpace(s[k]) {
      assert s[k] == t[k - lead];
    }
    if r != [] {
      assert r[0] == t[0];
    }
  }

  /** Stripping twice is stripping once. */
  lemma StripIdempotent(s: string)
    ensures Strip(Strip(s)) == Strip(s)
  {
    var r := Strip(s);
    StripSpec(s);
    assert StripStart(r) == r;
    assert StripEnd(r) == r;
  }

  /** `"\n".join(lines)`: the lines in order, oldest first, separated by one
      newline each. */
  function JoinLines(lines: seq<string>): string
  {
    if |lines| == 0 then ""
    else if |lines| == 1 then lines[0]
    else lines[0] + "\n" + JoinLines(lines[1..])
  }

  /** A new last line appears on the display after one more newline. */
  lemma {:induction false} JoinLinesSnoc(lines: seq<string>, line: string)
    requires lines != []
    ensures JoinLines(lines + [line]) == JoinLines(lines) + "\n" + line
    decreases |lines|
  {
    var l := lines + [line];
    assert l[0] == lines[0] && l[1..] == lines[1..] + [line];
    if |lines| == 1 {
      assert l[1..] == [line];
    } else {
      JoinLinesSnoc(lines[1..], line);
    }
  }

  /** `s.split("\n")`: the pieces between newlines, never an empty list. */
  function SplitLines(s: string): (r: seq<string>)
    ensures |r| > 0
    ensures forall i :: 0 <= i < |r| ==> '\n' !in r[i]
    decreases |s|
  {
    if s == [] then [""]
    else
      var rest := SplitLines(s[1..]);
      if s[0] == '\n' then [""] + rest
      else [[s[0]] + rest[0]] + rest[1..]
  }

  /** No line of the transcript contains a newline. */
  predicate SingleLines(lines: seq<string>)
  {
    forall i :: 0 <= i < |lines| ==> '\n' !in lines[i]
  }

  lemma {:induction false} SplitWithoutNewline(a: string)
    requires '\n' !in a
    ensures SplitLines(a) == [a]
    decreases |a|
  {
    if a != [] {
      assert '\n' !in a[1..];
      SplitWithoutNewline(a[1..]);
      assert [a[0]] + a[1..] == a;
    }
  }

  lemma {:induction false} SplitAtFirstNewline(a: string, b: string)
    requires '\n' !in a
    ensures SplitLines(a + "\n" + b) == [a] + SplitLines(b)
    decreases |a|
  {
    var s := a + "\n" + b;
    if a == [] {
      assert s[0] == '\n' && s[1..] == b;
    } else {
      assert s[0] == a[0] && s[1..] == a[1..] + "\n" + b;
      assert '\n' !in a[1..];
      SplitAtFirstNewline(a[1..], b);
      assert [a[0]] + a[1..] == a;
    }
  }

  /** The displayed text can be split back into exactly the transcript's
      lines, in order, as long as no line holds a newline itself. */
  lemma {:induction false} SplitJoinLines(lines: seq<string>)
    requires |lines| > 0 && SingleLines(lines)
    ensures SplitLines(JoinLines(lines)) == lines
    decreases |lines|
  {
    if |lines| == 1 {
      assert '\n' !in lines[0];
      SplitWithoutNewline(lines[0]);
    } else {
      assert '\n' !in lines[0];
      SplitAtFirstNewline(lines[0], JoinLines(lines[1..]));
      assert SingleLines(lines[1..]) by {
        forall i | 0 <= i < |lines[1..]| ensures '\n' !in lines[1..][i] {
          assert lines[1..][i] == lines[i + 1];
        }
      }
      SplitJoinLines(lines[1..]);
    }
  }
}

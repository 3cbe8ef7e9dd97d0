/** The code generator's `indent` helper: every line of a text that is not
    empty gains a prefix.

    A text is split at each `'\n'` into lines, as Rust's `str::split('\n')`
    does (so `""` is one empty line and a trailing newline ends with an empty
    line); each non-empty line gets the indentation in front; the lines are
    joined again with `'\n'`. */
module Codegen {
  import Links

  // ---------------------------------------------------------------------------
  // Splitting and joining lines
  // ---------------------------------------------------------------------------

  predicate NoNewline(l: string)
  {
    forall i :: 0 <= i < |l| ==> l[i] != '\n'
  }

  predicate AllNoNewline(lines: seq<string>)
  {
    forall k :: 0 <= k < |lines| ==> NoNewline(lines[k])
  }

  /** `text.split('\n')`: the pieces between newlines, never none. */
  function SplitLines(s: string): (lines: seq<string>)
    ensures |lines| >= 1
    ensures AllNoNewline(lines)
    decreases |s|
  {
    if |s| == 0 then [""]
    else
      var rest := SplitLines(s[1..]);
      if s[0] == '\n' then [""] + rest
      else [[s[0]] + rest[0]] + rest[1..]
  }

  /** `lines.join("\n")`. */
  function JoinLines(lines: seq<string>): string
  {
    if |lines| == 0 then ""
    else if |lines| == 1 then lines[0]
    else lines[0] + "\n" + JoinLines(lines[1..])
  }

  /** The number of `'\n'` in a text. */
  function Newlines(s: string): nat
  {
    if |s| == 0 then 0 else (if s[0] == '\n' then 1 else 0) + Newlines(s[1..])
  }

  /** Splitting yields one line more than the text has newlines. */
  lemma {:induction false} SplitCount(s: string)
    ensures |SplitLines(s)| == Newlines(s) + 1
    decreases |s|
  {
    if |s| > 0 {
      SplitCount(s[1..]);
    }
  }

  /** Joining the pieces gives the text back. */
  lemma {:induction false} JoinSplit(s: string)
    ensures JoinLines(SplitLines(s)) == s
    decreases |s|
  {
    if |s| > 0 {
      var rest := SplitLines(s[1..]);
      JoinSplit(s[1..]);
      if s[0] == '\n' {
        assert ([""] + rest)[1..] == rest;
      } else {
        var lines := [[s[0]] + rest[0]] + rest[1..];
        if |rest| == 1 {
          assert lines == [[s[0]] + rest[0]];
        } else {
          assert lines[1..] == rest[1..];
          assert s == [s[0]] + s[1..];
        }
      }
    }
  }

  /** Splitting a line free of newlines followed by more text extends the
      first piece of that text. */
  lemma {:induction false} SplitPrefix(l: string, t: string)
    requires NoNewline(l)
    ensures SplitLines(l + t) == [l + SplitLines(t)[0]] + SplitLines(t)[1..]
    decreases |l|
  {
    if |l| > 0 {
      var T := SplitLines(t);
      assert (l + t)[0] == l[0] != '\n';
      assert (l + t)[1..] == l[1..] + t;
      SplitPrefix(l[1..], t);
      var rest := SplitLines(l[1..] + t);
      assert rest == [l[1..] + T[0]] + T[1..];
      assert rest[0] == l[1..] + T[0];
      assert rest[1..] == T[1..];
      assert [l[0]] + (l[1..] + T[0]) == l + T[0];
    } else {
      assert l + t == t;
      assert l + SplitLines(t)[0] == SplitLines(t)[0];
      assert SplitLines(t) == [SplitLines(t)[0]] + SplitLines(t)[1..];
    }
  }

  /** Splitting the joined lines gives the lines back, provided there is at
      least one and none holds a newline. */
  lemma {:induction false} SplitJoin(lines: seq<string>)
    requires |lines| >= 1 && AllNoNewline(lines)
    ensures SplitLines(JoinLines(lines)) == lines
    decreases |lines|
  {
    if |lines| == 1 {
      SplitPrefix(lines[0], "");
      assert lines[0] + "" == lines[0];
    } else {
      var rest := JoinLines(lines[1..]);
      SplitJoin(lines[1..]);
      assert JoinLines(lines) == lines[0] + ("\n" + rest);
      SplitPrefix(lines[0], "\n" + rest);
      assert ("\n" + rest)[1..] == rest;
      assert SplitLines("\n" + rest) == [""] + lines[1..];
      assert lines[0] + "" == lines[0];
      assert lines == [lines[0]] + lines[1..];
    }
  }

  /** Joining adds one newline between each two lines. */
  lemma {:induction false} JoinLength(lines: seq<string>)
    requires |lines| >= 1
    ensures |JoinLines(lines)| == Links.TotalLength(lines) + |lines| - 1
    decreases |lines|
  {
    if |lines| > 1 {
      JoinLength(lines[1..]);
    }
  }

  // ---------------------------------------------------------------------------
  // Indentation
  // ---------------------------------------------------------------------------

  /** One line: prefixed unless it is empty.  A line of spaces is not empty
      and is prefixed. */
  function IndentLine(indentation: string, l: string): string
  {
    if |l| == 0 then l else indentation + l
  }

  function IndentAll(indentation: string, lines: seq<string>): (r: seq<string>)
    ensures |r| == |lines|
  {
    seq(|lines|, k requires 0 <= k < |lines| => IndentLine(indentation, lines[k]))
  }

  /** `indent`. */
  function Indent(indentation: string, text: string): string
  {
    JoinLines(IndentAll(indentation, SplitLines(text)))
  }

  /** How many lines are not empty. */
  function NonEmpty(lines: seq<string>): nat
  {
    if |lines| == 0 then 0 else (if |lines[0]| > 0 then 1 else 0) + NonEmpty(lines[1..])
  }

  /** When the indentation holds no newline, the output has the input's
      lines, each non-empty one behind the indentation and each empty one
      still empty. */
  lemma IndentLines(indentation: string, text: string)
    requires NoNewline(indentation)
    ensures SplitLines(Indent(indentation, text)) == IndentAll(indentation, SplitLines(text))
    ensures |SplitLines(Indent(indentation, text))| == |SplitLines(text)|
    ensures forall k :: 0 <= k < |SplitLines(text)| ==>
              (|SplitLines(text)[k]| == 0 ==> SplitLines(Indent(indentation, text))[k] == "")
    ensures forall k :: 0 <= k < |SplitLines(text)| ==>
              (|SplitLines(text)[k]| > 0 ==> SplitLines(Indent(indentation, text))[k] == indentation + SplitLines(text)[k])
  {
    var lines := IndentAll(indentation, SplitLines(text));
    forall k | 0 <= k < |lines|
      ensures NoNewline(lines[k])
    {
      var l := SplitLines(text)[k];
      if |l| > 0 {
        assert lines[k] == indentation + l;
        assert forall i :: 0 <= i < |indentation + l| ==>
                 (indentation + l)[i] == if i < |indentation| then indentation[i] else l[i - |indentation|];
      }
    }
    SplitJoin(lines);
  }

  /** So the number of lines, counted as newlines, is kept. */
  lemma IndentKeepsNewlines(indentation: string, text: string)
    requires NoNewline(indentation)
    ensures Newlines(Indent(indentation, text)) == Newlines(text)
  {
    IndentLines(indentation, text);
    SplitCount(text);
    SplitCount(Indent(indentation, text));
  }

  /** Indenting an empty text gives an empty text: its one line is empty. */
  lemma IndentEmpty(indentation: string)
    ensures Indent(indentation, "") == ""
  {
    assert IndentAll(indentation, [""]) == [""];
  }

  lemma {:induction false} IndentAllTotal(indentation: string, lines: seq<string>)
    ensures Links.TotalLength(IndentAll(indentation, lines)) == Links.TotalLength(lines) + |indentation| * NonEmpty(lines)
    decreases |lines|
  {
    if |lines| > 0 {
      assert IndentAll(indentation, lines)[1..] == IndentAll(indentation, lines[1..]);
      IndentAllTotal(indentation, lines[1..]);
    }
  }

  /** The output is longer than the input by one indentation per non-empty
      line. */
  lemma IndentLength(indentation: string, text: string)
    ensures |Indent(indentation, text)| == |text| + |indentation| * NonEmpty(SplitLines(text))
  {
    var lines := SplitLines(text);
    JoinLength(IndentAll(indentation, lines));
    IndentAllTotal(indentation, lines);
    JoinLength(lines);
    JoinSplit(text);
  }

  /** An empty indentation changes nothing. */
  lemma IndentNothing(text: string)
    ensures Indent("", text) == text
  {
    var lines := SplitLines(text);
    assert IndentAll("", lines) == lines by {
      forall k | 0 <= k < |lines|
        ensures IndentLine("", lines[k]) == lines[k]
      {
        assert "" + lines[k] == lines[k];
      }
    }
    JoinSplit(text);
  }

  // ---------------------------------------------------------------------------
  // Removing the indentation again
  // ---------------------------------------------------------------------------

  /** A line with the indentation stripped from its front, when it has it. */
  function UnindentLine(indentation: string, l: string): string
  {
    if |l| > 0 && |indentation| <= |l| && l[..|indentation|] == indentation then l[|indentation|..] else l
  }

  function Unindent(indentation: string, text: string): string
  {
    var lines := SplitLines(text);
    JoinLines(seq(|lines|, k requires 0 <= k < |lines| => UnindentLine(indentation, lines[k])))
  }

  /** Stripping the indentation from every non-empty line of the output
      recovers the input. */
  lemma UnindentIndent(indentation: string, text: string)
    requires NoNewline(indentation)
    ensures Unindent(indentation, Indent(indentation, text)) == text
  {
    var lines := SplitLines(text);
    var indented := IndentAll(indentation, lines);
    IndentLines(indentation, text);
    var back := seq(|indented|, k requires 0 <= k < |indented| => UnindentLine(indentation, indented[k]));
    assert back == lines by {
      forall k | 0 <= k < |lines|
        ensures back[k] == lines[k]
      {
        if |lines[k]| > 0 {
          assert indented[k] == indentation + lines[k];
          assert indented[k][..|indentation|] == indentation;
          assert indented[k][|indentation|..] == lines[k];
        }
      }
    }
    JoinSplit(text);
  }

  // ---------------------------------------------------------------------------
  // The unit tests' cases
  // ---------------------------------------------------------------------------

  /** Indenting joined lines indents each of them. */
  lemma IndentJoined(indentation: string, lines: seq<string>)
    requires |lines| >= 1 && AllNoNewline(lines)
    ensures Indent(indentation, JoinLines(lines)) == JoinLines(IndentAll(indentation, lines))
  {
    SplitJoin(lines);
  }

  /** A text of one non-empty line is prefixed as a whole. */
  lemma IndentOneLine(indentation: string, l: string)
    requires NoNewline(l) && |l| > 0
    ensures Indent(indentation, l) == indentation + l
  {
    SplitPrefix(l, "");
    assert l + "" == l;
    assert IndentAll(indentation, [l]) == [indentation + l];
  }

  /** The unit tests.  Each takes its input as a parameter that its
      `requires` fixes to the test's literal: the verifier then reaches the
      literal through the general lemmas above instead of unfolding
      `SplitLines` on it character by character, which it cannot finish
      within its resource limit. */
  lemma EmptyString(input: string)
    requires input == ""
    ensures Indent("    ", input) == ""
  {
    IndentEmpty("    ");
  }

  lemma OnelineString(input: string)
    requires input == "foo asdf bar"
    ensures Indent("    ", input) == "    foo asdf bar"
  {
    IndentOneLine("    ", input);
  }

  /** A line of spaces is not empty, so it is indented although it is
      blank. */
  lemma BlankLineIndented(indentation: string, l: string)
    requires |l| > 0 && forall i :: 0 <= i < |l| ==> l[i] == ' '
    ensures Indent(indentation, l) == indentation + l
  {
    assert NoNewline(l);
    IndentOneLine(indentation, l);
  }

  lemma MultilineString(input: string)
    requires input == "foo\nasdf\nbar"
    ensures Indent("    ", input) == "    foo\n    asdf\n    bar"
  {
    var lines := ["foo", "asdf", "bar"];
    MultilineParts();
    MultilineJoined();
    MultilineIndented();
    IndentJoined("    ", lines);
  }

  lemma MultilineParts()
    ensures AllNoNewline(["foo", "asdf", "bar"])
    ensures JoinLines(["foo", "asdf", "bar"]) == "foo\nasdf\nbar"
  {
    var lines := ["foo", "asdf", "bar"];
    assert NoNewline(lines[0]) && NoNewline(lines[1]) && NoNewline(lines[2]);
  }

  lemma MultilineJoined()
    ensures JoinLines(["    foo", "    asdf", "    bar"]) == "    foo\n    asdf\n    bar"
  {
  }

  lemma MultilineIndented()
    ensures IndentAll("    ", ["foo", "asdf", "bar"]) == ["    foo", "    asdf", "    bar"]
  {
    var indented := IndentAll("    ", ["foo", "asdf", "bar"]);
    assert indented[0] == "    foo" && indented[1] == "    asdf" && indented[2] == "    bar";
  }

  lemma BlanklineParts()
    ensures AllNoNewline(["foo", "", "asdf", "bar"])
    ensures JoinLines(["foo", "", "asdf", "bar"]) == "foo\n\nasdf\nbar"
  {
    var lines := ["foo", "", "asdf", "bar"];
    assert NoNewline(lines[0]) && NoNewline(lines[1]) && NoNewline(lines[2]) && NoNewline(lines[3]);
  }

  lemma BlanklineJoined()
    ensures JoinLines(["    foo", "", "    asdf", "    bar"]) == "    foo\n\n    asdf\n    bar"
  {
  }

  lemma BlanklineIndented()
    ensures IndentAll("    ", ["foo", "", "asdf", "bar"]) == ["    foo", "", "    asdf", "    bar"]
  {
    var indented := IndentAll("    ", ["foo", "", "asdf", "bar"]);
    assert indented[0] == "    foo" && indented[1] == "" && indented[2] == "    asdf" && indented[3] == "    bar";
  }

  lemma MultilineStringWithBlankline(input: string)
    requires input == "foo\n\nasdf\nbar"
    ensures Indent("    ", input) == "    foo\n\n    asdf\n    bar"
  {
    var lines := ["foo", "", "asdf", "bar"];
    BlanklineParts();
    BlanklineJoined();
    BlanklineIndented();
    IndentJoined("    ", lines);
  }
}

/**
 * tests/checkresources.py: runs `lint --check UnusedResources <path>`, keeps the lines of its
 * standard output that carry the `[UnusedResources]` tag, prints them and exits with 1 when
 * there are any, and exits with 0 silently when there are none.
 */
module CheckResources {
  import opened Wrappers
  import opened JavaStrings

  /** The tag a line must contain, matched literally and case-sensitively. */
  const MARKER: string := "[UnusedResources]"

  /** The command line: the lint tool, its fixed flags, then the script's one argument. */
  function LintCommand(path: string): (argv: seq<string>)
    ensures |argv| == 4 && argv[3] == path
    ensures argv[..3] == ["lint", "--check", "UnusedResources"]
  {
    ["lint", "--check", "UnusedResources", path]
  }

  /**
   * Python's str.split('\n'): the pieces between newlines, so there is always at least one,
   * and none of them holds a newline.
   */
  function SplitLines(s: string): (lines: seq<string>)
    ensures |lines| >= 1
    ensures forall k :: 0 <= k < |lines| ==> '\n' !in lines[k]
    decreases |s|
  {
    var i := IndexOfChar(s, '\n');
    if i == -1 then [s] else [s[..i]] + SplitLines(s[i + 1..])
  }

  /** Python's sep.join(lines). */
  function Join(lines: seq<string>, sep: string): string
  {
    if |lines| == 0 then ""
    else if |lines| == 1 then lines[0]
    else lines[0] + sep + Join(lines[1..], sep)
  }

  /** Joining the pieces of a split with newlines gives back the text: no character is lost. */
  lemma {:induction false} JoinSplitLines(s: string)
    ensures Join(SplitLines(s), "\n") == s
    decreases |s|
  {
    var i := IndexOfChar(s, '\n');
    if i != -1 {
      var head, tail := s[..i], s[i + 1..];
      var rest := SplitLines(tail);
      assert SplitLines(s) == [head] + rest;
      JoinSplitLines(tail);
      JoinCons(head, rest, "\n");
      assert s == head + "\n" + tail;
    }
  }

  /** Joining a line in front of at least one more puts the separator between them. */
  lemma JoinCons(head: string, rest: seq<string>, sep: string)
    requires |rest| >= 1
    ensures Join([head] + rest, sep) == head + sep + Join(rest, sep)
  {
    assert ([head] + rest)[1..] == rest;
  }

  /** The first newline of `a + "\n" + b` is the one after `a` when `a` has none. */
  lemma FirstNewlineAfter(a: string, b: string)
    requires '\n' !in a
    ensures IndexOfChar(a + "\n" + b, '\n') == |a|
  {
    var s := a + "\n" + b;
    assert s[|a|] == '\n';
    forall k | 0 <= k < |a|
      ensures s[k] != '\n'
    {
      assert s[k] == a[k];
    }
  }

  /**
   * Splitting a newline-join of newline-free lines gives the lines back: the split and the
   * join are inverse to each other.
   */
  lemma {:induction false} SplitJoinLines(lines: seq<string>)
    requires |lines| >= 1
    requires forall k :: 0 <= k < |lines| ==> '\n' !in lines[k]
    ensures SplitLines(Join(lines, "\n")) == lines
    decreases |lines|
  {
    if |lines| == 1 {
      assert IndexOfChar(lines[0], '\n') == -1;
    } else {
      var first := lines[0];
      var rest := Join(lines[1..], "\n");
      var s := first + "\n" + rest;
      JoinCons(first, lines[1..], "\n");
      assert [first] + lines[1..] == lines;
      FirstNewlineAfter(first, rest);
      assert s[..|first|] == first;
      assert s[|first| + 1..] == rest;
      assert SplitLines(s) == [first] + SplitLines(rest);
      SplitJoinLines(lines[1..]);
      assert lines == [first] + lines[1..];
    }
  }

  /** The lines that contain the tag, in their original order. */
  function Matching(lines: seq<string>): (results: seq<string>)
    ensures |results| <= |lines|
    ensures forall x :: x in results ==> x in lines && Contains(x, MARKER)
    ensures forall x :: x in lines && Contains(x, MARKER) ==> x in results
  {
    if lines == [] then []
    else
      var last := lines[|lines| - 1];
      assert lines == lines[..|lines| - 1] + [last];
      Matching(lines[..|lines| - 1]) + if Contains(last, MARKER) then [last] else []
  }

  /**
   * Filtering keeps the order of the lines: the matches of consecutive pieces of output are
   * the matches of the first piece followed by those of the second.
   */
  lemma {:induction false} MatchingAppend(a: seq<string>, b: seq<string>)
    ensures Matching(a + b) == Matching(a) + Matching(b)
    decreases |b|
  {
    if b == [] {
      assert a + b == a;
    } else {
      var last := b[|b| - 1];
      var front := b[..|b| - 1];
      assert (a + b)[..|a + b| - 1] == a + front;
      assert (a + b)[|a + b| - 1] == last;
      MatchingAppend(a, front);
    }
  }

  /** A line is kept exactly when it holds the tag, wherever in the line the tag stands. */
  lemma SingleLine(line: string)
    ensures Matching([line]) == (if exists i :: OccursAt(line, MARKER, i) then [line] else [])
  {
    assert [line][..0] == [];
  }

  /** The filtering loop: every line of the output, in order, appended when it holds the tag. */
  method FilterResults(stdout: string) returns (results: seq<string>)
    ensures results == Matching(SplitLines(stdout))
  {
    var lines := SplitLines(stdout);
    results := [];
    for i := 0 to |lines|
      invariant results == Matching(lines[..i])
    {
      var line := lines[i];
      assert lines[..i + 1][..i] == lines[..i];
      if Contains(line, MARKER) {
        results := results + [line];
      }
    }
    assert lines[..|lines|] == lines;
  }

  /**
   * The whole script on the decoded standard output of the lint run: it prints the kept lines
   * joined by newlines (print adds the final newline) and exits with 1 exactly when some line
   * holds the tag; otherwise it prints nothing and exits with 0.
   */
  method Run(stdout: string) returns (printed: Option<string>, exitCode: int)
    ensures exitCode == 1 <==> exists line :: line in SplitLines(stdout) && Contains(line, MARKER)
    ensures exitCode == 0 <==> !exists line :: line in SplitLines(stdout) && Contains(line, MARKER)
    ensures printed.Some? <==> exitCode == 1
    ensures printed.Some? ==> printed.value == Join(Matching(SplitLines(stdout)), "\n") + "\n"
  {
    var results := FilterResults(stdout);
    if |results| > 0 {
      assert results[0] in results;
      printed := Some(Join(results, "\n") + "\n");
      exitCode := 1;
    } else {
      printed := None;
      exitCode := 0;
    }
  }
}

/**
  Output matching of the exercise runner (src/runExercise.ts, the stdout
  handler): each stdout chunk is trimmed and split on '\n', and each of its
  lines, trimmed, is compared with the head of the list of expected lines
  still to be received; only an exact match removes the head. The expected
  lines themselves are never trimmed, and nothing is carried over from one
  chunk to the next.
*/
module Matching {
  import opened Text
  import opened ExerciseModel

  /** The lines of one stdout chunk: the chunk trimmed, then split on '\n'. */
  function ChunkLines(chunk: string): (lines: seq<string>)
    ensures |lines| >= 1
  {
    Split(Trim(chunk), '\n')
  }

  /** One line against the remaining expected lines: the head goes when it is exactly the trimmed line. */
  function MatchLine(remaining: seq<JsValue>, line: string): seq<JsValue> {
    if |remaining| > 0 && remaining[0] == Str(Trim(line)) then remaining[1..] else remaining
  }

  /** The lines of a chunk against the remaining expected lines, in order. */
  function MatchLines(remaining: seq<JsValue>, lines: seq<string>): seq<JsValue>
    decreases |lines|
  {
    if lines == [] then remaining else MatchLines(MatchLine(remaining, lines[0]), lines[1..])
  }

  /** A line removes the head of the remaining list only, and only when the trimmed line equals it. */
  lemma MatchLineRemovesOnlyTheHead(remaining: seq<JsValue>, line: string)
    ensures var r := MatchLine(remaining, line);
            r == remaining || (remaining != [] && remaining[0] == Str(Trim(line)) && r == remaining[1..])
    ensures remaining != [] && remaining[0] == Str(Trim(line)) ==> MatchLine(remaining, line) == remaining[1..]
  {
  }

  /** What remains after matching is always a suffix of what remained before. */
  lemma {:induction false} MatchLinesSuffix(remaining: seq<JsValue>, lines: seq<string>)
    ensures var r := MatchLines(remaining, lines);
            |r| <= |remaining| && r == remaining[|remaining| - |r|..]
    decreases |lines|
  {
    if lines != [] {
      var once := MatchLine(remaining, lines[0]);
      MatchLinesSuffix(once, lines[1..]);
      var r := MatchLines(once, lines[1..]);
      assert MatchLines(remaining, lines) == r;
      if once != remaining {
        assert once == remaining[1..];
        assert once[|once| - |r|..] == remaining[|remaining| - |r|..];
      }
    }
  }

  /** Nothing is left to match once the list is empty. */
  lemma {:induction false} MatchLinesEmpty(lines: seq<string>)
    ensures MatchLines([], lines) == []
    decreases |lines|
  {
    if lines != [] {
      MatchLinesEmpty(lines[1..]);
    }
  }

  /** Matching the lines of two chunks one after the other is matching their lines together. */
  lemma {:induction false} MatchLinesAppend(remaining: seq<JsValue>, a: seq<string>, b: seq<string>)
    ensures MatchLines(MatchLines(remaining, a), b) == MatchLines(remaining, a + b)
    decreases |a|
  {
    if a != [] {
      var once := MatchLine(remaining, a[0]);
      assert a + b != [] && (a + b)[0] == a[0];
      assert (a + b)[1..] == a[1..] + b;
      assert MatchLines(remaining, a + b) == MatchLines(once, a[1..] + b);
      assert MatchLines(remaining, a) == MatchLines(once, a[1..]);
      MatchLinesAppend(once, a[1..], b);
    } else {
      assert a + b == b;
    }
  }

  /**
    An expected line with surrounding space characters is never removed: the
    received line is trimmed before the comparison and the expected one is not.
  */
  lemma {:induction false} UntrimmedExpectedLineBlocks(remaining: seq<JsValue>, lines: seq<string>)
    requires remaining != [] && remaining[0].Str? && !IsTrimmed(remaining[0].s)
    ensures MatchLines(remaining, lines) == remaining
    decreases |lines|
  {
    if lines != [] {
      assert MatchLine(remaining, lines[0]) == remaining;
      UntrimmedExpectedLineBlocks(remaining, lines[1..]);
    }
  }

  /** The values the trimmed received lines are compared as. */
  function Received(lines: seq<string>): (r: seq<JsValue>)
    ensures |r| == |lines|
  {
    if lines == [] then [] else [Str(Trim(lines[0]))] + Received(lines[1..])
  }

  /** `p` occurs in `xs` in order, possibly with other elements in between. */
  predicate IsSubsequence(p: seq<JsValue>, xs: seq<JsValue>)
    decreases |xs|
  {
    p == [] || (xs != [] && ((p[0] == xs[0] && IsSubsequence(p[1..], xs[1..])) || IsSubsequence(p, xs[1..])))
  }

  /** Dropping the first element of a subsequence keeps it a subsequence. */
  lemma {:induction false} SubsequenceDropHead(p: seq<JsValue>, xs: seq<JsValue>)
    requires p != [] && IsSubsequence(p, xs)
    ensures IsSubsequence(p[1..], xs)
    decreases |xs|
  {
    if p[0] == xs[0] && IsSubsequence(p[1..], xs[1..]) {
      if p[1..] != [] {
        assert IsSubsequence(p[1..], xs[1..]);
      }
    } else {
      SubsequenceDropHead(p, xs[1..]);
    }
  }

  /** Using up the expected lines means they occur in order among the received ones. */
  lemma {:induction false} MatchedIsSubsequence(remaining: seq<JsValue>, lines: seq<string>)
    requires MatchLines(remaining, lines) == []
    ensures IsSubsequence(remaining, Received(lines))
    decreases |lines|
  {
    if remaining != [] {
      assert lines != [];
      if remaining[0] == Str(Trim(lines[0])) {
        MatchedIsSubsequence(remaining[1..], lines[1..]);
      } else {
        MatchedIsSubsequence(remaining, lines[1..]);
      }
    }
  }

  /** Expected lines occurring in order among the received ones are all used up. */
  lemma {:induction false} SubsequenceIsMatched(remaining: seq<JsValue>, lines: seq<string>)
    requires IsSubsequence(remaining, Received(lines))
    ensures MatchLines(remaining, lines) == []
    decreases |lines|
  {
    if remaining == [] {
      MatchLinesEmpty(lines);
    } else {
      var xs := Received(lines);
      assert lines != [];
      if remaining[0] == xs[0] {
        if !IsSubsequence(remaining[1..], xs[1..]) {
          SubsequenceDropHead(remaining, xs[1..]);
        }
        SubsequenceIsMatched(remaining[1..], lines[1..]);
      } else {
        SubsequenceIsMatched(remaining, lines[1..]);
      }
    }
  }

  /**
    Order strictness: a chunk's lines use up every remaining expected line
    exactly when those expected lines occur, in order, among the trimmed
    received lines, whatever else is printed in between.
  */
  lemma MatchLinesCompleteIffSubsequence(remaining: seq<JsValue>, lines: seq<string>)
    ensures MatchLines(remaining, lines) == [] <==> IsSubsequence(remaining, Received(lines))
  {
    if MatchLines(remaining, lines) == [] {
      MatchedIsSubsequence(remaining, lines);
    }
    if IsSubsequence(remaining, Received(lines)) {
      SubsequenceIsMatched(remaining, lines);
    }
  }

  /** Every sequence is a subsequence of itself. */
  lemma {:induction false} SubsequenceOfItself(p: seq<JsValue>)
    ensures IsSubsequence(p, p)
    decreases |p|
  {
    if p != [] {
      SubsequenceOfItself(p[1..]);
    }
  }

  /** True when `lines` can be printed as they are and compared untouched: non-empty, trimmed, one line each. */
  predicate PlainLines(lines: seq<string>) {
    forall k :: 0 <= k < |lines| ==> lines[k] != [] && IsTrimmed(lines[k]) && '\n' !in lines[k]
  }

  /** The stdout chunk that prints `lines`, each followed by a newline. */
  function Printed(lines: seq<string>): string {
    Join(lines, '\n') + "\n"
  }

  /** The joined lines start with the first character of the first line. */
  lemma {:induction false} JoinStart(lines: seq<string>)
    requires |lines| >= 1 && lines[0] != []
    ensures Join(lines, '\n') != [] && Join(lines, '\n')[0] == lines[0][0]
  {
    if |lines| > 1 {
      JoinCons(lines[0], lines[1..], '\n');
      assert [lines[0]] + lines[1..] == lines;
    }
  }

  /** The joined lines end with the last character of the last line. */
  lemma {:induction false} JoinEnd(lines: seq<string>)
    requires |lines| >= 1 && lines[|lines| - 1] != []
    ensures var j := Join(lines, '\n');
            j != [] && j[|j| - 1] == lines[|lines| - 1][|lines[|lines| - 1]| - 1]
    decreases |lines|
  {
    if |lines| > 1 {
      JoinCons(lines[0], lines[1..], '\n');
      assert [lines[0]] + lines[1..] == lines;
      JoinEnd(lines[1..]);
    }
  }

  /** A chunk that prints plain lines splits back into exactly those lines. */
  lemma PrintedChunkLines(lines: seq<string>)
    requires |lines| >= 1 && PlainLines(lines)
    ensures ChunkLines(Printed(lines)) == lines
  {
    var j := Join(lines, '\n');
    JoinStart(lines);
    JoinEnd(lines);
    assert IsTrimmed(j);
    var c := j + "\n";
    assert TrimStart(c) == c by {
      assert c[0] == j[0];
    }
    assert TrimEnd(c) == TrimEnd(j) by {
      assert c != [] && IsSpace(c[|c| - 1]);
      assert c[..|c| - 1] == j;
    }
    TrimOfTrimmed(j);
    assert TrimEnd(j) == j;
    assert Trim(c) == j;
    SplitJoin(lines, '\n');
  }

  /** The plain lines, as the values an exercise configuration lists them by. */
  function AsExpected(lines: seq<string>): (r: seq<JsValue>)
    ensures |r| == |lines|
  {
    if lines == [] then [] else [Str(lines[0])] + AsExpected(lines[1..])
  }

  /** The values of two runs of lines are those of the first, then those of the second. */
  lemma {:induction false} AsExpectedAppend(a: seq<string>, b: seq<string>)
    ensures AsExpected(a + b) == AsExpected(a) + AsExpected(b)
    decreases |a|
  {
    if a == [] {
      assert a + b == b;
    } else {
      assert (a + b)[0] == a[0] && (a + b)[1..] == a[1..] + b;
      AsExpectedAppend(a[1..], b);
    }
  }

  /** Plain lines are received as exactly the values that list them. */
  lemma {:induction false} ReceivedPlainLines(lines: seq<string>)
    requires PlainLines(lines)
    ensures Received(lines) == AsExpected(lines)
    decreases |lines|
  {
    if lines != [] {
      TrimOfTrimmed(lines[0]);
      ReceivedPlainLines(lines[1..]);
    }
  }

  /** A chunk that prints exactly the expected plain lines uses them all up. */
  lemma PrintedExpectedLinesMatch(lines: seq<string>)
    requires |lines| >= 1 && PlainLines(lines)
    ensures MatchLines(AsExpected(lines), ChunkLines(Printed(lines))) == []
  {
    PrintedChunkLines(lines);
    ReceivedPlainLines(lines);
    SubsequenceOfItself(AsExpected(lines));
    MatchLinesCompleteIffSubsequence(AsExpected(lines), lines);
  }
}

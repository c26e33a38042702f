/**
 * Reference definitions for reassembling lines from chunks of text: the
 * pieces of a text between newlines, the complete lines and the remainder,
 * and the line labels `${k}: ` of `numberLines`.
 */
module Lines {
  import opened Stages
  import opened Tokens

  /** `s.indexOf(c)`: the first position of `c` in `s`, or -1. */
  function IndexOf(s: string, c: char): (r: int)
    ensures -1 <= r < |s|
    ensures r >= 0 ==> s[r] == c
  {
    if s == [] then -1
    else if s[0] == c then 0
    else
      var k := IndexOf(s[1..], c);
      if k < 0 then -1 else k + 1
  }

  /** No position before the one `IndexOf` reports, or none at all when it reports -1, holds `c`. */
  lemma {:induction false} IndexOfFirst(s: string, c: char)
    ensures forall j :: 0 <= j < |s| && (IndexOf(s, c) < 0 || j < IndexOf(s, c)) ==> s[j] != c
  {
    if s != [] && s[0] != c {
      IndexOfFirst(s[1..], c);
      forall j | 1 <= j < |s|
        ensures s[j] == s[1..][j - 1]
      {
      }
    }
  }

  /** `IndexOf` reports a position that holds `c` when no earlier position does. */
  lemma {:induction false} IndexOfAt(s: string, c: char, k: int)
    requires 0 <= k < |s| && s[k] == c
    requires forall j :: 0 <= j < k ==> s[j] != c
    ensures IndexOf(s, c) == k
  {
    if k > 0 {
      assert s[0] != c;
      IndexOfAt(s[1..], c, k - 1);
    }
  }

  /** The lines of `s` that are terminated by a newline, cut off one by one at the first newline. */
  function CompleteLines(s: string): seq<string>
    decreases |s|
  {
    var i := IndexOf(s, '\n');
    if i < 0 then [] else [s[..i]] + CompleteLines(s[i + 1..])
  }

  /** The text after the last newline of `s`: what is left once the complete lines are cut off. */
  function Remainder(s: string): string
    decreases |s|
  {
    var i := IndexOf(s, '\n');
    if i < 0 then s else Remainder(s[i + 1..])
  }

  /** Every line of `s`: the complete ones and a non-empty remainder. */
  function AllLines(s: string): seq<string>
  {
    CompleteLines(s) + (if Remainder(s) == [] then [] else [Remainder(s)])
  }

  /** The text made of `lines`, each followed by a newline, and then `rest`. */
  function Unsplit(lines: seq<string>, rest: string): string
  {
    if lines == [] then rest else lines[0] + "\n" + Unsplit(lines[1..], rest)
  }

  /** No complete line of the text holds a newline, and neither does the remainder. */
  lemma {:induction false} LinesHaveNoNewline(s: string)
    ensures forall k :: 0 <= k < |CompleteLines(s)| ==> '\n' !in CompleteLines(s)[k]
    ensures '\n' !in Remainder(s)
    decreases |s|
  {
    IndexOfFirst(s, '\n');
    var i := IndexOf(s, '\n');
    if i >= 0 {
      LinesHaveNoNewline(s[i + 1..]);
      assert '\n' !in s[..i] by {
        forall j | 0 <= j < i
          ensures s[..i][j] != '\n'
        {
        }
      }
      assert CompleteLines(s) == [s[..i]] + CompleteLines(s[i + 1..]);
    }
  }

  /** No line emitted for the text, the flushed remainder included, holds a newline. */
  lemma AllLinesHaveNoNewline(s: string)
    ensures forall k :: 0 <= k < |AllLines(s)| ==> '\n' !in AllLines(s)[k]
  {
    LinesHaveNoNewline(s);
  }

  /** Nothing is lost: the complete lines with their newlines, then the remainder, are the text. */
  lemma {:induction false} UnsplitLines(s: string)
    ensures Unsplit(CompleteLines(s), Remainder(s)) == s
    decreases |s|
  {
    var i := IndexOf(s, '\n');
    if i >= 0 {
      var line, rest := s[..i], s[i + 1..];
      UnsplitCons(line, CompleteLines(rest), Remainder(rest));
      UnsplitLines(rest);
      SplitAt(s, i);
    }
  }

  lemma UnsplitCons(line: string, lines: seq<string>, rest: string)
    ensures Unsplit([line] + lines, rest) == line + "\n" + Unsplit(lines, rest)
  {
    assert ([line] + lines)[1..] == lines;
  }

  lemma SplitAt(s: string, i: int)
    requires 0 <= i < |s|
    ensures s == s[..i] + [s[i]] + s[i + 1..]
  {
  }

  /** Conversely the split is unique: newline-free lines and rest are recovered from their text. */
  lemma {:induction false} LinesOfUnsplit(lines: seq<string>, rest: string)
    requires forall k :: 0 <= k < |lines| ==> '\n' !in lines[k]
    requires '\n' !in rest
    ensures CompleteLines(Unsplit(lines, rest)) == lines
    ensures Remainder(Unsplit(lines, rest)) == rest
    decreases |lines|
  {
    var s := Unsplit(lines, rest);
    if lines != [] {
      var tail := Unsplit(lines[1..], rest);
      FirstLine(lines[0], tail);
      LinesOfUnsplit(lines[1..], rest);
    }
  }

  /** The first newline of `line + "\n" + tail` is the one after a newline-free `line`. */
  lemma FirstLine(line: string, tail: string)
    requires '\n' !in line
    ensures var s := line + "\n" + tail;
      IndexOf(s, '\n') == |line| && s[..|line|] == line && s[|line| + 1..] == tail
  {
    var s := line + "\n" + tail;
    forall j | 0 <= j < |line|
      ensures s[j] != '\n'
    {
      assert s[j] == line[j];
    }
    IndexOfAt(s, '\n', |line|);
    assert s[..|line|] == line;
    assert s[|line| + 1..] == tail;
  }

  /**
   * Appending a chunk: the complete lines of the longer text are the old ones
   * and then those completed by the old remainder followed by the chunk.
   */
  lemma LinesAppend(t: string, chunk: string)
    ensures CompleteLines(t + chunk) == CompleteLines(t) + CompleteLines(Remainder(t) + chunk)
    ensures Remainder(t + chunk) == Remainder(Remainder(t) + chunk)
  {
    CompleteLinesAppend(t, chunk);
    RemainderAppend(t, chunk);
  }

  lemma {:induction false} CompleteLinesAppend(t: string, chunk: string)
    ensures CompleteLines(t + chunk) == CompleteLines(t) + CompleteLines(Remainder(t) + chunk)
    decreases |t|
  {
    var i := IndexOf(t, '\n');
    if i >= 0 {
      var line, rest := t[..i], t[i + 1..];
      IndexOfAppend(t, chunk, '\n');
      SliceAppend(t, chunk, i);
      CompleteLinesAppend(rest, chunk);
      AppendAssoc([line], CompleteLines(rest), CompleteLines(Remainder(rest) + chunk));
    }
  }

  lemma {:induction false} RemainderAppend(t: string, chunk: string)
    ensures Remainder(t + chunk) == Remainder(Remainder(t) + chunk)
    decreases |t|
  {
    var i := IndexOf(t, '\n');
    if i >= 0 {
      IndexOfAppend(t, chunk, '\n');
      SliceAppend(t, chunk, i);
      RemainderAppend(t[i + 1..], chunk);
    }
  }

  lemma SliceAppend(t: string, chunk: string, i: int)
    requires 0 <= i < |t|
    ensures (t + chunk)[..i] == t[..i] && (t + chunk)[i + 1..] == t[i + 1..] + chunk
  {
  }

  /** A character found in `t` is found at the same place in any extension of `t`. */
  lemma {:induction false} IndexOfAppend(t: string, chunk: string, c: char)
    requires IndexOf(t, c) >= 0
    ensures IndexOf(t + chunk, c) == IndexOf(t, c)
  {
    if t[0] != c {
      assert (t + chunk)[1..] == t[1..] + chunk;
      IndexOfAppend(t[1..], chunk, c);
    }
  }

  /** The number of newlines in `s`. */
  function NewlineCount(s: string): nat
  {
    if s == [] then 0 else (if s[0] == '\n' then 1 else 0) + NewlineCount(s[1..])
  }

  lemma {:induction false} NewlineCountSplit(a: string, b: string)
    ensures NewlineCount(a + b) == NewlineCount(a) + NewlineCount(b)
    decreases |a|
  {
    if a == [] {
      assert a + b == b;
    } else {
      assert (a + b)[0] == a[0];
      assert (a + b)[1..] == a[1..] + b;
      NewlineCountSplit(a[1..], b);
    }
  }

  lemma {:induction false} NoNewlineCount(s: string)
    requires forall j :: 0 <= j < |s| ==> s[j] != '\n'
    ensures NewlineCount(s) == 0
    decreases |s|
  {
    if s != [] {
      assert forall j :: 0 <= j < |s| - 1 ==> s[1..][j] == s[j + 1];
      NoNewlineCount(s[1..]);
    }
  }

  /** One complete line per newline. */
  lemma {:induction false} CompleteLinesCount(s: string)
    ensures |CompleteLines(s)| == NewlineCount(s)
    decreases |s|
  {
    IndexOfFirst(s, '\n');
    var i := IndexOf(s, '\n');
    if i >= 0 {
      assert s == s[..i] + s[i..];
      NewlineCountSplit(s[..i], s[i..]);
      NoNewlineCount(s[..i]);
      assert s[i..][0] == '\n' && s[i..][1..] == s[i + 1..];
      CompleteLinesCount(s[i + 1..]);
    } else {
      NoNewlineCount(s);
    }
  }

  /**
   * Reading a list of chunks in two batches: the lines of the whole are the
   * complete lines of the first batch, then the lines of what was left
   * buffered followed by the second batch.
   */
  lemma AllLinesOfChunks(a: seq<string>, b: seq<string>)
    ensures AllLines(Concat(a + b))
         == CompleteLines(Concat(a)) + AllLines(Remainder(Concat(a)) + Concat(b))
  {
    var t, c := Concat(a), Concat(b);
    ConcatAppend(a, b);
    LinesAppend(t, c);
    var r := Remainder(Remainder(t) + c);
    AppendAssoc(CompleteLines(t), CompleteLines(Remainder(t) + c), if r == [] then [] else [r]);
  }

  /** No chunk gives no line; two newlines give two empty lines and nothing more. */
  lemma SplitExamples()
    ensures AllLines("") == []
    ensures AllLines("\n\n") == ["", ""]
  {
    assert IndexOf("\n\n", '\n') == 0;
    assert "\n\n"[1..] == "\n" && IndexOf("\n", '\n') == 0;
    assert "\n"[1..] == "";
  }

  /** The label `numberLines` gives to line `k`: `${k}: ${line}`. */
  function NumberedLine(k: nat, line: string): string
  {
    DecimalString(k) + ": " + line
  }

  /** The output of `numberLines` for `lines`, counting from 0. */
  function Numbered(lines: seq<string>): seq<string>
  {
    seq(|lines|, k requires 0 <= k < |lines| => NumberedLine(k, lines[k]))
  }

  /** Numbering one more line appends exactly its labelled copy. */
  lemma NumberedAppend(lines: seq<string>, line: string)
    ensures Numbered(lines + [line]) == Numbered(lines) + [NumberedLine(|lines|, line)]
  {
  }

  /**
   * A numbered line can be taken apart again: the digits before `": "` read
   * back as its position and the text after them is the original line.
   */
  lemma NumberedLineParts(k: nat, line: string)
    ensures var out := NumberedLine(k, line);
      var d := |DecimalString(k)|;
      && d + 2 <= |out|
      && IsDigitWord(out[..d]) && DecimalValue(out[..d]) == k
      && out[d..d + 2] == ": "
      && out[d + 2..] == line
  {
    var out := NumberedLine(k, line);
    var d := |DecimalString(k)|;
    assert out[..d] == DecimalString(k);
    assert out[d + 2..] == line;
    DecimalRoundTrip(k);
  }
}

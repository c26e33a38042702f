/**
 * Reference definitions for the word pipeline shared by the push and the pull
 * mode: which characters form words, the words of a text, which words are
 * numbers and their value, and running sums.
 */
module Tokens {
  import opened Stages

  /** The regular expression `^[A-Za-z0-9]$` tested on one character. */
  predicate IsWordChar(ch: char)
  {
    ('A' <= ch <= 'Z') || ('a' <= ch <= 'z') || ('0' <= ch <= '9')
  }

  /** The character class `[A-Za-z0-9]`, listed out. */
  const Uppercase: set<char> :=
    {'A', 'B', 'C', 'D', 'E', 'F', 'G', 'H', 'I', 'J', 'K', 'L', 'M', 'N', 'O', 'P', 'Q', 'R', 'S',
     'T', 'U', 'V', 'W', 'X', 'Y', 'Z'}
  const Lowercase: set<char> :=
    {'a', 'b', 'c', 'd', 'e', 'f', 'g', 'h', 'i', 'j', 'k', 'l', 'm', 'n', 'o', 'p', 'q', 'r', 's',
     't', 'u', 'v', 'w', 'x', 'y', 'z'}
  const Digits: set<char> := {'0', '1', '2', '3', '4', '5', '6', '7', '8', '9'}
  const WordCharacters: set<char> := Uppercase + Lowercase + Digits

  /** The range test accepts exactly the listed letters and digits. */
  lemma WordCharsAreAlphanumerics(ch: char)
    ensures IsWordChar(ch) <==> ch in WordCharacters
  {
    UppercaseRange(ch);
    LowercaseRange(ch);
    DigitRange(ch);
  }

  lemma UppercaseRange(ch: char)
    ensures 'A' <= ch <= 'Z' <==> ch in Uppercase
  {
    var k := ch as int;
    assert ch == k as char;
    if 'A' <= ch <= 'Z' {
      assert k in {65, 66, 67, 68, 69, 70, 71, 72, 73, 74, 75, 76, 77, 78, 79, 80, 81, 82, 83, 84, 85, 86,
                   87, 88, 89, 90};
    }
  }

  lemma LowercaseRange(ch: char)
    ensures 'a' <= ch <= 'z' <==> ch in Lowercase
  {
    var k := ch as int;
    assert ch == k as char;
    if 'a' <= ch <= 'z' {
      assert k in {97, 98, 99, 100, 101, 102, 103, 104, 105, 106, 107, 108, 109, 110, 111, 112, 113,
                   114, 115, 116, 117, 118, 119, 120, 121, 122};
    }
  }

  lemma DigitRange(ch: char)
    ensures '0' <= ch <= '9' <==> ch in Digits
  {
    var k := ch as int;
    assert ch == k as char;
    if '0' <= ch <= '9' {
      assert k in {48, 49, 50, 51, 52, 53, 54, 55, 56, 57};
    }
  }

  predicate AllWordChars(s: string)
  {
    forall i :: 0 <= i < |s| ==> IsWordChar(s[i])
  }

  /** `s` is empty or its last character is not a word character. */
  predicate EndsOutsideWord(s: string)
  {
    s == [] || !IsWordChar(s[|s| - 1])
  }

  /** The length of the longest prefix of `s` made of word characters. */
  function RunLength(s: string): (n: nat)
    ensures n <= |s| && AllWordChars(s[..n])
    ensures n == |s| || !IsWordChar(s[n])
  {
    if s == [] || !IsWordChar(s[0]) then 0
    else
      var k := RunLength(s[1..]);
      assert s[..k + 1] == [s[0]] + s[1..][..k];
      k + 1
  }

  /** The prefix-run length is determined by the two facts its contract states. */
  lemma RunLengthUnique(s: string, n: nat)
    requires n <= |s| && AllWordChars(s[..n])
    requires n == |s| || !IsWordChar(s[n])
    ensures RunLength(s) == n
  {
    var m := RunLength(s);
    if m < n {
      RunPrefixIsWord(s, n, m);
    } else if n < m {
      RunPrefixIsWord(s, m, n);
    }
  }

  lemma RunPrefixIsWord(s: string, n: nat, k: nat)
    requires n <= |s| && AllWordChars(s[..n]) && k < n
    ensures IsWordChar(s[k])
  {
    assert s[..n][k] == s[k];
  }

  /**
   * The words of `s`: its maximal runs of word characters, left to right.
   * Every other character only separates words.
   */
  function Words(s: string): seq<string>
    decreases |s|
  {
    if s == [] then []
    else if !IsWordChar(s[0]) then Words(s[1..])
    else
      var n := RunLength(s);
      [s[..n]] + Words(s[n..])
  }

  /** Every word is a non-empty run of word characters. */
  lemma {:induction false} WordsAreRuns(s: string)
    ensures forall i :: 0 <= i < |Words(s)| ==> Words(s)[i] != [] && AllWordChars(Words(s)[i])
    decreases |s|
  {
    if s != [] {
      if !IsWordChar(s[0]) {
        WordsAreRuns(s[1..]);
      } else {
        WordsAreRuns(s[RunLength(s)..]);
      }
    }
  }

  /** The word that is flushed for a pending run `w`: none if `w` is empty. */
  function Flush(w: string): seq<string>
  {
    if w == [] then [] else [w]
  }

  /** A single run of word characters is one word. */
  lemma WordsOfRun(w: string)
    requires AllWordChars(w)
    ensures Words(w) == Flush(w)
  {
    if w != [] {
      RunLengthUnique(w, |w|);
      assert w[..|w|] == w;
    }
  }

  /** Splitting a text right after a non-word character splits its words. */
  lemma {:induction false} WordsConcat(a: string, b: string)
    requires EndsOutsideWord(a)
    ensures Words(a + b) == Words(a) + Words(b)
    decreases |a|
  {
    if a == [] {
      assert a + b == b;
    } else if !IsWordChar(a[0]) {
      assert (a + b)[1..] == a[1..] + b;
      WordsConcat(a[1..], b);
    } else {
      var n := RunLength(a);
      assert (a + b)[..n] == a[..n];
      RunLengthUnique(a + b, n);
      assert (a + b)[n..] == a[n..] + b;
      WordsConcat(a[n..], b);
    }
  }

  /**
   * The text `x + w` where `w` is the trailing run of word characters: its
   * words are those of `x` and then `w`, if any.
   */
  lemma WordsWithPending(x: string, w: string)
    requires EndsOutsideWord(x) && AllWordChars(w)
    ensures Words(x + w) == Words(x) + Flush(w)
  {
    WordsConcat(x, w);
    WordsOfRun(w);
  }

  /** A non-word character after the pending run `w` completes it. */
  lemma WordsCloseRun(x: string, w: string, c: char)
    requires EndsOutsideWord(x) && AllWordChars(w) && !IsWordChar(c)
    ensures Words(x + w + [c]) == Words(x) + Flush(w)
  {
    assert x + w + [c] == x + (w + [c]);
    WordsConcat(x, w + [c]);
    if w == [] {
      assert w + [c] == [c];
      assert [c][1..] == [];
    } else {
      assert (w + [c])[..|w|] == w;
      assert (w + [c])[0] == w[0];
      RunLengthUnique(w + [c], |w|);
      assert (w + [c])[|w|..] == [c];
      assert [c][1..] == [];
      assert Words([c]) == [];
    }
  }

  /** The characters of `s` that are word characters, in order. */
  function WordCharsOf(s: string): string
  {
    if s == [] then [] else (if IsWordChar(s[0]) then [s[0]] else []) + WordCharsOf(s[1..])
  }

  /**
   * No word character is lost and none is invented: the words, glued
   * together, are exactly the word characters of the text.
   */
  lemma {:induction false} WordsKeepWordChars(s: string)
    ensures Concat(Words(s)) == WordCharsOf(s)
    decreases |s|
  {
    if s == [] {
    } else if !IsWordChar(s[0]) {
      WordsKeepWordChars(s[1..]);
    } else {
      var n := RunLength(s);
      WordsKeepWordChars(s[n..]);
      ConcatPrepend(s[..n], Words(s[n..]));
      RunOfWordChars(s, n);
    }
  }

  lemma {:induction false} RunOfWordChars(s: string, n: nat)
    requires n <= |s| && AllWordChars(s[..n])
    ensures WordCharsOf(s) == s[..n] + WordCharsOf(s[n..])
    decreases n
  {
    if n > 0 {
      assert s[..n][0] == s[0];
      assert s[1..][..n - 1] == s[..n][1..];
      RunOfWordChars(s[1..], n - 1);
      assert s[1..][n - 1..] == s[n..];
      assert s[..n] == [s[0]] + s[1..][..n - 1];
    } else {
      assert s[..n] == [] && s[n..] == s;
    }
  }

  /** The demo input of both modes. */
  const DemoInput: string := "2 apples and 5 oranges."

  /** Words each followed by one separator character, written out as a text. */
  function Interleave(ws: seq<string>, seps: string): string
    requires |ws| == |seps|
  {
    if ws == [] then [] else ws[0] + [seps[0]] + Interleave(ws[1..], seps[1..])
  }

  /**
   * Tokenizing undoes writing: words separated by non-word characters are
   * recovered exactly.
   */
  lemma {:induction false} WordsOfInterleave(ws: seq<string>, seps: string)
    requires |ws| == |seps|
    requires forall i :: 0 <= i < |ws| ==> ws[i] != [] && AllWordChars(ws[i])
    requires forall i :: 0 <= i < |seps| ==> !IsWordChar(seps[i])
    ensures Words(Interleave(ws, seps)) == ws
    decreases |ws|
  {
    if ws != [] {
      WordsOfInterleave(ws[1..], seps[1..]);
      WordThenSeparator(ws[0], seps[0], Interleave(ws[1..], seps[1..]));
    }
  }

  /** The words of the demo input. */
  lemma ExampleWords()
    ensures Words(DemoInput) == ["2", "apples", "and", "5", "oranges"]
  {
    var ws := ["2", "apples", "and", "5", "oranges"];
    var seps := "    .";
    DemoInterleave();
    DemoPieces();
    WordsOfInterleave(ws, seps);
  }

  lemma DemoInterleave()
    ensures Interleave(["2", "apples", "and", "5", "oranges"], "    .") == DemoInput
  {
    var ws := ["2", "apples", "and", "5", "oranges"];
    var seps := "    .";
    assert Interleave(ws, seps) == DemoInput;
  }

  lemma DemoPieces()
    ensures var ws := ["2", "apples", "and", "5", "oranges"];
      forall i :: 0 <= i < |ws| ==> ws[i] != [] && AllWordChars(ws[i])
    ensures forall i :: 0 <= i < |"    ."| ==> !IsWordChar("    ."[i])
  {
  }

  lemma WordThenSeparator(w: string, c: char, rest: string)
    requires w != [] && AllWordChars(w) && !IsWordChar(c)
    ensures Words(w + [c] + rest) == [w] + Words(rest)
  {
    WordsConcat(w + [c], rest);
    WordsCloseRun([], w, c);
    assert [] + w + [c] == w + [c];
  }

  predicate IsDigit(ch: char)
  {
    '0' <= ch <= '9'
  }

  /** The regular expression `^[0-9]+$`: a non-empty word of decimal digits. */
  predicate IsDigitWord(w: string)
  {
    w != [] && forall i :: 0 <= i < |w| ==> IsDigit(w[i])
  }

  function DigitValue(ch: char): (d: nat)
    requires IsDigit(ch)
  {
    (ch as int) - ('0' as int)
  }

  function DigitChar(d: nat): (ch: char)
    requires d < 10
    ensures IsDigit(ch) && DigitValue(ch) == d
  {
    ('0' as int + d) as char
  }

  /** `Number(word)` for a word of decimal digits, as an exact natural number. */
  function DecimalValue(w: string): nat
    requires forall i :: 0 <= i < |w| ==> IsDigit(w[i])
  {
    if w == [] then 0 else 10 * DecimalValue(w[..|w| - 1]) + DigitValue(w[|w| - 1])
  }

  /** The decimal notation of `n`, as a template literal `${n}` writes it. */
  function DecimalString(n: nat): (s: string)
    ensures IsDigitWord(s)
  {
    if n < 10 then [DigitChar(n)] else DecimalString(n / 10) + [DigitChar(n % 10)]
  }

  /** Reading back the decimal notation of `n` gives `n`. */
  lemma {:induction false} DecimalRoundTrip(n: nat)
    ensures DecimalValue(DecimalString(n)) == n
  {
    if n >= 10 {
      var s := DecimalString(n);
      assert s[..|s| - 1] == DecimalString(n / 10);
      DecimalRoundTrip(n / 10);
    }
  }

  /** A digit word without a superfluous leading zero is its value's notation. */
  lemma {:induction false} DecimalCanonical(w: string)
    requires IsDigitWord(w) && (|w| == 1 || w[0] != '0')
    ensures DecimalString(DecimalValue(w)) == w
    decreases |w|
  {
    if |w| > 1 {
      var p := w[..|w| - 1];
      assert p[0] == w[0];
      LeadingDigitPositive(p);
      DecimalCanonical(p);
      assert w == p + [w[|w| - 1]];
    }
  }

  lemma {:induction false} LeadingDigitPositive(w: string)
    requires IsDigitWord(w) && w[0] != '0'
    ensures DecimalValue(w) >= 1
    decreases |w|
  {
    if |w| > 1 {
      var p := w[..|w| - 1];
      assert p[0] == w[0];
      LeadingDigitPositive(p);
    }
  }

  /** The numbers one word contributes: its value if it is a digit word. */
  function NumberOf(w: string): seq<nat>
  {
    if IsDigitWord(w) then [DecimalValue(w)] else []
  }

  /** The filter-and-map of `extractNumbers`: the values of the digit words. */
  function NumbersOf(ws: seq<string>): (ns: seq<nat>)
    ensures |ns| <= |ws|
  {
    if ws == [] then [] else NumbersOf(ws[..|ws| - 1]) + NumberOf(ws[|ws| - 1])
  }

  /** The filter keeps the order: it distributes over concatenation. */
  lemma {:induction false} NumbersOfConcat(a: seq<string>, b: seq<string>)
    ensures NumbersOf(a + b) == NumbersOf(a) + NumbersOf(b)
    decreases |b|
  {
    if b == [] {
      assert a + b == a;
    } else {
      assert (a + b)[..|a + b| - 1] == a + b[..|b| - 1];
      NumbersOfConcat(a, b[..|b| - 1]);
    }
  }

  /** A number is produced exactly when some digit word has that value. */
  lemma {:induction false} NumbersOfMembers(ws: seq<string>, n: nat)
    ensures n in NumbersOf(ws) <==> exists w :: w in ws && IsDigitWord(w) && DecimalValue(w) == n
    decreases |ws|
  {
    if ws != [] {
      var init := ws[..|ws| - 1];
      NumbersOfMembers(init, n);
      assert ws == init + [ws[|ws| - 1]];
      if exists w :: w in ws && IsDigitWord(w) && DecimalValue(w) == n {
        var w :| w in ws && IsDigitWord(w) && DecimalValue(w) == n;
        if w != ws[|ws| - 1] {
          assert w in init;
        }
      }
    }
  }

  function Sum(xs: seq<int>): int
  {
    if xs == [] then 0 else Sum(xs[..|xs| - 1]) + xs[|xs| - 1]
  }

  /** The running sums: the i-th output is the sum of the first i + 1 inputs. */
  function RunningSums(xs: seq<int>): (r: seq<int>)
    ensures |r| == |xs|
  {
    if xs == [] then [] else RunningSums(xs[..|xs| - 1]) + [Sum(xs)]
  }

  /** The i-th running sum is the sum of the first i + 1 inputs. */
  lemma {:induction false} RunningSumsAreSums(xs: seq<int>)
    ensures forall i :: 0 <= i < |xs| ==> RunningSums(xs)[i] == Sum(xs[..i + 1])
    decreases |xs|
  {
    if xs != [] {
      RunningSumsAreSums(xs[..|xs| - 1]);
      assert xs[..|xs|] == xs;
      PrefixOfInit(xs);
    }
  }

  lemma PrefixOfInit(xs: seq<int>)
    requires xs != []
    ensures forall j :: 0 <= j < |xs| ==> xs[..|xs| - 1][..j] == xs[..j]
  {
  }

  /** Running sums can be undone: consecutive differences give back the inputs. */
  lemma RunningSumsDifferences(xs: seq<int>)
    ensures |xs| > 0 ==> RunningSums(xs)[0] == xs[0]
    ensures forall i :: 0 < i < |xs| ==> RunningSums(xs)[i] - RunningSums(xs)[i - 1] == xs[i]
  {
    RunningSumsAreSums(xs);
    var r := RunningSums(xs);
    if |xs| > 0 {
      assert xs[..1][..0] == [];
    }
    forall i | 0 < i < |xs|
      ensures r[i] - r[i - 1] == xs[i]
    {
      assert xs[..i + 1][..i] == xs[..i];
    }
  }

  /** The documented example: 7, 4, -1 gives 7, 11, 10. */
  lemma RunningSumsExample()
    ensures RunningSums([7, 4, -1]) == [7, 11, 10]
  {
    var xs := [7, 4, -1];
    assert xs[..1] == [7] && xs[..2] == [7, 4] && xs[..3] == xs;
    assert [7, 4][..1] == [7] && [7][..0] == [];
  }

  lemma DemoNumbers()
    ensures NumbersOf(["2", "apples", "and", "5", "oranges"]) == [2, 5]
  {
    assert "apples"[0] == 'a' && "and"[0] == 'a' && "oranges"[0] == 'o';
    assert NumberOf("2") == [2] by { assert "2"[..0] == []; }
    assert NumberOf("5") == [5] by { assert "5"[..0] == []; }
    var a, b := ["2", "apples", "and"], ["5", "oranges"];
    assert a[..2][..1] == ["2"] && ["2"][..0] == [] && a[..2] == ["2", "apples"];
    assert NumbersOf(a) == [2];
    assert b[..1] == ["5"] && ["5"][..0] == [];
    assert NumbersOf(b) == [5];
    NumbersOfConcat(a, b);
    assert a + b == ["2", "apples", "and", "5", "oranges"];
  }

  /** The demo input, through all three steps: `2` and then `7`. */
  lemma DemoSums()
    ensures RunningSums(NumbersOf(Words(DemoInput))) == [2, 7]
  {
    ExampleWords();
    DemoNumbers();
    var ns: seq<int> := [2, 5];
    assert ns[..1] == [2] && [2][..0] == [];
  }
}

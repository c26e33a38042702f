/**
 * The pull-mode pipeline: each step asks the one before it for its next
 * item. `tokenize` pulls characters through `getNextItem`, which turns the
 * end of the character sequence into the marker `END_OF_SEQUENCE`;
 * `extractNumbers` keeps the digit words, as numbers; `summarize` yields the
 * running totals.
 */
module Pull {
  import opened Stages
  import opened Tokens

  /** What `getNextItem` returns: a character, or the end-of-sequence marker. */
  datatype Item = Char(ch: char) | EndOfSequence

  /** `isWordChar`: only a character can be a word character, never the marker. */
  predicate IsWordItem(item: Item)
  {
    item.Char? && IsWordChar(item.ch)
  }

  /**
   * `getNextItem` on an iterator over `chars` that has already handed out
   * `pos` items: the next character, or the marker once the iterator is done.
   */
  function GetNextItem(chars: string, pos: nat): (item: Item)
    ensures item == EndOfSequence <==> pos >= |chars|
    ensures pos < |chars| ==> item == Char(chars[pos])
    ensures IsWordItem(item) <==> pos < |chars| && IsWordChar(chars[pos])
  {
    if pos < |chars| then Char(chars[pos]) else EndOfSequence
  }

  /** The first `n` items `getNextItem` hands out for `chars`. */
  function Pulled(chars: string, n: nat): (items: seq<Item>)
    ensures |items| == n
  {
    seq(n, i requires 0 <= i < n => GetNextItem(chars, i))
  }

  lemma PulledNext(chars: string, n: nat)
    ensures Pulled(chars, n + 1) == Pulled(chars, n) + [GetNextItem(chars, n)]
  {
    assert Pulled(chars, n + 1)[..n] == Pulled(chars, n);
  }

  /**
   * `tokenize`: the words of `chars`, together with every item pulled from
   * the character iterator. Each character is pulled exactly once and in
   * order, then the marker once, and nothing after it.
   */
  method Tokenize(chars: string) returns (words: seq<string>, pulled: seq<Item>)
    ensures words == Words(chars)
    ensures |pulled| == |chars| + 1 && pulled[|chars|] == EndOfSequence
    ensures forall i :: 0 <= i < |chars| ==> pulled[i] == Char(chars[i])
  {
    words, pulled := [], [];
    var n := 0;
    var more := true;
    while more
      invariant n <= |chars| + 1 && pulled == Pulled(chars, n)
      invariant more ==> n <= |chars| && EndsOutsideWord(chars[..n]) && words == Words(chars[..n])
      invariant !more ==> n == |chars| + 1 && words == Words(chars)
      decreases |chars| + 1 - n
    {
      var ch := GetNextItem(chars, n);
      PulledNext(chars, n);
      pulled, n := pulled + [ch], n + 1;
      if IsWordItem(ch) {
        var word;
        word, ch, n, pulled := ReadWord(chars, n - 1, pulled);
        words := words + [word];
      } else if ch.Char? {
        WordsCloseRun(chars[..n - 1], [], ch.ch);
        assert chars[..n - 1] + [] + [ch.ch] == chars[..n];
      } else {
        assert chars[..n - 1] == chars;
      }
      more := ch != EndOfSequence;
    }
  }

  /**
   * The inner loop of `tokenize`: from the word character at `start`, pull
   * until an item that is not a word character. Returns the word, that item
   * and the new pull count, and the word's end has been reached.
   */
  method ReadWord(chars: string, start: nat, pulled0: seq<Item>)
    returns (word: string, ch: Item, n: nat, pulled: seq<Item>)
    requires start < |chars| && IsWordChar(chars[start])
    requires EndsOutsideWord(chars[..start]) && pulled0 == Pulled(chars, start + 1)
    ensures start < n <= |chars| + 1 && pulled == Pulled(chars, n) && ch == GetNextItem(chars, n - 1)
    ensures !IsWordItem(ch) && word == chars[start..n - 1] && AllWordChars(word) && word != []
    ensures ch.Char? ==> Words(chars[..n]) == Words(chars[..start]) + [word] && EndsOutsideWord(chars[..n])
    ensures !ch.Char? ==> n == |chars| + 1 && Words(chars) == Words(chars[..start]) + [word]
  {
    word := [chars[start]];
    n := start + 1;
    ch := GetNextItem(chars, n);
    PulledNext(chars, n);
    pulled, n := pulled0 + [ch], n + 1;
    while IsWordItem(ch)
      invariant start + 1 < n <= |chars| + 1 && pulled == Pulled(chars, n)
      invariant ch == GetNextItem(chars, n - 1)
      invariant word == chars[start..n - 1] && AllWordChars(word)
      decreases |chars| + 1 - n
    {
      assert chars[start..n] == word + [ch.ch];
      word := word + [ch.ch];
      ch := GetNextItem(chars, n);
      PulledNext(chars, n);
      pulled, n := pulled + [ch], n + 1;
    }
    if ch.Char? {
      WordsCloseRun(chars[..start], word, ch.ch);
      assert chars[..start] + word + [ch.ch] == chars[..n];
    } else {
      WordsWithPending(chars[..start], word);
      assert chars[..start] + word == chars;
    }
  }

  /**
   * `extractNumbers`, in the order its `for` loop visits the words: the
   * value of each digit word, and nothing for any other word.
   */
  function ExtractNumbers(words: seq<string>): (numbers: seq<nat>)
    ensures numbers == NumbersOf(words)
  {
    if words == [] then []
    else
      var rest := ExtractNumbers(words[1..]);
      NumbersOfFirst(words);
      NumberOf(words[0]) + rest
  }

  lemma NumbersOfFirst(words: seq<string>)
    requires words != []
    ensures NumbersOf(words) == NumberOf(words[0]) + NumbersOf(words[1..])
  {
    var w, rest := words[0], words[1..];
    assert words == [w] + rest;
    NumbersOfConcat([w], rest);
    assert [w][..0] == [];
    assert NumbersOf([w]) == NumberOf(w);
  }

  /** `summarize`: after each number, the total of the numbers so far. */
  method Summarize(numbers: seq<int>) returns (sums: seq<int>)
    ensures sums == RunningSums(numbers)
  {
    var result := 0;
    sums := [];
    for i := 0 to |numbers|
      invariant sums == RunningSums(numbers[..i]) && result == Sum(numbers[..i])
    {
      result := result + numbers[i];
      assert numbers[..i + 1][..i] == numbers[..i];
      sums := sums + [result];
    }
    assert numbers[..|numbers|] == numbers;
  }

  /** `summarize(extractNumbers(tokenize(chars)))`, pulled to the end. */
  method PullPipeline(chars: string) returns (sums: seq<int>)
    ensures sums == RunningSums(NumbersOf(Words(chars)))
  {
    var words, pulled := Tokenize(chars);
    sums := Summarize(ExtractNumbers(words));
  }

  /** The demo run: `[ 2, 7 ]`. */
  method PullExample() returns (sums: seq<int>)
    ensures sums == [2, 7]
  {
    sums := PullPipeline(DemoInput);
    DemoSums();
  }
}

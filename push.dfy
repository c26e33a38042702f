/**
 * The push-mode pipeline: stages that are called into with `Accept` (the
 * generator method `next(x)`) and `Finish` (the generator method `return()`),
 * each forwarding what it produces to the one downstream stage it was
 * created with. The demo chain is
 * Tokenizer -> NumberExtractor -> Adder -> ItemLog.
 *
 * Every stage keeps, besides its real state, ghost bookkeeping: the items
 * delivered to its body (`received`), whether its body started, how many
 * times it was told of the end of the stream (`finishCalls`), and what its
 * downstream had received when the two were linked (`prior`).
 */
module Push {
  import opened Stages
  import opened Tokens

  /** What the recording sink writes: an item, or the `DONE` of its `finally` block. */
  datatype LogLine = Logged(item: int) | Done

  function LogLines(xs: seq<int>): seq<LogLine>
  {
    seq(|xs|, i requires 0 <= i < |xs| => Logged(xs[i]))
  }

  /** `logItems`: the terminal sink, recording instead of printing. */
  class ItemLog {
    var phase: Phase
    var output: seq<LogLine>
    ghost var received: seq<int>
    ghost var started: bool
    ghost var finishCalls: nat
    ghost const Repr: set<object>

    ghost predicate Valid()
      reads this, Repr
    {
      && Repr == {this}
      && Lifecycle(phase, started, finishCalls, |received|)
      && output == LogLines(received) + (if Terminated(phase, started) then [Done] else [])
    }

    ghost predicate Ready()
      reads this
    {
      phase == Suspended && received == []
    }

    constructor ()
      ensures Valid() && fresh(Repr) && phase == Fresh
    {
      phase := Fresh;
      output := [];
      received := [];
      started := false;
      finishCalls := 0;
      Repr := {this};
    }

    /** The priming `next()` of `coroutine`: run the body up to its first `yield`. */
    method Prime()
      requires Valid() && phase == Fresh
      modifies this
      ensures Valid() && Ready() && output == []
    {
      phase := Suspended;
      started := true;
    }

    method Accept(x: int)
      requires Valid()
      modifies Repr
      ensures Valid()
      ensures phase == (if old(phase) == Fresh then Suspended else old(phase))
      ensures received == if old(phase) == Suspended then old(received) + [x] else old(received)
      ensures started == (old(started) || old(phase) == Fresh) && finishCalls == old(finishCalls)
    {
      if phase == Fresh {
        phase := Suspended;
        started := true;
      } else if phase == Suspended {
        output := output + [Logged(x)];
        received := received + [x];
        assert LogLines(received) == LogLines(old(received)) + [Logged(x)];
      }
    }

    method Finish()
      requires Valid()
      modifies Repr
      ensures Valid()
      ensures phase == Closed && started == old(started) && received == old(received)
      ensures finishCalls == old(finishCalls) + 1
    {
      if phase == Suspended {
        output := output + [Done];
      }
      phase := Closed;
      finishCalls := finishCalls + 1;
    }
  }

  /** `addNumbers`: one running sum out per number in, starting from 0. */
  class Adder {
    const receiver: ItemLog
    var phase: Phase
    var sum: int
    ghost var received: seq<int>
    ghost var started: bool
    ghost var finishCalls: nat
    ghost const prior: seq<int>
    ghost const Repr: set<object>

    ghost predicate Valid()
      reads this, Repr
    {
      && this in Repr && receiver in Repr && receiver.Repr <= Repr && this !in receiver.Repr
      && receiver.Valid()
      && Lifecycle(phase, started, finishCalls, |received|)
      && Follows(phase, started, receiver.phase, receiver.started, receiver.finishCalls)
      && sum == Sum(received)
      && receiver.received == prior + RunningSums(received)
    }

    ghost predicate Ready()
      reads this
    {
      phase == Suspended && received == []
    }

    constructor (receiver: ItemLog)
      requires receiver.Valid() && receiver.phase == Suspended
      ensures Valid() && phase == Fresh && this.receiver == receiver
      ensures Repr == {this} + receiver.Repr && prior == receiver.received
    {
      this.receiver := receiver;
      phase := Fresh;
      sum := 0;
      received := [];
      started := false;
      finishCalls := 0;
      prior := receiver.received;
      Repr := {this} + receiver.Repr;
    }

    /** The priming `next()` of `coroutine`: run the body up to its first `yield`. */
    method Prime()
      requires Valid() && phase == Fresh
      modifies this
      ensures Valid() && Ready()
    {
      phase := Suspended;
      started := true;
    }

    method Accept(n: int)
      requires Valid()
      modifies Repr
      ensures Valid()
      ensures phase == (if old(phase) == Fresh then Suspended else old(phase))
      ensures received == if old(phase) == Suspended then old(received) + [n] else old(received)
      ensures started == (old(started) || old(phase) == Fresh) && finishCalls == old(finishCalls)
    {
      if phase == Fresh {
        phase := Suspended;
        started := true;
      } else if phase == Suspended {
        sum, received := sum + n, received + [n];
        assert received[..|received| - 1] == old(received);
        receiver.Accept(sum);
      }
    }

    method Finish()
      requires Valid()
      modifies Repr
      ensures Valid()
      ensures phase == Closed && started == old(started) && received == old(received)
      ensures finishCalls == old(finishCalls) + 1
    {
      var running := phase == Suspended;
      phase, finishCalls := Closed, finishCalls + 1;
      if running {
        receiver.Finish();
      }
    }
  }

  /** `extractNumbers`: forwards `Number(word)` for the digit words and drops the rest. */
  class NumberExtractor {
    const receiver: Adder
    var phase: Phase
    ghost var received: seq<string>
    ghost var started: bool
    ghost var finishCalls: nat
    ghost const prior: seq<int>
    ghost const Repr: set<object>

    ghost predicate Valid()
      reads this, Repr
    {
      && this in Repr && receiver in Repr && receiver.Repr <= Repr && this !in receiver.Repr
      && receiver.Valid()
      && Lifecycle(phase, started, finishCalls, |received|)
      && Follows(phase, started, receiver.phase, receiver.started, receiver.finishCalls)
      && receiver.received == prior + NumbersOf(received)
    }

    ghost predicate Ready()
      reads this
    {
      phase == Suspended && received == []
    }

    constructor (receiver: Adder)
      requires receiver.Valid() && receiver.phase == Suspended
      ensures Valid() && phase == Fresh && this.receiver == receiver
      ensures Repr == {this} + receiver.Repr && prior == receiver.received
    {
      this.receiver := receiver;
      phase := Fresh;
      received := [];
      started := false;
      finishCalls := 0;
      prior := receiver.received;
      Repr := {this} + receiver.Repr;
    }

    /** The priming `next()` of `coroutine`: run the body up to its first `yield`. */
    method Prime()
      requires Valid() && phase == Fresh
      modifies this
      ensures Valid() && Ready()
    {
      phase := Suspended;
      started := true;
    }

    method Accept(word: string)
      requires Valid()
      modifies Repr
      ensures Valid()
      ensures phase == (if old(phase) == Fresh then Suspended else old(phase))
      ensures received == if old(phase) == Suspended then old(received) + [word] else old(received)
      ensures started == (old(started) || old(phase) == Fresh) && finishCalls == old(finishCalls)
    {
      if phase == Fresh {
        phase := Suspended;
        started := true;
      } else if phase == Suspended {
        received := received + [word];
        assert received[..|received| - 1] == old(received);
        if IsDigitWord(word) {
          receiver.Accept(DecimalValue(word));
        }
      }
    }

    method Finish()
      requires Valid()
      modifies Repr
      ensures Valid()
      ensures phase == Closed && started == old(started) && received == old(received)
      ensures finishCalls == old(finishCalls) + 1
    {
      var running := phase == Suspended;
      phase, finishCalls := Closed, finishCalls + 1;
      if running {
        receiver.Finish();
      }
    }
  }

  /**
   * `tokenize`: groups characters into words. A word is forwarded when the
   * first non-word character after it arrives, or, unfinished, at the end of
   * the stream just before the end is forwarded.
   */
  class Tokenizer {
    const receiver: NumberExtractor
    var phase: Phase
    /** The unfinished word; empty when the last character was not a word character. */
    var word: string
    ghost var received: seq<char>
    /** What was read before the unfinished word: all of its words are complete. */
    ghost var settled: string
    ghost var started: bool
    ghost var finishCalls: nat
    ghost const prior: seq<string>
    ghost const Repr: set<object>

    ghost predicate Valid()
      reads this, Repr
    {
      && this in Repr && receiver in Repr && receiver.Repr <= Repr && this !in receiver.Repr
      && receiver.Valid()
      && Lifecycle(phase, started, finishCalls, |received|)
      && Follows(phase, started, receiver.phase, receiver.started, receiver.finishCalls)
      && received == settled + word
      && EndsOutsideWord(settled) && AllWordChars(word)
      && receiver.received == prior + Words(settled) + (if Terminated(phase, started) then Flush(word) else [])
    }

    ghost predicate Ready()
      reads this
    {
      phase == Suspended && received == []
    }

    constructor (receiver: NumberExtractor)
      requires receiver.Valid() && receiver.phase == Suspended
      ensures Valid() && phase == Fresh && this.receiver == receiver
      ensures Repr == {this} + receiver.Repr && prior == receiver.received
    {
      this.receiver := receiver;
      phase := Fresh;
      word := [];
      received := [];
      settled := [];
      started := false;
      finishCalls := 0;
      prior := receiver.received;
      Repr := {this} + receiver.Repr;
    }

    /** The priming `next()` of `coroutine`: run the body up to its first `yield`. */
    method Prime()
      requires Valid() && phase == Fresh
      modifies this
      ensures Valid() && Ready()
    {
      phase := Suspended;
      started := true;
    }

    method Accept(ch: char)
      requires Valid()
      modifies Repr
      ensures Valid()
      ensures phase == (if old(phase) == Fresh then Suspended else old(phase))
      ensures received == if old(phase) == Suspended then old(received) + [ch] else old(received)
      ensures started == (old(started) || old(phase) == Fresh) && finishCalls == old(finishCalls)
    {
      if phase == Fresh {
        Prime();
      } else if phase == Suspended {
        if IsWordChar(ch) {
          word, received := word + [ch], received + [ch];
        } else {
          EndWord(ch);
        }
      }
    }

    /** A non-word character: forward the unfinished word, if any, and start a new one. */
    method EndWord(ch: char)
      requires Valid() && phase == Suspended && !IsWordChar(ch)
      modifies Repr
      ensures Valid() && phase == Suspended && started && finishCalls == old(finishCalls)
      ensures received == old(received) + [ch]
    {
      var w := word;
      WordsCloseRun(settled, w, ch);
      settled, word, received := received + [ch], [], received + [ch];
      if w != [] {
        receiver.Accept(w);
      }
    }

    method Finish()
      requires Valid()
      modifies Repr
      ensures Valid()
      ensures phase == Closed && started == old(started) && received == old(received)
      ensures finishCalls == old(finishCalls) + 1
    {
      var running := phase == Suspended;
      phase, finishCalls := Closed, finishCalls + 1;
      if running {
        if word != [] {
          receiver.Accept(word);
        }
        receiver.Finish();
      }
    }
  }

  /** `logItems()`: create the sink and prime it. */
  method LogItems() returns (log: ItemLog)
    ensures log.Valid() && log.Ready() && fresh(log.Repr)
  {
    log := new ItemLog();
    log.Prime();
  }

  /** `addNumbers(receiver)`: create the stage and prime it. */
  method AddNumbers(receiver: ItemLog) returns (stage: Adder)
    requires receiver.Valid() && receiver.phase == Suspended
    ensures stage.Valid() && stage.Ready() && fresh(stage) && stage.receiver == receiver
    ensures stage.Repr == {stage} + receiver.Repr && stage.prior == receiver.received
  {
    stage := new Adder(receiver);
    stage.Prime();
  }

  /** `extractNumbers(receiver)`: create the stage and prime it. */
  method ExtractNumbers(receiver: Adder) returns (stage: NumberExtractor)
    requires receiver.Valid() && receiver.phase == Suspended
    ensures stage.Valid() && stage.Ready() && fresh(stage) && stage.receiver == receiver
    ensures stage.Repr == {stage} + receiver.Repr && stage.prior == receiver.received
  {
    stage := new NumberExtractor(receiver);
    stage.Prime();
  }

  /** `tokenize(receiver)`: create the stage and prime it. */
  method Tokenize(receiver: NumberExtractor) returns (stage: Tokenizer)
    requires receiver.Valid() && receiver.phase == Suspended
    ensures stage.Valid() && stage.Ready() && fresh(stage) && stage.receiver == receiver
    ensures stage.Repr == {stage} + receiver.Repr && stage.prior == receiver.received
  {
    stage := new Tokenizer(receiver);
    stage.Prime();
  }

  /**
   * `send(iterable, receiver)`: push every item in order, then signal the end
   * of the stream once. The end reaches every stage of the chain once.
   */
  method Send(input: string, head: Tokenizer)
    requires head.Valid() && head.phase == Suspended
    modifies head.Repr
    ensures head.Valid()
    ensures head.phase == Closed && head.started && head.finishCalls == 1
    ensures head.received == old(head.received) + input
  {
    ghost var before := head.received;
    assert head.started && head.finishCalls == 0;
    for i := 0 to |input|
      invariant head.Valid() && head.phase == Suspended
      invariant head.started && head.finishCalls == 0
      invariant head.received == before + input[..i]
    {
      head.Accept(input[i]);
      assert input[..i + 1] == input[..i] + [input[i]];
      AppendAssoc(before, input[..i], [input[i]]);
    }
    assert input[..|input|] == input;
    head.Finish();
  }

  /** Once the head ran its `finally` blocks, every stage of the chain was told of the end once. */
  lemma EndReachesEveryStage(head: Tokenizer)
    requires head.Valid() && Terminated(head.phase, head.started)
    ensures head.receiver.finishCalls == 1 && head.receiver.receiver.finishCalls == 1
    ensures head.receiver.receiver.receiver.finishCalls == 1
    ensures Terminated(head.receiver.receiver.receiver.phase, head.receiver.receiver.receiver.started)
  {
    var numbers := head.receiver;
    assert numbers.Valid() && Terminated(numbers.phase, numbers.started);
    var adder := numbers.receiver;
    assert adder.Valid() && Terminated(adder.phase, adder.started);
  }

  /**
   * The demo chain `tokenize(extractNumbers(addNumbers(logItems())))`, every
   * stage created and primed, nothing received yet.
   */
  method NewChain() returns (head: Tokenizer)
    ensures head.Valid() && head.Ready() && fresh(head.Repr)
    ensures head.prior == [] && head.receiver.prior == [] && head.receiver.receiver.prior == []
  {
    var log := LogItems();
    var adder := AddNumbers(log);
    var numbers := ExtractNumbers(adder);
    head := Tokenize(numbers);
  }

  /**
   * The demo chain driven by `send`: the sink logs the running sums of the
   * numbers among the words of the input, then `DONE` once.
   */
  method PushPipeline(input: string) returns (output: seq<LogLine>)
    ensures output == LogLines(RunningSums(NumbersOf(Words(input)))) + [Done]
  {
    var head := NewChain();
    Send(input, head);
    assert head.received == input;
    ChainOutput(head);
    output := head.receiver.receiver.receiver.output;
  }

  /**
   * What the sink of a terminated chain holds, when no stage had received
   * anything before it was linked: the running sums of the numbers among the
   * words of everything pushed into the head, then `DONE`.
   */
  lemma ChainOutput(head: Tokenizer)
    requires head.Valid() && Terminated(head.phase, head.started)
    requires head.prior == [] && head.receiver.prior == [] && head.receiver.receiver.prior == []
    ensures head.receiver.receiver.receiver.output == LogLines(RunningSums(NumbersOf(Words(head.received)))) + [Done]
  {
    var numbers := head.receiver;
    var adder := numbers.receiver;
    var log := adder.receiver;
    assert Terminated(numbers.phase, numbers.started);
    assert Terminated(adder.phase, adder.started);
    assert Terminated(log.phase, log.started);
    WordsWithPending(head.settled, head.word);
    assert numbers.received == Words(head.received);
    assert adder.received == NumbersOf(numbers.received);
    assert log.received == RunningSums(adder.received);
  }

  /** The demo run: `2`, `7`, then `DONE`. */
  method PushExample() returns (output: seq<LogLine>)
    ensures output == [Logged(2), Logged(7), Done]
  {
    output := PushPipeline(DemoInput);
    DemoSums();
    assert LogLines([2, 7]) == [Logged(2), Logged(7)];
  }
}

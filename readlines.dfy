/**
 * The line-processing chain: stages made by `splitLines`, `numberLines` and
 * `printLines`, linked and primed by `chain`, and fed text chunks by the
 * reader, which calls `next(chunk)` per chunk and `return()` at the end of
 * the file.
 *
 * All three kinds of stage are one class: a stage made by the last generator
 * function of a chain has no target, every other stage forwards to the one
 * after it. Every stage keeps, besides its real state, ghost bookkeeping:
 * the items delivered to its body (`received`), whether its body started,
 * how many times it was told of the end of the stream (`finishCalls`), and
 * what its target had received when the two were linked (`prior`).
 */
module ReadLines {
  import opened Stages
  import opened Lines

  /** Which generator function made a stage. */
  datatype LineKind = SplitLines | NumberLines | PrintLines

  class LineStage {
    const kind: LineKind
    /** The stage this one forwards to; `printLines` takes none. */
    const target: LineStage?
    var phase: Phase
    /** `splitLines`: the text read after the last newline. */
    var previous: string
    /** `numberLines`: the number the next line gets. */
    var lineNo: nat
    /** `printLines`: the lines written to the console, in order. */
    var printed: seq<string>
    ghost var received: seq<string>
    ghost var started: bool
    ghost var finishCalls: nat
    ghost const prior: seq<string>
    ghost const Repr: set<object>

    /** The shape of the chain from this stage on; it only involves constant fields. */
    ghost predicate Linked()
      decreases Repr
    {
      && this in Repr
      && (kind == PrintLines <==> target == null)
      && (target == null ==> Repr == {this})
      && (target != null ==>
           && target in Repr && target.Repr <= Repr && this !in target.Repr
           && Repr == {this} + target.Repr
           && target.Linked())
    }

    /** The kinds of the stages from this one to the end of the chain. */
    ghost function Kinds(): seq<LineKind>
      requires Linked()
      decreases Repr
    {
      [kind] + if target == null then [] else target.Kinds()
    }

    /** No stage from this one on had received anything when it was linked to its target. */
    ghost predicate NoPrior()
      requires Linked()
      decreases Repr
    {
      prior == [] && (target != null ==> target.NoPrior())
    }

    /** What this stage has forwarded to its target, given what it received. */
    ghost function Output(): seq<string>
      reads this
    {
      match kind
      case SplitLines =>
        var text := Concat(received);
        if Terminated(phase, started) then AllLines(text) else CompleteLines(text)
      case NumberLines => Numbered(received)
      case PrintLines => []
    }

    ghost predicate Valid()
      reads this, Repr
      decreases Repr
    {
      && Linked()
      && Lifecycle(phase, started, finishCalls, |received|)
      && (match kind
          case SplitLines => previous == Remainder(Concat(received))
          case NumberLines => lineNo == |received|
          case PrintLines => printed == received)
      && (target != null ==>
           && target.Valid()
           && Follows(phase, started, target.phase, target.started, target.finishCalls)
           && target.received == prior + Output())
    }

    ghost predicate Ready()
      reads this
    {
      phase == Suspended && received == []
    }

    /** Every stage from this one on is primed and has received nothing. */
    ghost predicate Idle()
      requires Linked()
      reads Repr
      decreases Repr
    {
      phase == Suspended && received == [] && (target != null ==> target.Idle())
    }

    /** Calling the generator function: the body does not run yet. */
    constructor (kind: LineKind, target: LineStage?)
      requires kind == PrintLines <==> target == null
      requires target != null ==> target.Valid() && target.phase == Suspended
      ensures Valid() && phase == Fresh && this.kind == kind && this.target == target
      ensures Repr == {this} + (if target == null then {} else target.Repr)
      ensures prior == if target == null then [] else target.received
    {
      this.kind := kind;
      this.target := target;
      phase := Fresh;
      previous := [];
      lineNo := 0;
      printed := [];
      received := [];
      started := false;
      finishCalls := 0;
      prior := if target == null then [] else target.received;
      Repr := {this} + (if target == null then {} else target.Repr);
    }

    /** The first `next()`: run the body up to its first `yield`. */
    method Prime()
      requires Valid() && phase == Fresh
      modifies this
      ensures Valid() && Ready()
    {
      phase := Suspended;
      started := true;
    }

    /** `next(x)`: deliver `x` to a suspended body; a fresh one only starts. */
    method Accept(x: string)
      requires Valid()
      modifies Repr
      decreases Repr, 1
      ensures Valid()
      ensures phase == (if old(phase) == Fresh then Suspended else old(phase))
      ensures received == if old(phase) == Suspended then old(received) + [x] else old(received)
      ensures started == (old(started) || old(phase) == Fresh) && finishCalls == old(finishCalls)
    {
      if phase == Fresh {
        Prime();
      } else if phase == Suspended {
        match kind
        case SplitLines => SplitChunk(x);
        case NumberLines => NumberLine(x);
        case PrintLines =>
          printed, received := printed + [x], received + [x];
      }
    }

    /** `splitLines`: append the chunk, then forward every line it completed. */
    method SplitChunk(chunk: string)
      requires Valid() && kind == SplitLines && phase == Suspended
      modifies Repr
      decreases Repr, 0
      ensures Valid() && phase == Suspended && started == old(started) && finishCalls == old(finishCalls)
      ensures received == old(received) + [chunk]
    {
      ghost var before := Concat(received);
      ghost var text := before + chunk;
      assert (received + [chunk])[..|received|] == received;
      LinesAppend(before, chunk);
      AppendAssoc(prior, CompleteLines(before), CompleteLines(previous + chunk));
      previous, received := previous + chunk, received + [chunk];
      var eol := IndexOf(previous, '\n');
      while eol >= 0
        invariant Linked() && target.Valid() && target.phase == Suspended
        invariant target.started && target.finishCalls == 0
        invariant phase == Suspended && started == old(started) && finishCalls == old(finishCalls)
        invariant received == old(received) + [chunk] && Concat(received) == text
        invariant eol == IndexOf(previous, '\n')
        invariant target.received + CompleteLines(previous) == prior + CompleteLines(text)
        invariant Remainder(previous) == Remainder(text)
        decreases |previous|
      {
        var line := previous[..eol];
        AppendAssoc(target.received, [line], CompleteLines(previous[eol + 1..]));
        previous := previous[eol + 1..];
        target.Accept(line);
        eol := IndexOf(previous, '\n');
      }
      assert CompleteLines(previous) == [] && Remainder(previous) == previous;
      assert target.received == prior + CompleteLines(text);
    }

    /** `numberLines`: forward the line with its number in front. */
    method NumberLine(line: string)
      requires Valid() && kind == NumberLines && phase == Suspended
      modifies Repr
      decreases Repr, 0
      ensures Valid() && phase == Suspended && started == old(started) && finishCalls == old(finishCalls)
      ensures received == old(received) + [line]
    {
      NumberedAppend(received, line);
      var n := lineNo;
      lineNo, received := lineNo + 1, received + [line];
      target.Accept(NumberedLine(n, line));
    }

    /**
     * `return()`: a suspended body runs its `finally` block (`splitLines`
     * first forwards a non-empty rest as the last line; `printLines` has no
     * such block), then every generator is closed.
     */
    method Finish()
      requires Valid()
      modifies Repr
      decreases Repr, 1
      ensures Valid()
      ensures phase == Closed && started == old(started) && received == old(received)
      ensures finishCalls == old(finishCalls) + 1
    {
      var running := phase == Suspended;
      phase, finishCalls := Closed, finishCalls + 1;
      if running && kind != PrintLines {
        if kind == SplitLines && |previous| > 0 {
          target.Accept(previous);
        }
        target.Finish();
      }
    }

    /** Once this stage ran its `finally` block, the end reached every stage after it exactly once. */
    lemma {:induction false} EndReachesEveryStage()
      requires Valid() && Terminated(phase, started)
      ensures FinishedOnce()
      decreases Repr
    {
      if target != null {
        target.EndReachesEveryStage();
      }
    }

    /** Every stage after this one was told of the end of the stream once and closed after it had started. */
    ghost predicate FinishedOnce()
      requires Linked()
      reads Repr
      decreases Repr
    {
      target != null ==>
        target.finishCalls == 1 && Terminated(target.phase, target.started) && target.FinishedOnce()
    }
  }

  /**
   * `chain(...generatorFunctions)`: create the last stage without a target,
   * then, from the back, each stage linked to the one after it, priming each
   * as it is created.
   */
  method Chain(kinds: seq<LineKind>) returns (r: Result<LineStage>)
    requires kinds != [] ==> kinds[|kinds| - 1] == PrintLines
    requires forall i :: 0 <= i < |kinds| - 1 ==> kinds[i] != PrintLines
    ensures r.Failure? <==> kinds == []
    ensures r.Failure? ==> r.error == "Need at least 1 argument"
    ensures r.Success? ==> r.value.Valid() && r.value.Idle() && r.value.NoPrior()
    ensures r.Success? ==> r.value.Kinds() == kinds && fresh(r.value.Repr)
  {
    if |kinds| < 1 {
      return Failure("Need at least 1 argument");
    }
    var stage := Start(kinds[|kinds| - 1]);
    ghost var rest := [kinds[|kinds| - 1]];
    for i := |kinds| - 1 downto 0
      invariant stage.Valid() && stage.Idle() && stage.NoPrior()
      invariant rest == kinds[i..]
      invariant stage.Kinds() == rest && fresh(stage.Repr)
    {
      stage := Link(kinds[i], stage);
      DropCons(kinds, i);
      rest := [kinds[i]] + rest;
    }
    return Success(stage);
  }

  /** The start of `chain`: call the last generator function without a target, then prime it. */
  method Start(kind: LineKind) returns (stage: LineStage)
    requires kind == PrintLines
    ensures stage.Valid() && stage.Idle() && stage.NoPrior()
    ensures stage.Kinds() == [kind] && fresh(stage.Repr)
  {
    stage := new LineStage(kind, null);
    stage.Prime();
  }

  /** One step of `chain`: call the generator function on the stage after it, then prime the new stage. */
  method Link(kind: LineKind, target: LineStage) returns (stage: LineStage)
    requires kind != PrintLines
    requires target.Valid() && target.Idle() && target.NoPrior()
    ensures stage.Valid() && stage.Idle() && stage.NoPrior()
    ensures stage.Kinds() == [kind] + target.Kinds()
    ensures fresh(stage) && stage.Repr == {stage} + target.Repr
  {
    stage := new LineStage(kind, target);
    stage.Prime();
  }

  /**
   * `readFile`: the file arrives as a sequence of chunks; each is passed on
   * with `next`, and the end of the file with one `return()`.
   */
  method ReadFile(chunks: seq<string>, target: LineStage)
    requires target.Valid() && target.phase == Suspended
    modifies target.Repr
    ensures target.Valid() && Terminated(target.phase, target.started) && target.finishCalls == 1
    ensures target.received == old(target.received) + chunks
  {
    ghost var before := target.received;
    for i := 0 to |chunks|
      invariant target.Valid() && target.phase == Suspended
      invariant target.received == before + chunks[..i]
    {
      target.Accept(chunks[i]);
      assert chunks[..i + 1] == chunks[..i] + [chunks[i]];
      AppendAssoc(before, chunks[..i], [chunks[i]]);
    }
    assert chunks[..|chunks|] == chunks;
    target.Finish();
  }

  /**
   * What the console shows once a terminated `splitLines -> numberLines ->
   * printLines` chain has been fed `chunks`: every line of the text, complete
   * or not, with its number, however the text was cut into chunks.
   */
  lemma ChainOutput(head: LineStage)
    requires head.Valid() && Terminated(head.phase, head.started) && head.NoPrior()
    requires head.Kinds() == [SplitLines, NumberLines, PrintLines]
    ensures head.target != null && head.target.target != null
    ensures head.target.target.printed == Numbered(AllLines(Concat(head.received)))
  {
    assert head.Kinds()[0] == head.kind && head.Kinds()[1..] == head.target.Kinds();
    var numbers := head.target;
    assert numbers.Kinds()[0] == numbers.kind && numbers.Kinds()[1..] == numbers.target.Kinds();
    var printer := numbers.target;
    assert head.prior == [] && numbers.prior == [];
    assert numbers.Valid() && Terminated(numbers.phase, numbers.started);
    assert numbers.received == AllLines(Concat(head.received));
    assert printer.Valid() && printer.kind == PrintLines;
    assert printer.received == Numbered(numbers.received);
  }

  /** The program: `readFile(fileName, chain(splitLines, numberLines, printLines))`. */
  method NumberFileLines(chunks: seq<string>) returns (printed: seq<string>)
    ensures printed == Numbered(AllLines(Concat(chunks)))
  {
    var r := Chain([SplitLines, NumberLines, PrintLines]);
    var head := r.value;
    ReadFile(chunks, head);
    assert head.received == chunks;
    ChainOutput(head);
    printed := head.target.target.printed;
  }
}

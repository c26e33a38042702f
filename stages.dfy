/**
 * Vocabulary shared by every stage of the pipeline: the life cycle of a
 * primed generator used as a push-mode stage, an error-carrying result,
 * and the flattening of a sequence of strings.
 */
module Stages {

  /**
   * The life cycle of a generator object seen as a stage.
   *  - Fresh: created but not yet run to its first `yield`. A `next(x)` only
   *    runs it up to that `yield` and drops `x`; a `return()` closes it without
   *    running any `finally` block.
   *  - Suspended: waiting at a `yield`; `next(x)` delivers `x`, `return()` runs
   *    the `finally` blocks (flush, then forward the end of stream).
   *  - Closed: finished; `next` and `return` do nothing.
   */
  datatype Phase = Fresh | Suspended | Closed

  datatype Result<T> = Success(value: T) | Failure(error: string)

  /**
   * The bookkeeping every stage keeps about its own life cycle. `started`
   * records that the generator body ran (it left the Fresh phase through
   * `next`), `finishCalls` counts the `return()` calls the stage received and
   * `count` is the number of items delivered to its body.
   */
  predicate Lifecycle(phase: Phase, started: bool, finishCalls: nat, count: nat)
  {
    && (!started ==> count == 0)
    && match phase
       case Fresh => !started && finishCalls == 0
       case Suspended => started && finishCalls == 0
       case Closed => finishCalls > 0
  }

  /** The stage ran its `finally` blocks: it was closed after it had started. */
  predicate Terminated(phase: Phase, started: bool)
  {
    phase == Closed && started
  }

  /**
   * What the life cycle of an upstream stage tells about its downstream: the
   * downstream was primed before it was linked, and it has been told of the
   * end of the stream exactly once if the upstream ran its `finally` blocks,
   * and not at all otherwise.
   */
  predicate Follows(up: Phase, upStarted: bool, down: Phase, downStarted: bool, downFinishCalls: nat)
  {
    && downStarted
    && if Terminated(up, upStarted) then down == Closed && downFinishCalls == 1
       else down == Suspended && downFinishCalls == 0
  }

  /** The concatenation of a sequence of strings, e.g. of all chunks read. */
  function Concat(parts: seq<string>): string
  {
    if parts == [] then [] else Concat(parts[..|parts| - 1]) + parts[|parts| - 1]
  }

  lemma {:induction false} ConcatPrepend(p: string, parts: seq<string>)
    ensures Concat([p] + parts) == p + Concat(parts)
    decreases |parts|
  {
    if parts == [] {
      assert [p] + parts == [p];
      assert Concat([p]) == Concat([]) + p;
    } else {
      var init := parts[..|parts| - 1];
      assert ([p] + parts)[..|parts|] == [p] + init;
      ConcatPrepend(p, init);
      AppendAssoc(p, Concat(init), parts[|parts| - 1]);
    }
  }

  lemma {:induction false} ConcatAppend(a: seq<string>, b: seq<string>)
    ensures Concat(a + b) == Concat(a) + Concat(b)
    decreases |b|
  {
    if b == [] {
      assert a + b == a;
    } else {
      var init := b[..|b| - 1];
      assert (a + b)[..|a + b| - 1] == a + init;
      ConcatAppend(a, init);
      AppendAssoc(Concat(a), Concat(init), b[|b| - 1]);
    }
  }

  /** Sequence concatenation is associative. */
  lemma AppendAssoc<T>(a: seq<T>, b: seq<T>, c: seq<T>)
    ensures a + (b + c) == a + b + c
  {
  }

  /** A suffix of a sequence is its first element followed by the next suffix. */
  lemma DropCons<T>(s: seq<T>, i: int)
    requires 0 <= i < |s|
    ensures s[i..] == [s[i]] + s[i + 1..]
  {
  }
}

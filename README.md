# generator-examples: a verified model of the generator pipelines

This project models the three pipeline programs of rauschma/generator-examples
and proves what they compute:

- `node/lazy_push.js`: a push-mode chain of primed generators. `tokenize`
  feeds `extractNumbers`, which feeds `addNumbers`, which feeds the sink
  `logItems`. `send` drives the chain: it pushes each input character with
  `next(x)` and then signals the end of the stream with `return()`. Each
  stage's `finally` block flushes what it buffered and then forwards the end.
- `node/readlines.js`: `chain(...)` wires generator functions from last to
  first and primes each one. `splitLines` reassembles lines from chunks of
  any size. `numberLines` prefixes `${k}: ` to each line. `printLines` is the
  sink. `readFile` feeds the head the chunks and then one `return()`.
- `node/lazy_pull.js`: the same words → numbers → running sums pipeline,
  written as generators that pull from the one before them. `getNextItem`
  turns the end of the character iterator into the out-of-band marker
  `END_OF_SEQUENCE`.

The generator runtime is written out explicitly. A stage is an object with
`Accept` (the generator method `next(x)`) and `Finish` (the generator
method `return()`). Its `phase` follows the generator's states:

- `Fresh` is a generator that has not started. `next(x)` runs it to its
  first `yield` and drops `x`. `return()` closes it without running its
  `finally` block.
- `Suspended` is a generator waiting at a `yield`.
- `Closed` is a finished generator. Every further call is a no-op.

The factories (`coroutine`, and `chain`'s priming) return stages that are
already `Suspended`. Every stage also keeps ghost bookkeeping:

- what its body received;
- whether its body started;
- how many times it was told of the end;
- what its downstream had received when the two were linked.

Its `Valid()` invariant ties the downstream's input to a reference function
of its own input. The reference definitions are in `Tokens`, `Lines` and
`Stages`:

- the words of a text: its maximal runs of `[A-Za-z0-9]`;
- the values of the all-digit words, as exact natural numbers;
- running sums;
- the complete lines of a text and its remainder;
- the `${k}: ` labels.

The push chain, the pull chain and the line chain are each proved against
these definitions. Module `Modes` then shows that both modes give the same
sums on every input.

Modules, one file each: `Stages` (generator phases, `Result`, `Concat`),
`Tokens`, `Lines`, `Push`, `ReadLines`, `Pull`, `Modes`.

Two behaviours of the code worth naming:

- A second `return()`, or a `next(x)` after `return()`, does nothing, as with
  any closed generator.
- `chain` throws `Need at least 1 argument` on zero arguments, modelled as a
  `Failure` result.

## Model

| member | source | states |
|---|---|---|
| Tokens.IsWordChar | node/lazy_push.js:52-54 | the definition: `^[A-Za-z0-9]$` holds of one character exactly when it lies in one of the three ASCII ranges |
| Tokens.WordCharsAreAlphanumerics | node/lazy_push.js:52-54 | the range test accepts exactly the 26 upper-case letters, the 26 lower-case letters and the 10 digits, listed out |
| Tokens.Words | node/lazy_push.js:23-41 | the definition: the maximal runs of word characters, left to right; other characters only separate them |
| Tokens.RunLength | node/lazy_push.js:29-32 | the inner do-while's run: a prefix of word characters followed by the end or a non-word character |
| Tokens.RunLengthUnique | node/lazy_push.js:29-32 | that run length is the only one with those two properties |
| Tokens.WordsAreRuns | node/lazy_push.js:23-41 | every word forwarded is a non-empty run of `[A-Za-z0-9]` characters |
| Tokens.WordsOfRun | node/lazy_push.js:28-39 | a text that is one run of word characters is exactly one word (none if empty) |
| Tokens.WordsConcat | node/lazy_push.js:23-41 | after a non-word character, tokenizing starts afresh: the words of `a + b` are those of `a` then those of `b` |
| Tokens.WordsWithPending | node/lazy_push.js:33-39 | a text ending in an unfinished run has the words before the run plus the run itself, as flushed by the inner `finally` |
| Tokens.WordsCloseRun | node/lazy_push.js:29-39 | a non-word character completes the pending run, which is forwarded as one word; the character itself is dropped |
| Tokens.WordsKeepWordChars | node/lazy_pull.js:12-20 | no word character is lost or invented: the words glued together are exactly the word characters of the text |
| Tokens.WordsOfInterleave | node/lazy_push.js:23-41 | words separated by non-word characters are recovered exactly by tokenizing |
| Tokens.WordThenSeparator | node/lazy_push.js:29-38 | a word followed by a separator is forwarded first, before the words of the rest |
| Tokens.ExampleWords | node/lazy_push.js:127 | the words of `2 apples and 5 oranges.` are `2`, `apples`, `and`, `5`, `oranges` |
| Tokens.IsDigitWord | node/lazy_push.js:67 | the definition: `^[0-9]+$`, a non-empty word of decimal digits |
| Tokens.DecimalValue | node/lazy_push.js:68 | the definition: `Number(word)` of a digit word, read as an exact natural number, most significant digit first |
| Tokens.DigitChar | node/readlines.js:72 | the digit character of a value below 10 is a digit that reads back as that value |
| Tokens.DecimalString | node/readlines.js:72 | the `${k}` notation of a number is a non-empty string of decimal digits |
| Tokens.DecimalRoundTrip | node/readlines.js:72 | reading the `${k}` notation back as a decimal number gives `k` |
| Tokens.DecimalCanonical | node/lazy_push.js:67-68 | a digit word without a superfluous leading zero is the notation of its own `Number(word)` |
| Tokens.LeadingDigitPositive | node/lazy_push.js:67-68 | a digit word whose first digit is not `0` has a value of at least 1 |
| Tokens.NumbersOf | node/lazy_push.js:63-70 | `extractNumbers` never forwards more numbers than it received words |
| Tokens.NumbersOfConcat | node/lazy_pull.js:38-44 | the filter keeps order: it distributes over concatenation of the word sequence |
| Tokens.NumbersOfMembers | node/lazy_push.js:66-69 | `n` is forwarded exactly when some received word matches `^[0-9]+$` and has value `n` |
| Tokens.RunningSums | node/lazy_pull.js:53-59 | one output per input |
| Tokens.RunningSumsAreSums | node/lazy_push.js:84-90 | starting at 0, the i-th output is the sum of the first i + 1 inputs |
| Tokens.RunningSumsDifferences | node/lazy_pull.js:48-52 | the first output is the first input and consecutive outputs differ by exactly the next input |
| Tokens.RunningSumsExample | node/lazy_pull.js:51 | `7, 4, -1` gives `7, 11, 10` |
| Tokens.DemoNumbers | node/lazy_pull.js:63-64 | the numbers among the demo words are `2` and `5` |
| Tokens.DemoSums | node/lazy_pull.js:63-68 | the demo input gives the sums `2`, `7` |
| Lines.IndexOf | node/readlines.js:48 | `indexOf('\n')` is -1 or a position in range that holds the character |
| Lines.IndexOfFirst | node/readlines.js:48 | no earlier position holds it, and no position at all when the result is -1 |
| Lines.IndexOfAt | node/readlines.js:48 | the first position holding the character is what `indexOf` reports |
| Lines.CompleteLines | node/readlines.js:46-52 | the definition: the lines cut off one by one at the first `\n`, as the inner `while` emits them |
| Lines.Remainder | node/readlines.js:46-52 | the definition: what `previous` keeps once every `\n`-terminated line is cut off |
| Lines.AllLines | node/readlines.js:46-59 | the definition: the complete lines, then the remainder if it is non-empty, as the `finally` block flushes it |
| Lines.LinesHaveNoNewline | node/readlines.js:48-52 | no complete line emitted contains `\n`, and neither does the buffer that is kept |
| Lines.AllLinesHaveNoNewline | node/readlines.js:48-59 | no line emitted, the remainder flushed at the end included, contains `\n` |
| Lines.UnsplitLines | node/readlines.js:43-62 | no input is lost: the complete lines, each followed by `\n`, and then the remainder give back the text |
| Lines.LinesOfUnsplit | node/readlines.js:46-52 | newline-free lines written out with `\n` are split back into exactly those lines and that remainder |
| Lines.FirstLine | node/readlines.js:48-51 | a line followed by `\n` is cut off first and the text after the newline is kept |
| Lines.LinesAppend | node/readlines.js:45-52 | the lines do not depend on chunk boundaries: a new chunk adds the lines of the buffer plus the chunk, and the same remainder results |
| Lines.AllLinesOfChunks | node/readlines.js:43-62 | reading chunks in two batches: the lines of the whole are the complete lines of the first batch, then the lines of the kept buffer followed by the second batch |
| Lines.CompleteLinesAppend | node/readlines.js:46-52 | the lines emitted for one more chunk are those of the kept buffer followed by the chunk |
| Lines.RemainderAppend | node/readlines.js:51 | the buffer kept after one more chunk is the remainder of the old buffer followed by the chunk |
| Lines.CompleteLinesCount | node/readlines.js:48-52 | exactly one line is emitted per `\n` in the text |
| Lines.NewlineCountSplit | node/readlines.js:48-52 | newline counts add up over concatenation |
| Lines.SplitExamples | node/readlines.js:54-62 | zero chunks give no line; `"\n\n"` gives two empty lines and nothing more |
| Lines.NumberedLine | node/readlines.js:72 | the definition: `${k}: ${line}` |
| Lines.Numbered | node/readlines.js:68-73 | the definition: what `numberLines` emits for a sequence of lines, the k-th one labelled `${k}: `, counting from 0, one output per input |
| Lines.NumberedAppend | node/readlines.js:70-72 | numbering one more line appends its labelled copy with the next counter |
| Lines.NumberedLineParts | node/readlines.js:72 | a numbered line splits back into the digits of its counter, `": "` and the original line |
| Push.LogLines | node/lazy_push.js:119-120 | the definition: the lines `logItems` writes, one per item received, in order |
| Push.ItemLog.Accept | node/lazy_push.js:116-121 | a suspended sink records each item in order; a fresh one only starts; a closed one ignores it |
| Push.ItemLog.Finish | node/lazy_push.js:122-124 | a running sink writes `DONE` from its `finally` block once and closes |
| Push.Adder.Accept | node/lazy_push.js:84-90 | adds the input to the sum and forwards the new total, keeping the downstream's input equal to the running sums |
| Push.Adder.Finish | node/lazy_push.js:91-94 | closes and forwards the end of the stream once |
| Push.NumberExtractor.Accept | node/lazy_push.js:63-70 | forwards `Number(word)` for a digit word and nothing else, keeping the downstream's input equal to the numbers of the words |
| Push.NumberExtractor.Finish | node/lazy_push.js:71-74 | closes and forwards the end of the stream once |
| Push.Tokenizer.Accept | node/lazy_push.js:21-42 | a word character extends the pending word; a non-word character completes it; the downstream always holds the words of the settled text |
| Push.Tokenizer.EndWord | node/lazy_push.js:29-39 | a non-word character forwards the pending word, if any, and settles everything received so far |
| Push.Tokenizer.Finish | node/lazy_push.js:28-49 | the end of the stream first flushes a partial word (inner `finally`), then forwards `return()` (outer `finally`) |
| Push.ItemLog.Prime | node/lazy_push.js:6-12 | the priming `next()` leaves the sink suspended with nothing received |
| Push.Tokenizer.Prime | node/lazy_push.js:6-12 | the priming `next()` leaves the tokenizer suspended with nothing received |
| Push.Adder.Prime | node/lazy_push.js:9 | the priming `next()` runs `let sum = 0` and leaves the stage suspended with nothing received |
| Push.NumberExtractor.Prime | node/lazy_push.js:9 | the priming `next()` leaves the stage suspended with nothing received |
| Push.Tokenizer.constructor | node/lazy_push.js:21 | a new tokenizer is linked to its receiver, fresh, and records what the receiver had already received |
| Push.ItemLog.constructor | node/lazy_push.js:8 | the generator-function call inside `coroutine`: a new, unstarted sink with nothing received and nothing written |
| Push.Adder.constructor | node/lazy_push.js:8 | a new, unstarted stage linked to its receiver, with `sum` at 0 (lazy_push.js:85), recording what the receiver had already received |
| Push.NumberExtractor.constructor | node/lazy_push.js:8 | a new, unstarted stage linked to its receiver, recording what the receiver had already received |
| Push.LogItems | node/lazy_push.js:116 | `logItems()` returns a primed, valid sink |
| Push.AddNumbers | node/lazy_push.js:84 | `addNumbers(receiver)` returns a primed stage linked to `receiver` |
| Push.ExtractNumbers | node/lazy_push.js:63 | `extractNumbers(receiver)` returns a primed stage linked to `receiver` |
| Push.Tokenize | node/lazy_push.js:21 | `tokenize(receiver)` returns a primed stage linked to `receiver` |
| Push.Send | node/lazy_push.js:103-111 | every item is delivered to the head in order, then `return()` exactly once |
| Push.EndReachesEveryStage | node/lazy_push.js:43-49 | once the head has run its `finally`, every stage down to the sink was told of the end exactly once |
| Push.NewChain | node/lazy_push.js:128 | `tokenize(extractNumbers(addNumbers(logItems())))` is valid, primed and has received nothing |
| Push.ChainOutput | node/lazy_push.js:21-95 | a terminated chain's sink holds the running sums of the numbers among the words of the input, then `DONE` |
| Push.PushPipeline | node/lazy_push.js:127-129 | sending any text logs the running sums of its numbers, then `DONE` |
| Push.PushExample | node/lazy_push.js:127-134 | the demo logs `2`, `7`, `DONE` |
| ReadLines.LineStage.Output | node/readlines.js:42-78 | the definition: what a stage has forwarded, by kind: the complete lines of its text (all lines, the flushed remainder included, once terminated) for `splitLines`, the numbered lines for `numberLines`, nothing for `printLines` |
| ReadLines.LineStage.constructor | node/readlines.js:9-11 | a stage is linked to its target, unless it is the terminal `printLines`, and records the target's input so far |
| ReadLines.LineStage.Prime | node/readlines.js:13 | priming leaves a stage suspended with nothing received |
| ReadLines.LineStage.Accept | node/readlines.js:42-89 | a suspended stage receives the item; a fresh one only starts; a closed one ignores it; the chain invariant holds throughout |
| ReadLines.LineStage.SplitChunk | node/readlines.js:46-52 | emits every complete line of the buffer plus the chunk in order and keeps only the text after the last `\n` |
| ReadLines.LineStage.NumberLine | node/readlines.js:70-72 | emits `${lineNo}: ${line}` and advances the counter by one |
| ReadLines.LineStage.Finish | node/readlines.js:54-62 | a running `splitLines` flushes a non-empty buffer and only then forwards `return()`; every stage closes |
| ReadLines.LineStage.EndReachesEveryStage | node/readlines.js:54-77 | once the head is terminated, every stage down the chain was told of the end exactly once |
| ReadLines.Chain | node/readlines.js:2-16 | zero arguments fail with `Need at least 1 argument`; otherwise the head of a valid, primed chain of exactly the given stages |
| ReadLines.Start | node/readlines.js:6-7 | the last stage is created and primed on its own |
| ReadLines.Link | node/readlines.js:9-13 | each earlier stage is linked in front of the chain built so far and primed |
| ReadLines.ReadFile | node/readlines.js:26-36 | the chunks reach the head in order, then one `return()` |
| ReadLines.ChainOutput | node/readlines.js:92 | a terminated `splitLines, numberLines, printLines` chain prints the numbered lines of everything received |
| ReadLines.NumberFileLines | node/readlines.js:92 | reading any chunks prints the numbered lines of their concatenation, independent of where the chunks split |
| Pull.GetNextItem | node/lazy_pull.js:23-30 | the next character while the iterator is not done, `END_OF_SEQUENCE` once it is (and again after that); the marker is never a word character |
| Pull.IsWordItem | node/lazy_pull.js:28-30 | the definition: the item is a string and a word character; `END_OF_SEQUENCE` never is |
| Pull.Tokenize | node/lazy_pull.js:7-22 | yields the words of the text, a final word included, and pulls each character once in order, then the marker once and nothing more |
| Pull.ReadWord | node/lazy_pull.js:13-18 | the inner do-while gathers the whole run and stops at the first item that is not a word character |
| Pull.ExtractNumbers | node/lazy_pull.js:38-44 | the forward filter-and-map gives the same numbers as the reference definition |
| Pull.Summarize | node/lazy_pull.js:53-59 | yields the running sums of its input, one per input |
| Pull.PullPipeline | node/lazy_pull.js:63-65 | `summarize(extractNumbers(tokenize(chars)))` is the running sums of the numbers among the words |
| Pull.PullExample | node/lazy_pull.js:63-68 | the demo gives `[ 2, 7 ]` |
| Modes.RunBothModes | node/lazy_pull.js:63-68 | on every input, the push sink logs exactly the sums the pull chain yields, then `DONE` |

## Left out

- `readFile`'s read stream (`createReadStream`, its `'data'` and `'end'` events): `ReadFile` takes the chunks as a sequence and ends with one `Finish`.
- Console output: `logItems` and `printLines` record their lines in a field instead of printing them. `logAndYield`, the `log` option of `send` and the `prefix` option of `logItems` are not modelled.
- Laziness: no model of the interleaving in which the pull generators run, or of the printed traces that show it. Each pull step runs to completion on its whole input.
- `process.argv` and the file name: the chunks are a parameter.
- `node/async_node_via_generators.js` and `node/co_demo.js` are not part of this model.
- Tokens.RunningSums: the sums are exact integers. The floating-point rounding of `sum += yield` and `result += n` once a sum passes 2^53 is not modelled.
- Tokens.DecimalValue: `Number(word)` is a floating-point conversion. The model reads the digits as an exact natural number, so precision loss on very long digit strings is not modelled.
- Push: the stage classes are linked in the one order the demo uses (`Tokenizer` → `NumberExtractor` → `Adder` → `ItemLog`). A receiver of any other kind is not modelled.
- ReadLines.Chain: requires `printLines` to be the last stage and no earlier one. A last stage other than `printLines` would call `next` on an undefined target. A `printLines` before the end is not modelled: it ignores its target, so the rest of the chain receives nothing.
- ReadLines.LineStage.constructor: requires the target to be primed already, which `chain` guarantees. Linking to an unprimed generator is not modelled.
- Pull.Tokenize: the character iterator is the text and a position, not a stateful object.
- Pull.GetNextItem: only strings are iterated, so a non-string `value` is not modelled.

/**
 * The two modes side by side: pushing a text through the push chain and
 * pulling it through the pull chain compute the same running sums; the push
 * sink writes them one per item and then its `DONE`.
 */
module Modes {
  import opened Tokens
  import Push
  import Pull

  method RunBothModes(input: string) returns (pushed: seq<Push.LogLine>, pulled: seq<int>)
    ensures pushed == Push.LogLines(pulled) + [Push.Done]
    ensures pulled == RunningSums(NumbersOf(Words(input)))
  {
    pushed := Push.PushPipeline(input);
    pulled := Pull.PullPipeline(input);
  }
}

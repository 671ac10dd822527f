/** What a turn sends to the model: a selection from the runtime's history, replayed by the encoder. */
module Requests {
  import opened Wrappers
  import opened Messages
  import opened Turns
  import opened Runtime
  import Contexts
  import Encoder

  /** The history a turn works on when it asks the model. */
  lemma TurnAtStep(was: seq<Message>, kept: seq<Message>, turn: seq<Message>)
    requires WellFormed(was) && Aligned(was, kept) && Scan(Idle, turn) == Waiting
    ensures Encoder.AtStep(kept + turn) && kept + turn != []
  {
    AlignedKeepsShape(was, kept);
    hide Scan, Aligned;
    assert turn == [] ==> Scan(Idle, turn) == Idle by { NoMessages(); }
    if Complete(kept) {
      ScanAppend(Idle, kept, turn);
    } else {
      ScanAppend(Idle, kept[1..], turn);
      assert (kept + turn)[1..] == kept[1..] + turn && (kept + turn)[0] == kept[0];
    }
  }

  lemma NoMessages()
    ensures Scan(Idle, []) == Idle
  {
  }

  /** Whatever the context policy selects in a turn, the encoder adds no call and no result to it. */
  lemma RequestAsRecorded(
    was: seq<Message>, kept: seq<Message>, turn: seq<Message>,
    config: Contexts.Config, system: string, toolsBytes: nat, summary: seq<Message> -> string,
    r: Result<Contexts.Selection, Contexts.ContextError>, show: seq<bool>)
    requires WellFormed(was) && Aligned(was, kept) && Scan(Idle, turn) == Waiting && Contexts.Usable(config)
    requires Contexts.Right(config, kept + turn, system, toolsBytes, summary, r) && r.Ok?
    requires |show| == |r.value.messages|
    ensures Encoder.Input(r.value.messages, show) == Encoder.Plain(r.value.messages, show)
  {
    hide Contexts.Right, Scan, Aligned, WellFormed, Encoder.AtStep;
    TurnAtStep(was, kept, turn);
    Encoder.SelectionNeedsNothing(config, kept + turn, system, toolsBytes, summary, r, show);
  }
}

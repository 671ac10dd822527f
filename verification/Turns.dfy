/** The shape of a conversation: which message may follow which. */
module Turns {
  import opened Messages

  /** Where a conversation stands: between turns, waiting for the assistant, or waiting for the results
      of calls, in order. */
  datatype Phase = Idle | Waiting | Calling(calls: seq<ToolCall>) | Broken

  function After(phase: Phase, m: Message): Phase {
    match (phase, m)
    case (Idle, User(_, _)) => Waiting
    case (Waiting, Assistant(_, calls)) => if calls == [] then Idle else Calling(calls)
    case (Calling(calls), Tool(callId, name, _, _)) =>
      if calls == [] || callId != calls[0].id || name != calls[0].name then Broken
      else if |calls| == 1 then Waiting
      else Calling(calls[1..])
    case _ => Broken
  }

  function Scan(phase: Phase, h: seq<Message>): Phase
    decreases |h|
  {
    if h == [] then phase else Scan(After(phase, h[0]), h[1..])
  }

  /** Whole turns: each starts with the user's message, every call is answered in order by one result,
      and each ends with an assistant message without calls. */
  predicate Complete(h: seq<Message>) {
    Scan(Idle, h) == Idle
  }

  /** What the runtime keeps as history: whole turns behind at most one note. */
  predicate WellFormed(h: seq<Message>) {
    Complete(h) || (h != [] && h[0].HistoryNote? && Complete(h[1..]))
  }

  lemma {:induction false} ScanAppend(phase: Phase, a: seq<Message>, b: seq<Message>)
    ensures Scan(phase, a + b) == Scan(Scan(phase, a), b)
    decreases |a|
  {
    if a == [] {
      assert a + b == b;
    } else {
      hide After;
      ScanAppend(After(phase, a[0]), a[1..], b);
      assert (a + b)[1..] == a[1..] + b;
    }
  }

  lemma ScanPush(phase: Phase, h: seq<Message>, m: Message)
    ensures Scan(phase, h + [m]) == After(Scan(phase, h), m)
  {
    ScanAppend(phase, h, [m]);
    assert [m][1..] == [];
  }

  lemma {:induction false} BrokenStays(h: seq<Message>)
    ensures Scan(Broken, h) == Broken
    decreases |h|
  {
    if h != [] {
      BrokenStays(h[1..]);
    }
  }

  /** Whole turns stay whole when cut in front of a user message. */
  lemma CutAtUser(h: seq<Message>, k: nat)
    requires Complete(h) && k <= |h| && (k < |h| ==> h[k].User?)
    ensures Complete(h[k..]) && Complete(h[..k])
  {
    var phase := Scan(Idle, h[..k]);
    ScanAppend(Idle, h[..k], h[k..]);
    assert h == h[..k] + h[k..];
    if k < |h| {
      BrokenStays(h[k + 1..]);
      assert h[k..][1..] == h[k + 1..];
    }
  }
}

/** Running one user turn (crates/scv-core/src/runtime.rs).

    The model provider, the tools, the approvals, the event sink, the context policy and cancellation
    are answers of an environment, which may answer differently each time it is asked. */
module Runtime {
  import opened Wrappers
  import opened Messages
  import opened Turns
  import opened HistoryLimits

  datatype Response = Response(content: string, calls: seq<ToolCall>)

  /** How a proposed call goes: it cannot run (unknown tool, or its arguments are refused), nobody could
      be asked for approval, it was denied, or it ran. */
  datatype CallOutcome =
    | Unrunnable(content: string) | Unasked | Denied | Ran(content: string, isError: bool)

  datatype Chosen = Chosen(messages: seq<Message>, removed: nat)

  /** Every answer may depend on how many questions were asked before. */
  datatype Env = Env(
    cancelled: nat -> bool,
    accepts: nat -> bool,
    select: (nat, seq<Message>) -> Option<Chosen>,
    complete: (nat, seq<Message>) -> Option<Response>,
    call: (nat, ToolCall) -> CallOutcome)

  datatype Settings = Settings(maxSteps: nat, limits: Limits, text: NoteText)

  datatype TurnError =
    | Cancelled | SinkClosed | ContextLimit | ProviderFailed | ApprovalFailed | StepLimit
    | HistoryLimit(reason: LimitError)

  const DENIED := "tool call denied by policy or user"

  // ----- how much of the earlier history a turn keeps

  predicate AllNotes(h: seq<Message>) {
    forall i :: 0 <= i < |h| ==> h[i].HistoryNote?
  }

  /** `now` is `was` from `k` on, cut in front of a turn and perhaps behind one note, or without some of
      its leading notes. */
  predicate AlignedAt(was: seq<Message>, now: seq<Message>, k: nat) {
    && k <= |was|
    && (k == 0 ==> now == was)
    && if k == |was| || was[k].User?
       then now == was[k..] || (k > 0 && now != [] && now[0].HistoryNote? && now[1..] == was[k..])
       else now == was[k..] && AllNotes(was[..k])
  }

  ghost predicate Aligned(was: seq<Message>, now: seq<Message>) {
    exists k: nat :: AlignedAt(was, now, k)
  }

  lemma AlignedSame(h: seq<Message>)
    ensures Aligned(h, h)
  {
    assert h[0..] == h;
    assert AlignedAt(h, h, 0);
  }

  lemma AlignedTwice(a: seq<Message>, b: seq<Message>, c: seq<Message>)
    requires Aligned(a, b) && Aligned(b, c)
    ensures Aligned(a, c)
  {
    var k: nat :| AlignedAt(a, b, k);
    var m: nat :| AlignedAt(b, c, m);
    if m == 0 {
      assert AlignedAt(a, c, k);
    } else if k == 0 {
      assert AlignedAt(a, c, m);
    } else if b == a[k..] {
      AlignedBehindCut(a, b, c, k, m);
    } else {
      AlignedBehindNote(a, b, c, k, m);
    }
  }

  lemma AlignedBehindCut(a: seq<Message>, b: seq<Message>, c: seq<Message>, k: nat, m: nat)
    requires AlignedAt(a, b, k) && AlignedAt(b, c, m) && k > 0 && m > 0 && b == a[k..]
    ensures AlignedAt(a, c, k + m)
  {
    assert b[m..] == a[k + m..];
    assert m < |b| ==> b[m] == a[k + m];
    if m < |b| && !b[m].User? {
      assert b[..m][0].HistoryNote?;
      assert a[..k + m] == a[..k] + b[..m];
    }
  }

  lemma AlignedBehindNote(a: seq<Message>, b: seq<Message>, c: seq<Message>, k: nat, m: nat)
    requires AlignedAt(a, b, k) && AlignedAt(b, c, m) && k > 0 && m > 0 && b != a[k..]
    ensures AlignedAt(a, c, k + m - 1)
  {
    assert b == [b[0]] + a[k..];
    assert b[m..] == a[k + m - 1..];
    assert m < |b| ==> b[m] == a[k + m - 1];
    assert m > 1 ==> b[..m][1] == a[k];
  }

  /** The kept part of well-formed history is well-formed. */
  lemma AlignedKeepsShape(was: seq<Message>, now: seq<Message>)
    requires WellFormed(was) && Aligned(was, now)
    ensures WellFormed(now)
  {
    var k: nat :| AlignedAt(was, now, k);
    if k > 0 {
      if Complete(was) {
        if k == |was| || was[k].User? {
          CutAtUser(was, k);
        } else {
          assert was[..k][0].HistoryNote?;
          NoteBreaks(was);
        }
      } else {
        var rest := was[1..];
        assert was[k..] == rest[k - 1..];
        if k == |was| || was[k].User? {
          CutAtUser(rest, k - 1);
        } else if k > 1 {
          assert was[..k][1].HistoryNote?;
          NoteBreaks(rest);
        }
      }
    }
  }

  lemma NoteBreaks(h: seq<Message>)
    requires h != [] && h[0].HistoryNote?
    ensures !Complete(h)
  {
    BrokenStays(h[1..]);
  }

  // ----- trimming in the middle of a turn

  /** A turn in progress: the user's message and nothing more of the user's. */
  predicate OneTurn(turn: seq<Message>) {
    turn != [] && turn[0].User? && forall i :: 1 <= i < |turn| ==> !turn[i].User?
  }

  lemma TurnIsActive(kept: seq<Message>, turn: seq<Message>)
    requires OneTurn(turn)
    ensures ActiveStart(kept + turn) == |kept| && FirstUser(kept + turn) < |kept + turn|
    ensures (kept + turn)[|kept|..] == turn
  {
    ActiveStartIs(kept + turn, |kept|);
  }

  /** Trimming never reaches into the turn, and cuts what is before it in front of a turn. */
  lemma TrimBeforeTurn(kept: seq<Message>, turn: seq<Message>, settings: Settings) returns (now: seq<Message>)
    requires OneTurn(turn)
    ensures var r := Enforce(kept + turn, settings.limits, settings.text, 0, 0);
            && r.history == now + turn && Aligned(kept, now)
            && (r.error.None? ==> Within(r.history, settings.limits))
  {
    hide Within, Enforce, ActiveStart, FirstUser;
    var h := kept + turn;
    var r := Enforce(h, settings.limits, settings.text, 0, 0);
    TurnIsActive(kept, turn);
    EnforceTrims(h, settings.limits, settings.text, 0, 0);
    now := r.history[..ActiveStart(r.history)];
    assert r.history == now + turn;
    TrimmedPrefix(kept, turn, now);
  }

  lemma TrimmedPrefix(kept: seq<Message>, turn: seq<Message>, now: seq<Message>)
    requires OneTurn(turn) && TrimOf(kept + turn, now + turn)
    ensures Aligned(kept, now)
  {
    var h, next := kept + turn, now + turn;
    if next == h {
      assert now == next[..|now|] == h[..|kept|] == kept;
      AlignedSame(kept);
    } else {
      var k: nat :| TrimAt(h, next, k);
      CutBeforeTurn(kept, turn, now, k);
    }
  }

  lemma CutBeforeTurn(kept: seq<Message>, turn: seq<Message>, now: seq<Message>, k: nat)
    requires OneTurn(turn) && TrimAt(kept + turn, now + turn, k)
    ensures AlignedAt(kept, now, k)
  {
    var h, next := kept + turn, now + turn;
    assert k <= |kept|;
    assert h[k..] == kept[k..] + turn;
    assert h[..k] == kept[..k];
    assert now == next[..|now|];
    if next == h[k..] {
      assert next[..|now|] == kept[k..];
    } else {
      assert next[1..][..|now| - 1] == kept[k..];
    }
  }

  // ----- the session

  /** What a completed turn leaves: the kept history, then exactly this turn. */
  ghost predicate Completed(
    was: seq<Message>, now: seq<Message>, kept: seq<Message>, turn: seq<Message>, prompt: Message, steps: nat)
  {
    && now == kept + turn
    && Aligned(was, kept)
    && OneTurn(turn) && turn[0] == prompt && Complete(turn)
    && Assistants(turn) == steps
  }

  function Assistants(h: seq<Message>): nat {
    if h == [] then 0 else (if h[0].Assistant? then 1 else 0) + Assistants(h[1..])
  }

  lemma AssistantsPush(h: seq<Message>, m: Message)
    ensures Assistants(h + [m]) == Assistants(h) + if m.Assistant? then 1 else 0
  {
    if h != [] {
      AssistantsPush(h[1..], m);
      assert (h + [m])[1..] == h[1..] + [m];
    } else {
      assert (h + [m])[1..] == [];
    }
  }

  // ----- what a turn records

  /** One step: the question it started with, the history it was about, what was chosen of it, which question went
      to the model, the model's answer, and which question each of its calls was. */
  datatype Step = Step(
    at: nat, history: seq<Message>, chosen: Chosen, modelAt: nat, answer: Response, callsAt: seq<nat>)

  /** The result of a call, as it is recorded. */
  function ResultOf(call: ToolCall, outcome: CallOutcome): Message {
    match outcome
    case Unrunnable(content) => Tool(call.id, call.name, content, true)
    case Ran(content, isError) => Tool(call.id, call.name, content, isError)
    case _ => Tool(call.id, call.name, "tool call denied by policy or user", true)
  }

  /** Question `at` was the call: nothing was cancelled, it was proposed, it ran or could not, and the sink took
      what there was to tell. */
  predicate CallRight(env: Env, call: ToolCall, at: nat) {
    && at >= 2 && !env.cancelled(at - 2) && env.accepts(at - 1) && env.accepts(at + 1)
    && !env.call(at, call).Unasked? && (env.call(at, call).Ran? ==> env.accepts(at + 2))
  }

  /** The question behind a call. */
  function Behind(env: Env, call: ToolCall, at: nat): nat {
    at + if env.call(at, call).Ran? then 3 else 2
  }

  predicate CallsRight(env: Env, calls: seq<ToolCall>, callsAt: seq<nat>, from: nat) {
    |callsAt| <= |calls| && forall i :: 0 <= i < |callsAt| ==> CallInOrder(env, calls, callsAt, from, i)
  }

  predicate CallInOrder(env: Env, calls: seq<ToolCall>, callsAt: seq<nat>, from: nat, i: nat)
    requires i < |callsAt| <= |calls|
  {
    && CallRight(env, calls[i], callsAt[i])
    && callsAt[i] >= 2 + if i == 0 then from else Behind(env, calls[i - 1], callsAt[i - 1])
  }

  /** The answer is the model's, to what the context policy chose of the history, and each call was made, in order
      and once. */
  predicate StepRight(env: Env, x: Step) {
    Asked(env, x) && |x.callsAt| == |x.answer.calls| && CallsRight(env, x.answer.calls, x.callsAt, x.modelAt + 2)
  }

  predicate Asked(env: Env, x: Step) {
    var told := if x.chosen.removed > 0 then 1 else 0;
    && !env.cancelled(x.at) && env.select(x.at + 1, x.history) == Some(x.chosen)
    && (x.chosen.removed > 0 ==> env.accepts(x.at + 2)) && x.modelAt == x.at + 2 + told
    && env.complete(x.modelAt, x.chosen.messages) == Some(x.answer) && env.accepts(x.modelAt + 1)
  }

  function Results(env: Env, calls: seq<ToolCall>, callsAt: seq<nat>): seq<Message>
    requires |callsAt| <= |calls|
  {
    seq(|callsAt|, i requires 0 <= i < |callsAt| => ResultOf(calls[i], env.call(callsAt[i], calls[i])))
  }

  /** What a step adds to the history: the answer with its calls, and the result of each. */
  function Recorded(env: Env, x: Step): seq<Message>
    requires |x.callsAt| <= |x.answer.calls|
  {
    [Assistant(x.answer.content, x.answer.calls)] + Results(env, x.answer.calls, x.callsAt)
  }

  predicate Sized(steps: seq<Step>) {
    forall k :: 0 <= k < |steps| ==> |steps[k].callsAt| == |steps[k].answer.calls|
  }

  function AllRecorded(env: Env, steps: seq<Step>): seq<Message>
    requires Sized(steps)
  {
    if steps == [] then []
    else AllRecorded(env, steps[..|steps| - 1]) + Recorded(env, steps[|steps| - 1])
  }

  /** Step `k` is about a part of the old history, cut in front of a turn, and this turn as far as it got. */
  ghost predicate AboutTurn(env: Env, was: seq<Message>, prompt: Message, steps: seq<Step>, k: nat)
    requires Sized(steps) && k < |steps|
  {
    exists kept :: Aligned(was, kept) && steps[k].history == kept + ([prompt] + AllRecorded(env, steps[..k]))
  }

  /** The turn is the user's message and what each step recorded, one step after another. */
  ghost predicate Played(env: Env, was: seq<Message>, prompt: Message, turn: seq<Message>, steps: seq<Step>) {
    && Sized(steps) && turn == [prompt] + AllRecorded(env, steps)
    && (forall k :: 0 <= k < |steps| ==> StepRight(env, steps[k]) && AboutTurn(env, was, prompt, steps, k))
    && (forall j, k :: 0 <= j < k < |steps| ==> steps[j].at < steps[k].at)
  }

  /** Each step but the last made calls, and the last made none. */
  predicate EndsAtAnswer(steps: seq<Step>) {
    steps != [] && forall k :: 0 <= k < |steps| ==> (steps[k].answer.calls == [] <==> k == |steps| - 1)
  }

  lemma {:induction false} PlayedMore(
    env: Env, was: seq<Message>, prompt: Message, turn: seq<Message>, steps: seq<Step>, kept: seq<Message>, x: Step)
    requires Played(env, was, prompt, turn, steps) && StepRight(env, x)
    requires Aligned(was, kept) && x.history == kept + turn
    requires forall k :: 0 <= k < |steps| ==> steps[k].at < x.at
    ensures Played(env, was, prompt, turn + Recorded(env, x), steps + [x])
  {
    hide Aligned, StepRight, Recorded;
    SizedStep(env, x);
    var more := steps + [x];
    assert more[..|steps|] == steps;
    assert [prompt] + AllRecorded(env, steps) + Recorded(env, x) == [prompt] + (AllRecorded(env, steps) + Recorded(env, x));
    forall k | 0 <= k < |more| ensures StepRight(env, more[k]) && AboutTurn(env, was, prompt, more, k) {
      if k < |steps| {
        assert AboutTurn(env, was, prompt, steps, k);
        assert more[..k] == steps[..k];
      }
    }
  }

  lemma SizedStep(env: Env, x: Step)
    requires StepRight(env, x)
    ensures |x.callsAt| == |x.answer.calls|
  {
  }

  lemma EndsWith(steps: seq<Step>, x: Step)
    requires forall k :: 0 <= k < |steps| ==> steps[k].answer.calls != []
    ensures x.answer.calls == [] ==> EndsAtAnswer(steps + [x])
  {
  }

  /** Why a turn failed, by the last question asked. */
  ghost predicate Blames(env: Env, last: nat, error: TurnError) {
    match error
    case Cancelled => env.cancelled(last)
    case SinkClosed => !env.accepts(last)
    case ContextLimit => exists history :: NoneChosen(env, last, history)
    case ProviderFailed => exists messages :: NoAnswer(env, last, messages)
    case ApprovalFailed => exists call :: NobodyAsked(env, last, call)
    case StepLimit => false
    case HistoryLimit(_) => true
  }

  predicate NoneChosen(env: Env, at: nat, history: seq<Message>) {
    env.select(at, history) == None
  }

  predicate NoAnswer(env: Env, at: nat, messages: seq<Message>) {
    env.complete(at, messages) == None
  }

  predicate NobodyAsked(env: Env, at: nat, call: ToolCall) {
    env.call(at, call) == Unasked
  }

  class Session {
    const settings: Settings
    const env: Env
    var history: seq<Message>
    /** Questions the environment has answered. */
    var asked: nat
    /** The history before the current turn, what is kept of it, and the turn so far. */
    ghost var was: seq<Message>
    ghost var kept: seq<Message>
    ghost var turn: seq<Message>
    /** The steps of the turn so far. */
    ghost var steps: seq<Step>

    constructor (settings: Settings, env: Env, history: seq<Message>)
      ensures this.settings == settings && this.env == env && this.history == history
    {
      this.settings, this.env, this.history, asked := settings, env, history, 0;
    }

    /** In the middle of a turn that stands at `phase` after `count` model answers. */
    ghost predicate InTurn(phase: Phase, prompt: Message, count: nat)
      reads this`was, this`history, this`kept, this`turn
    {
      && history == kept + turn
      && Aligned(was, kept)
      && OneTurn(turn) && turn[0] == prompt
      && Scan(Idle, turn) == phase
      && Assistants(turn) == count
    }

    /** The last question asked is why the turn failed. */
    ghost predicate Blamed(error: TurnError)
      reads this`asked
    {
      error.HistoryLimit? || (asked > 0 && Blames(env, asked - 1, error))
    }

    method Emit() returns (ok: bool)
      modifies this`asked
      ensures ok == env.accepts(old(asked)) && asked == old(asked) + 1
    {
      ok := env.accepts(asked);
      asked := asked + 1;
    }

    method IsCancelled() returns (yes: bool)
      modifies this`asked
      ensures yes == env.cancelled(old(asked)) && asked == old(asked) + 1
    {
      yes := env.cancelled(asked);
      asked := asked + 1;
    }

    /** Trim the oldest complete turns until history is within its limits. */
    method EnforceLimits() returns (error: Option<TurnError>)
      modifies this`history, this`asked
      ensures var r := Enforce(old(history), settings.limits, settings.text, 0, 0);
              && history == r.history
              && (r.error.Some? ==> error == Some(HistoryLimit(r.error.value)))
              && (r.error.None? ==>
                    error == if r.removed > 0 && !env.accepts(old(asked)) then Some(SinkClosed) else None)
      ensures asked >= old(asked) && (error.Some? ==> Blamed(error.value))
    {
      hide Within, NextUser, LastUserBefore, Enforce, FirstUser, ActiveStart;
      var removed := 0;
      ghost var trims: nat := 0;
      ghost var goal := Enforce(history, settings.limits, settings.text, 0, 0);
      while !Within(history, settings.limits)
        invariant asked == old(asked)
        invariant Enforce(history, settings.limits, settings.text, removed, trims) == goal
        decreases |history| - FirstUser(history), |history|
      {
        var latest, first := ActiveStart(history), FirstUser(history);
        EnforceRound(history, settings.limits, settings.text, removed, trims);
        if !Within(history[latest..], settings.limits) {
          return Some(HistoryLimit(ActiveTurnTooLarge));
        }
        if first == latest || first == |history| {
          if history == [] || !history[0].HistoryNote? {
            return Some(HistoryLimit(CannotReduce));
          }
          history := history[1..];
          removed := removed + 1;
        } else {
          var end := NextUser(history, first + 1);
          removed := removed + end;
          var note := settings.text(history[..end], removed);
          history := [HistoryNote(note)] + history[end..];
          trims := trims + 1;
        }
      }
      EnforceRound(history, settings.limits, settings.text, removed, trims);
      if removed > 0 {
        var ok := Emit();
        if !ok {
          return Some(SinkClosed);
        }
      }
      return None;
    }

    /** Add one message of the turn and trim. */
    method Push(m: Message, ghost phase: Phase, ghost prompt: Message, ghost count: nat)
      returns (error: Option<TurnError>)
      requires InTurn(phase, prompt, count) && !m.User?
      modifies this`history, this`asked, this`kept, this`turn
      ensures InTurn(After(phase, m), prompt, count + if m.Assistant? then 1 else 0)
      ensures turn == old(turn) + [m] && asked >= old(asked)
      ensures error.None? ==> Within(history, settings.limits)
      ensures error.Some? ==> Blamed(error.value)
    {
      hide Within, After, Scan, Enforce;
      ghost var next := turn + [m];
      assert history + [m] == kept + next;
      history := history + [m];
      ScanPush(Idle, turn, m);
      AssistantsPush(turn, m);
      ghost var now := TrimBeforeTurn(kept, next, settings);
      AlignedTwice(was, kept, now);
      turn, kept := next, now;
      error := EnforceLimits();
    }

    /** Run one call of the assistant's and record its result. */
    method RunCall(call: ToolCall, ghost calls: seq<ToolCall>, ghost prompt: Message, ghost count: nat)
      returns (error: Option<TurnError>, ghost at: nat)
      requires calls != [] && calls[0] == call && InTurn(Calling(calls), prompt, count)
      modifies this`history, this`asked, this`kept, this`turn
      ensures error.None? ==> InTurn(if |calls| == 1 then Waiting else Calling(calls[1..]), prompt, count)
      ensures error.None? ==>
                && CallRight(env, call, at) && at >= old(asked) + 2 && asked >= Behind(env, call, at)
                && turn == old(turn) + [ResultOf(call, env.call(at, call))]
      ensures asked >= old(asked) && (error.Some? ==> Blamed(error.value))
    {
      hide InTurn;
      at := asked + 2;
      var cancelled := IsCancelled();
      if cancelled { return Some(Cancelled), at; }
      var ok := Emit();
      if !ok { return Some(SinkClosed), at; }
      var outcome := env.call(asked, call);
      asked := asked + 1;
      var content, isError := "", true;
      match outcome {
        case Unasked =>
          assert NobodyAsked(env, asked - 1, call);
          return Some(ApprovalFailed), at;
        case Unrunnable(text) => content := text;
        case Denied => content := DENIED;
        case Ran(text, failed) =>
          ok := Emit();
          if !ok { return Some(SinkClosed), at; }
          content, isError := text, failed;
      }
      ok := Emit();
      if !ok { return Some(SinkClosed), at; }
      error := Push(Tool(call.id, call.name, content, isError), Calling(calls), prompt, count);
    }

    /** Ask the model about what the context policy chooses, and record its answer. */
    method AskModel(ghost prompt: Message, ghost count: nat) returns (error: Option<TurnError>, calls: seq<ToolCall>, ghost x: Step)
      requires InTurn(Waiting, prompt, count)
      modifies this`history, this`asked, this`kept, this`turn
      ensures error.None? ==>
                && InTurn(if calls == [] then Idle else Calling(calls), prompt, count + 1) && Within(history, settings.limits)
                && x.at == old(asked) && x.history == old(history) && x.callsAt == [] && x.answer.calls == calls
                && Asked(env, x) && asked >= x.modelAt + 2
                && turn == old(turn) + [Assistant(x.answer.content, calls)]
      ensures error.Some? ==> Blamed(error.value)
    {
      hide Within, Scan;
      calls, x := [], Step(asked, history, Chosen([], 0), 0, Response("", []), []);
      var cancelled := IsCancelled();
      if cancelled { return Some(Cancelled), calls, x; }
      var chosen := env.select(asked, history);
      asked := asked + 1;
      if chosen.None? {
        assert NoneChosen(env, asked - 1, history);
        return Some(ContextLimit), calls, x;
      }
      if chosen.value.removed > 0 {
        var ok := Emit();
        if !ok { return Some(SinkClosed), calls, x; }
      }
      var response := env.complete(asked, chosen.value.messages);
      x := x.(chosen := chosen.value, modelAt := asked);
      asked := asked + 1;
      if response.None? {
        assert NoAnswer(env, asked - 1, chosen.value.messages);
        return Some(ProviderFailed), calls, x;
      }
      var ok := Emit();
      if !ok { return Some(SinkClosed), calls, x; }
      calls, x := response.value.calls, x.(answer := response.value);
      error := Push(Assistant(response.value.content, calls), Waiting, prompt, count);
    }

    /** Run the calls of an answer, one after another. */
    method RunCalls(calls: seq<ToolCall>, ghost prompt: Message, ghost count: nat)
      returns (error: Option<TurnError>, ghost callsAt: seq<nat>)
      requires calls != [] && InTurn(Calling(calls), prompt, count)
      modifies this`history, this`asked, this`kept, this`turn
      ensures error.None? ==>
                && InTurn(Waiting, prompt, count) && asked >= old(asked)
                && |callsAt| == |calls| && CallsRight(env, calls, callsAt, old(asked))
                && turn == old(turn) + Results(env, calls, callsAt)
      ensures error.Some? ==> Blamed(error.value)
    {
      hide Scan, CallRight, Behind, ResultOf, CallInOrder;
      error, callsAt := None, [];
      for i := 0 to |calls|
        invariant InTurn(if i == |calls| then Waiting else Calling(calls[i..]), prompt, count) && error == None
        invariant |callsAt| == i && CallsRight(env, calls, callsAt, old(asked))
        invariant asked >= if i == 0 then old(asked) else Behind(env, calls[i - 1], callsAt[i - 1])
        invariant asked >= old(asked) && turn == old(turn) + Results(env, calls, callsAt)
      {
        ghost var at;
        error, at := RunCall(calls[i], calls[i..], prompt, count);
        if error.Some? { return error, callsAt; }
        ResultsPush(env, calls, callsAt, at);
        CallsPush(env, calls, callsAt, old(asked), at);
        callsAt := callsAt + [at];
        assert i + 1 < |calls| ==> calls[i..][1..] == calls[i + 1..];
      }
    }

    /** One model answer and the results of its calls; done when it makes none. */
    method RunStep(ghost prompt: Message, ghost count: nat) returns (error: Option<TurnError>, done: bool, ghost x: Step)
      requires InTurn(Waiting, prompt, count)
      modifies this`history, this`asked, this`kept, this`turn
      ensures error.None? ==> InTurn(if done then Idle else Waiting, prompt, count + 1)
      ensures error.None? && done ==> Within(history, settings.limits)
      ensures error.None? ==>
                && StepRight(env, x) && x.at == old(asked) < asked && x.history == old(history)
                && turn == old(turn) + Recorded(env, x) && (done <==> x.answer.calls == [])
      ensures error.Some? ==> Blamed(error.value)
    {
      hide Within, Scan, CallsRight;
      var calls;
      error, calls, x := AskModel(prompt, count);
      done := calls == [];
      if error.Some? || done {
        NoCalls(env, x);
        return;
      }
      ghost var callsAt;
      ghost var later := asked;
      error, callsAt := RunCalls(calls, prompt, count + 1);
      if error.None? {
        LaterCalls(env, calls, callsAt, later, x.modelAt + 2);
        x := x.(callsAt := callsAt);
      }
    }

    /** The turn's steps. On failure the history is left as the steps made it. */
    method RunSteps(prompt: Message) returns (r: Result<nat, TurnError>)
      requires prompt.User?
      modifies this
      ensures was == old(history)
      ensures r.Ok? ==> Completed(was, history, kept, turn, prompt, r.value)
      ensures r.Ok? ==> r.value <= settings.maxSteps && Within(history, settings.limits)
      ensures Played(env, was, prompt, turn, steps) || r.Err?
      ensures r.Ok? ==> EndsAtAnswer(steps)
      ensures r.Err? && r.error != StepLimit ==> Blamed(r.error)
      ensures r == Err(StepLimit) ==>
                |steps| == settings.maxSteps && forall k :: 0 <= k < |steps| ==> steps[k].answer.calls != []
    {
      hide Within, Scan, Enforce, StepRight, Recorded, Aligned, Played, EndsAtAnswer;
      was, kept, turn, steps := history, history, [prompt], [];
      var cancelled := IsCancelled();
      if cancelled { return Err(Cancelled); }
      FirstMessage(prompt);
      AlignedSame(history);
      history := history + [prompt];
      ghost var now := TrimBeforeTurn(kept, turn, settings);
      AlignedTwice(was, kept, now);
      kept := now;
      var error := EnforceLimits();
      if error.Some? { return Err(error.value); }
      NothingPlayed(env, was, prompt);
      for step := 0 to settings.maxSteps
        invariant InTurn(Waiting, prompt, step) && was == old(history)
        invariant |steps| == step && Played(env, was, prompt, turn, steps)
        invariant forall k :: 0 <= k < |steps| ==> steps[k].answer.calls != [] && steps[k].at < asked
      {
        var done;
        ghost var before, about := turn, kept;
        ghost var x;
        error, done, x := RunStep(prompt, step);
        if error.Some? { return Err(error.value); }
        PlayedMore(env, was, prompt, before, steps, about, x);
        EndsWith(steps, x);
        steps := steps + [x];
        if done { return Ok(step + 1); }
      }
      return Err(StepLimit);
    }

    /** Run one turn, or leave history as it was. */
    method RunTurn(prompt: Message) returns (r: Result<nat, TurnError>)
      requires prompt.User?
      modifies this
      ensures r.Err? ==> history == old(history) && (r.error != StepLimit ==> Blamed(r.error))
      ensures r.Ok? ==> Completed(old(history), history, kept, turn, prompt, r.value)
      ensures r.Ok? ==> r.value <= settings.maxSteps && Within(history, settings.limits)
      ensures r.Ok? ==> Played(env, old(history), prompt, turn, steps) && EndsAtAnswer(steps)
      ensures r == Err(StepLimit) ==>
                |steps| == settings.maxSteps && forall k :: 0 <= k < |steps| ==> steps[k].answer.calls != []
      ensures WellFormed(old(history)) ==> WellFormed(history)
    {
      hide Within, Scan, Played, EndsAtAnswer, Blamed, Aligned;
      var checkpoint := history;
      r := RunSteps(prompt);
      if r.Err? {
        history := checkpoint;
      } else if WellFormed(checkpoint) {
        TurnKeepsShape(checkpoint, history, kept, turn, prompt, r.value);
      }
    }
  }

  lemma NoCalls(env: Env, x: Step)
    ensures Results(env, x.answer.calls, []) == [] && CallsRight(env, x.answer.calls, [], x.modelAt + 2)
    ensures forall turn: seq<Message>, m: Message :: turn + [m] + [] == turn + [m]
  {
  }

  lemma LaterCalls(env: Env, calls: seq<ToolCall>, callsAt: seq<nat>, later: nat, from: nat)
    requires later >= from && CallsRight(env, calls, callsAt, later)
    ensures CallsRight(env, calls, callsAt, from)
  {
    forall i | 0 <= i < |callsAt| ensures CallInOrder(env, calls, callsAt, from, i) {
      assert CallInOrder(env, calls, callsAt, later, i);
    }
  }

  lemma CallsPush(env: Env, calls: seq<ToolCall>, callsAt: seq<nat>, from: nat, at: nat)
    requires |callsAt| < |calls| && CallsRight(env, calls, callsAt, from) && CallRight(env, calls[|callsAt|], at)
    requires var i := |callsAt|; at >= 2 + if i == 0 then from else Behind(env, calls[i - 1], callsAt[i - 1])
    ensures CallsRight(env, calls, callsAt + [at], from)
  {
    hide CallRight, Behind;
    forall i | 0 <= i < |callsAt + [at]| ensures CallInOrder(env, calls, callsAt + [at], from, i) {
      assert i < |callsAt| ==> CallInOrder(env, calls, callsAt, from, i);
    }
  }

  lemma ResultsPush(env: Env, calls: seq<ToolCall>, callsAt: seq<nat>, at: nat)
    requires |callsAt| < |calls|
    ensures Results(env, calls, callsAt + [at])
         == Results(env, calls, callsAt) + [ResultOf(calls[|callsAt|], env.call(at, calls[|callsAt|]))]
  {
    hide ResultOf;
  }

  lemma NothingPlayed(env: Env, was: seq<Message>, prompt: Message)
    ensures Played(env, was, prompt, [prompt], [])
  {
    assert [prompt] + [] == [prompt];
  }

  lemma FirstMessage(prompt: Message)
    requires prompt.User?
    ensures OneTurn([prompt]) && Scan(Idle, [prompt]) == Waiting && Assistants([prompt]) == 0
  {
    assert [prompt][1..] == [];
  }

  /** History stays well-formed from turn to turn. */
  lemma TurnKeepsShape(
    was: seq<Message>, now: seq<Message>, kept: seq<Message>, turn: seq<Message>, prompt: Message, steps: nat)
    requires WellFormed(was) && Completed(was, now, kept, turn, prompt, steps)
    ensures WellFormed(now)
  {
    hide Scan;
    AlignedKeepsShape(was, kept);
    if Complete(kept) {
      ScanAppend(Idle, kept, turn);
    } else {
      ScanAppend(Idle, kept[1..], turn);
      assert now[1..] == kept[1..] + turn;
    }
  }
}

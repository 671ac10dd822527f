/** Every life of a session: its turns, reports and abandoned turns in any interleaving the server may
    send. Each turn's answer is a function of that turn's own events. */
module SessionLives {
  import opened Wrappers
  import opened Ids
  import opened Text
  import opened Sessions

  /** The client starts a turn, gives its turn up, hands over the oldest report or all of them, or hears an
      event. */
  datatype Input = Begin(turn: Id, max: nat) | Abandon | HandOne | HandAll | Hear(event: Event)

  function Step(s: State, input: Input): State {
    match input
    case Begin(turn, max) => s.(current := Some(turn), started := None, max := max, answer := [], files := [])
    case Abandon =>
      if s.current.None? then s
      else
        End(s, Abandoned).(
          stale := s.stale + {s.current.value},
          cancels := s.cancels + if s.started.Some? then [s.started.value] else [])
    case HandOne =>
      if s.reports == [] then s else s.(handed := s.handed + [s.reports[0]], reports := s.reports[1..])
    case HandAll => s.(handed := s.handed + s.reports, reports := [])
    case Hear(e) => Heard(s, e)
  }

  function After(tools: bool, inputs: seq<Input>): State {
    if inputs == [] then Sessions.Idle(tools)
    else Step(After(tools, inputs[..|inputs| - 1]), inputs[|inputs| - 1])
  }

  // ----- what a server sends

  /** The turns that run, by kind, and every turn there was. */
  datatype Running = Running(own: Option<Id>, server: set<Id>, stale: set<Id>, used: set<Id>)

  predicate Aimed(own: Option<Id>, e: Event) {
    e.Error? && own.Some? && (e.request.None? || e.request == own)
  }

  /** A new turn has a new ID, and an event of a turn comes only while it runs. */
  predicate Allowed(r: Running, input: Input) {
    match input
    case Begin(turn, _) => r.own.None? && turn !in r.used
    case Abandon => true
    case HandOne => true
    case HandAll => true
    case Hear(e) =>
      if e.Started? && e.server then e.turn !in r.used
      else TurnOf(e).Some? ==> TurnOf(e) == r.own || TurnOf(e).value in r.server || TurnOf(e).value in r.stale
  }

  function Followed(r: Running, input: Input): Running {
    match input
    case Begin(turn, _) => r.(own := Some(turn), used := r.used + {turn})
    case Abandon => if r.own.None? then r else r.(own := None, stale := r.stale + {r.own.value})
    case HandOne => r
    case HandAll => r
    case Hear(e) =>
      if e.Started? && e.server then r.(server := r.server + {e.turn}, used := r.used + {e.turn})
      else if Ends(e) then
        r.(own := if r.own == Some(e.turn) then None else r.own, server := r.server - {e.turn}, stale := r.stale - {e.turn})
      else if Aimed(r.own, e) then r.(own := None)
      else r
  }

  function RunningAfter(inputs: seq<Input>): Running {
    if inputs == [] then Running(None, {}, {}, {})
    else Followed(RunningAfter(inputs[..|inputs| - 1]), inputs[|inputs| - 1])
  }

  ghost predicate IsLife(inputs: seq<Input>) {
    inputs == [] || (IsLife(inputs[..|inputs| - 1]) && Allowed(RunningAfter(inputs[..|inputs| - 1]), inputs[|inputs| - 1]))
  }

  /** The events of one turn. */
  function EventsOf(inputs: seq<Input>, turn: Id): seq<Event> {
    if inputs == [] then []
    else
      var last := inputs[|inputs| - 1];
      EventsOf(inputs[..|inputs| - 1], turn)
      + if last.Hear? && TurnOf(last.event) == Some(turn) then [last.event] else []
  }

  /** The limit a turn of the client was started with. */
  function LimitOf(inputs: seq<Input>, turn: Id): nat {
    if inputs == [] then 0
    else
      var last := inputs[|inputs| - 1];
      if last.Begin? && last.turn == turn then last.max else LimitOf(inputs[..|inputs| - 1], turn)
  }

  // ----- the invariant

  ghost predicate Apart(r: Running) {
    && r.server !! r.stale && r.server <= r.used && r.stale <= r.used
    && (r.own.Some? ==> r.own.value !in r.server && r.own.value !in r.stale && r.own.value in r.used)
  }

  ghost predicate Agrees(s: State, r: Running) {
    s.current == r.own && s.serverTurns.Keys == r.server && s.stale == r.stale
  }

  ghost predicate NothingUnused(inputs: seq<Input>, used: set<Id>) {
    forall turn :: turn !in used ==> EventsOf(inputs, turn) == []
  }

  ghost predicate OwnRight(s: State, inputs: seq<Input>) {
    s.current.Some? ==>
      && s.max == LimitOf(inputs, s.current.value)
      && Reply(s.answer, s.files) == ReplyOf(EventsOf(inputs, s.current.value), s.max)
  }

  ghost predicate ServerRight(s: State, inputs: seq<Input>) {
    forall turn :: turn in s.serverTurns ==> s.serverTurns[turn] == ReplyOf(EventsOf(inputs, turn), MAX_REPORT)
  }

  ghost predicate Over(r: Running, turn: Id) {
    turn in r.used && r.own != Some(turn) && turn !in r.server
  }

  /** Every answer a turn ever ended with is the one its own events give. */
  ghost predicate ResultsRight(s: State, inputs: seq<Input>, r: Running) {
    forall i :: 0 <= i < |s.results| ==>
      && Over(r, s.results[i].turn)
      && (s.results[i].ending.Ended? ==>
            && s.results[i].turn !in r.stale
            && s.results[i].ending.reply
            == ReplyOf(EventsOf(inputs, s.results[i].turn), LimitOf(inputs, s.results[i].turn)))
  }

  ghost predicate Inv(s: State, inputs: seq<Input>) {
    var r := RunningAfter(inputs);
    && Apart(r) && Agrees(s, r) && NothingUnused(inputs, r.used)
    && OwnRight(s, inputs) && ServerRight(s, inputs) && ResultsRight(s, inputs, r)
  }

  // ----- pushing an input

  lemma Pushed(inputs: seq<Input>, input: Input)
    ensures RunningAfter(inputs + [input]) == Followed(RunningAfter(inputs), input)
    ensures IsLife(inputs + [input]) <==> IsLife(inputs) && Allowed(RunningAfter(inputs), input)
    ensures forall tools :: After(tools, inputs + [input]) == Step(After(tools, inputs), input)
  {
    assert (inputs + [input])[..|inputs|] == inputs;
  }

  lemma EventsPushed(inputs: seq<Input>, input: Input)
    ensures forall turn ::
              EventsOf(inputs + [input], turn) ==
              EventsOf(inputs, turn) + if input.Hear? && TurnOf(input.event) == Some(turn) then [input.event] else []
    ensures forall turn ::
              LimitOf(inputs + [input], turn) ==
              if input.Begin? && input.turn == turn then input.max else LimitOf(inputs, turn)
  {
    assert (inputs + [input])[..|inputs|] == inputs;
  }

  /** How an event adds to its turn's answer. */
  lemma ReplyPushed(events: seq<Event>, e: Event, max: nat)
    ensures var r := ReplyOf(events, max);
            ReplyOf(events + [e], max)
            == Reply(if e.Answered? then AppendCapped([], e.text, max)
                     else if e.Delta? then AppendCapped(r.text, e.text, max) else r.text,
                     if e.Tool? && e.file.Some? then r.files + [e.file.value] else r.files)
  {
    assert (events + [e])[..|events|] == events;
    hide AppendCapped;
  }

  /** An event that ends a turn adds nothing to its answer. */
  lemma EndAddsNothing(events: seq<Event>, e: Event, max: nat)
    requires Ends(e) || e.Started? || e.Approval? || e.Progress?
    ensures ReplyOf(events + [e], max) == ReplyOf(events, max)
  {
    assert (events + [e])[..|events|] == events;
    hide AppendCapped;
  }

  // ----- the machine's steps

  /** The server's turns after observing an event. */
  lemma ObservedServer(s: State, e: Event)
    ensures var o := Observed(s, e);
            o.serverTurns ==
              if e.Started? && e.server then s.serverTurns[e.turn := Reply([], [])]
              else if e.Tool? && e.file.Some? && e.turn in s.serverTurns then
                s.serverTurns[e.turn := s.serverTurns[e.turn].(files := s.serverTurns[e.turn].files + [e.file.value])]
              else s.serverTurns
    ensures var o := Observed(s, e);
            o.files ==
              if e.Tool? && e.file.Some? && e.turn !in s.serverTurns && e.turn !in s.stale && s.current.Some?
              then s.files + [e.file.value] else s.files
  {
    hide AppendCapped, Settled;
    if e.Tool? {
      ChangedKeeps(s, e.changes);
      hide Changed;
    } else if e.Updated? {
      OutcomesKeep(s, e.outcomes);
      hide OutcomesHeard;
    }
  }

  /** An event of the client's own turn. */
  lemma OwnStep(s: State, e: Event)
    requires s.current.Some? && TurnOf(e) == s.current && s.current.value !in s.serverTurns && s.current.value !in s.stale
    requires !(e.Started? && e.server)
    ensures var n := Heard(s, e);
            && n.serverTurns == s.serverTurns && n.stale == s.stale && n.max == s.max
            && n.current == (if Ends(e) then None else s.current)
            && (!Ends(e) ==>
                  && n.results == s.results
                  && n.answer == (if e.Answered? then AppendCapped([], e.text, s.max)
                                  else if e.Delta? then AppendCapped(s.answer, e.text, s.max) else s.answer)
                  && n.files == (if e.Tool? && e.file.Some? then s.files + [e.file.value] else s.files))
            && (e.Completed? ==> n.results == s.results + [TurnResult(s.current.value, Ended(Reply(s.answer, s.files)))])
            && (Ends(e) ==> exists ending :: n.results == s.results + [TurnResult(s.current.value, ending)]
                                          && (ending.Ended? ==> e.Completed?))
  {
    ObservedCurrent(s, e);
    ObservedServer(s, e);
    hide Observed, AppendCapped;
  }

  /** An event of a server-started turn. */
  lemma ServerStep(s: State, e: Event)
    requires TurnOf(e).Some? && (e.turn in s.serverTurns || (e.Started? && e.server)) && e.turn !in s.stale
    requires TurnOf(e) != s.current && (e.Started? && e.server ==> e.turn !in s.serverTurns)
    ensures var n := Heard(s, e);
            && n.stale == s.stale && n.max == s.max && n.current == s.current && n.answer == s.answer && n.files == s.files
            && n.results == s.results
            && (Ends(e) ==> n.serverTurns == s.serverTurns - {e.turn})
            && (e.Started? && e.server ==> n.serverTurns == s.serverTurns[e.turn := Reply([], [])])
            && (!Ends(e) && e.turn in s.serverTurns && !(e.Started? && e.server) ==>
                  var r := s.serverTurns[e.turn];
                  n.serverTurns == s.serverTurns[e.turn :=
                    Reply(if e.Answered? then AppendCapped([], e.text, MAX_REPORT)
                          else if e.Delta? then AppendCapped(r.text, e.text, MAX_REPORT) else r.text,
                          if e.Tool? && e.file.Some? then r.files + [e.file.value] else r.files)])
  {
    ObservedCurrent(s, e);
    ObservedServer(s, e);
    hide Observed, AppendCapped, Blank, Notices;
  }

  /** An event of an abandoned turn. */
  lemma StaleStep(s: State, e: Event)
    requires TurnOf(e).Some? && e.turn in s.stale && e.turn !in s.serverTurns && !(e.Started? && e.server)
    requires TurnOf(e) != s.current
    ensures var n := Heard(s, e);
            && n.max == s.max && n.current == s.current && n.answer == s.answer && n.files == s.files
            && n.results == s.results && n.serverTurns == s.serverTurns
            && n.stale == (if Ends(e) then s.stale - {e.turn} else s.stale)
  {
    ObservedCurrent(s, e);
    ObservedServer(s, e);
    hide Observed, AppendCapped, Blank, Notices;
  }

  /** An event of no turn. */
  lemma PlainStep(s: State, e: Event)
    requires TurnOf(e).None?
    ensures var n := Heard(s, e);
            && n.max == s.max && n.answer == s.answer && n.files == s.files
            && n.serverTurns == s.serverTurns && n.stale == s.stale
            && n.current == (if Aimed(s.current, e) then None else s.current)
            && n.results == s.results + (if Aimed(s.current, e) then [TurnResult(s.current.value, Refused(e.message))] else [])
  {
    ObservedCurrent(s, e);
    ObservedServer(s, e);
    hide Observed;
    assert s.results + [] == s.results;
  }

  // ----- every step keeps the invariant

  /** What was heard of other turns stays right. */
  lemma ResultsStay(s: State, n: State, inputs: seq<Input>, input: Input)
    requires Inv(s, inputs) && Allowed(RunningAfter(inputs), input) && n.results == s.results
    ensures ResultsRight(n, inputs + [input], RunningAfter(inputs + [input]))
  {
    Pushed(inputs, input);
    EventsPushed(inputs, input);
    var r, q := RunningAfter(inputs), RunningAfter(inputs + [input]);
    hide RunningAfter, EventsOf, LimitOf, ReplyOf, ServerRight, OwnRight, NothingUnused;
    forall i | 0 <= i < |s.results|
      ensures Over(q, s.results[i].turn)
      ensures s.results[i].ending.Ended? ==>
                && s.results[i].turn !in q.stale
                && EventsOf(inputs + [input], s.results[i].turn) == EventsOf(inputs, s.results[i].turn)
                && LimitOf(inputs + [input], s.results[i].turn) == LimitOf(inputs, s.results[i].turn)
    {
      assert Over(r, s.results[i].turn);
      assert EventsOf(inputs, s.results[i].turn) + [] == EventsOf(inputs, s.results[i].turn);
    }
  }

  lemma ApartKept(r: Running, input: Input)
    requires Apart(r) && Allowed(r, input)
    ensures Apart(Followed(r, input))
  {
  }

  lemma UnusedKept(inputs: seq<Input>, input: Input)
    requires var r := RunningAfter(inputs); Apart(r) && NothingUnused(inputs, r.used) && Allowed(r, input)
    ensures NothingUnused(inputs + [input], Followed(RunningAfter(inputs), input).used)
  {
    EventsPushed(inputs, input);
    hide EventsOf, LimitOf, RunningAfter;
    assert forall x :: EventsOf(inputs, x) + [] == EventsOf(inputs, x);
  }

  /** The server's turns stay right when the input is none of theirs. */
  lemma ServerSame(s: State, n: State, inputs: seq<Input>, input: Input)
    requires ServerRight(s, inputs) && n.serverTurns == s.serverTurns
    requires input.Hear? && TurnOf(input.event).Some? ==> TurnOf(input.event).value !in s.serverTurns
    ensures ServerRight(n, inputs + [input])
  {
    EventsPushed(inputs, input);
    hide EventsOf, LimitOf, ReplyOf;
    assert forall x :: EventsOf(inputs, x) + [] == EventsOf(inputs, x);
  }

  /** The client's turn ended. */
  lemma ResultsMore(s: State, n: State, inputs: seq<Input>, input: Input, turn: Id, ending: Ending)
    requires Inv(s, inputs) && Allowed(RunningAfter(inputs), input) && s.current == Some(turn)
    requires n.results == s.results + [TurnResult(turn, ending)] && RunningAfter(inputs + [input]).own.None?
    requires turn in RunningAfter(inputs + [input]).used && turn !in RunningAfter(inputs + [input]).server
    requires ending.Ended? ==> turn !in RunningAfter(inputs + [input]).stale
    requires ending.Ended? ==>
               ending.reply == ReplyOf(EventsOf(inputs + [input], turn), LimitOf(inputs + [input], turn))
    ensures ResultsRight(n, inputs + [input], RunningAfter(inputs + [input]))
  {
    ResultsStay(s, s, inputs, input);
    hide RunningAfter, EventsOf, LimitOf, ReplyOf, Inv, Allowed;
  }

  lemma BeginKeeps(s: State, inputs: seq<Input>, turn: Id, max: nat)
    requires Inv(s, inputs) && Allowed(RunningAfter(inputs), Begin(turn, max))
    ensures Inv(Step(s, Begin(turn, max)), inputs + [Begin(turn, max)])
  {
    var input := Begin(turn, max);
    var n := Step(s, input);
    Pushed(inputs, input);
    EventsPushed(inputs, input);
    ResultsStay(s, n, inputs, input);
    NoEvents(max);
    hide RunningAfter, EventsOf, LimitOf, ReplyOf, ResultsRight;
    assert forall x :: EventsOf(inputs, x) + [] == EventsOf(inputs, x);
  }

  lemma NoEvents(max: nat)
    ensures ReplyOf([], max) == Reply([], [])
  {
  }

  lemma AbandonKeeps(s: State, inputs: seq<Input>)
    requires Inv(s, inputs)
    ensures Inv(Step(s, Abandon), inputs + [Abandon])
  {
    var n := Step(s, Abandon);
    Pushed(inputs, Abandon);
    ApartKept(RunningAfter(inputs), Abandon);
    UnusedKept(inputs, Abandon);
    ServerSame(s, n, inputs, Abandon);
    hide RunningAfter, EventsOf, LimitOf, ReplyOf, NothingUnused, ServerRight, ResultsRight;
    if s.current.Some? {
      ResultsMore(s, n, inputs, Abandon, s.current.value, Abandoned);
    } else {
      ResultsStay(s, n, inputs, Abandon);
    }
  }

  /** Handing reports over changes no turn. */
  lemma HandKeeps(s: State, inputs: seq<Input>, input: Input)
    requires Inv(s, inputs) && (input.HandOne? || input.HandAll?)
    ensures Inv(Step(s, input), inputs + [input])
  {
    var n := Step(s, input);
    Pushed(inputs, input);
    EventsPushed(inputs, input);
    UnusedKept(inputs, input);
    ServerSame(s, n, inputs, input);
    ResultsStay(s, n, inputs, input);
    hide RunningAfter, EventsOf, LimitOf, ReplyOf, NothingUnused, ServerRight, ResultsRight;
    assert forall x :: EventsOf(inputs, x) + [] == EventsOf(inputs, x);
  }

  lemma OwnKeeps(s: State, inputs: seq<Input>, e: Event)
    requires Inv(s, inputs) && Allowed(RunningAfter(inputs), Hear(e)) && !(e.Started? && e.server)
    requires s.current.Some? && TurnOf(e) == s.current
    ensures Inv(Heard(s, e), inputs + [Hear(e)])
  {
    var input, n := Hear(e), Heard(s, e);
    var r := RunningAfter(inputs);
    hide RunningAfter, EventsOf, LimitOf, ReplyOf, Heard, NothingUnused, ServerRight, ResultsRight, AppendCapped;
    Pushed(inputs, input);
    ApartKept(r, input);
    UnusedKept(inputs, input);
    OwnStep(s, e);
    ServerSame(s, n, inputs, input);
    OwnEvents(inputs, e);
    if Ends(e) {
      EndAddsNothing(EventsOf(inputs, e.turn), e, s.max);
      var ending :| n.results == s.results + [TurnResult(s.current.value, ending)] && (ending.Ended? ==> e.Completed?);
      assert e.Completed? ==> ending == Ended(Reply(s.answer, s.files)) by {
        SameLast(s.results, TurnResult(s.current.value, ending), TurnResult(s.current.value, Ended(Reply(s.answer, s.files))));
      }
      ResultsMore(s, n, inputs, input, e.turn, ending);
    } else {
      ReplyPushed(EventsOf(inputs, e.turn), e, s.max);
      ResultsStay(s, n, inputs, input);
    }
  }

  lemma SameLast(results: seq<TurnResult>, a: TurnResult, b: TurnResult)
    ensures results + [a] == results + [b] ==> a == b
  {
    assert (results + [a])[|results|] == a && (results + [b])[|results|] == b;
  }

  lemma OwnEvents(inputs: seq<Input>, e: Event)
    requires TurnOf(e).Some?
    ensures EventsOf(inputs + [Hear(e)], e.turn) == EventsOf(inputs, e.turn) + [e]
    ensures LimitOf(inputs + [Hear(e)], e.turn) == LimitOf(inputs, e.turn)
  {
    assert (inputs + [Hear(e)])[..|inputs|] == inputs;
  }

  /** An event of another turn leaves the client's own alone. */
  lemma OthersKeep(s: State, n: State, inputs: seq<Input>, e: Event)
    requires Inv(s, inputs) && Allowed(RunningAfter(inputs), Hear(e)) && TurnOf(e) != s.current
    requires n.current == s.current && n.max == s.max && n.answer == s.answer && n.files == s.files && n.results == s.results
    requires Agrees(n, Followed(RunningAfter(inputs), Hear(e))) && ServerRight(n, inputs + [Hear(e)])
    ensures Inv(n, inputs + [Hear(e)])
  {
    var input := Hear(e);
    Pushed(inputs, input);
    ApartKept(RunningAfter(inputs), input);
    UnusedKept(inputs, input);
    ResultsStay(s, n, inputs, input);
    EventsPushed(inputs, input);
    hide RunningAfter, EventsOf, LimitOf, ReplyOf, ResultsRight, ServerRight, NothingUnused, Apart, Agrees, Followed, Allowed;
    assert forall x :: EventsOf(inputs, x) + [] == EventsOf(inputs, x);
  }

  lemma StartedRight(s: State, n: State, inputs: seq<Input>, turn: Id, run: Id)
    requires ServerRight(s, inputs) && EventsOf(inputs, turn) == [] && n.serverTurns == s.serverTurns[turn := Reply([], [])]
    ensures ServerRight(n, inputs + [Hear(Started(turn, true, run))])
  {
    var e := Started(turn, true, run);
    NoEvents(MAX_REPORT);
    EndAddsNothing([], e, MAX_REPORT);
    EventsPushed(inputs, Hear(e));
    hide EventsOf, LimitOf, ReplyOf;
    assert forall x :: EventsOf(inputs, x) + [] == EventsOf(inputs, x);
  }

  lemma ServerStarts(s: State, inputs: seq<Input>, turn: Id, run: Id)
    requires Inv(s, inputs) && Allowed(RunningAfter(inputs), Hear(Started(turn, true, run)))
    ensures Inv(Heard(s, Started(turn, true, run)), inputs + [Hear(Started(turn, true, run))])
  {
    var e := Started(turn, true, run);
    var n := Heard(s, e);
    assert EventsOf(inputs, turn) == [];
    hide RunningAfter, EventsOf, LimitOf, ReplyOf, Heard, ResultsRight, NothingUnused, OwnRight, ServerRight;
    ServerStep(s, e);
    StartedRight(s, n, inputs, turn, run);
    OthersKeep(s, n, inputs, e);
  }

  lemma ServerRightAfter(s: State, n: State, inputs: seq<Input>, e: Event)
    requires ServerRight(s, inputs) && TurnOf(e).Some? && e.turn in s.serverTurns
    requires Ends(e) ==> n.serverTurns == s.serverTurns - {e.turn}
    requires !Ends(e) ==>
               n.serverTurns == s.serverTurns[e.turn := ReplyOf(EventsOf(inputs, e.turn) + [e], MAX_REPORT)]
    ensures ServerRight(n, inputs + [Hear(e)])
  {
    EventsPushed(inputs, Hear(e));
    hide EventsOf, LimitOf, ReplyOf;
    assert forall x :: EventsOf(inputs, x) + [] == EventsOf(inputs, x);
  }

  lemma ServerKeeps(s: State, inputs: seq<Input>, e: Event)
    requires Inv(s, inputs) && Allowed(RunningAfter(inputs), Hear(e)) && !(e.Started? && e.server)
    requires TurnOf(e).Some? && e.turn in s.serverTurns
    ensures Inv(Heard(s, e), inputs + [Hear(e)])
  {
    var n := Heard(s, e);
    hide EventsOf, LimitOf, ReplyOf, Heard, AppendCapped, ResultsRight, NothingUnused, OwnRight, RunningAfter, ServerRight;
    ServerStep(s, e);
    ReplyPushed(EventsOf(inputs, e.turn), e, MAX_REPORT);
    assert s.serverTurns[e.turn] == ReplyOf(EventsOf(inputs, e.turn), MAX_REPORT) by { ServerTurn(s, inputs, e.turn); }
    ServerRightAfter(s, n, inputs, e);
    OthersKeep(s, n, inputs, e);
  }

  lemma ServerTurn(s: State, inputs: seq<Input>, turn: Id)
    requires ServerRight(s, inputs) && turn in s.serverTurns
    ensures s.serverTurns[turn] == ReplyOf(EventsOf(inputs, turn), MAX_REPORT)
  {
  }

  lemma StaleKeeps(s: State, inputs: seq<Input>, e: Event)
    requires Inv(s, inputs) && Allowed(RunningAfter(inputs), Hear(e)) && !(e.Started? && e.server)
    requires TurnOf(e).Some? && e.turn in s.stale
    ensures Inv(Heard(s, e), inputs + [Hear(e)])
  {
    var n := Heard(s, e);
    hide RunningAfter, EventsOf, LimitOf, ReplyOf, Heard, ResultsRight, NothingUnused, OwnRight, ServerRight;
    StaleStep(s, e);
    ServerSame(s, n, inputs, Hear(e));
    OthersKeep(s, n, inputs, e);
  }

  lemma PlainKeeps(s: State, inputs: seq<Input>, e: Event)
    requires Inv(s, inputs) && TurnOf(e).None?
    ensures Inv(Heard(s, e), inputs + [Hear(e)])
  {
    var input, n := Hear(e), Heard(s, e);
    hide RunningAfter, EventsOf, LimitOf, ReplyOf, Heard, NothingUnused, ServerRight, ResultsRight;
    PlainStep(s, e);
    if Aimed(s.current, e) {
      Pushed(inputs, input);
      ApartKept(RunningAfter(inputs), input);
      UnusedKept(inputs, input);
      ServerSame(s, n, inputs, input);
      ResultsMore(s, n, inputs, input, s.current.value, Refused(e.message));
    } else {
      ServerSame(s, n, inputs, input);
      PlainElse(s, n, inputs, e);
    }
  }

  lemma PlainElse(s: State, n: State, inputs: seq<Input>, e: Event)
    requires Inv(s, inputs) && TurnOf(e).None? && !Aimed(s.current, e)
    requires n.current == s.current && n.max == s.max && n.answer == s.answer && n.files == s.files && n.results == s.results
    requires n.serverTurns == s.serverTurns && n.stale == s.stale && ServerRight(n, inputs + [Hear(e)])
    ensures Inv(n, inputs + [Hear(e)])
  {
    var input := Hear(e);
    Pushed(inputs, input);
    ApartKept(RunningAfter(inputs), input);
    UnusedKept(inputs, input);
    ResultsStay(s, n, inputs, input);
    EventsPushed(inputs, input);
    hide RunningAfter, EventsOf, LimitOf, ReplyOf, ResultsRight, ServerRight, NothingUnused;
    assert forall x :: EventsOf(inputs, x) + [] == EventsOf(inputs, x);
  }

  lemma HearKeeps(s: State, inputs: seq<Input>, e: Event)
    requires Inv(s, inputs) && Allowed(RunningAfter(inputs), Hear(e))
    ensures Inv(Heard(s, e), inputs + [Hear(e)])
  {
    assert Agrees(s, RunningAfter(inputs));
    hide Inv, Heard, RunningAfter;
    if TurnOf(e).None? {
      PlainKeeps(s, inputs, e);
    } else if e.Started? && e.server {
      ServerStarts(s, inputs, e.turn, e.run);
    } else if e.turn in s.serverTurns {
      ServerKeeps(s, inputs, e);
    } else if e.turn in s.stale {
      StaleKeeps(s, inputs, e);
    } else {
      OwnKeeps(s, inputs, e);
    }
  }

  /** Every life keeps it. */
  lemma {:induction false} EveryLife(tools: bool, inputs: seq<Input>)
    requires IsLife(inputs)
    ensures Inv(After(tools, inputs), inputs)
    decreases |inputs|
  {
    if inputs != [] {
      var before, last := inputs[..|inputs| - 1], inputs[|inputs| - 1];
      assert inputs == before + [last];
      EveryLife(tools, before);
      hide Inv, Heard, RunningAfter;
      var s := After(tools, before);
      if last.Begin? {
        BeginKeeps(s, before, last.turn, last.max);
      } else if last.Abandon? {
        AbandonKeeps(s, before);
      } else if !last.Hear? {
        HandKeeps(s, before, last);
      } else {
        HearKeeps(s, before, last.event);
      }
    }
  }

  // ----- what it means

  /** In every life each answer a turn of the client ended with is the one its own events give, whatever
      else the stream carried. */
  lemma AnswersAreTheirOwn(tools: bool, inputs: seq<Input>, result: TurnResult)
    requires IsLife(inputs) && result in After(tools, inputs).results && result.ending.Ended?
    ensures result.ending.reply == ReplyOf(EventsOf(inputs, result.turn), LimitOf(inputs, result.turn))
    ensures RepliesWith(EventsOf(inputs, result.turn), LimitOf(inputs, result.turn), result.ending.reply)
  {
    EveryLife(tools, inputs);
    ReplyIs(EventsOf(inputs, result.turn), LimitOf(inputs, result.turn));
    hide IsLife, After, RunningAfter, EventsOf, LimitOf, ReplyOf, OwnRight, ServerRight, NothingUnused, RepliesWith;
  }

  /** Two lives in which a turn got the same events under the same limit gave the same answer. */
  lemma OthersDoNotMatter(tools: bool, a: seq<Input>, b: seq<Input>, turn: Id, x: Reply, y: Reply)
    requires IsLife(a) && IsLife(b) && EventsOf(a, turn) == EventsOf(b, turn) && LimitOf(a, turn) == LimitOf(b, turn)
    requires TurnResult(turn, Ended(x)) in After(tools, a).results && TurnResult(turn, Ended(y)) in After(tools, b).results
    ensures x == y
  {
    hide IsLife, After, EventsOf, LimitOf, ReplyOf;
    AnswersAreTheirOwn(tools, a, TurnResult(turn, Ended(x)));
    AnswersAreTheirOwn(tools, b, TurnResult(turn, Ended(y)));
  }

  /** The client's turn ends with its own answer when its completion comes. */
  lemma TurnAnswers(tools: bool, inputs: seq<Input>, turn: Id, origin: Option<Origin>)
    requires IsLife(inputs) && RunningAfter(inputs).own == Some(turn)
    ensures var s := After(tools, inputs);
            Heard(s, Completed(turn, origin)).results ==
            s.results + [TurnResult(turn, Ended(ReplyOf(EventsOf(inputs, turn), LimitOf(inputs, turn))))]
    ensures var max, events := LimitOf(inputs, turn), EventsOf(inputs, turn); RepliesWith(events, max, ReplyOf(events, max))
  {
    EveryLife(tools, inputs);
    ReplyIs(EventsOf(inputs, turn), LimitOf(inputs, turn));
    var s := After(tools, inputs);
    OwnStep(s, Completed(turn, origin));
    hide IsLife, After, RunningAfter, EventsOf, LimitOf, ReplyOf, ServerRight, NothingUnused, ResultsRight, Heard;
  }

  lemma ReportHeard(s: State, turn: Id, origin: Option<Origin>)
    requires turn in s.serverTurns
    ensures Heard(s, Completed(turn, origin)).reports == s.reports + Outcomes(origin) + Finished(s, turn)
  {
    hide Blank, Notices;
  }

  /** A report turn hands over the answer its own events give, after SCV's lines, unless it is empty. */
  lemma ReportAnswers(tools: bool, inputs: seq<Input>, turn: Id, origin: Option<Origin>)
    requires IsLife(inputs) && turn in RunningAfter(inputs).server
    ensures var s, reply := After(tools, inputs), ReplyOf(EventsOf(inputs, turn), MAX_REPORT);
            Heard(s, Completed(turn, origin)).reports ==
            s.reports + Outcomes(origin) + if Blank(reply.text) && reply.files == [] then [] else [Model(reply)]
    ensures RepliesWith(EventsOf(inputs, turn), 65536, ReplyOf(EventsOf(inputs, turn), MAX_REPORT))
  {
    EveryLife(tools, inputs);
    ReplyIs(EventsOf(inputs, turn), MAX_REPORT);
    var s := After(tools, inputs);
    var e := Completed(turn, origin);
    hide IsLife, After, RunningAfter, EventsOf, LimitOf, ReplyOf, OwnRight, NothingUnused, ResultsRight, Blank, Notices, ServerRight;
    ServerTurn(s, inputs, turn);
    ReportHeard(s, turn, origin);
    hide Heard;
  }

  // ----- reports

  /** The model's reports among `responses`. */
  function ModelsOf(responses: seq<Response>): seq<Reply> {
    if responses == [] then []
    else ModelIn(responses[0]) + ModelsOf(responses[1..])
  }

  function ModelIn(response: Response): seq<Reply> {
    if response.Model? then [response.reply] else []
  }

  lemma {:induction false} ModelsAppend(a: seq<Response>, b: seq<Response>)
    ensures ModelsOf(a + b) == ModelsOf(a) + ModelsOf(b)
    decreases |a|
  {
    hide ModelIn;
    if a == [] {
      assert a + b == b && [] + ModelsOf(b) == ModelsOf(b);
    } else {
      ModelsAppend(a[1..], b);
      assert (a + b)[1..] == a[1..] + b;
      After3(ModelIn(a[0]), ModelsOf(a[1..]), ModelsOf(b));
    }
  }

  lemma {:induction false} NoModels(responses: seq<Response>)
    requires forall i :: 0 <= i < |responses| ==> responses[i].System?
    ensures ModelsOf(responses) == []
    decreases |responses|
  {
    if responses != [] {
      NoModels(responses[1..]);
    }
  }

  /** What a turn the server started hands over when it completes. */
  function ReportOf(events: seq<Event>): seq<Reply> {
    var reply := ReplyOf(events, MAX_REPORT);
    if Blank(reply.text) && reply.files == [] then [] else [reply]
  }

  /** The reports of every turn the server started and completed, each from its own events, in the order the
      turns completed. */
  function ReportsOf(inputs: seq<Input>): seq<Reply> {
    if inputs == [] then []
    else
      var before, last := inputs[..|inputs| - 1], inputs[|inputs| - 1];
      ReportsOf(before)
      + if last.Hear? && last.event.Completed? && last.event.turn in RunningAfter(before).server
        then ReportOf(EventsOf(before, last.event.turn)) else []
  }

  /** What a step adds to the reports is SCV's own lines. */
  ghost predicate AddsLines(was: seq<Response>, now: seq<Response>) {
    |was| <= |now| && now[..|was|] == was && forall i :: |was| <= i < |now| ==> now[i].System?
  }

  lemma {:induction false} ChangedAdds(s: State, changes: seq<Change>)
    ensures AddsLines(s.reports, Changed(s, changes).reports)
    decreases |changes|
  {
    if changes != [] {
      ChangedAdds(s, changes[..|changes| - 1]);
    }
  }

  lemma {:induction false} OutcomesAdd(s: State, outcomes: seq<Outcome>)
    ensures AddsLines(s.reports, OutcomesHeard(s, outcomes).reports)
    decreases |outcomes|
  {
    if outcomes != [] {
      OutcomesAdd(s, outcomes[..|outcomes| - 1]);
    }
  }

  lemma ObservedAdds(s: State, e: Event)
    ensures AddsLines(s.reports, Observed(s, e).reports)
  {
    hide AppendCapped;
    if e.Tool? {
      ChangedAdds(s, e.changes);
      hide Changed;
    } else if e.Updated? {
      OutcomesAdd(s, e.outcomes);
      hide OutcomesHeard;
    }
  }

  lemma LinesNoModels(was: seq<Response>, now: seq<Response>)
    requires AddsLines(was, now)
    ensures ModelsOf(now) == ModelsOf(was)
  {
    hide ModelsOf;
    assert now == was + now[|was|..];
    ModelsAppend(was, now[|was|..]);
    NoModels(now[|was|..]);
  }

  /** An event adds the model's report only when a turn the server started completes. */
  lemma AbsorbedModels(o: State, e: Event)
    ensures ModelsOf(Absorbed(o, e).reports) == ModelsOf(o.reports) + if e.Completed? then ModelsOf(Finished(o, e.turn)) else []
    ensures Absorbed(o, e).handed == o.handed
  {
    hide ModelsOf, AppendCapped, Blank;
    assert ModelsOf(o.reports) + [] == ModelsOf(o.reports);
    if e.Completed? {
      ModelsAppend(o.reports + Outcomes(e.origin), Finished(o, e.turn));
      ModelsAppend(o.reports, Outcomes(e.origin));
      NoModels(Outcomes(e.origin));
    } else if e.Cancelled? && e.turn in o.serverTurns {
      ModelsAppend(o.reports, Outcomes(e.origin));
      NoModels(Outcomes(e.origin));
    } else if e.Cancelled? {
      assert o.reports + [] == o.reports;
    }
  }

  /** The same for an event as the session hears it. */
  lemma HeardModels(s: State, e: Event)
    requires s.current.Some? && TurnOf(e) == s.current ==> s.current.value !in s.serverTurns && s.current.value !in s.stale
    requires TurnOf(e).Some? && TurnOf(e) != s.current && e.Completed? ==> e.turn in s.serverTurns || e.turn in s.stale
    ensures ModelsOf(Heard(s, e).reports) == ModelsOf(s.reports) + if e.Completed? then ModelsOf(Finished(s, e.turn)) else []
    ensures Heard(s, e).handed == s.handed
  {
    var o := Observed(s, e);
    ObservedAdds(s, e);
    ObservedCurrent(s, e);
    ObservedServer(s, e);
    hide Observed, AppendCapped, ModelsOf, Blank;
    LinesNoModels(s.reports, o.reports);
    assert ModelsOf(s.reports) + [] == ModelsOf(s.reports);
    assert e.Completed? ==> Finished(o, e.turn) == Finished(s, e.turn);
    AbsorbedModels(o, e);
    hide Absorbed;
    NothingFinished();
  }

  lemma NothingFinished()
    ensures ModelsOf([]) == []
  {
  }

  /** In every life the reports handed over and still waiting are, in order, those the server's completed turns
      give, each from its own events: none is lost, repeated or mixed up. */
  lemma {:induction false} ReportsInOrder(tools: bool, inputs: seq<Input>)
    requires IsLife(inputs)
    ensures var s := After(tools, inputs); ModelsOf(s.handed + s.reports) == ReportsOf(inputs)
    decreases |inputs|
  {
    hide ModelsOf;
    if inputs == [] {
      NothingFinished();
      var responses: seq<Response> := [];
      assert responses + [] == [];
    } else {
      var before, last := inputs[..|inputs| - 1], inputs[|inputs| - 1];
      ReportsInOrder(tools, before);
      EveryLife(tools, before);
      var s := After(tools, before);
      assert After(tools, inputs) == Step(s, last);
      hide After, IsLife;
      if last.Hear? {
        HearReports(s, before, last.event);
      } else {
        HandReports(s, last);
        assert ReportsOf(before) + [] == ReportsOf(before);
      }
    }
  }

  lemma HandReports(s: State, input: Input)
    requires !input.Hear?
    ensures var n := Step(s, input); n.handed + n.reports == s.handed + s.reports
  {
    assert s.handed + s.reports + [] == s.handed + s.reports;
    assert s.reports != [] ==> s.reports == [s.reports[0]] + s.reports[1..];
  }

  lemma HearReports(s: State, inputs: seq<Input>, e: Event)
    requires Inv(s, inputs) && Allowed(RunningAfter(inputs), Hear(e))
    ensures var n := Heard(s, e);
            ModelsOf(n.handed + n.reports) ==
            ModelsOf(s.handed + s.reports)
            + if e.Completed? && e.turn in RunningAfter(inputs).server then ReportOf(EventsOf(inputs, e.turn)) else []
  {
    var n := Heard(s, e);
    Known(s, inputs, e);
    if e.Completed? {
      FinishedIs(s, inputs, e.turn);
    }
    hide Inv, Heard, ModelsOf, RunningAfter, EventsOf, ReportOf, Finished, Agrees, Apart;
    HeardModels(s, e);
    ModelsAppend(s.handed, s.reports);
    ModelsAppend(n.handed, n.reports);
    After3(ModelsOf(s.handed), ModelsOf(s.reports), if e.Completed? then ModelsOf(Finished(s, e.turn)) else []);
  }

  lemma After3(a: seq<Reply>, b: seq<Reply>, c: seq<Reply>)
    ensures a + (b + c) == a + b + c
  {
  }

  /** Whose turns events are of. */
  lemma Known(s: State, inputs: seq<Input>, e: Event)
    requires Inv(s, inputs) && Allowed(RunningAfter(inputs), Hear(e))
    ensures s.current.Some? ==> s.current.value !in s.serverTurns && s.current.value !in s.stale
    ensures TurnOf(e).Some? && TurnOf(e) != s.current && e.Completed? ==> e.turn in s.serverTurns || e.turn in s.stale
  {
    hide NothingUnused, OwnRight, ServerRight, ResultsRight, RunningAfter;
  }

  lemma FinishedIs(s: State, inputs: seq<Input>, turn: Id)
    requires Inv(s, inputs)
    ensures ModelsOf(Finished(s, turn)) == if turn in RunningAfter(inputs).server then ReportOf(EventsOf(inputs, turn)) else []
  {
    assert turn in s.serverTurns ==> s.serverTurns[turn] == ReplyOf(EventsOf(inputs, turn), MAX_REPORT);
    assert Agrees(s, RunningAfter(inputs));
    hide Inv, ModelsOf, RunningAfter, EventsOf, ReplyOf, Blank;
    OneModel(s, turn);
  }

  lemma OneModel(s: State, turn: Id)
    ensures ModelsOf(Finished(s, turn))
         == if turn !in s.serverTurns || (Blank(s.serverTurns[turn].text) && s.serverTurns[turn].files == []) then []
            else [s.serverTurns[turn]]
  {
    hide Blank;
    assert forall r: Response :: [r][1..] == [];
  }

  /** Nothing an abandoned turn asks for is approved. */
  lemma AbandonedDenied(tools: bool, inputs: seq<Input>, turn: Id, approval: Id)
    requires IsLife(inputs) && turn in RunningAfter(inputs).stale
    ensures var s := After(tools, inputs);
            Heard(s, Approval(turn, approval)).sent == s.sent + [Approved(approval, false)]
  {
    EveryLife(tools, inputs);
    var s := After(tools, inputs);
    assert turn in s.stale by { hide IsLife, After, RunningAfter, OwnRight, NothingUnused, ResultsRight, ServerRight, Apart; }
    hide Inv, IsLife, After, RunningAfter;
  }

  /** The order the server keeps is needed: text of another turn stays out of the client's answer exactly
      while that turn is known to run. Once it ended, late text is taken for the client's own. */
  lemma StrayText(s: State, turn: Id, text: string)
    requires s.current.Some? && s.current != Some(turn) && AppendCapped(s.answer, text, s.max) != s.answer
    ensures Heard(s, Delta(turn, text)).answer == s.answer <==> turn in s.serverTurns || turn in s.stale
  {
    hide AppendCapped;
  }
}

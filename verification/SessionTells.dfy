/** What a session hands over, answers and tracks in every life: each response, approval, ending and job, from the
    inputs alone. */
module SessionTells {
  import opened Wrappers
  import opened Ids
  import opened Text
  import opened Sessions
  import opened SessionLives

  // ----- from the inputs

  /** The jobs whose outcome was heard before their journal closed. */
  function UpdatedIn(inputs: seq<Input>): set<Id> {
    if inputs == [] then {}
    else
      var last := inputs[|inputs| - 1];
      UpdatedIn(inputs[..|inputs| - 1])
      + if last.Hear? && last.event.Updated? then JobsOf(last.event.outcomes) else {}
  }

  function JobsOf(outcomes: seq<Outcome>): set<Id> {
    set o | o in outcomes :: o.job
  }

  /** Whether a change says something new: one with an open journal does not once its outcome was heard. */
  predicate IsNews(change: Change, updated: set<Id>) {
    !(change.open && change.job in updated)
  }

  /** SCV's lines for what a call did to jobs. */
  function ChangeLines(changes: seq<Change>, updated: set<Id>): seq<Response> {
    if changes == [] then []
    else
      var last := changes[|changes| - 1];
      ChangeLines(changes[..|changes| - 1], updated)
      + if IsNews(last, updated) && last.notice.Some? then [System(last.notice.value)] else []
  }

  function OutcomeLines(outcomes: seq<Outcome>): seq<Response> {
    seq(|outcomes|, i requires 0 <= i < |outcomes| => System(outcomes[i].notice))
  }

  /** SCV's lines for the jobs a turn of the server reports. */
  function OriginLines(origin: Option<Origin>): seq<Response> {
    if origin.None? then []
    else seq(|origin.value.notices|, i requires 0 <= i < |origin.value.notices| => System(origin.value.notices[i]))
  }

  lemma OriginLinesAre(origin: Option<Origin>)
    ensures Outcomes(origin) == OriginLines(origin)
  {
  }

  /** The responses one event gives. */
  function ResponsesTo(before: seq<Input>, e: Event): seq<Response> {
    var r := RunningAfter(before);
    match e
    case Tool(_, _, changes) => ChangeLines(changes, UpdatedIn(before))
    case Reported(text, jobs) => if jobs == [] then [] else [System(AppendCapped([], text, MAX_REPORT))]
    case Updated(outcomes) => OutcomeLines(outcomes)
    case Completed(turn, origin) =>
      if r.own == Some(turn) then []
      else OriginLines(origin) + if turn in r.server then ReportTo(EventsOf(before, turn)) else []
    case Cancelled(turn, origin) => if turn in r.server then OriginLines(origin) else []
    case _ => []
  }

  function ReportTo(events: seq<Event>): seq<Response> {
    var reply := ReplyOf(events, MAX_REPORT);
    if Blank(reply.text) && reply.files == [] then [] else [Model(reply)]
  }

  function ResponsesOf(inputs: seq<Input>): seq<Response> {
    if inputs == [] then []
    else
      var before, last := inputs[..|inputs| - 1], inputs[|inputs| - 1];
      ResponsesOf(before) + if last.Hear? then ResponsesTo(before, last.event) else []
  }

  /** The answer to an approval asked for: yes if the session has tools and the turn was not abandoned. */
  function Approving(tools: bool, before: seq<Input>, last: Input): seq<Approved> {
    if last.Hear? && last.event.Approval?
    then [Approved(last.event.approval, tools && last.event.turn !in RunningAfter(before).stale)] else []
  }

  function ApprovalsOf(tools: bool, inputs: seq<Input>): seq<Approved> {
    if inputs == [] then []
    else
      var before, last := inputs[..|inputs| - 1], inputs[|inputs| - 1];
      ApprovalsOf(tools, before) + Approving(tools, before, last)
  }

  /** How the client's turn ends, if it does: completed with what it wrote, or refused with the server's words, or
      given up. */
  function Ending(before: seq<Input>, last: Input): seq<TurnResult> {
    var own := RunningAfter(before).own;
    if own.None? then []
    else if last.Abandon? then [TurnResult(own.value, Abandoned)]
    else if !last.Hear? then []
    else if Aimed(own, last.event) then [TurnResult(own.value, Refused(last.event.message))]
    else if TurnOf(last.event) != own || !Ends(last.event) then []
    else if last.event.Completed?
    then [TurnResult(own.value, Ended(ReplyOf(EventsOf(before, own.value), LimitOf(before, own.value))))]
    else if last.event.Failed? then [TurnResult(own.value, Refused(last.event.message))]
    else [TurnResult(own.value, Refused("turn cancelled"))]
  }

  function EndingsOf(inputs: seq<Input>): seq<TurnResult> {
    if inputs == [] then []
    else
      var before, last := inputs[..|inputs| - 1], inputs[|inputs| - 1];
      EndingsOf(before) + Ending(before, last)
  }

  /** The run the server last said a turn of the client is. */
  function RunOf(inputs: seq<Input>, turn: Id): Option<Id> {
    if inputs == [] then None
    else
      var before, last := inputs[..|inputs| - 1], inputs[|inputs| - 1];
      if last.Begin? then None
      else if last.Hear? && last.event.Started? && !last.event.server && last.event.turn == turn && RunningAfter(before).own == Some(turn)
      then Some(last.event.run)
      else RunOf(before, turn)
  }

  /** The server is asked to cancel each turn given up that it said it runs. */
  function CancelsOf(inputs: seq<Input>): seq<Id> {
    if inputs == [] then []
    else
      var before, last := inputs[..|inputs| - 1], inputs[|inputs| - 1];
      CancelsOf(before) + Cancelling(before, last)
  }

  function Cancelling(before: seq<Input>, last: Input): seq<Id> {
    var own := RunningAfter(before).own;
    if last.Abandon? && own.Some? && RunOf(before, own.value).Some? then [RunOf(before, own.value).value] else []
  }

  /** What an event says of a job: it runs, it is settled, or nothing. */
  function Mention(updated: set<Id>, e: Event, job: Id): Option<bool> {
    match e
    case Tool(_, _, changes) => ChangeMention(changes, updated, job)
    case Completed(_, origin) => if origin.Some? && job in origin.value.jobs then Some(false) else None
    case Cancelled(_, origin) => if origin.Some? && job in origin.value.jobs then Some(false) else None
    case Failed(_, _, origin) =>
      if origin.Some? && !origin.value.retried && job in origin.value.jobs then Some(false) else None
    case Reported(_, jobs) => if job in jobs then Some(false) else None
    case Updated(outcomes) => if job in JobsOf(outcomes) then Some(false) else None
    case _ => None
  }

  /** The last change of the job counts, but for news heard already and a start or an end that is neither. */
  function ChangeMention(changes: seq<Change>, updated: set<Id>, job: Id): Option<bool> {
    if changes == [] then None
    else
      var last := changes[|changes| - 1];
      if last.job == job && IsNews(last, updated) && (last.started || !last.open) then Some(last.started)
      else ChangeMention(changes[..|changes| - 1], updated, job)
  }

  function LastMention(inputs: seq<Input>, job: Id): Option<bool> {
    if inputs == [] then None
    else
      var before, last := inputs[..|inputs| - 1], inputs[|inputs| - 1];
      if last.Hear? && Mention(UpdatedIn(before), last.event, job).Some? then Mention(UpdatedIn(before), last.event, job)
      else LastMention(before, job)
  }

  // ----- the machine's steps

  lemma {:induction false} ChangedTells(s: State, changes: seq<Change>)
    ensures var c := Changed(s, changes);
            && c.reports == s.reports + ChangeLines(changes, s.updated) && c.updated == s.updated
            && c == s.(background := c.background, reports := c.reports)
            && forall job :: job in c.background <==>
                 if ChangeMention(changes, s.updated, job).Some? then ChangeMention(changes, s.updated, job).value
                 else job in s.background
    decreases |changes|
  {
    if changes != [] {
      ChangedTells(s, changes[..|changes| - 1]);
      assert s.reports + ChangeLines(changes[..|changes| - 1], s.updated) + [] == s.reports + ChangeLines(changes[..|changes| - 1], s.updated);
    }
  }

  lemma {:induction false} OutcomesTell(s: State, outcomes: seq<Outcome>)
    ensures var c := OutcomesHeard(s, outcomes);
            && c.reports == s.reports + OutcomeLines(outcomes) && c.updated == s.updated + JobsOf(outcomes)
            && c.background == s.background - JobsOf(outcomes)
            && c == s.(background := c.background, updated := c.updated, reports := c.reports)
    decreases |outcomes|
  {
    if outcomes != [] {
      var n := |outcomes| - 1;
      OutcomesTell(s, outcomes[..n]);
      assert OutcomeLines(outcomes) == OutcomeLines(outcomes[..n]) + [System(outcomes[n].notice)];
      assert outcomes == outcomes[..n] + [outcomes[n]];
      assert JobsOf(outcomes) == JobsOf(outcomes[..n]) + {outcomes[n].job};
    }
  }

  /** What observing an event adds. */
  function Noticed(updated: set<Id>, e: Event): seq<Response> {
    match e
    case Tool(_, _, changes) => ChangeLines(changes, updated)
    case Reported(text, jobs) => if jobs == [] then [] else [System(AppendCapped([], text, MAX_REPORT))]
    case Updated(outcomes) => OutcomeLines(outcomes)
    case _ => []
  }

  ghost predicate Tracks(s: State, e: Event, now: set<Id>) {
    forall job :: job in now <==>
      if Mention(s.updated, e, job).Some? then Mention(s.updated, e, job).value else job in s.background
  }

  lemma AttachedTells(s: State, turn: Id, file: Option<string>)
    ensures var o := Attached(s, turn, file);
            o.reports == s.reports && o.updated == s.updated && o.background == s.background
  {
  }

  ghost predicate ObservedAs(s: State, e: Event, o: State) {
    && o.reports == s.reports + Noticed(s.updated, e)
    && o.updated == s.updated + (if e.Updated? then JobsOf(e.outcomes) else {}) && Tracks(s, e, o.background)
    && o.current == s.current && o.answer == s.answer && o.stale == s.stale && o.tools == s.tools
    && o.results == s.results && o.sent == s.sent && o.handed == s.handed
    && (!e.Tool? ==> o.files == s.files) && (!e.Tool? && !e.Started? ==> o.serverTurns == s.serverTurns)
  }

  lemma ObservedTells(s: State, e: Event)
    ensures ObservedAs(s, e, Observed(s, e))
  {
    ObservedCurrent(s, e);
    ObservedServer(s, e);
    ObservedNotices(s, e);
    hide Observed, Noticed, Tracks, JobsOf;
  }

  lemma ObservedNotices(s: State, e: Event)
    ensures var o := Observed(s, e);
            && o.reports == s.reports + Noticed(s.updated, e)
            && o.updated == s.updated + (if e.Updated? then JobsOf(e.outcomes) else {})
            && Tracks(s, e, o.background)
  {
    hide AppendCapped, Attached;
    assert s.reports + [] == s.reports && s.updated + {} == s.updated;
    if e.Tool? {
      ChangedTells(s, e.changes);
      AttachedTells(Changed(s, e.changes), e.turn, e.file);
      hide Changed, ChangeLines, ChangeMention;
    } else if e.Updated? {
      OutcomesTell(s, e.outcomes);
      hide OutcomesHeard, OutcomeLines;
    }
  }

  /** What absorbing one adds. */
  ghost predicate AbsorbedAs(s: State, e: Event, a: State) {
    && a.background == s.background && a.updated == s.updated && a.results == s.results && a.tools == s.tools
    && a.handed == s.handed
    && a.reports == s.reports + (if e.Completed? then Outcomes(e.origin) + Finished(s, e.turn)
                                 else if e.Cancelled? && e.turn in s.serverTurns then Outcomes(e.origin) else [])
    && a.sent == s.sent + (if e.Approval? then [Approved(e.approval, s.tools && e.turn !in s.stale)] else [])
  }

  lemma AbsorbedTells(s: State, e: Event)
    ensures AbsorbedAs(s, e, Absorbed(s, e))
  {
    hide AppendCapped, Finished, Outcomes;
    assert s.reports + [] == s.reports && s.sent + [] == s.sent;
    if e.Completed? {
      assert s.reports + Outcomes(e.origin) + Finished(s, e.turn) == s.reports + (Outcomes(e.origin) + Finished(s, e.turn));
    }
  }

  ghost predicate OwnAs(s: State, e: Event, a: State)
    requires s.current.Some?
  {
    && a.background == s.background && a.updated == s.updated && a.reports == s.reports && a.tools == s.tools
    && a.handed == s.handed
    && a.sent == s.sent + (if e.Approval? then [Approved(e.approval, s.tools)] else [])
    && a.results == s.results + (if EndingOf(s, e).Some? then [TurnResult(s.current.value, EndingOf(s, e).value)] else [])
  }

  lemma OwnTells(s: State, e: Event)
    requires s.current.Some?
    ensures OwnAs(s, e, Own(s, e))
  {
    hide AppendCapped;
    assert s.results + [] == s.results && s.sent + [] == s.sent;
  }

  // ----- what holds in every life

  /** The session is what its inputs say. */
  ghost predicate Right(s: State, tools: bool, inputs: seq<Input>) {
    && s.tools == tools && s.updated == UpdatedIn(inputs)
    && s.handed + s.reports == ResponsesOf(inputs) && s.sent == ApprovalsOf(tools, inputs)
    && s.results == EndingsOf(inputs) && BackgroundRight(s.background, inputs)
  }

  ghost predicate BackgroundRight(background: set<Id>, inputs: seq<Input>) {
    forall job :: job in background <==> LastMention(inputs, job) == Some(true)
  }

  /** What one input adds. */
  lemma Added(tools: bool, inputs: seq<Input>, input: Input)
    ensures var more, r := inputs + [input], RunningAfter(inputs);
            && UpdatedIn(more) == UpdatedIn(inputs) + (if input.Hear? && input.event.Updated? then JobsOf(input.event.outcomes) else {})
            && ResponsesOf(more) == ResponsesOf(inputs) + (if input.Hear? then ResponsesTo(inputs, input.event) else [])
            && ApprovalsOf(tools, more) == ApprovalsOf(tools, inputs) + Approving(tools, inputs, input)
            && EndingsOf(more) == EndingsOf(inputs) + Ending(inputs, input)
            && forall job :: LastMention(more, job) ==
                 if input.Hear? && Mention(UpdatedIn(inputs), input.event, job).Some?
                 then Mention(UpdatedIn(inputs), input.event, job) else LastMention(inputs, job)
  {
    assert (inputs + [input])[..|inputs|] == inputs;
    hide RunningAfter, ResponsesTo, Mention, EventsOf, LimitOf, ReplyOf, JobsOf;
  }

  /** What an event adds to what the session hands over, answers and tracks. */
  ghost predicate Adds(s: State, n: State, inputs: seq<Input>, e: Event) {
    && n.tools == s.tools && n.handed == s.handed && n.reports == s.reports + ResponsesTo(inputs, e)
    && n.sent == s.sent + Approving(s.tools, inputs, Hear(e)) && n.results == s.results + Ending(inputs, Hear(e))
    && n.updated == s.updated + (if e.Updated? then JobsOf(e.outcomes) else {}) && Tracks(s, e, n.background)
  }

  /** What the invariant says of who runs. */
  ghost predicate Whose(s: State, inputs: seq<Input>) {
    var r := RunningAfter(inputs);
    && Apart(r) && Agrees(s, r) && s.updated == UpdatedIn(inputs)
    && (s.current.Some? ==>
          Reply(s.answer, s.files) == ReplyOf(EventsOf(inputs, s.current.value), LimitOf(inputs, s.current.value)))
  }

  lemma WhoseTurns(s: State, inputs: seq<Input>)
    requires Inv(s, inputs) && s.updated == UpdatedIn(inputs)
    ensures Whose(s, inputs)
  {
    hide RunningAfter, EventsOf, LimitOf, ReplyOf, ServerRight, ResultsRight, NothingUnused, UpdatedIn;
  }

  lemma OwnResponds(s: State, inputs: seq<Input>, e: Event)
    requires Whose(s, inputs) && s.current.Some? && (TurnOf(e) == s.current || TurnOf(e).None?)
    ensures ResponsesTo(inputs, e) == Noticed(s.updated, e)
  {
    hide RunningAfter, EventsOf, LimitOf, ReplyOf, AppendCapped, ChangeLines, OutcomeLines, UpdatedIn, OriginLines, ReportTo;
  }

  lemma OwnEnds(s: State, o: State, inputs: seq<Input>, e: Event)
    requires Whose(s, inputs) && s.current.Some? && (TurnOf(e) == s.current || TurnOf(e).None?)
    requires o.current == s.current && o.answer == s.answer && (!e.Tool? ==> o.files == s.files)
    ensures Ending(inputs, Hear(e))
         == if EndingOf(o, e).Some? then [TurnResult(s.current.value, EndingOf(o, e).value)] else []
  {
    hide RunningAfter, EventsOf, LimitOf, ReplyOf, UpdatedIn;
  }

  lemma OwnAdds(s: State, o: State, n: State, inputs: seq<Input>, e: Event)
    requires Whose(s, inputs) && s.current.Some? && (TurnOf(e) == s.current || TurnOf(e).None?)
    requires ObservedAs(s, e, o) && OwnAs(o, e, n)
    ensures Adds(s, n, inputs, e)
  {
    OwnResponds(s, inputs, e);
    OwnEnds(s, o, inputs, e);
    assert Approving(s.tools, inputs, Hear(e)) == if e.Approval? then [Approved(e.approval, s.tools)] else [] by {
      hide RunningAfter, EventsOf, LimitOf, ReplyOf, UpdatedIn;
    }
    hide Whose, ResponsesTo, Noticed, Ending, EndingOf, Approving, Mention, JobsOf;
  }

  lemma OtherResponds(s: State, inputs: seq<Input>, e: Event)
    requires Whose(s, inputs) && (TurnOf(e).Some? ==> TurnOf(e) != s.current)
    requires e.Completed? ==>
               Finished(s, e.turn) == if e.turn in RunningAfter(inputs).server then ReportTo(EventsOf(inputs, e.turn)) else []
    ensures ResponsesTo(inputs, e)
         == Noticed(s.updated, e) + (if e.Completed? then Outcomes(e.origin) + Finished(s, e.turn)
                                     else if e.Cancelled? && e.turn in s.serverTurns then Outcomes(e.origin) else [])
  {
    if e.Completed? || e.Cancelled? {
      OriginLinesAre(e.origin);
    }
    hide RunningAfter, EventsOf, LimitOf, ReplyOf, AppendCapped, ChangeLines, OutcomeLines, UpdatedIn, Outcomes, ReportTo, Finished;
    hide OriginLines;
    assert forall x: seq<Response> :: [] + x == x && x + [] == x;
  }

  lemma OtherAdds(s: State, o: State, n: State, inputs: seq<Input>, e: Event)
    requires Whose(s, inputs) && (TurnOf(e).Some? ==> TurnOf(e) != s.current) && (s.current.Some? ==> TurnOf(e).Some?)
    requires e.Completed? ==>
               Finished(s, e.turn) == if e.turn in RunningAfter(inputs).server then ReportTo(EventsOf(inputs, e.turn)) else []
    requires ObservedAs(s, e, o) && AbsorbedAs(o, e, n)
    ensures Adds(s, n, inputs, e)
  {
    OtherResponds(s, inputs, e);
    assert Approving(s.tools, inputs, Hear(e)) == if e.Approval? then [Approved(e.approval, s.tools && e.turn !in s.stale)] else [] by {
      hide RunningAfter, EventsOf, LimitOf, ReplyOf, UpdatedIn;
    }
    assert Ending(inputs, Hear(e)) == [] by { hide RunningAfter, EventsOf, LimitOf, ReplyOf, UpdatedIn; }
    assert e.Completed? ==> Finished(o, e.turn) == Finished(s, e.turn);
    hide Whose, ResponsesTo, Noticed, Ending, Approving, Mention, JobsOf, Finished, Outcomes, ReportTo, RunningAfter, EventsOf;
    assert s.results + [] == s.results;
    Joined(s.reports, Noticed(s.updated, e),
           if e.Completed? then Outcomes(e.origin) + Finished(s, e.turn)
           else if e.Cancelled? && e.turn in s.serverTurns then Outcomes(e.origin) else []);
  }

  lemma Joined(a: seq<Response>, b: seq<Response>, c: seq<Response>)
    ensures a + b + c == a + (b + c)
  {
  }

  lemma FinishedTo(s: State, inputs: seq<Input>, turn: Id)
    requires Inv(s, inputs)
    ensures Finished(s, turn) == if turn in RunningAfter(inputs).server then ReportTo(EventsOf(inputs, turn)) else []
  {
    assert turn in s.serverTurns ==> s.serverTurns[turn] == ReplyOf(EventsOf(inputs, turn), MAX_REPORT);
    assert Agrees(s, RunningAfter(inputs));
    hide Inv, RunningAfter, EventsOf, ReplyOf, Blank;
  }

  lemma HearAdds(s: State, inputs: seq<Input>, e: Event)
    requires Inv(s, inputs) && s.updated == UpdatedIn(inputs) && Allowed(RunningAfter(inputs), Hear(e))
    ensures Adds(s, Heard(s, e), inputs, e)
  {
    WhoseTurns(s, inputs);
    ObservedTells(s, e);
    WhoHears(s, inputs, e);
    var o := Observed(s, e);
    if s.current.Some? && ((TurnOf(e) == s.current && !(e.Started? && e.server)) || TurnOf(e).None?) {
      OwnTells(o, e);
      hide *;
      OwnAdds(s, o, Own(o, e), inputs, e);
    } else {
      if e.Completed? {
        FinishedTo(s, inputs, e.turn);
      }
      AbsorbedTells(o, e);
      hide *;
      OtherAdds(s, o, Absorbed(o, e), inputs, e);
    }
  }

  /** Whether an event is handled as the client's own. */
  lemma WhoHears(s: State, inputs: seq<Input>, e: Event)
    requires Inv(s, inputs) && Allowed(RunningAfter(inputs), Hear(e))
    ensures var own := s.current.Some? && ((TurnOf(e) == s.current && !(e.Started? && e.server)) || TurnOf(e).None?);
            && Observed(s, e).current == s.current
            && Heard(s, e) == (if own then Own(Observed(s, e), e) else Absorbed(Observed(s, e), e))
            && (!own ==> (TurnOf(e).Some? ==> TurnOf(e) != s.current) && (s.current.Some? ==> TurnOf(e).Some?))
  {
    assert Agrees(s, RunningAfter(inputs)) && Apart(RunningAfter(inputs));
    ObservedServer(s, e);
    ObservedCurrent(s, e);
    hide Inv, Observed, Absorbed, Own, RunningAfter;
  }

  lemma HearRight(s: State, tools: bool, inputs: seq<Input>, e: Event)
    requires Inv(s, inputs) && Right(s, tools, inputs) && Allowed(RunningAfter(inputs), Hear(e))
    ensures Right(Heard(s, e), tools, inputs + [Hear(e)])
  {
    HearAdds(s, inputs, e);
    Added(tools, inputs, Hear(e));
    Joined(s.handed, s.reports, ResponsesTo(inputs, e));
    TracksLast(s, Heard(s, e), inputs, e);
    hide Inv, Heard, RunningAfter, UpdatedIn, ResponsesOf, ApprovalsOf, EndingsOf, LastMention, ResponsesTo, Approving, Ending, Mention;
    hide Tracks, BackgroundRight, JobsOf;
  }

  lemma TracksLast(s: State, n: State, inputs: seq<Input>, e: Event)
    requires BackgroundRight(s.background, inputs) && s.updated == UpdatedIn(inputs) && Tracks(s, e, n.background)
    ensures BackgroundRight(n.background, inputs + [Hear(e)])
  {
    Added(true, inputs, Hear(e));
    hide Mention, LastMention, UpdatedIn, ResponsesOf, ApprovalsOf, EndingsOf, ResponsesTo, Approving, Ending, JobsOf, RunningAfter;
  }

  lemma InputEnds(s: State, inputs: seq<Input>, input: Input)
    requires Inv(s, inputs) && !input.Hear?
    ensures var n := Step(s, input);
            && n.results == s.results + Ending(inputs, input) && n.sent == s.sent && n.updated == s.updated
            && n.background == s.background && n.tools == s.tools
    ensures forall tools :: Approving(tools, inputs, input) == []
  {
    assert Agrees(s, RunningAfter(inputs));
    hide Inv, RunningAfter, EventsOf, ReplyOf, LimitOf;
    assert s.results + [] == s.results;
  }

  lemma BackgroundSame(background: set<Id>, inputs: seq<Input>, input: Input)
    requires BackgroundRight(background, inputs) && !input.Hear?
    ensures BackgroundRight(background, inputs + [input])
  {
    Added(true, inputs, input);
    hide LastMention, Mention, UpdatedIn, ResponsesOf, ApprovalsOf, EndingsOf, ResponsesTo, Ending, Approving, JobsOf;
  }

  lemma InputRight(s: State, tools: bool, inputs: seq<Input>, input: Input)
    requires Inv(s, inputs) && Right(s, tools, inputs) && Allowed(RunningAfter(inputs), input) && !input.Hear?
    ensures Right(Step(s, input), tools, inputs + [input])
  {
    InputEnds(s, inputs, input);
    Added(tools, inputs, input);
    HandReports(s, input);
    BackgroundSame(s.background, inputs, input);
    hide Inv, RunningAfter, UpdatedIn, ResponsesOf, ApprovalsOf, EndingsOf, LastMention, ResponsesTo, Mention, Ending;
    hide BackgroundRight, Step, JobsOf, Approving;
    assert s.results + [] == s.results && s.sent + [] == s.sent && s.updated + {} == s.updated;
    assert s.handed + s.reports + [] == s.handed + s.reports;
  }

  /** In every life the responses handed over and still waiting are, in order, those its inputs give; each approval is
      answered once, yes only with tools and for a turn not abandoned; the client's turns end as the server says; and
      the jobs tracked are those last said to run. */
  lemma {:induction false} EveryLifeTells(tools: bool, inputs: seq<Input>)
    requires IsLife(inputs)
    ensures Right(After(tools, inputs), tools, inputs)
    decreases |inputs|
  {
    if inputs == [] {
      NothingTold(tools);
    } else {
      var before, last := inputs[..|inputs| - 1], inputs[|inputs| - 1];
      assert inputs == before + [last];
      EveryLifeTells(tools, before);
      EveryLife(tools, before);
      hide Inv, Heard, RunningAfter, Right;
      var s := After(tools, before);
      if last.Hear? {
        HearRight(s, tools, before, last.event);
      } else {
        InputRight(s, tools, before, last);
      }
    }
  }

  lemma NothingTold(tools: bool)
    ensures Right(Sessions.Idle(tools), tools, [])
  {
  }

  // ----- what the server is asked to cancel

  ghost predicate CancelsRight(s: State, inputs: seq<Input>) {
    && s.cancels == CancelsOf(inputs)
    && (s.current.Some? ==> s.started == RunOf(inputs, s.current.value))
  }

  lemma CancelsAdded(inputs: seq<Input>, input: Input)
    ensures CancelsOf(inputs + [input]) == CancelsOf(inputs) + Cancelling(inputs, input)
    ensures forall turn ::
              RunOf(inputs + [input], turn) ==
              if input.Begin? then None
              else if input.Hear? && input.event.Started? && !input.event.server && input.event.turn == turn
                      && RunningAfter(inputs).own == Some(turn)
              then Some(input.event.run) else RunOf(inputs, turn)
  {
    assert (inputs + [input])[..|inputs|] == inputs;
    hide RunningAfter;
  }

  lemma HeardStarts(s: State, e: Event)
    ensures var n := Heard(s, e);
            && n.cancels == s.cancels
            && n.started == (if e.Started? && !e.server && s.current == Some(e.turn) then Some(e.run) else s.started)
            && (n.current == s.current || n.current.None?)
  {
    ObservedCurrent(s, e);
    ObservedStarts(s, e);
    hide Observed, AppendCapped, Blank, Notices;
  }

  lemma ObservedStarts(s: State, e: Event)
    ensures Observed(s, e).started == if e.Started? && !e.server && s.current == Some(e.turn) then Some(e.run) else s.started
  {
    hide AppendCapped, Settled;
    if e.Tool? {
      ChangedKeeps(s, e.changes);
      hide Changed;
    } else if e.Updated? {
      OutcomesKeep(s, e.outcomes);
      hide OutcomesHeard;
    }
  }

  /** In every life the server is asked to cancel exactly the turns given up that it had said it runs, each by its
      own run. */
  lemma {:induction false} EveryCancel(tools: bool, inputs: seq<Input>)
    requires IsLife(inputs)
    ensures CancelsRight(After(tools, inputs), inputs)
    decreases |inputs|
  {
    if inputs != [] {
      var before, last := inputs[..|inputs| - 1], inputs[|inputs| - 1];
      assert inputs == before + [last];
      EveryCancel(tools, before);
      EveryLife(tools, before);
      var s := After(tools, before);
      assert s.current == RunningAfter(before).own;
      CancelsAdded(before, last);
      hide Inv, Heard, RunningAfter, RunOf, CancelsOf, IsLife;
      if last.Hear? {
        HeardStarts(s, last.event);
      }
      assert s.cancels + [] == s.cancels;
    }
  }
}

/** The session as the bridge uses it (crates/scv-channels/src/session.rs): fields updated by each event
    in the loops of `observe`, `absorb` and `turn`. */
module SessionClient {
  import opened Wrappers
  import opened Ids
  import opened Text
  import opened Sessions
  import opened SessionLives

  /** The session after all of `events`. */
  function HeardAll(s: State, events: seq<Event>): State {
    if events == [] then s else Heard(HeardAll(s, events[..|events| - 1]), events[|events| - 1])
  }

  lemma HeardNone(s: State)
    ensures HeardAll(s, []) == s
  {
  }

  lemma HeardPush(s: State, events: seq<Event>, k: nat)
    requires k < |events|
    ensures HeardAll(s, events[..k + 1]) == Heard(HeardAll(s, events[..k]), events[k])
  {
    assert events[..k + 1][..k] == events[..k];
  }

  lemma ChangedPush(s: State, changes: seq<Change>, k: nat)
    requires k < |changes|
    ensures Changed(s, changes[..k + 1]) == Changed(Changed(s, changes[..k]), [changes[k]])
  {
    assert changes[..k + 1][..k] == changes[..k];
    assert [changes[k]][..0] == [];
    assert Changed(Changed(s, changes[..k]), []) == Changed(s, changes[..k]);
  }

  class Session {
    const tools: bool
    var current: Option<Id>
    var started: Option<Id>
    var max: nat
    var answer: string
    var files: seq<string>
    var serverTurns: map<Id, Reply>
    var stale: set<Id>
    var reports: seq<Response>
    ghost var handed: seq<Response>
    var background: set<Id>
    var updated: set<Id>
    var sent: seq<Approved>
    var cancels: seq<Id>
    ghost var results: seq<TurnResult>

    ghost function Value(): State
      reads this
    {
      State(tools, current, started, max, answer, files, serverTurns, stale, reports, handed,
            background, updated, sent, cancels, results)
    }

    constructor (tools: bool)
      ensures Value() == Sessions.Idle(tools)
    {
      this.tools := tools;
      current, started, max, answer, files := None, None, 0, [], [];
      serverTurns, stale, reports, handed := map[], {}, [], [];
      background, updated, sent, cancels, results := {}, {}, [], [], [];
    }

    /** The jobs a call started and settled, in order. */
    method SettleJobs(changes: seq<Change>)
      modifies this`background, this`reports
      ensures Value() == Changed(old(Value()), changes)
    {
      for k := 0 to |changes|
        invariant Value() == Changed(old(Value()), changes[..k])
      {
        var change := changes[k];
        ChangedPush(old(Value()), changes, k);
        ChangedOne(Value(), change);
        hide Changed;
        if change.open && change.job in updated {
          continue;
        }
        if change.started {
          background := background + {change.job};
        } else if !change.open {
          background := background - {change.job};
        }
        reports := reports + if change.notice.Some? then [System(change.notice.value)] else [];
      }
      assert changes[..|changes|] == changes;
    }

    method HearOutcomes(outcomes: seq<Outcome>)
      modifies this`background, this`updated, this`reports
      ensures Value() == OutcomesHeard(old(Value()), outcomes)
    {
      for k := 0 to |outcomes|
        invariant Value() == OutcomesHeard(old(Value()), outcomes[..k])
      {
        assert outcomes[..k + 1][..k] == outcomes[..k];
        background := background - {outcomes[k].job};
        updated := updated + {outcomes[k].job};
        reports := reports + [System(outcomes[k].notice)];
      }
      assert outcomes[..|outcomes|] == outcomes;
    }

    /** Give a file to the turn it belongs to. */
    method Attach(turn: Id, file: Option<string>)
      modifies this`serverTurns, this`files
      ensures Value() == Attached(old(Value()), turn, file)
    {
      if file.Some? {
        if turn in serverTurns {
          var r := serverTurns[turn];
          serverTurns := serverTurns[turn := r.(files := r.files + [file.value])];
        } else if turn !in stale && current.Some? {
          files := files + [file.value];
        }
      }
    }

    /** A turn started, the server's own or the client's. */
    method SeeStart(turn: Id, server: bool, run: Id)
      modifies this`serverTurns, this`started
      ensures Value() == Observed(old(Value()), Started(turn, server, run))
    {
      if server {
        serverTurns := serverTurns[turn := Reply([], [])];
      } else if current == Some(turn) {
        started := Some(run);
      }
    }

    /** SCV reports on jobs in its own words. */
    method HearReport(text: string, jobs: seq<Id>)
      modifies this`background, this`reports
      ensures Value() == Observed(old(Value()), Reported(text, jobs))
    {
      hide AppendCapped, Settled;
      background := Settled(background, jobs);
      if jobs != [] {
        reports := reports + [System(AppendCapped([], text, MAX_REPORT))];
      }
    }

    /** Track jobs and server-started turns in any event. */
    method Observe(e: Event)
      modifies this`background, this`updated, this`reports, this`serverTurns, this`files, this`started
      ensures Value() == Observed(old(Value()), e)
    {
      hide Changed, OutcomesHeard, AppendCapped, Attached, Settled;
      match e {
        case Tool(turn, file, changes) =>
          SettleJobs(changes);
          Attach(turn, file);
        case Started(turn, server, run) => SeeStart(turn, server, run);
        case Completed(_, origin) => SettleOrigin(origin);
        case Cancelled(_, origin) => SettleOrigin(origin);
        case Failed(_, _, origin) =>
          if origin.Some? && !origin.value.retried {
            SettleOrigin(origin);
          }
        case Reported(text, jobs) => HearReport(text, jobs);
        case Updated(outcomes) => HearOutcomes(outcomes);
        case _ =>
      }
    }

    /** The jobs a server-started turn reports on are settled. */
    method SettleOrigin(origin: Option<Origin>)
      modifies this`background
      ensures background == if origin.Some? then Settled(old(background), origin.value.jobs) else old(background)
    {
      hide Settled;
      if origin.Some? {
        background := Settled(background, origin.value.jobs);
      }
    }

    /** What an event of a turn that is not the client's current one does. */
    method Absorb(e: Event)
      modifies this`sent, this`serverTurns, this`stale, this`reports
      ensures Value() == Absorbed(old(Value()), e)
    {
      hide AppendCapped, Blank, Notices, Finished, Outcomes;
      match e {
        case Approval(turn, approval) => sent := sent + [Approved(approval, tools && turn !in stale)];
        case Answered(turn, text) =>
          if turn in serverTurns {
            serverTurns := serverTurns[turn := serverTurns[turn].(text := AppendCapped([], text, MAX_REPORT))];
          }
        case Delta(turn, text) =>
          if turn in serverTurns {
            var r := serverTurns[turn];
            serverTurns := serverTurns[turn := r.(text := AppendCapped(r.text, text, MAX_REPORT))];
          }
        case Completed(turn, origin) => Complete(turn, origin);
        case Failed(turn, _, _) => stale, serverTurns := stale - {turn}, serverTurns - {turn};
        case Cancelled(turn, origin) => Cancel(turn, origin);
        case _ =>
      }
    }

    /** A server-started or abandoned turn was cancelled. */
    method Cancel(turn: Id, origin: Option<Origin>)
      modifies this`serverTurns, this`stale, this`reports
      ensures Value() == Absorbed(old(Value()), Cancelled(turn, origin))
    {
      hide Outcomes;
      if turn in serverTurns {
        reports := reports + Outcomes(origin);
      } else {
        assert reports + [] == reports;
      }
      stale, serverTurns := stale - {turn}, serverTurns - {turn};
    }

    /** A server-started or abandoned turn completed. */
    method Complete(turn: Id, origin: Option<Origin>)
      modifies this`serverTurns, this`stale, this`reports
      ensures Value() == Absorbed(old(Value()), Completed(turn, origin))
    {
      hide Blank, Notices;
      reports := reports + Outcomes(origin);
      if turn in serverTurns && (!Blank(serverTurns[turn].text) || serverTurns[turn].files != []) {
        reports := reports + [Model(serverTurns[turn])];
      } else {
        assert reports + [] == reports;
      }
      stale, serverTurns := stale - {turn}, serverTurns - {turn};
    }

    /** Handle an event of the client's own turn. `ending` is set when it ends the turn. */
    method HearOwn(e: Event) returns (ending: Option<Ending>)
      requires current.Some?
      modifies this`current, this`answer, this`files, this`sent, this`results
      ensures Value() == Own(old(Value()), e)
      ensures current == if ending.Some? then None else old(current)
      ensures results == old(results) + if ending.Some? then [TurnResult(old(current).value, ending.value)] else []
    {
      hide AppendCapped;
      ending := None;
      if e.Completed? {
        ending := Some(Ended(Reply(answer, files)));
        files := [];
      } else if e.Failed? || (e.Error? && (e.request.None? || e.request == current)) {
        ending := Some(Refused(e.message));
      } else if e.Cancelled? {
        ending := Some(Refused("turn cancelled"));
      } else if e.Answered? {
        answer := AppendCapped([], e.text, max);
      } else if e.Delta? {
        answer := AppendCapped(answer, e.text, max);
      } else if e.Approval? {
        sent := sent + [Approved(e.approval, tools)];
      }
      assert ending == EndingOf(old(Value()), e);
      if ending.Some? {
        results := results + [TurnResult(current.value, ending.value)];
        current := None;
      }
    }

    /** Hear one event while a turn of the client runs. */
    method HearOne(e: Event) returns (ending: Option<Ending>)
      requires current.Some?
      modifies this
      ensures Value() == Heard(old(Value()), e)
      ensures current == if ending.Some? then None else old(current)
      ensures results == old(results) + if ending.Some? then [TurnResult(old(current).value, ending.value)] else []
    {
      hide Observed, Absorbed, Own, Heard, IsOther;
      ghost var before := Value();
      ObservedCurrent(before, e);
      AbsorbedCurrent(Observed(before, e), e);
      HeardIs(before, e);
      Observe(e);
      OtherIs(Value(), e);
      if TurnOf(e).Some? && (TurnOf(e).value in serverTurns || TurnOf(e).value in stale) {
        Absorb(e);
        return None;
      }
      ending := HearOwn(e);
    }

    method BeginTurn(turn: Id, limit: nat)
      modifies this`current, this`started, this`max, this`answer, this`files
      ensures Value() == Step(old(Value()), Begin(turn, limit)) && current == Some(turn)
    {
      current, started, max, answer, files := Some(turn), None, limit, [], [];
    }

    /** Run one turn over the stream of `events`: it takes the first `n` of them and says how the turn
        ended, or nothing when the stream ended first. */
    method Turn(turn: Id, limit: nat, events: seq<Event>) returns (n: nat, ending: Option<Ending>)
      modifies this
      ensures n <= |events| && Value() == HeardAll(Step(old(Value()), Begin(turn, limit)), events[..n])
      ensures ending.None? ==> n == |events| && current == Some(turn)
      ensures ending.Some? ==>
                && n > 0 && current.None?
                && results == old(results) + [TurnResult(turn, ending.value)]
    {
      hide Heard, HeardAll, Step;
      BeginTurn(turn, limit);
      n, ending := 0, None;
      ghost var s := Value();
      assert events[..0] == [];
      HeardNone(s);
      while n < |events|
        invariant n <= |events| && ending.None? && current == Some(turn) && results == old(results)
        invariant Value() == HeardAll(s, events[..n])
      {
        HeardPush(s, events, n);
        n := n + 1;
        ending := HearOne(events[n - 1]);
        if ending.Some? {
          return;
        }
        assert old(results) + [] == old(results);
      }
    }

    /** Hear events while no turn of the client runs, until a report waits, and hand it over; nothing when the
        stream ended first. */
    method NextReport(events: seq<Event>) returns (n: nat, report: Option<Response>)
      requires current.None?
      modifies this
      ensures n <= |events|
      ensures var heard := HeardAll(old(Value()), events[..n]);
              if report.Some?
              then heard.reports != [] && report.value == heard.reports[0] && Value() == Step(heard, HandOne)
              else n == |events| && heard.reports == [] && Value() == heard
    {
      n := 0;
      ghost var s := Value();
      assert events[..0] == [];
      hide Observed, Absorbed;
      while reports == [] && n < |events|
        invariant n <= |events| && current.None? && Value() == HeardAll(s, events[..n])
      {
        var e := events[n];
        HeardPush(s, events, n);
        ObservedCurrent(Value(), e);
        AbsorbedCurrent(Observed(Value(), e), e);
        hide HeardAll;
        n := n + 1;
        Observe(e);
        Absorb(e);
      }
      if reports == [] {
        return n, None;
      }
      report := Some(reports[0]);
      handed, reports := handed + [reports[0]], reports[1..];
    }

    /** Hand over every report that waits. */
    method TakeReports() returns (all: seq<Response>)
      modifies this`reports, this`handed
      ensures all == old(reports) && Value() == Step(old(Value()), HandAll)
    {
      all := reports;
      handed, reports := handed + reports, [];
    }

    /** Abandon the current turn, and ask the server to cancel it if it runs. It cannot be cancelled before. */
    method CancelCurrent() returns (ok: bool)
      modifies this`current, this`stale, this`cancels, this`results
      ensures Value() == Step(old(Value()), Abandon)
      ensures ok <==> old(current).None? || old(started).Some?
    {
      if current.None? {
        return true;
      }
      results := results + [TurnResult(current.value, Abandoned)];
      stale, current := stale + {current.value}, None;
      if started.None? {
        assert cancels + [] == cancels;
        return false;
      }
      cancels := cancels + [started.value];
      return true;
    }
  }

  lemma ChangedOne(s: State, change: Change)
    ensures Changed(s, [change]) ==
            if change.open && change.job in s.updated then s
            else s.(background := if change.started then s.background + {change.job}
                                  else if !change.open then s.background - {change.job} else s.background,
                    reports := s.reports + if change.notice.Some? then [System(change.notice.value)] else [])
  {
    assert [change][..0] == [];
  }

  lemma HeardIs(s: State, e: Event)
    requires s.current.Some?
    ensures var o := Observed(s, e);
            && o.current.Some?
            && Heard(s, e) == if IsOther(o, e) then Absorbed(o, e) else Own(o, e)
  {
    hide Observed, Absorbed, Own, IsOther;
    ObservedCurrent(s, e);
  }

  lemma OtherIs(s: State, e: Event)
    ensures IsOther(s, e) <==> TurnOf(e).Some? && (TurnOf(e).value in s.serverTurns || TurnOf(e).value in s.stale)
  {
  }

  lemma AbsorbedCurrent(s: State, e: Event)
    ensures Absorbed(s, e).current == s.current && Absorbed(s, e).results == s.results
  {
    hide AppendCapped, Blank, Notices;
  }
}

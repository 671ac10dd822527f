/** Runs that show the exceptions to be real: a part that is delivered and also held, and a reaction that a
    second one replaces. */
module BridgeCases {
  import opened Wrappers
  import opened Ids
  import opened Text
  import opened Seen
  import opened Held
  import opened Delivery
  import opened Bridge
  import BridgeReactions

  // ----- running step by step

  /** One more step of a run. */
  lemma Longer(s: System, events: seq<Event>, e: Event)
    requires IsRun(s, events) && Enabled(After(s, events), e)
    ensures IsRun(s, events + [e]) && After(s, events + [e]) == Next(After(s, events), e)
  {
    hide IsRun, After, Enabled, Next;
    RunOne(After(s, events), e);
    RunAppend(s, events, [e]);
  }

  /** A running ordinary chat with nothing going on but `reacting`. */
  ghost predicate Calm(s: System, seen: seq<Id>, reacting: seq<Id>) {
    && s.up && s.mem == s.disk && !s.mem.mail && s.hearing.None? && s.sending.None? && s.queued == [] && s.running == []
    && s.mem.pending == [] && s.mem.inFlight == [] && s.mem.held == [] && s.mem.seen == seen && s.reacting == reacting
    && s.mem.removing == [] && s.tried == multiset{}
  }

  const BOOT := Boot(false, false, "", map[], 0)

  lemma NothingRecovered(st: State)
    requires st.inFlight == [] && st.jobs == []
    ensures Recover(st, "", map[], 0, 0) == Stepped(st, 0)
  {
    assert StoppedJobs([], {}) == [];
  }

  lemma StartedEmpty()
    ensures var s := Started(START, false, "", map[], 0); Calm(s, [], []) && s.received == [] && s.unused == 0
  {
    NothingRecovered(EMPTY);
    assert EMPTY.(mail := false) == EMPTY;
    hide Recover, RecoverDrops, Failures;
  }

  lemma BootIs()
    ensures Enabled(START, BOOT) && Next(START, BOOT) == Started(START, false, "", map[], 0)
  {
    hide MayDeliver, MayHear, MayWork, Deliver, Intake, Work, Started, Untied, Down;
  }

  lemma Booted()
    ensures Enabled(START, BOOT) && Calm(Next(START, BOOT), [], [])
    ensures Next(START, BOOT).received == [] && Next(START, BOOT).unused == 0
  {
    hide Enabled, Next, Started, Calm;
    BootIs();
    StartedEmpty();
  }

  lemma FirstRun()
    ensures IsRun(START, [BOOT]) && After(START, [BOOT]) == Next(START, BOOT)
  {
    Booted();
    hide Enabled, Next, IsRun, After;
    RunOne(START, BOOT);
  }

  lemma EmptySplit()
    ensures Split([], MAX_REPLY) == [[]]
  {
  }

  // ----- a part delivered and held

  lemma {:induction false} SortOne(x: HeldReply)
    ensures Sort([x]) == [x]
  {
    assert [x][..0] == [];
    assert Sort([]) == [];
  }

  lemma PruneOne(x: HeldReply, now: nat)
    requires Fresh(x, now) && Bytes(x.reply) <= MAX_HELD_REPLY
    ensures Prune([x], now) == [x]
  {
    assert [x][1..] == [];
    hide Bytes;
    assert OnlyFresh([x], now) == [x];
    assert Keep([]) == [];
    assert Room([], x);
  }

  lemma HeldAlone(p: Pending, now: nat)
    requires p.next == 0 && !p.transient && p.own.None? && p.carried == []
    ensures HoldRefused([], p, now) == [HeldReply(p.key, p.to, Truncate(p.reply), now)]
  {
    hide Sort, Prune, Truncate, Chunks;
    var x := HeldReply(p.key, p.to, Truncate(p.reply), now);
    assert [] + [] + [x] == [x];
    SortOne(x);
    PruneOne(x, now);
  }

  /** The bridge right after a reply of one part was queued. */
  ghost predicate Queued(s: System, p: Pending) {
    && s.up && s.mem == s.disk && s.sending.None? && s.mem.pending == [p] && s.mem.held == [] && s.received == []
    && p.next == 0 && p.files == 0 && !p.transient && p.own.None? && p.carried == [] && p.id.None? && p.reaction.None?
    && p.clients == [0] && Chunks(p) == [p.reply]
  }

  /** A step in front of a run. */
  lemma First(s: System, e: Event, rest: seq<Event>)
    requires Enabled(s, e) && IsRun(Next(s, e), rest)
    ensures IsRun(s, [e] + rest) && After(s, [e] + rest) == After(Next(s, e), rest)
  {
    hide Enabled, Next;
    assert ([e] + rest)[1..] == rest;
  }

  lemma Picked(s: System)
    requires s.up && s.sending.None? && s.mem.pending != []
    ensures Enabled(s, Pick) && Next(s, Pick) == s.(sending := Some(Sending(s.mem.pending[0], false, false)))
  {
    DeliverStep(s, Pick);
    hide Enabled, Next, Done;
  }

  /** A send nobody saw arrive. */
  lemma Arrived(s: System, p: Pending)
    requires Queued(s.(sending := None), p) && s.sending == Some(Sending(p, false, false))
    ensures Enabled(s, Unsure(true))
    ensures Next(s, Unsure(true)) == s.(sending := None, received := [Part(0, p.to, p.reply)])
  {
    hide Chunks, Enabled, Next, Done;
    assert CanSend(s);
    DeliverStep(s, Unsure(true));
    assert NextPart(p) == Part(0, p.to, p.reply);
    assert Receive([], Part(0, p.to, p.reply)) == [Part(0, p.to, p.reply)];
    hide Receive, NextPart;
  }

  lemma RefusedNow(s: System, p: Pending)
    requires s.up && s.sending == Some(Sending(p, false, false)) && p.next == 0 && p.clients == [0] && Chunks(p) == [p.reply]
    ensures Enabled(s, Rejected) && Next(s, Rejected) == s.(sending := Some(Sending(p, false, true)))
  {
    hide Chunks;
    assert CanSend(s);
    DeliverStep(s, Rejected);
    hide Enabled, Next, Done;
  }

  lemma FinishedRefused(s: System, p: Pending, now: nat)
    requires s.up && s.sending == Some(Sending(p, false, true)) && s.mem.pending == [p] && s.mem.held == []
    requires p.next == 0 && !p.transient && p.own.None? && p.carried == [] && p.id.None?
    ensures Enabled(s, Finish(now)) && Next(s, Finish(now)).received == s.received
    ensures Next(s, Finish(now)).disk.held == [HeldReply(p.key, p.to, Truncate(p.reply), now)]
  {
    HeldAlone(p, now);
    hide Chunks, HoldRefused, AsHeld, RefusalDrops, Truncate, Enabled, Next, Sent;
    DeliverStep(s, Finish(now));
  }

  lemma RetryRefused(s: System, p: Pending, now: nat)
    requires Queued(s, p)
    ensures IsRun(s, [Pick] + ([Unsure(true)] + ([Pick] + ([Rejected] + ([Finish(now)] + [])))))
    ensures var t := After(s, [Pick] + ([Unsure(true)] + ([Pick] + ([Rejected] + ([Finish(now)] + [])))));
            t.received == [Part(0, p.to, p.reply)] && t.disk.held == [HeldReply(p.key, p.to, Truncate(p.reply), now)]
  {
    hide Chunks, Enabled, Next, Truncate;
    Picked(s);
    var a := Next(s, Pick);
    Arrived(a, p);
    var b := Next(a, Unsure(true));
    Picked(b);
    var c := Next(b, Pick);
    RefusedNow(c, p);
    var d := Next(c, Rejected);
    FinishedRefused(d, p, now);
    hide IsRun, After;
    NoEvents(Next(d, Finish(now)));
    First(d, Finish(now), []);
    First(c, Rejected, [Finish(now)] + []);
    First(b, Pick, [Rejected] + ([Finish(now)] + []));
    First(a, Unsure(true), [Pick] + ([Rejected] + ([Finish(now)] + [])));
    First(s, Pick, [Unsure(true)] + ([Pick] + ([Rejected] + ([Finish(now)] + []))));
  }

  lemma OnePart(to: Id, key: Id, text: string)
    requires text != [] && Bytes(text) <= MAX_REPLY
    ensures var p := NewPending(None, to, key, text, 0);
            && p.clients == [0] && Chunks(p) == [text] && p.reply == text && p.to == to && p.key == key && p.next == 0
            && p.files == 0 && !p.transient && p.own.None? && p.carried == [] && p.id.None? && p.reaction.None?
  {
    SplitFirst(text, MAX_REPLY);
    hide Split, Bytes;
  }

  lemma QueueOne(s: System, to: Id, key: Id, text: string)
    requires Calm(s, [], []) && s.received == [] && s.unused == 0 && text != [] && Bytes(text) <= MAX_REPLY
    ensures Enabled(s, Queue(to, key, text, 0, None))
    ensures exists p :: Queued(Next(s, Queue(to, key, text, 0, None)), p) && p.reply == text && p.to == to && p.key == key
  {
    var e, p := Queue(to, key, text, 0, None), NewPending(None, to, key, text, 0);
    OnePart(to, key, text);
    QueuePushes(s, to, key, text);
    hide Enabled, Next, NewPending, Bytes, Chunks;
    assert Queued(Next(s, e), p);
  }

  lemma QueuePushes(s: System, to: Id, key: Id, text: string)
    requires s.up && !s.mem.mail
    ensures var e := Queue(to, key, text, 0, None);
            Enabled(s, e) && Next(s, e) == Push(s, NewPending(None, to, key, text, s.unused))
  {
    var e, p := Queue(to, key, text, 0, None), NewPending(None, to, key, text, s.unused);
    assert p == p.(files := 0, transient := false, question := None) by { hide Split, FreshIds; }
    hide Enabled, Next, NewPending, Push, Kept, Ended, Stored;
    WorkStep(s, e);
  }

  /** A part whose first send arrived unseen and whose retry was refused is on the platform and held too: the
      chat gets it twice. */
  lemma DeliveredAndHeld(to: Id, key: Id, text: string, now: nat) returns (events: seq<Event>)
    requires text != [] && Bytes(text) <= MAX_REPLY
    ensures IsRun(START, events)
    ensures var s := After(START, events);
            s.received == [Part(0, to, text)] && s.disk.held == [HeldReply(key, to, Truncate(text), now)]
  {
    hide Bytes, Truncate, Enabled, Next, IsRun, After, Queued;
    Booted();
    FirstRun();
    var s := Next(START, BOOT);
    QueueOne(s, to, key, text);
    var e := Queue(to, key, text, 0, None);
    Longer(START, [BOOT], e);
    var p :| Queued(Next(s, e), p) && p.reply == text && p.to == to && p.key == key;
    var rest := [Pick] + ([Unsure(true)] + ([Pick] + ([Rejected] + ([Finish(now)] + []))));
    RetryRefused(Next(s, e), p, now);
    events := [BOOT] + [e] + rest;
    RunAppend(START, [BOOT] + [e], rest);
  }

  // ----- a reaction replaced

  /** The same with one message claimed, queued or running. */
  ghost predicate Claimed(s: System, c: Claim, seen: seq<Id>, reacting: seq<Id>) {
    && s.up && s.mem == s.disk && !s.mem.mail && s.hearing.None? && s.sending.None?
    && s.mem.pending == [] && s.mem.inFlight == [c] && s.mem.held == [] && s.mem.seen == seen && s.reacting == reacting
    && s.mem.removing == [] && s.tried == multiset{}
  }

  /** The same with one empty reply pending. */
  ghost predicate Replying(s: System, p: Pending, m: Id, seen: seq<Id>, reacting: seq<Id>) {
    && s.up && s.mem == s.disk && !s.mem.mail && s.hearing.None? && s.queued == [] && s.running == []
    && s.mem.pending == [p] && s.mem.inFlight == [] && s.mem.held == [] && s.mem.seen == seen && s.reacting == reacting
    && s.mem.removing == [] && s.tried == multiset{}
    && p.id == Some(m) && p.reaction.None? && p.files == 0 && p.nextFile == 0 && |p.clients| == 1 && Chunks(p) == [[]]
  }

  lemma Heard(s: System, seen: seq<Id>, reacting: seq<Id>, m: Id)
    requires Calm(s, seen, reacting) && m !in seen
    ensures Enabled(s, Hear(m)) && Next(s, Hear(m)) == s.(hearing := Some(m))
  {
    IntakeStep(s, Hear(m));
    hide Enabled, Next;
  }

  lemma TakenOn(s: System, seen: seq<Id>, reacting: seq<Id>, m: Id)
    requires Calm(s.(hearing := None), seen, reacting) && s.hearing == Some(m)
    ensures Enabled(s, TakeOn(m, m))
    ensures var n := Next(s, TakeOn(m, m));
            Claimed(n, Claim(m, m, m, None), seen, reacting + [m]) && n.queued == [m] && n.running == []
  {
    IntakeStep(s, TakeOn(m, m));
    hide Enabled, Next;
  }

  lemma TurnStarted(s: System, c: Claim, seen: seq<Id>, reacting: seq<Id>)
    requires Claimed(s, c, seen, reacting) && s.queued == [c.id] && s.running == []
    ensures Enabled(s, StartTurn(c.id))
    ensures var n := Next(s, StartTurn(c.id));
            Claimed(n, c, seen, reacting) && n.queued == [] && n.running == [c.id]
  {
    hide Enabled, Next, Kept, Ended, Stored, NewPending;
    WorkStep(s, StartTurn(c.id));
    assert [c.id][1..] == [];
  }

  lemma ComposedAlone(c: Claim, from: nat)
    requires c.reaction.None?
    ensures Compose([], c, [], 0, from) == (NewPending(Some(c.id), c.to, c.key, [], from), [])
  {
    assert Prune([], 0) == [];
    hide Prune;
    assert Take([], c.key, RoomBeside([])) == Taken([], []);
  }

  lemma EndAlone(st: State, c: Claim, from: nat)
    requires st.inFlight == [c] && c.reaction.None? && st.pending == [] && st.held == []
    ensures EndClaim(st, 0, [], 0, 0, from)
         == st.(inFlight := [], held := [], pending := [NewPending(Some(c.id), c.to, c.key, [], from)])
  {
    hide Compose, NewPending;
    ComposedAlone(c, from);
    NothingLeft(c);
    NoFiles(c, from);
  }

  lemma NothingLeft(c: Claim)
    ensures [c][..0] + [c][1..] == []
  {
  }

  lemma NoFiles(c: Claim, from: nat)
    ensures var p := NewPending(Some(c.id), c.to, c.key, [], from); p.(files := 0) == p && [] + [p] == [p]
  {
    hide Split, FreshIds;
  }

  lemma EmptyReply(c: Claim, from: nat)
    ensures var p := NewPending(Some(c.id), c.to, c.key, [], from);
            && p.id == Some(c.id) && p.reaction.None? && p.files == 0 && p.nextFile == 0 && |p.clients| == 1
            && Chunks(p) == [[]] && p.next == 0
  {
    EmptySplit();
    hide Split;
  }

  lemma FoundAlone(c: Claim)
    ensures IndexOf([c], c.id) == 0 && WithoutOne([c.id], c.id) == []
  {
  }

  lemma EndedAlone(s: System, c: Claim)
    requires s.up && s.mem.inFlight == [c] && c.reaction.None? && s.mem.pending == [] && s.mem.held == [] && s.running == [c.id]
    ensures var n := Ended(s, c.id, [], 0, 0);
            && n.mem == n.disk == s.mem.(inFlight := [], held := [], pending := [NewPending(Some(c.id), c.to, c.key, [], s.unused)])
            && n.running == [] && n.up && n.hearing == s.hearing && n.queued == s.queued && n.reacting == s.reacting
            && n.sending == s.sending && n.tried == s.tried
  {
    hide EndClaim, PrunedAway, NewPending;
    EndAlone(s.mem, c, s.unused);
    FoundAlone(c);
    hide IndexOf, WithoutOne;
  }

  lemma EndTurnIs(s: System, id: Id)
    requires s.up && id in s.running
    ensures Enabled(s, EndTurn(id, [], 0, 0)) && Next(s, EndTurn(id, [], 0, 0)) == Ended(s, id, [], 0, 0)
  {
    hide Enabled, Next, Ended, Kept, Stored, NewPending;
    WorkStep(s, EndTurn(id, [], 0, 0));
  }

  lemma TurnEnded(s: System, c: Claim, seen: seq<Id>, reacting: seq<Id>)
    requires Claimed(s, c, seen, reacting) && c.reaction.None? && s.queued == [] && s.running == [c.id]
    ensures Enabled(s, EndTurn(c.id, [], 0, 0))
    ensures var n := Next(s, EndTurn(c.id, [], 0, 0));
            n.sending.None? && |n.mem.pending| == 1 && n.mem.pending[0].next == 0
            && Replying(n, n.mem.pending[0], c.id, seen, reacting)
  {
    hide Enabled, Next, Ended, NewPending, Chunks;
    EndTurnIs(s, c.id);
    EndedAlone(s, c);
    EmptyReply(c, s.unused);
  }

  lemma Sends(s: System, p: Pending, m: Id, seen: seq<Id>, reacting: seq<Id>)
    requires Replying(s, p, m, seen, reacting) && p.next == 0 && s.sending == Some(Sending(p, false, false))
    ensures Enabled(s, Delivered)
    ensures var n := Next(s, Delivered);
            Replying(n, p, m, seen, reacting) && n.sending == Some(Sending(p, true, false))
  {
    hide Chunks, Receive, NextPart;
    assert CanSend(s);
    DeliverStep(s, Delivered);
    hide Enabled, Next, Done;
  }

  lemma Advances(s: System, p: Pending, m: Id, seen: seq<Id>, reacting: seq<Id>)
    requires Replying(s, p, m, seen, reacting) && p.next == 0 && s.sending == Some(Sending(p, true, false))
    ensures Enabled(s, Advance)
    ensures var n, q := Next(s, Advance), p.(next := 1);
            Replying(n, q, m, seen, reacting) && n.sending == Some(Sending(q, false, false))
  {
    assert Chunks(p.(next := 1)) == Chunks(p);
    AdvanceAlone(s, p);
    hide Chunks, Enabled, Next;
  }

  lemma AdvanceAlone(s: System, p: Pending)
    requires s.up && s.mem.pending == [p] && p.next == 0 && s.sending == Some(Sending(p, true, false))
    ensures Enabled(s, Advance)
    ensures var q := p.(next := 1);
            Next(s, Advance) == Bridge.Save(s, s.mem.(pending := [q])).(sending := Some(Sending(q, false, false)))
  {
    hide Enabled, Next, Done, Sent;
    DeliverStep(s, Advance);
    assert [p][0 := p.(next := 1)] == [p.(next := 1)];
  }

  lemma Finishes(s: System, p: Pending, m: Id, seen: seq<Id>, reacting: seq<Id>)
    requires Replying(s, p, m, seen, reacting) && p.next == 1 && s.sending == Some(Sending(p, false, false))
    ensures Enabled(s, Finish(0))
    ensures Calm(Next(s, Finish(0)), Mark(seen, m, WINDOW), reacting)
  {
    hide Chunks, Mark, Enabled, Next, Done, Sent;
    assert TextDone(s);
    DeliverStep(s, Finish(0));
    DoneAlone(s, p, m);
  }

  lemma DoneAlone(s: System, p: Pending, m: Id)
    requires s.sending == Some(Sending(p, false, false)) && s.mem.pending == [p] && p.next == 1 == |Chunks(p)|
    requires p.id == Some(m) && p.reaction.None? && s.mem.removing == []
    ensures var n := Done(s, 0);
            && n.mem == n.disk == s.mem.(pending := [], seen := Mark(s.mem.seen, m, WINDOW)) && n.sending.None?
            && n.up == s.up && n.hearing == s.hearing && n.queued == s.queued && n.running == s.running
            && n.reacting == s.reacting && n.tried == s.tried
  {
    FinishedAlone(s.mem, p, m);
    hide Chunks, Mark, FinishFirst, AsHeld, RefusalDrops;
  }

  lemma FinishedAlone(st: State, p: Pending, m: Id)
    requires st.pending == [p] && p.next <= |Chunks(p)| && p.id == Some(m) && p.reaction.None? && st.removing == []
    ensures FinishFirst(st, false, 0) == st.(pending := [], seen := Mark(st.seen, m, WINDOW))
  {
    hide Chunks, Mark, HoldRefused;
    assert [p][1..] == [] && st.removing + [] == [];
  }

  /** A message is claimed, answered and marked while the add of its reaction still runs. */
  lemma AnsweredFast(s: System, seen: seq<Id>, m: Id) returns (events: seq<Event>)
    requires Calm(s, seen, []) && m !in seen
    ensures IsRun(s, events) && Calm(After(s, events), Mark(seen, m, WINDOW), [m])
  {
    hide IsRun, After, Enabled, Next, Mark;
    var c := Claim(m, m, m, None);
    NoEvents(s);
    Heard(s, seen, [], m);
    Longer(s, [], Hear(m));
    events := [] + [Hear(m)];
    TakenOn(After(s, events), seen, [], m);
    Longer(s, events, TakeOn(m, m));
    events := events + [TakeOn(m, m)];
    assert [] + [m] == [m];
    TurnStarted(After(s, events), c, seen, [m]);
    Longer(s, events, StartTurn(m));
    events := events + [StartTurn(m)];
    TurnEnded(After(s, events), c, seen, [m]);
    Longer(s, events, EndTurn(m, [], 0, 0));
    events := events + [EndTurn(m, [], 0, 0)];
    var more := SentFast(After(s, events), seen, m);
    RunAppend(s, events, more);
    events := events + more;
  }

  lemma SentFast(s: System, seen: seq<Id>, m: Id) returns (events: seq<Event>)
    requires |s.mem.pending| == 1 && s.mem.pending[0].next == 0 && s.sending.None?
    requires Replying(s, s.mem.pending[0], m, seen, [m])
    ensures IsRun(s, events) && Calm(After(s, events), Mark(seen, m, WINDOW), [m])
  {
    hide IsRun, After, Enabled, Next, Mark, Chunks;
    var p := s.mem.pending[0];
    NoEvents(s);
    Picked(s);
    Longer(s, [], Pick);
    events := [] + [Pick];
    Sends(After(s, events), p, m, seen, [m]);
    Longer(s, events, Delivered);
    events := events + [Delivered];
    Advances(After(s, events), p, m, seen, [m]);
    Longer(s, events, Advance);
    events := events + [Advance];
    Finishes(After(s, events), p.(next := 1), m, seen, [m]);
    Longer(s, events, Finish(0));
    events := events + [Finish(0)];
  }

  /** A message that is only marked. */
  lemma OnlyMarked(s: System, seen: seq<Id>, reacting: seq<Id>, id: Id) returns (events: seq<Event>)
    requires Calm(s, seen, reacting) && id !in seen
    ensures IsRun(s, events) && Calm(After(s, events), Mark(seen, id, WINDOW), reacting)
  {
    hide IsRun, After, Enabled, Next, Mark;
    NoEvents(s);
    Heard(s, seen, reacting, id);
    Longer(s, [], Hear(id));
    events := [] + [Hear(id)];
    Ignored(After(s, events), seen, reacting, id);
    Longer(s, events, Ignore);
    events := events + [Ignore];
  }

  lemma Ignored(s: System, seen: seq<Id>, reacting: seq<Id>, id: Id)
    requires Calm(s.(hearing := None), seen, reacting) && s.hearing == Some(id)
    ensures Enabled(s, Ignore) && Calm(Next(s, Ignore), Mark(seen, id, WINDOW), reacting)
  {
    hide Mark;
    IntakeStep(s, Ignore);
    hide Enabled, Next;
  }

  /** Many messages that are only marked, none of them marked before. */
  lemma {:induction false} ManyMarked(s: System, marks: seq<Id>, reacting: seq<Id>, ids: seq<Id>) returns (events: seq<Event>)
    requires Calm(s, MarkAll(marks, WINDOW), reacting) && NoRepeats(ids)
    requires forall i :: 0 <= i < |ids| ==> ids[i] !in marks
    ensures IsRun(s, events) && Calm(After(s, events), MarkAll(marks + ids, WINDOW), reacting)
    decreases |ids|
  {
    hide IsRun, After, Mark, Calm, MarkAll;
    if ids == [] {
      events := [];
      NoEvents(s);
      assert marks + ids == marks;
    } else {
      var id := ids[0];
      SeenIsRecent(marks, WINDOW);
      assert id !in MarkAll(marks, WINDOW) by { LastMembers(marks, id); }
      MarkAllPush(marks, id);
      events := OnlyMarked(s, MarkAll(marks, WINDOW), reacting, id);
      var more := ManyMarked(After(s, events), marks + [id], reacting, ids[1..]);
      RunAppend(s, events, more);
      events := events + more;
      assert marks + [id] + ids[1..] == marks + ids;
    }
  }

  lemma LastMembers(marks: seq<Id>, id: Id)
    requires id !in marks
    ensures id !in Last(Distinct(marks), WINDOW)
  {
    DistinctMembers(marks);
  }

  lemma MarkAllPush(marks: seq<Id>, id: Id)
    ensures MarkAll(marks + [id], WINDOW) == Mark(MarkAll(marks, WINDOW), id, WINDOW)
  {
    assert (marks + [id])[..|marks|] == marks;
  }

  /** `n` different names. */
  function Names(n: nat): (ids: seq<Id>)
    ensures |ids| == n && forall k :: 0 <= k < n ==> |ids[k].name| == k + 2
  {
    seq(n, k requires 0 <= k < n => Id(seq(k + 2, _ => 'a')))
  }

  lemma NamesDiffer(n: nat)
    ensures NoRepeats(Names(n)) && |Set(Names(n))| == n
  {
    assert NoRepeats(Names(n)) by {
      forall i, j | 0 <= i < j < n ensures Names(n)[i] != Names(n)[j] {
        assert |Names(n)[i].name| != |Names(n)[j].name|;
      }
    }
    DistinctCount(Names(n));
    NoRepeatsDistinct(Names(n));
  }

  lemma {:induction false} NoRepeatsDistinct(ids: seq<Id>)
    requires NoRepeats(ids)
    ensures Distinct(ids) == ids
    decreases |ids|
  {
    if ids != [] {
      NoRepeatsDistinct(ids[1..]);
    }
  }

  const M := Id("m")

  lemma MNotNamed(n: nat)
    ensures forall k :: 0 <= k < n ==> Names(n)[k] !in [M]
    ensures M !in Names(n)
  {
    forall k | 0 <= k < n ensures Names(n)[k] != M {
      assert |Names(n)[k].name| == k + 2 && |M.name| == 1;
    }
  }

  lemma MForgotten()
    ensures M !in MarkAll([M] + Names(WINDOW), WINDOW)
  {
    NamesDiffer(WINDOW);
    MNotNamed(WINDOW);
    assert [] + [M] + Names(WINDOW) == [M] + Names(WINDOW);
    RememberedWhile([], M, Names(WINDOW), WINDOW);
  }

  lemma FirstKept(s: System, seen: seq<Id>, token: Id)
    requires Claimed(s, Claim(M, M, M, None), seen, [M, M])
    ensures Enabled(s, Reacted(M, token, true))
    ensures var n := Next(s, Reacted(M, token, true));
            Claimed(n, Claim(M, M, M, Some(token)), seen, [M]) && Reaction(M, token) in n.saved
  {
    hide Enabled, Next, Ended, Stored, NewPending;
    WorkStep(s, Reacted(M, token, true));
    var c := Claim(M, M, M, None);
    assert IndexOf([c], M) == 0;
    assert WithoutOne([M, M], M) == [M];
    assert [c][0 := c.(reaction := Some(token))] == [Claim(M, M, M, Some(token))];
  }

  /** A run in which a second add of a reaction ends for a claim that has one: the message was answered and
      forgotten while its first add still ran. */
  lemma OverwriteReached(token: Id) returns (events: seq<Event>)
    ensures IsRun(START, events)
    ensures var s := After(START, events);
            && (forall other, ok :: Enabled(s, Reacted(M, other, ok)) && BridgeReactions.Overwrites(s, Reacted(M, other, ok)))
            && Reaction(M, token) in s.saved && s.tried == multiset{}
            && s.mem.inFlight == [Claim(M, M, M, Some(token))] && s.mem.pending == [] && s.mem.removing == []
  {
    hide IsRun, After, Enabled, Next, Mark, MarkAll, Calm, Claimed, Names;
    Booted();
    FirstRun();
    var first := AnsweredFast(Next(START, BOOT), [], M);
    RunAppend(START, [BOOT], first);
    events := [BOOT] + first;
    OneMarked();
    NamesDiffer(WINDOW);
    MNotNamed(WINDOW);
    var marks := ManyMarked(After(START, events), [M], [M], Names(WINDOW));
    RunAppend(START, events, marks);
    events := events + marks;
    MForgotten();
    var last := TakenAgainFast(After(START, events), MarkAll([M] + Names(WINDOW), WINDOW), token);
    RunAppend(START, events, last);
    events := events + last;
    Overwritable(After(START, events), MarkAll([M] + Names(WINDOW), WINDOW), token);
  }

  lemma OneMarked()
    ensures Mark([], M, WINDOW) == MarkAll([M], WINDOW)
  {
    assert [M][..0] == [];
    assert MarkAll([], WINDOW) == [];
  }

  lemma TakenAgainFast(s: System, seen: seq<Id>, token: Id) returns (events: seq<Event>)
    requires Calm(s, seen, [M]) && M !in seen
    ensures IsRun(s, events)
    ensures Claimed(After(s, events), Claim(M, M, M, Some(token)), seen, [M]) && Reaction(M, token) in After(s, events).saved
  {
    hide IsRun, After, Enabled, Next;
    NoEvents(s);
    Heard(s, seen, [M], M);
    Longer(s, [], Hear(M));
    events := [] + [Hear(M)];
    TakenOn(After(s, events), seen, [M], M);
    Longer(s, events, TakeOn(M, M));
    events := events + [TakeOn(M, M)];
    assert [M] + [M] == [M, M];
    FirstKept(After(s, events), seen, token);
    Longer(s, events, Reacted(M, token, true));
    events := events + [Reacted(M, token, true)];
  }

  lemma Overwritable(s: System, seen: seq<Id>, token: Id)
    requires Claimed(s, Claim(M, M, M, Some(token)), seen, [M])
    ensures forall other, ok :: Enabled(s, Reacted(M, other, ok)) && BridgeReactions.Overwrites(s, Reacted(M, other, ok))
    ensures s.mem.inFlight == [Claim(M, M, M, Some(token))] && s.mem.pending == [] && s.mem.removing == [] && s.tried == multiset{}
  {
    assert IndexOf([Claim(M, M, M, Some(token))], M) == 0;
    forall other, ok ensures Enabled(s, Reacted(M, other, ok)) && BridgeReactions.Overwrites(s, Reacted(M, other, ok)) {
      WorkStep(s, Reacted(M, other, ok));
    }
  }

  /** After it the first reaction, which was saved and never tried, is in no place. */
  lemma FirstReactionLost(token: Id, other: Id, ok: bool) returns (events: seq<Event>)
    requires other != token
    ensures IsRun(START, events)
    ensures var s, r := After(START, events), Reaction(M, token);
            r in s.saved && r !in s.tried && r !in BridgeReactions.Places(s.mem)
  {
    hide IsRun, After, Enabled, Next;
    events := OverwriteReached(token);
    var s, e := After(START, events), Reacted(M, other, ok);
    assert Enabled(s, e) && BridgeReactions.Overwrites(s, e);
    Longer(START, events, e);
    Replaced(s, token, other, ok);
    events := events + [e];
  }

  lemma Replaced(s: System, token: Id, other: Id, ok: bool)
    requires other != token && Enabled(s, Reacted(M, other, ok)) && Reaction(M, token) in s.saved && s.tried == multiset{}
    requires s.mem.inFlight == [Claim(M, M, M, Some(token))] && s.mem.pending == [] && s.mem.removing == []
    ensures var n, r := Next(s, Reacted(M, other, ok)), Reaction(M, token);
            r in n.saved && r !in n.tried && r !in BridgeReactions.Places(n.mem)
  {
    ReactedIs(s, other, ok);
    KeptIs(s, token, other, ok);
    hide WithoutOne, Enabled, Next, IndexOf, Kept;
    var d := Claim(M, M, M, if ok then Some(other) else None);
    BridgeReactions.OfClaimsOne(d);
    assert BridgeReactions.OfReplies([]) == multiset{};
  }

  lemma KeptIs(s: System, token: Id, other: Id, ok: bool)
    requires s.mem.inFlight == [Claim(M, M, M, Some(token))]
    ensures var n := Kept(s, M, other, ok);
            && n.mem == s.mem.(inFlight := [Claim(M, M, M, if ok then Some(other) else None)])
            && n.tried == s.tried && n.saved == s.saved + if ok then multiset{Reaction(M, other)} else multiset{}
  {
    hide WithoutOne;
    assert IndexOf(s.mem.inFlight, M) == 0;
  }

  lemma ReactedIs(s: System, token: Id, ok: bool)
    requires Enabled(s, Reacted(M, token, ok))
    ensures Next(s, Reacted(M, token, ok)) == Kept(s, M, token, ok)
  {
    hide Kept, Deliver, Intake, Ended, Stored, NewPending;
  }
}

/** In every run of the bridge no refused reply is lost or repeated, except by the limits on held
    replies: each waits in the held list or in exactly one pending reply that carries it. */
module BridgeReplies {
  import opened Wrappers
  import opened Ids
  import opened Text
  import opened Seen
  import opened Held
  import opened Delivery
  import opened Bridge

  // ----- pending replies

  /** A pending reply as the bridge builds them. One that carries earlier replies is a single part. */
  ghost predicate PendingOk(p: Pending) {
    && |p.clients| >= |Chunks(p)| && p.next <= |Chunks(p)| && p.nextFile <= p.files
    && (p.carried != [] ==>
          && p.own.Some? && p.reply == Composed(p.carried, p.own.value)
          && Chunks(p) == [p.reply] && !p.transient && p.id.Some?)
    && (p.carried == [] ==> p.own.None?)
    && (p.question.Some? ==> p.id.None?)
    && (p.reaction.Some? ==> p.id.Some?)
  }

  ghost predicate AllOk(pending: seq<Pending>) {
    forall i :: 0 <= i < |pending| ==> PendingOk(pending[i])
  }

  /** A part in flight, or refused, is one of the reply's parts. */
  ghost predicate SendingOk(s: System) {
    s.sending.Some? && (s.sending.value.ahead || s.sending.value.refused) ==>
      s.sending.value.entry.next < |Chunks(s.sending.value.entry)|
  }

  lemma NewOk(id: Option<Id>, to: Id, key: Id, reply: string, from: nat, files: nat, transient: bool,
              question: Option<Id>, noticeKey: Option<Id>)
    requires question.Some? ==> id.None?
    ensures PendingOk(NewPending(id, to, key, reply, from).(
                 files := files, transient := transient, question := question, noticeKey := noticeKey))
  {
    hide Split;
  }

  lemma ComposeOk(held: seq<HeldReply>, claim: Claim, own: string, now: nat, from: nat, files: nat)
    ensures PendingOk(Compose(held, claim, own, now, from).0.(files := files))
  {
    hide Split, Prune, Take, RoomBeside;
    var pruned := Prune(held, now);
    var carried := Take(pruned, claim.key, RoomBeside(own)).carried;
    CarryingFitsOnePart(pruned, claim.key, own);
    if carried != [] {
      ComposedNotEmpty(carried, own);
    }
  }

  lemma ComposedNotEmpty(carried: seq<HeldReply>, own: string)
    requires carried != []
    ensures Composed(carried, own) != []
  {
    hide Quotes;
    assert |LatestHeader()| > 0;
  }

  // ----- the account of refused replies

  /** Every reply ever refused waits, went out with a later one, or was dropped by the limits. */
  ghost predicate Accounted(s: System) {
    s.refused == Waiting(s.disk) + s.delivered + s.dropped
  }

  ghost predicate Inv(s: System) {
    AllOk(s.disk.pending) && SendingOk(s) && Accounted(s)
  }

  lemma StartOk()
    ensures Inv(START)
  {
    assert Carried([]) == multiset{};
  }

  lemma {:induction false} CarriedPush(pending: seq<Pending>, p: Pending)
    ensures Carried(pending + [p]) == Carried(pending) + multiset(p.carried)
    decreases |pending|
  {
    if pending == [] {
      assert ([] + [p])[1..] == [];
      assert Carried([]) == multiset{};
    } else {
      CarriedPush(pending[1..], p);
      assert (pending + [p])[1..] == pending[1..] + [p];
    }
  }

  lemma CarriedPop(pending: seq<Pending>)
    requires pending != []
    ensures Carried(pending) == multiset(pending[0].carried) + Carried(pending[1..])
  {
  }

  lemma CarriedFirst(pending: seq<Pending>, p: Pending)
    requires pending != [] && p.carried == pending[0].carried
    ensures Carried(pending[0 := p]) == Carried(pending)
  {
    assert pending[0 := p][1..] == pending[1..];
  }

  /** A claim's reply takes held replies over; only pruning leaves any out. */
  lemma EndClaimWaiting(st: State, i: nat, own: string, files: nat, now: nat, from: nat)
    requires i < |st.inFlight|
    ensures Waiting(st) == Waiting(EndClaim(st, i, own, files, now, from)) + PrunedAway(st.held, now)
  {
    hide Prune, Take, Carried, Split, RoomBeside, Composed, PrunedAway;
    var (p, left) := Compose(st.held, st.inFlight[i], own, now, from);
    TakeParts(Prune(st.held, now), st.inFlight[i].key, RoomBeside(own));
    CarriedPush(st.pending, p.(files := files));
    PrunedIs(st.held, now);
    TakenOver(multiset(p.carried), multiset(left), PrunedAway(st.held, now), Carried(st.pending));
  }

  lemma TakenOver(carried: multiset<HeldReply>, left: multiset<HeldReply>, away: multiset<HeldReply>, rest: multiset<HeldReply>)
    ensures carried + left + away + rest == left + (rest + carried) + away
  {
  }

  /** A finished reply's account: a refused one waits with all it carried, a delivered one took what it
      carried along; only pruning leaves any out. */
  lemma HoldWaiting(st: State, refused: bool, now: nat)
    requires st.pending != [] && PendingOk(st.pending[0]) && (refused ==> st.pending[0].next < |Chunks(st.pending[0])|)
    ensures var p, next := st.pending[0], FinishFirst(st, refused, now);
            var held := if refused && !p.transient then multiset{AsHeld(p, now)} else multiset{};
            var gone := if refused then multiset{} else multiset(p.carried);
            var drops := if refused then RefusalDrops(st.held, p, now) else multiset{};
            Waiting(st) + held == Waiting(next) + gone + drops
  {
    hide Carried, Chunks, Restored, AsHeld, Mark, Composed, PrunedAway, PutBack;
    var p := st.pending[0];
    CarriedPop(st.pending);
    assert p.carried != [] ==> |Chunks(p)| == 1;
    if refused && !p.transient {
      var carried := if p.next == 0 then p.carried else [];
      assert multiset(carried) == multiset(p.carried);
      RestoredIs(st.held, carried, AsHeld(p, now), now);
      PutTogether(multiset(st.held), multiset(p.carried), Carried(st.pending[1..]), multiset{AsHeld(p, now)});
    }
  }

  lemma PutTogether(held: multiset<HeldReply>, carried: multiset<HeldReply>, rest: multiset<HeldReply>, refused: multiset<HeldReply>)
    ensures held + (carried + rest) + refused == held + carried + refused + rest
  {
  }

  // ----- steps

  /** A step that queues a new reply which carries nothing. */
  lemma Pushing(s: System, p: Pending, next: System)
    requires Inv(s) && PendingOk(p) && p.carried == []
    requires next.disk.pending == s.disk.pending + [p] && next.disk.held == s.disk.held
    requires next.refused == s.refused && next.delivered == s.delivered && next.dropped == s.dropped
    requires next.sending == s.sending
    ensures Inv(next)
  {
    hide PendingOk, Carried, Chunks;
    CarriedPush(s.disk.pending, p);
  }

  lemma StepAnswers(s: System, e: Event)
    requires Inv(s) && Agree(s) && (e.Answer? || e.AnswerSeen?) && MayHear(s, e)
    ensures Inv(Intake(s, e))
  {
    hide Inv, PendingOk, NewPending, Mark;
    var p := NewPending(s.hearing, e.to, e.key, e.text, s.unused).(transient := true);
    NewOk(s.hearing, e.to, e.key, e.text, s.unused, 0, true, None, None);
    NewFields(s.hearing, e.to, e.key, e.text, s.unused);
    Pushing(s, p, Intake(s, e));
  }

  lemma NewFields(id: Option<Id>, to: Id, key: Id, reply: string, from: nat)
    ensures var p := NewPending(id, to, key, reply, from);
            && p.carried == [] && p.files == 0 && p.question.None? && p.noticeKey.None? && p.reaction.None?
            && p.id == id && p.next == 0 && !p.transient && |p.clients| == |Split(reply, MAX_REPLY)|
            && p == p.(files := 0, transient := false, question := None, noticeKey := None)
  {
    hide Split;
  }

  lemma StepQueue(s: System, e: Event)
    requires Inv(s) && Agree(s) && e.Queue? && MayWork(s, e)
    ensures Inv(Work(s, e))
  {
    hide Kept, Ended, Stored, Inv, PendingOk, NewPending;
    var files := if e.question.Some? then 0 else e.files;
    var p := NewPending(None, e.to, e.key, e.text, s.unused);
    NewOk(None, e.to, e.key, e.text, s.unused, files, e.question.Some?, e.question, None);
    NewFields(None, e.to, e.key, e.text, s.unused);
    Pushing(s, p.(files := files, transient := e.question.Some?, question := e.question), Work(s, e));
  }

  lemma StepMailNotice(s: System, e: Event)
    requires Inv(s) && Agree(s) && e.MailNotice? && MayWork(s, e)
    ensures Inv(Work(s, e))
  {
    hide Kept, Ended, Inv, PendingOk, NewPending, PruneKeys, KnownKey, Split;
    var p := NewPending(None, e.to, e.to, e.text, s.unused);
    NewOk(None, e.to, e.to, e.text, s.unused, 0, true, None, Some(e.noticeKey));
    NewFields(None, e.to, e.to, e.text, s.unused);
    if !KnownKey(s.mem, e.noticeKey) {
      Pushing(s, p.(transient := true, noticeKey := Some(e.noticeKey)), Work(s, e));
    }
  }

  lemma Balance(refused: multiset<HeldReply>, waiting: multiset<HeldReply>, delivered: multiset<HeldReply>,
                dropped: multiset<HeldReply>, held: multiset<HeldReply>, left: multiset<HeldReply>,
                gone: multiset<HeldReply>, drops: multiset<HeldReply>)
    requires refused == waiting + delivered + dropped && waiting + held == left + gone + drops
    ensures refused + held == left + (delivered + gone) + (dropped + drops)
  {
    assert refused + held == (waiting + held) + delivered + dropped;
  }

  lemma EndLedger(s: System, i: nat, e: Event)
    requires Inv(s) && Agree(s) && e.EndTurn? && s.up && i < |s.mem.inFlight|
    ensures s.refused == Waiting(EndClaim(s.mem, i, e.text, e.files, e.now, s.unused)) + s.delivered
                         + (s.dropped + PrunedAway(s.mem.held, e.now))
  {
    hide PendingOk, EndClaim, Waiting, PrunedAway;
    var next := EndClaim(s.mem, i, e.text, e.files, e.now, s.unused);
    var away := PrunedAway(s.mem.held, e.now);
    SameWaiting(s.mem, s.disk);
    EndClaimWaiting(s.mem, i, e.text, e.files, e.now, s.unused);
    Nothing(s.refused, s.delivered, Waiting(s.mem));
    Nothing(s.refused, s.delivered, Waiting(next));
    Balance(s.refused, Waiting(s.mem), s.delivered, s.dropped, multiset{}, Waiting(next), multiset{}, away);
  }

  lemma EndOk(st: State, i: nat, own: string, files: nat, now: nat, from: nat)
    requires AllOk(st.pending) && i < |st.inFlight|
    ensures AllOk(EndClaim(st, i, own, files, now, from).pending)
  {
    hide PendingOk, Compose;
    ComposeOk(st.held, st.inFlight[i], own, now, from, files);
  }

  lemma StepEndTurn(s: System, e: Event)
    requires Inv(s) && Agree(s) && e.EndTurn? && MayWork(s, e)
    ensures Inv(Work(s, e))
  {
    hide PendingOk, Waiting, PrunedAway, RecoverDrops, RefusalDrops, Chunks, WithoutOne, EndClaim;
    var i := IndexOf(s.mem.inFlight, e.id);
    hide IndexOf;
    if i < |s.mem.inFlight| {
      EndLedger(s, i, e);
      EndOk(s.mem, i, e.text, e.files, e.now, s.unused);
      hide AllOk;
    }
  }

  lemma Nothing(a: multiset<HeldReply>, b: multiset<HeldReply>, c: multiset<HeldReply>)
    ensures a + multiset{} == a && b + multiset{} == b && c + multiset{} == c
  {
  }

  lemma SameWaiting(a: State, b: State)
    requires a.held == b.held && a.pending == b.pending
    ensures Waiting(a) == Waiting(b)
  {
  }

  lemma StepDropQuestion(s: System)
    requires Inv(s) && Agree(s) && MayDeliver(s, DropQuestion)
    ensures Inv(Deliver(s, DropQuestion))
  {
    hide Chunks, Carried, Composed;
    assert PendingOk(s.disk.pending[0]);
    CarriedPop(s.disk.pending);
    hide PendingOk;
  }

  /** A step that records progress of the oldest reply. */
  lemma Recording(s: System, p: Pending, next: System)
    requires Inv(s) && s.disk.pending != [] && PendingOk(p) && p.carried == s.disk.pending[0].carried
    requires next.disk.pending == s.disk.pending[0 := p] && next.disk.held == s.disk.held
    requires next.refused == s.refused && next.delivered == s.delivered && next.dropped == s.dropped
    requires next.sending == Some(Sending(p, false, false))
    ensures Inv(next)
  {
    hide PendingOk, Carried, Chunks;
    CarriedFirst(s.disk.pending, p);
  }

  lemma StepProgress(s: System, e: Event)
    requires Inv(s) && Agree(s) && Tracks(s) && (e.Advance? || e.FileDone?) && MayDeliver(s, e)
    ensures Inv(Deliver(s, e))
  {
    hide Composed, Split, Accounted;
    var p := s.sending.value.entry;
    assert PendingOk(p) by { assert PendingOk(s.disk.pending[0]); }
    var q := if e.Advance? then p.(next := p.next + 1) else p.(nextFile := p.nextFile + 1);
    assert Chunks(q) == Chunks(p);
    assert PendingOk(q);
    hide PendingOk, Inv, Chunks;
    Recording(s, q, Deliver(s, e));
  }

  lemma FinishPops(st: State, refused: bool, now: nat)
    requires st.pending != [] && st.pending[0].next <= |Chunks(st.pending[0])|
    ensures FinishFirst(st, refused, now).pending == st.pending[1..]
  {
    hide Chunks, HoldRefused, Mark;
  }

  lemma FinishLedger(s: System, now: nat)
    requires Inv(s) && Agree(s) && Tracks(s) && MayDeliver(s, Finish(now))
    ensures Accounted(Done(s, now))
  {
    hide PendingOk, Waiting, Chunks, AsHeld, FinishFirst, RefusalDrops;
    var p, refused := s.mem.pending[0], s.sending.value.refused;
    var held := if refused && !p.transient then multiset{AsHeld(p, now)} else multiset{};
    var gone := if refused then multiset{} else multiset(p.carried);
    var drops := if refused then RefusalDrops(s.mem.held, p, now) else multiset{};
    SameWaiting(s.mem, s.disk);
    HoldWaiting(s.mem, refused, now);
    Balance(s.refused, Waiting(s.mem), s.delivered, s.dropped, held, Waiting(FinishFirst(s.mem, refused, now)), gone, drops);
  }

  lemma StepFinish(s: System, now: nat)
    requires Inv(s) && Agree(s) && Tracks(s) && MayDeliver(s, Finish(now))
    ensures Inv(Deliver(s, Finish(now)))
  {
    hide PendingOk, Waiting, PrunedAway, RecoverDrops, RefusalDrops, Chunks, AsHeld, FinishFirst, Accounted;
    FinishLedger(s, now);
    FinishPops(s.mem, s.sending.value.refused, now);
    assert Deliver(s, Finish(now)) == Done(s, now);
  }

  lemma {:induction false} RecoverClaimsKeeps(st: State, reply: string, now: nat, from: nat)
    requires AllOk(st.pending)
    ensures var r := RecoverClaims(st, reply, now, from).state;
            AllOk(r.pending) && Waiting(st) == Waiting(r) + RecoverDrops(st, reply, now, from)
    decreases |st.inFlight|
  {
    hide PendingOk, Compose, Waiting, PrunedAway;
    if st.inFlight != [] {
      var next := EndClaim(st, 0, reply, 0, now, from);
      EndClaimWaiting(st, 0, reply, 0, now, from);
      ComposeOk(st.held, st.inFlight[0], reply, now, from, 0);
      assert next.pending == st.pending + [Compose(st.held, st.inFlight[0], reply, now, from).0.(files := 0)];
      var unused := from + |next.pending[|st.pending|].clients|;
      RecoverClaimsKeeps(next, reply, now, unused);
      Added(Waiting(RecoverClaims(next, reply, now, unused).state), RecoverDrops(next, reply, now, unused),
            PrunedAway(st.held, now));
    } else {
      Nothing(Waiting(st), multiset{}, multiset{});
    }
  }

  lemma Added(a: multiset<HeldReply>, b: multiset<HeldReply>, c: multiset<HeldReply>)
    ensures a + b + c == a + (c + b)
  {
  }

  lemma {:induction false} TellJobsKeeps(st: State, jobs: seq<Job>, notices: Notices, from: nat)
    requires AllOk(st.pending)
    ensures var r := TellJobs(st, jobs, notices, from).state;
            AllOk(r.pending) && Waiting(r) == Waiting(st)
    decreases |jobs|
  {
    hide PendingOk, NewPending, Carried;
    if jobs != [] {
      var p := Telling(jobs[0], notices, from);
      NewOk(None, jobs[0].to, jobs[0].key, NoticeFor(notices, jobs[0].key), from, 0, false, None, None);
      NewFields(None, jobs[0].to, jobs[0].key, NoticeFor(notices, jobs[0].key), from);
      CarriedPush(st.pending, p);
      var next := st.(pending := st.pending + [p]);
      assert Waiting(next) == Waiting(st);
      TellJobsKeeps(next, jobs[1..], notices, from + |p.clients|);
    }
  }

  lemma StepBoot(s: System, mail: bool, failure: string, notices: Notices, now: nat)
    requires Inv(s)
    ensures Inv(Started(s, mail, failure, notices, now))
  {
    hide PendingOk, Waiting, RecoverClaims, RecoverDrops, TellJobs, StoppedJobs, Chunks, Failures;
    var st := s.disk.(mail := mail);
    SameWaiting(st, s.disk);
    RecoverClaimsKeeps(st, failure, now, s.unused);
    var claims := RecoverClaims(st, failure, now, s.unused);
    SameWaiting(claims.state, claims.state.(jobs := []));
    TellJobsKeeps(claims.state.(jobs := []), StoppedJobs(st.jobs, {}), notices, claims.unused);
    var r := Recover(st, failure, notices, now, s.unused);
    Nothing(s.refused, s.delivered, Waiting(st));
    Nothing(s.refused, s.delivered, Waiting(r.state));
    Balance(s.refused, Waiting(st), s.delivered, s.dropped, multiset{}, Waiting(r.state), multiset{},
            RecoverDrops(st, failure, now, s.unused));
  }

  /** Steps that leave the replies alone. */
  lemma Leaving(s: System, next: System)
    requires Inv(s) && next.disk.pending == s.disk.pending && next.disk.held == s.disk.held && SendingOk(next)
    requires next.refused == s.refused && next.delivered == s.delivered && next.dropped == s.dropped
    ensures Inv(next)
  {
    hide AllOk, SendingOk, Waiting;
    SameWaiting(s.disk, next.disk);
  }

  lemma SendsOk(s: System, e: Event)
    requires SendingOk(s) && OfDelivery(e) && MayDeliver(s, e) && !TouchesPending(e)
    ensures SendingOk(Deliver(s, e))
  {
    hide Chunks, Receive, NextPart, Done;
  }

  lemma StepElse(s: System, e: Event)
    requires Inv(s) && Agree(s) && Enabled(s, e) && !TouchesPending(e)
    ensures Inv(Next(s, e))
  {
    StepFramed(s, e);
    hide AllOk, Accounted, MayDeliver, MayHear, MayWork, Deliver, Intake, Work, Started, Untied, Ordinary, Down;
    if OfDelivery(e) {
      SendsOk(s, e);
      hide SendingOk;
    } else {
      hide Enabled, Next;
    }
    Leaving(s, Next(s, e));
  }

  lemma StepDeliver(s: System, e: Event)
    requires Inv(s) && Agree(s) && Tracks(s) && OfDelivery(e) && MayDeliver(s, e) && TouchesPending(e)
    ensures Inv(Deliver(s, e))
  {
    hide Inv, Agree, Tracks, MayDeliver, Deliver;
    if e.DropQuestion? {
      StepDropQuestion(s);
    } else if e.Finish? {
      StepFinish(s, e.now);
    } else {
      StepProgress(s, e);
    }
  }

  /** Every step keeps the account. */
  lemma StepKeeps(s: System, e: Event)
    requires Inv(s) && Agree(s) && Tracks(s) && Enabled(s, e)
    ensures Inv(Next(s, e))
  {
    hide Inv, Agree, Tracks, MayDeliver, MayHear, MayWork, Deliver, Intake, Work, Started;
    if !TouchesPending(e) {
      StepElse(s, e);
    } else if OfDelivery(e) {
      StepDeliver(s, e);
    } else if e.Answer? || e.AnswerSeen? {
      StepAnswers(s, e);
    } else if e.EndTurn? {
      StepEndTurn(s, e);
    } else if e.Queue? {
      StepQueue(s, e);
    } else if e.MailNotice? {
      StepMailNotice(s, e);
    } else {
      StepBoot(s, e.mail, e.failure, e.notices, e.now);
    }
  }

  // ----- what the account means

  /** A reply that carries others is refused before anything of it was delivered, so all it carried
      comes back. */
  lemma CarryingRefusedWhole(s: System, now: nat)
    requires Inv(s) && Agree(s) && Tracks(s) && MayDeliver(s, Finish(now)) && s.sending.value.refused
    requires s.mem.pending[0].carried != []
    ensures var p := s.mem.pending[0];
            && p.next == 0
            && HoldRefused(s.mem.held, p, now)
            == Restored(s.mem.held, p.carried, HeldReply(p.key, p.to, Truncate(p.own.value), now), now)
            && Done(s, now).delivered == s.delivered
  {
    hide Composed, Restored, Truncate, FinishFirst, Waiting, PrunedAway, RecoverDrops, RefusalDrops, Accounted;
    var p := s.mem.pending[0];
    assert PendingOk(p);
    assert |Chunks(p)| == 1;
    hide Chunks;
    assert s.delivered + multiset{} == s.delivered;
  }

  /** What was delivered of a plain reply and what is held of it, before truncation, are the reply. */
  lemma PlainReplyWhole(p: Pending)
    requires PendingOk(p) && p.carried == []
    ensures Concat(Chunks(p)[..p.next]) + Undelivered(p) == p.reply
  {
    var chunks := Chunks(p);
    assert p.reply == Concat(chunks) by {
      if p.reply == [] && p.files > 0 {
      } else {
        SplitParts(p.reply, MAX_REPLY);
      }
    }
    hide Chunks, Concat;
    assert chunks[..p.next] + chunks[p.next..] == chunks;
    ConcatAppend(chunks[..p.next], chunks[p.next..]);
    assert p.next == 0 ==> chunks[p.next..] == chunks && chunks[..p.next] == [];
    NothingConcat();
  }

  lemma NothingConcat()
    ensures Concat([]) == []
  {
  }

  /** A refused plain reply is held, under its conversation and address, for what was not delivered of it; a
      transient one is not held. */
  lemma PlainRefused(held: seq<HeldReply>, p: Pending, now: nat) returns (rest: string)
    requires PendingOk(p) && p.carried == []
    ensures Concat(Chunks(p)[..p.next]) + rest == p.reply
    ensures HoldRefused(held, p, now)
         == if p.transient then held else Restored(held, [], HeldReply(p.key, p.to, Truncate(rest), now), now)
  {
    rest := Undelivered(p);
    PlainReplyWhole(p);
    hide Chunks, Concat, Restored, Truncate, Undelivered;
  }

  // ----- what is dropped

  /** Recovery prunes once: what it takes out later was pruned already. */
  lemma {:induction false} RecoverDropsOnce(st: State, reply: string, now: nat, from: nat)
    ensures RecoverDrops(st, reply, now, from) <= PrunedAway(st.held, now)
    decreases |st.inFlight|
  {
    hide EndClaim, PrunedAway;
    if st.inFlight != [] {
      EndClaimDrops(st, reply, now, from);
      var next := EndClaim(st, 0, reply, 0, now, from);
      RecoverDropsOnce(next, reply, now, from + |next.pending[|st.pending|].clients|);
    }
  }

  lemma EndClaimDrops(st: State, reply: string, now: nat, from: nat)
    requires st.inFlight != []
    ensures var next := EndClaim(st, 0, reply, 0, now, from);
            |next.pending| == |st.pending| + 1 && |next.inFlight| == |st.inFlight| - 1
            && PrunedAway(next.held, now) == multiset{}
  {
    hide Prune, Take, RoomBeside, PrunedAway, Split, FreshIds, Composed, Subsequence;
    var claim := st.inFlight[0];
    TakeOrders(Prune(st.held, now), claim.key, RoomBeside(reply));
    PrunedOnce(st.held, now, Take(Prune(st.held, now), claim.key, RoomBeside(reply)).left);
  }

  predicate CanPutBack(st: State) {
    st.pending != [] && st.pending[0].next <= |Chunks(st.pending[0])|
  }

  /** What is held with the oldest reply put back, before pruning. */
  function WithRefused(st: State, now: nat): seq<HeldReply>
    requires CanPutBack(st)
  {
    var p := st.pending[0];
    PutBack(st.held, if p.next == 0 then p.carried else [], AsHeld(p, now))
  }

  /** Step `e` drops `x`: pruning what is held then finds it stale, or no room for it beside the newer ones. */
  ghost predicate DropsAt(s: System, e: Event, x: HeldReply) {
    match e
    case Boot(_, _, _, _, now) => LeftOut(s.disk.held, now, x)
    case EndTurn(_, _, _, now) => LeftOut(s.mem.held, now, x)
    case Finish(now) =>
      CanPutBack(s.mem) && LeftOut(WithRefused(s.mem, now), now, x)
    case _ => false
  }

  lemma BootDrops(s: System, e: Event, x: HeldReply)
    requires e.Boot? && Enabled(s, e) && x in Next(s, e).dropped && x !in s.dropped
    ensures DropsAt(s, e, x)
  {
    StepIs(s, e);
    var st := s.disk.(mail := e.mail);
    RecoverDropsOnce(st, e.failure, e.now, s.unused);
    hide Enabled, Next, Recover, RecoverDrops, PrunedAway, LeftOut;
    PrunedAwayIs(s.disk.held, e.now, x);
  }

  lemma EndDrops(s: System, e: Event, x: HeldReply)
    requires e.EndTurn? && MayWork(s, e) && x in Work(s, e).dropped && x !in s.dropped
    ensures DropsAt(s, e, x)
  {
    hide EndClaim, IndexOf, WithoutOne, PrunedAway, LeftOut, Kept, Stored, NewPending;
    PrunedAwayIs(s.mem.held, e.now, x);
  }

  lemma FinishDrops(s: System, now: nat, x: HeldReply)
    requires CanPutBack(s.mem) && s.sending.Some? && x in Done(s, now).dropped && x !in s.dropped
    ensures DropsAt(s, Finish(now), x)
  {
    DoneDrops(s, now, x);
    hide *;
    PrunedAwayIs(WithRefused(s.mem, now), now, x);
    FinishLeavesOut(s, now, x);
  }

  lemma FinishLeavesOut(s: System, now: nat, x: HeldReply)
    requires CanPutBack(s.mem) && LeftOut(WithRefused(s.mem, now), now, x)
    ensures DropsAt(s, Finish(now), x)
  {
    hide LeftOut, WithRefused, CanPutBack;
  }

  lemma MayFinish(s: System, now: nat)
    requires MayDeliver(s, Finish(now))
    ensures CanPutBack(s.mem) && s.sending.Some?
    ensures Deliver(s, Finish(now)) == Done(s, now)
  {
    hide Chunks, Done;
  }

  lemma DoneDrops(s: System, now: nat, x: HeldReply)
    requires CanPutBack(s.mem) && s.sending.Some? && x in Done(s, now).dropped && x !in s.dropped
    ensures x in PrunedAway(WithRefused(s.mem, now), now)
  {
    hide Chunks, AsHeld, PutBack, PrunedAway, FinishFirst;
  }

  /** What a step drops has no room, or is stale. */
  lemma StepDrops(s: System, e: Event, x: HeldReply)
    requires Agree(s) && Enabled(s, e) && x in Next(s, e).dropped && x !in s.dropped
    ensures DropsAt(s, e, x)
  {
    hide Agree, Enabled, Next, DropsAt, Deliver, Work, MayDeliver, MayWork, Intake, MayHear, Started, Done, CanPutBack;
    if e.Boot? {
      BootDrops(s, e, x);
    } else if e.EndTurn? {
      StepIs(s, e);
      EndDrops(s, e, x);
    } else if e.Finish? {
      StepIs(s, e);
      MayFinish(s, e.now);
      FinishDrops(s, e.now, x);
    } else {
      NothingDropped(s, e);
    }
  }

  lemma NothingDropped(s: System, e: Event)
    requires Agree(s) && Enabled(s, e) && !e.Boot? && !e.EndTurn? && !e.Finish?
    ensures Next(s, e).dropped == s.dropped
  {
    hide Enabled, Next, Agree, Framed, Deliver, Work, MayDeliver, MayWork, Intake, MayHear, Started;
    if !TouchesPending(e) {
      StepFramed(s, e);
      FramedDrops(s, e, Next(s, e));
    } else {
      StepIs(s, e);
      if OfDelivery(e) {
        DeliverDrops(s, e);
      } else if OfIntake(e) {
        IntakeDrops(s, e);
      } else {
        WorkDrops(s, e);
      }
    }
  }

  lemma FramedDrops(s: System, e: Event, next: System)
    requires Framed(s, e, next) && !TouchesPending(e)
    ensures next.dropped == s.dropped
  {
    hide Agree, Bare;
  }

  lemma DeliverDrops(s: System, e: Event)
    requires OfDelivery(e) && MayDeliver(s, e) && TouchesPending(e) && !e.Finish?
    ensures Deliver(s, e).dropped == s.dropped
  {
    hide Chunks, Done, Sent;
  }

  lemma IntakeDrops(s: System, e: Event)
    requires OfIntake(e) && MayHear(s, e) && TouchesPending(e)
    ensures Intake(s, e).dropped == s.dropped
  {
    hide NewPending, Mark, Known;
  }

  lemma WorkDrops(s: System, e: Event)
    requires OfWork(e) && MayWork(s, e) && TouchesPending(e) && !e.EndTurn?
    ensures Work(s, e).dropped == s.dropped
  {
    hide NewPending, Kept, Ended, Split, KnownKey, PruneKeys;
  }
}

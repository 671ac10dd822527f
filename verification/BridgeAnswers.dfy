/** In every run each reply says what it was queued with: a turn's reply its text, at the address its message was
    taken on with, whatever else happens until the platform has it. */
module BridgeAnswers {
  import opened Wrappers
  import opened Ids
  import opened Text
  import opened Seen
  import opened Held
  import opened Delivery
  import opened Bridge
  import BridgeClaims
  import BridgeReplies
  import BridgeParts
  import BridgeMail
  import BridgeRuns

  // ----- a claim's reply

  /** `p` answers the claim with `text`, ahead of which it carries only what was held for the conversation. */
  ghost predicate AnswersWith(p: Pending, claim: Claim, text: string) {
    && p.id == Some(claim.id) && p.to == claim.to && p.key == claim.key && p.next == 0 && !p.transient
    && p.question.None? && Says(p.reply, p.carried, text) && p.own == (if p.carried == [] then None else Some(text))
  }

  /** The reply to a claim says its text, and carries as many of the conversation's oldest held replies as one
      message has room for; the others stay held. */
  lemma EndClaimAnswers(st: State, i: nat, text: string, files: nat, now: nat, from: nat)
    requires i < |st.inFlight|
    ensures var next, claim := EndClaim(st, i, text, files, now, from), st.inFlight[i];
            && next.pending[..|st.pending|] == st.pending && |next.pending| == |st.pending| + 1
            && AnswersWith(next.pending[|st.pending|], claim, text) && next.pending[|st.pending|].files == files
            && next.inFlight == st.inFlight[..i] + st.inFlight[i + 1..]
            && Carries(Prune(st.held, now), next.pending[|st.pending|].carried, next.held, claim.key, text)
  {
    hide Split, Prune, Take, RoomBeside, Composed, FreshIds, Says, Carries;
    var claim := st.inFlight[i];
    var pruned := Prune(st.held, now);
    ComposedSays(Take(pruned, claim.key, RoomBeside(text)).carried, text);
    CarriesMost(pruned, claim.key, text);
  }

  /** What a reply carries and what stays held. */
  ghost predicate Carries(held: seq<HeldReply>, carried: seq<HeldReply>, left: seq<HeldReply>, key: Id, text: string) {
    var own := OwnOf(held, key);
    && |carried| <= |own| && carried == own[..|carried|] && OwnOf(left, key) == own[|carried|..]
    && OthersOf(left, key) == OthersOf(held, key)
    && (carried != [] ==> Bytes(Composed(carried, text)) <= 16384)
    && (|carried| < |own| ==> Bytes(Composed(own[..|carried| + 1], text)) > 16384)
  }

  lemma CarriesMost(held: seq<HeldReply>, key: Id, text: string)
    ensures var t := Take(held, key, RoomBeside(text)); Carries(held, t.carried, t.left, key, text)
  {
    CarriesLongest(held, key, text);
    TakeLongest(held, key, RoomBeside(text));
    hide Take, OwnOf, OthersOf, RoomBeside, Composed, Bytes, MostFit;
  }

  /** Recovery answers every claim, in order, with the failure. */
  lemma {:induction false} RecoverAnswers(st: State, failure: string, now: nat, from: nat)
    ensures var r := RecoverClaims(st, failure, now, from).state;
            && |r.pending| == |st.pending| + |st.inFlight| && r.pending[..|st.pending|] == st.pending
            && r.inFlight == []
            && forall i :: 0 <= i < |st.inFlight| ==> AnswersWith(r.pending[|st.pending| + i], st.inFlight[i], failure)
    decreases |st.inFlight|
  {
    hide EndClaim, AnswersWith, Carries;
    if st.inFlight != [] {
      EndClaimAnswers(st, 0, failure, 0, now, from);
      var next := EndClaim(st, 0, failure, 0, now, from);
      assert next.inFlight == st.inFlight[1..];
      RecoverAnswers(next, failure, now, from + |next.pending[|st.pending|].clients|);
      var r := RecoverClaims(st, failure, now, from).state;
      assert r.pending[..|st.pending| + 1] == next.pending;
      assert r.pending[..|st.pending|] == next.pending[..|st.pending|];
      forall i | 0 <= i < |st.inFlight| ensures AnswersWith(r.pending[|st.pending| + i], st.inFlight[i], failure) {
        if i == 0 {
          assert r.pending[|st.pending|] == next.pending[|st.pending|];
        } else {
          assert AnswersWith(r.pending[|next.pending| + (i - 1)], next.inFlight[i - 1], failure);
        }
      }
    }
  }

  // ----- jobs that stopped

  /** The first job of its conversation. */
  predicate FirstOf(jobs: seq<Job>, job: Job) {
    exists i :: 0 <= i < |jobs| && jobs[i] == job && forall j :: 0 <= j < i ==> jobs[j].key != job.key
  }

  /** Exactly the first job of each conversation is told of. */
  lemma {:induction false} StoppedJobsAre(jobs: seq<Job>, told: set<Id>)
    ensures var first := StoppedJobs(jobs, told);
            && (forall i, j :: 0 <= i < j < |first| ==> first[i].key != first[j].key)
            && (forall x :: x in first ==> x.key !in told && FirstOf(jobs, x))
            && (forall i :: 0 <= i < |jobs| && jobs[i].key !in told && (forall j :: 0 <= j < i ==> jobs[j].key != jobs[i].key)
                  ==> jobs[i] in first)
    decreases |jobs|
  {
    if jobs != [] {
      var more := if jobs[0].key in told then told else told + {jobs[0].key};
      StoppedJobsAre(jobs[1..], more);
      var first := StoppedJobs(jobs, told);
      forall x | x in first ensures x.key !in told && FirstOf(jobs, x) {
        if x in StoppedJobs(jobs[1..], more) {
          var i :| 0 <= i < |jobs[1..]| && jobs[1..][i] == x && forall j :: 0 <= j < i ==> jobs[1..][j].key != x.key;
          assert jobs[i + 1] == x && jobs[0].key != x.key;
          assert forall j :: 0 < j < i + 1 ==> jobs[j] == jobs[1..][j - 1];
        } else {
          assert jobs[0] == x;
        }
      }
      forall i | 0 <= i < |jobs| && jobs[i].key !in told && (forall j :: 0 <= j < i ==> jobs[j].key != jobs[i].key)
        ensures jobs[i] in first
      {
        if i > 0 {
          assert jobs[0].key != jobs[i].key;
          assert jobs[1..][i - 1] == jobs[i];
          assert forall j :: 0 <= j < i - 1 ==> jobs[1..][j] == jobs[j + 1];
        }
      }
    }
  }

  /** `p` tells the conversation of `job` its notice. */
  ghost predicate Tells(p: Pending, job: Job, notices: Notices) {
    && p.id.None? && p.to == job.to && p.key == job.key && p.next == 0 && !p.transient && p.question.None?
    && p.reply == if job.key in notices then notices[job.key] else []
  }

  lemma {:induction false} JobsTold(st: State, jobs: seq<Job>, notices: Notices, from: nat)
    ensures var r := TellJobs(st, jobs, notices, from).state;
            && |r.pending| == |st.pending| + |jobs| && r.pending[..|st.pending|] == st.pending
            && r == st.(pending := r.pending)
            && forall i :: 0 <= i < |jobs| ==> Tells(r.pending[|st.pending| + i], jobs[i], notices)
    decreases |jobs|
  {
    hide Split, FreshIds;
    if jobs != [] {
      var p := Telling(jobs[0], notices, from);
      var next := st.(pending := st.pending + [p]);
      JobsTold(next, jobs[1..], notices, from + |p.clients|);
      var r := TellJobs(st, jobs, notices, from).state;
      assert r.pending[..|st.pending|] == next.pending[..|st.pending|] == st.pending;
      assert Tells(p, jobs[0], notices);
      forall i | 0 <= i < |jobs| ensures Tells(r.pending[|st.pending| + i], jobs[i], notices) {
        if i == 0 {
          assert r.pending[|st.pending|] == next.pending[|st.pending|];
        } else {
          assert Tells(r.pending[|next.pending| + (i - 1)], jobs[1..][i - 1], notices);
        }
      }
    }
  }

  /** What a new run queues: a failure for each claim, and one notice for each conversation that lost jobs. */
  lemma BootAnswers(s: System, mail: bool, failure: string, notices: Notices, now: nat)
    ensures var was, st := s.disk, Started(s, mail, failure, notices, now).disk;
            var jobs := StoppedJobs(was.jobs, {});
            && |st.pending| == |was.pending| + |was.inFlight| + |jobs| && st.pending[..|was.pending|] == was.pending
            && (forall i :: 0 <= i < |was.inFlight| ==> AnswersWith(st.pending[|was.pending| + i], was.inFlight[i], failure))
            && (forall i :: 0 <= i < |jobs| ==>
                  Tells(st.pending[|was.pending| + |was.inFlight| + i], jobs[i], notices))
            && st.inFlight == [] && st.jobs == []
  {
    hide AnswersWith, Tells, RecoverDrops, Failures, StoppedJobs, TellJobs, RecoverClaims;
    var was := s.disk.(mail := mail);
    RecoverAnswers(was, failure, now, s.unused);
    var claims := RecoverClaims(was, failure, now, s.unused);
    JobsTold(claims.state.(jobs := []), StoppedJobs(was.jobs, {}), notices, claims.unused);
    var st := Started(s, mail, failure, notices, now).disk;
    assert st.pending[..|claims.state.pending|] == claims.state.pending;
    forall i | 0 <= i < |was.inFlight| ensures AnswersWith(st.pending[|was.pending| + i], was.inFlight[i], failure) {
      assert st.pending[|was.pending| + i] == claims.state.pending[|was.pending| + i];
    }
    assert st.pending[..|was.pending|] == claims.state.pending[..|was.pending|];
  }

  // ----- replies queued at once

  ghost predicate QueuedAs(p: Pending, id: Option<Id>, to: Id, key: Id, text: string) {
    p.id == id && p.to == to && p.key == key && p.reply == text && p.carried == [] && p.own.None? && p.next == 0
  }

  /** The step queues a reply at once. */
  predicate Queues(s: System, e: Event) {
    e.Answer? || e.AnswerSeen? || e.Queue? || (e.MailNotice? && !KnownKey(s.mem, e.noticeKey))
  }

  /** The step puts one reply behind those that wait, which says what it was given. */
  ghost predicate QueuedOne(s: System, e: Event, was: seq<Pending>, now: seq<Pending>)
    requires Queues(s, e)
  {
    && |now| == |was| + 1 && now[..|was|] == was
    && QueuedAs(now[|was|], if e.Queue? || e.MailNotice? then None else s.hearing, e.to,
                if e.MailNotice? then e.to else e.key, e.text)
    && now[|was|].transient == (!e.Queue? || e.question.Some?)
    && now[|was|].question == (if e.Queue? then e.question else None)
    && now[|was|].noticeKey == (if e.MailNotice? then Some(e.noticeKey) else None)
    && now[|was|].files == (if e.Queue? && e.question.None? then e.files else 0)
  }

  /** An answer given without a turn, a message SCV queues and a mail notice say what they were given. */
  lemma AtOnce(s: System, e: Event)
    requires Enabled(s, e) && Queues(s, e)
    ensures QueuedOne(s, e, s.mem.pending, Next(s, e).disk.pending)
  {
    hide Split, FreshIds, Known, PruneKeys, Deliver, MayDeliver, Kept, Ended, KnownKey, Started, Untied;
  }

  /** The position polled up to is recorded, and what jobs run. */
  lemma RecordsPosition(s: System, cursor: Option<Id>)
    requires MayHear(s, Polled(cursor))
    ensures Intake(s, Polled(cursor)).disk.cursor == if cursor.Some? then cursor else s.mem.cursor
  {
    hide Known, Mark, NewPending;
  }

  lemma RecordsJobs(s: System, jobs: seq<Job>)
    requires MayWork(s, RecordJobs(jobs))
    ensures Work(s, RecordJobs(jobs)).disk.jobs == jobs
  {
    hide Kept, Ended, Stored, NewPending;
  }

  // ----- what becomes of a reply

  /** The same reply, perhaps with more recorded as sent. */
  predicate SameReply(p: Pending, q: Pending) {
    q == p.(next := q.next, nextFile := q.nextFile)
  }

  predicate Pops(e: Event) {
    e.DropQuestion? || e.Finish?
  }

  /** What waits stays as it is and in order, behind the oldest. */
  ghost predicate KeepsReplies(was: seq<Pending>, now: seq<Pending>, popped: bool) {
    if popped then was != [] && now == was[1..]
    else |was| <= |now| && forall i :: 0 <= i < |was| ==> SameReply(was[i], now[i])
  }

  lemma Appended(was: seq<Pending>, now: seq<Pending>)
    requires |was| <= |now| && now[..|was|] == was
    ensures KeepsReplies(was, now, false)
  {
    forall i | 0 <= i < |was| ensures SameReply(was[i], now[i]) {
      assert now[i] == now[..|was|][i];
    }
  }

  lemma StepDeliver(s: System, e: Event)
    requires BridgeRuns.Sound(s) && Agree(s) && Tracks(s) && OfDelivery(e) && MayDeliver(s, e)
    ensures KeepsReplies(s.disk.pending, Deliver(s, e).disk.pending, Pops(e))
  {
    hide BridgeRuns.Sound, Chunks, AsHeld, HoldRefused, Mark, RefusalDrops, NextPart, Receive;
  }

  lemma StepEnds(s: System, id: Id, text: string, files: nat, now: nat)
    requires Agree(s) && s.up
    ensures KeepsReplies(s.disk.pending, Ended(s, id, text, files, now).disk.pending, false)
  {
    var i := IndexOf(s.mem.inFlight, id);
    hide IndexOf, EndClaim, PrunedAway, WithoutOne, KeepsReplies, AnswersWith, Carries;
    if i < |s.mem.inFlight| {
      EndClaimAnswers(s.mem, i, text, files, now, s.unused);
    }
    Appended(s.disk.pending, Ended(s, id, text, files, now).disk.pending);
  }

  lemma StepQueues(s: System, e: Event)
    requires Agree(s) && Enabled(s, e) && Queues(s, e)
    ensures KeepsReplies(s.disk.pending, Next(s, e).disk.pending, false)
  {
    hide Enabled, Next, KeepsReplies, QueuedOne, Queues, Agree;
    UpToQueue(s, e);
    PendingAgrees(s);
    AtOnce(s, e);
    QueuedAppends(s, e, s.mem.pending, Next(s, e).disk.pending);
  }

  lemma PendingAgrees(s: System)
    requires Agree(s) && s.up
    ensures s.mem.pending == s.disk.pending
  {
    hide Bare;
  }

  lemma QueuedAppends(s: System, e: Event, was: seq<Pending>, now: seq<Pending>)
    requires Queues(s, e) && QueuedOne(s, e, was, now)
    ensures KeepsReplies(was, now, false)
  {
    hide Queues, QueuedAs, KeepsReplies;
    Appended(was, now);
  }

  lemma UpToQueue(s: System, e: Event)
    requires Enabled(s, e) && Queues(s, e)
    ensures s.up
  {
    hide Next, KnownKey, Known;
    if e.Answer? || e.AnswerSeen? {
      assert MayHear(s, e);
    } else {
      assert MayWork(s, e);
    }
  }

  lemma StepBoots(s: System, e: Event)
    requires Enabled(s, e) && e.Boot?
    ensures KeepsReplies(s.disk.pending, Next(s, e).disk.pending, false)
  {
    BootAnswers(s, e.mail, e.failure, e.notices, e.now);
    StepIs(s, e);
    hide Enabled, Next, KeepsReplies, AnswersWith, Tells, Started, StoppedJobs;
    Appended(s.disk.pending, Next(s, e).disk.pending);
  }

  lemma StepElse(s: System, e: Event)
    requires Agree(s) && Enabled(s, e) && !OfDelivery(e)
    ensures KeepsReplies(s.disk.pending, Next(s, e).disk.pending, false)
  {
    hide KeepsReplies, Enabled, Next, KnownKey, Agree, OfDelivery, Ended;
    if Queues(s, e) {
      StepQueues(s, e);
    } else if e.EndTurn? {
      EndStep(s, e);
      StepEnds(s, e.id, e.text, e.files, e.now);
    } else if e.Boot? {
      StepBoots(s, e);
    } else {
      Others(s, e);
    }
  }

  /** No step changes a reply that waits, or overtakes an older one. */
  lemma StepKeepsReplies(s: System, e: Event)
    requires BridgeRuns.Sound(s) && Enabled(s, e)
    ensures KeepsReplies(s.disk.pending, Next(s, e).disk.pending, Pops(e))
  {
    hide BridgeRuns.Sound, KeepsReplies, Enabled, Next, Agree, Tracks;
    BridgeRuns.ClaimsTrackSound(s);
    if OfDelivery(e) {
      StepIs(s, e);
      hide Deliver, MayDeliver;
      StepDeliver(s, e);
    } else {
      StepElse(s, e);
    }
  }

  lemma EndStep(s: System, e: Event)
    requires e.EndTurn? && Enabled(s, e)
    ensures Next(s, e) == Ended(s, e.id, e.text, e.files, e.now) && s.up
  {
    StepIs(s, e);
    hide Enabled, Next, Ended, Kept, Stored;
  }

  lemma Others(s: System, e: Event)
    requires Enabled(s, e) && Agree(s)
    requires !OfDelivery(e) && !Queues(s, e) && !e.EndTurn? && !e.Boot?
    ensures KeepsReplies(s.disk.pending, Next(s, e).disk.pending, false)
  {
    Appended(s.disk.pending, s.disk.pending);
    hide KeepsReplies;
    StepFramed(s, e);
    hide Framed;
    if e.MailNotice? {
      hide Kept, Ended, KnownKey;
    } else {
      hide Next, Enabled;
    }
  }

  /** Where a reply stands after a run: it waits, perhaps further ahead, or event `m` was the end of it. */
  ghost predicate Followed(s: System, events: seq<Event>, p: Pending, m: nat)
    requires IsRun(s, events)
  {
    && m <= |events|
    && if m == |events| then exists j :: 0 <= j < |After(s, events).disk.pending| && SameReply(p, After(s, events).disk.pending[j])
       else EndsAt(s, events, p, m)
  }

  predicate IsOldest(s: System, p: Pending) {
    s.mem.pending != [] && SameReply(p, s.mem.pending[0])
  }

  /** Event `m` is about the reply as the oldest, and takes it out. */
  ghost predicate EndsAt(s: System, events: seq<Event>, p: Pending, m: nat)
    requires IsRun(s, events) && m < |events|
  {
    Pops(events[m]) && IsRun(s, events[..m]) && IsOldest(After(s, events[..m]), p)
  }

  lemma EndsLater(s: System, events: seq<Event>, p: Pending, q: Pending, m: nat)
    requires IsRun(s, events) && events != [] && SameReply(p, q)
    requires Followed(Next(s, events[0]), events[1..], q, m)
    ensures Followed(s, events, p, m + 1)
  {
    hide Enabled, Next;
    var next, rest := Next(s, events[0]), events[1..];
    if m < |rest| {
      assert events[..m + 1][1..] == rest[..m] && events[..m + 1][0] == events[0];
      assert EndsAt(next, rest, q, m);
      assert EndsAt(s, events, p, m + 1);
    } else {
      var j :| 0 <= j < |After(next, rest).disk.pending| && SameReply(q, After(next, rest).disk.pending[j]);
      assert SameReply(p, After(s, events).disk.pending[j]);
    }
  }

  /** What waits is followed to the end of the run, or to its own end. */
  lemma {:induction false} Follows(s: System, events: seq<Event>, i: nat) returns (m: nat)
    requires BridgeRuns.Sound(s) && IsRun(s, events) && i < |s.disk.pending|
    ensures Followed(s, events, s.disk.pending[i], m)
    decreases |events|
  {
    hide BridgeRuns.Sound, Enabled, Next, Followed, Agree;
    var p := s.disk.pending[i];
    if events == [] {
      m := 0;
      StaysFollowed(s, i);
    } else {
      var e := events[0];
      StepKeepsReplies(s, e);
      BridgeRuns.StepSound(s, e);
      var now := Next(s, e).disk.pending;
      if Pops(e) && i == 0 {
        m := 0;
        PoppedFirst(s, events);
      } else {
        var j := if Pops(e) then i - 1 else i;
        assert SameReply(p, now[j]);
        var n := Follows(Next(s, e), events[1..], j);
        EndsLater(s, events, p, now[j], n);
        m := n + 1;
      }
    }
  }

  lemma StaysFollowed(s: System, i: nat)
    requires i < |s.disk.pending|
    ensures Followed(s, [], s.disk.pending[i], 0)
  {
    assert SameReply(s.disk.pending[i], After(s, []).disk.pending[i]);
  }

  lemma PoppedFirst(s: System, events: seq<Event>)
    requires BridgeRuns.Sound(s) && IsRun(s, events) && events != [] && Pops(events[0]) && s.disk.pending != []
    ensures Followed(s, events, s.disk.pending[0], 0)
  {
    BridgeRuns.ClaimsTrackSound(s);
    assert events[..0] == [];
    NoEvents(s);
    UpWhenPopped(s, events[0]);
    hide BridgeRuns.Sound, Enabled, Next, IsRun, After;
  }

  lemma UpWhenPopped(s: System, e: Event)
    requires Pops(e) && Enabled(s, e)
    ensures s.up
  {
    hide Chunks;
  }

  // ----- where claims come from

  /** Step `e` takes the claim on, at its address and for its conversation. */
  predicate TakesOn(s: System, e: Event, claim: Claim) {
    (e == TakeOn(claim.to, claim.key) && s.hearing == Some(claim.id)) || e == Return(claim.id, claim.to, claim.key)
  }

  lemma StepClaims(s: System, e: Event, claim: Claim)
    requires Agree(s) && Enabled(s, e) && claim in Bare(Next(s, e).disk.inFlight)
    ensures claim in Bare(s.disk.inFlight) || TakesOn(s, e, claim)
  {
    hide Next, Enabled, Bare, TakesOn, Agree, Ended;
    if e.Boot? {
      NoneClaimed(s, e);
    } else if e.TakeOn? || e.Return? {
      TakeOnClaims(s, e, claim);
    } else if e.EndTurn? {
      EndStep(s, e);
      EndClaims(s, e, claim);
    } else if e.Reacted? {
      ReactedClaims(s, e);
    } else {
      ClaimsFramed(s, e);
    }
  }

  lemma ClaimsFramed(s: System, e: Event)
    requires Agree(s) && Enabled(s, e) && !TouchesClaims(e)
    ensures Bare(Next(s, e).disk.inFlight) == Bare(s.disk.inFlight)
  {
    StepFramed(s, e);
    hide Next, Enabled, Bare, Agree;
  }

  lemma NoneClaimed(s: System, e: Event)
    requires Enabled(s, e) && e.Boot?
    ensures Bare(Next(s, e).disk.inFlight) == []
  {
    BootAnswers(s, e.mail, e.failure, e.notices, e.now);
    StepIs(s, e);
    hide Enabled, Next, Started, AnswersWith, Tells, StoppedJobs;
  }

  lemma TakeOnClaims(s: System, e: Event, claim: Claim)
    requires Agree(s) && Enabled(s, e) && (e.TakeOn? || e.Return?) && claim in Bare(Next(s, e).disk.inFlight)
    ensures claim in Bare(s.disk.inFlight) || TakesOn(s, e, claim)
  {
    StepIs(s, e);
    hide Enabled, Next;
    var c := TakeOnPushes(s, e);
    hide Intake, Bare, MayHear, TakesOn;
    BarePushed(s.mem.inFlight, c, claim);
  }

  lemma TakeOnPushes(s: System, e: Event) returns (c: Claim)
    requires (e.TakeOn? || e.Return?) && MayHear(s, e)
    ensures Intake(s, e).disk.inFlight == s.mem.inFlight + [c] && c.reaction.None? && TakesOn(s, e, c) && s.up
  {
    hide Known;
    c := if e.TakeOn? then Claim(s.hearing.value, e.to, e.key, None) else Claim(e.id, e.to, e.key, None);
  }

  lemma BarePushed(claims: seq<Claim>, c: Claim, claim: Claim)
    requires c.reaction.None? && claim in Bare(claims + [c])
    ensures claim in Bare(claims) || claim == c
  {
    var k :| 0 <= k < |claims + [c]| && Bare(claims + [c])[k] == claim;
    if k < |claims| {
      assert Bare(claims)[k] == claim;
    }
  }

  lemma EndClaims(s: System, e: Event, claim: Claim)
    requires Agree(s) && e.EndTurn? && s.up && claim in Bare(Ended(s, e.id, e.text, e.files, e.now).disk.inFlight)
    ensures claim in Bare(s.disk.inFlight)
  {
    var was, i := s.mem.inFlight, IndexOf(s.mem.inFlight, e.id);
    hide IndexOf, PrunedAway, WithoutOne, EndClaim, AnswersWith, Carries, Bare;
    if i < |was| {
      EndClaimAnswers(s.mem, i, e.text, e.files, e.now, s.unused);
      BareWithout(was, i, claim);
    }
  }

  lemma BareWithout(claims: seq<Claim>, i: nat, claim: Claim)
    requires i < |claims| && claim in Bare(claims[..i] + claims[i + 1..])
    ensures claim in Bare(claims)
  {
    var rest := claims[..i] + claims[i + 1..];
    var k :| 0 <= k < |rest| && Bare(rest)[k] == claim;
    assert Bare(claims)[if k < i then k else k + 1] == claim;
  }

  lemma ReactedClaims(s: System, e: Event)
    requires Agree(s) && Enabled(s, e) && e.Reacted?
    ensures Bare(Next(s, e).disk.inFlight) == Bare(s.disk.inFlight)
  {
    StepIs(s, e);
    hide IndexOf, WithoutOne, Ended, Stored, Bare, Enabled, Next, NewPending;
    var i := IndexOf(s.mem.inFlight, e.id);
    if i < |s.mem.inFlight| {
      BareSet(s.mem.inFlight, i, Some(e.token));
    }
  }

  /** The claim was taken on at event `k`. */
  ghost predicate TakenIn(events: seq<Event>, k: nat, claim: Claim) {
    k < |events| && IsRun(START, events[..k]) && TakesOn(After(START, events[..k]), events[k], claim)
  }

  lemma TakenStill(events: seq<Event>, e: Event, k: nat, claim: Claim)
    requires TakenIn(events, k, claim)
    ensures TakenIn(events + [e], k, claim)
  {
    hide IsRun, After, TakesOn;
    assert (events + [e])[..k] == events[..k];
  }

  lemma TakenNow(events: seq<Event>, e: Event, claim: Claim)
    requires IsRun(START, events) && TakesOn(After(START, events), e, claim)
    ensures TakenIn(events + [e], |events|, claim)
  {
    hide IsRun, After, TakesOn;
    assert (events + [e])[..|events|] == events;
  }

  /** Every claim was taken on at its address and for its conversation. */
  lemma {:induction false} TakenOnAt(events: seq<Event>, claim: Claim) returns (k: nat)
    requires IsRun(START, events) && claim in Bare(After(START, events).disk.inFlight)
    ensures TakenIn(events, k, claim)
    decreases |events|
  {
    k := 0;
    if events == [] {
      NoEvents(START);
    } else {
      hide Enabled, Next, Bare, TakesOn, Agree, IsRun, After, TakenIn;
      var before, last := events[..|events| - 1], events[|events| - 1];
      assert events == before + [last];
      LastStep(before, last);
      var s := After(START, before);
      AgreesAfter(before);
      StepClaims(s, last, claim);
      if claim in Bare(s.disk.inFlight) {
        k := TakenOnAt(before, claim);
        TakenStill(before, last, k, claim);
      } else {
        k := |before|;
        TakenNow(before, last, claim);
      }
    }
  }

  lemma AgreesAfter(events: seq<Event>)
    requires IsRun(START, events)
    ensures Agree(After(START, events))
  {
    hide BridgeRuns.Sound, IsRun, After;
    BridgeRuns.EveryRun(events);
    BridgeRuns.ClaimsTrackSound(After(START, events));
  }

  // ----- in every run

  /** The delivery loop works on a reply the platform refused. */
  predicate Refuses(s: System) {
    s.sending.Some? && s.sending.value.refused
  }

  /** What becomes of a reply that waits: it still waits at the end, or was the oldest at event `m`, which ended it:
      the platform refused it, or has all of it in `received`; or it was a question, dropped before it was sent. */
  ghost predicate Becomes(s: System, later: seq<Event>, p: Pending, m: nat, received: seq<Part>)
    requires IsRun(s, later)
  {
    && Followed(s, later, p, m)
    && (m < |later| ==>
          if later[m].Finish? then Refuses(After(s, later[..m])) || BridgeParts.Whole(received, p) else p.question.Some?)
  }

  /** In every run this becomes of each reply, and stays so whatever happens later. */
  lemma EveryReply(before: seq<Event>, i: nat, later: seq<Event>) returns (m: nat)
    requires IsRun(START, before + later) && IsRun(START, before) && i < |After(START, before).disk.pending|
    ensures var s := After(START, before);
            IsRun(s, later) && Becomes(s, later, s.disk.pending[i], m, After(START, before + later).received)
  {
    hide BridgeRuns.Sound, Followed, BridgeParts.Whole, IsRun, After, Refuses, Becomes;
    RunSplit(START, before, later);
    BridgeRuns.EveryRun(before);
    var s := After(START, before);
    m := Follows(s, later, i);
    EndOf(before, later, s.disk.pending[i], m);
  }

  lemma EndOf(before: seq<Event>, later: seq<Event>, p: Pending, m: nat)
    requires IsRun(START, before) && IsRun(START, before + later) && IsRun(After(START, before), later)
    requires Followed(After(START, before), later, p, m)
    ensures Becomes(After(START, before), later, p, m, After(START, before + later).received)
  {
    hide BridgeRuns.Sound, BridgeParts.Whole, IsRun, After, Refuses;
    if m < |later| {
      assert later == later[..m] + [later[m]] + later[m + 1..];
      Ending(before, later[..m], later[m], later[m + 1..], p);
    }
  }

  lemma Ending(before: seq<Event>, first: seq<Event>, e: Event, rest: seq<Event>, p: Pending)
    requires IsRun(START, before) && IsRun(START, before + (first + [e] + rest)) && Pops(e)
    requires IsRun(After(START, before), first)
    requires IsOldest(After(After(START, before), first), p)
    ensures if e.Finish?
            then Refuses(After(After(START, before), first))
                 || BridgeParts.Whole(After(START, before + (first + [e] + rest)).received, p)
            else p.question.Some?
  {
    hide BridgeRuns.Sound, BridgeParts.Whole, IsRun, After, Enabled, Next, MayDeliver;
    assert before + (first + [e] + rest) == before + first + ([e] + rest);
    RunSplit(START, before + first, [e] + rest);
    RunSplit(START, before, first);
    var t := After(START, before + first);
    RunSplit(t, [e], rest);
    RunOne(t, e);
    if e.Finish? {
      assert before + (first + [e] + rest) == before + first + [e] + rest;
      Finishes(before + first, e.now, rest, p);
    } else {
      DropsQuestion(t);
    }
  }

  lemma Finishes(before: seq<Event>, now: nat, rest: seq<Event>, p: Pending)
    requires IsRun(START, before) && IsRun(START, before + [Finish(now)] + rest)
    requires Enabled(After(START, before), Finish(now))
    requires IsOldest(After(START, before), p)
    ensures Refuses(After(START, before)) || BridgeParts.Whole(After(START, before + [Finish(now)] + rest).received, p)
  {
    hide BridgeRuns.Sound, BridgeParts.Whole, IsRun, After, Enabled, Next, SameReply;
    var t := After(START, before);
    BridgeRuns.FinishIs(t, now);
    hide MayDeliver;
    if !Refuses(t) {
      BridgeRuns.FinishedStaysWhole(before, now, rest);
      SameWhole(After(START, before + [Finish(now)] + rest).received, p, t.mem.pending[0]);
    }
  }

  lemma DropsQuestion(s: System)
    requires Enabled(s, DropQuestion)
    ensures s.mem.pending != [] && s.mem.pending[0].question.Some?
  {
  }

  lemma SameWhole(received: seq<Part>, p: Pending, q: Pending)
    requires SameReply(p, q) && BridgeParts.Whole(received, q)
    ensures BridgeParts.Whole(received, p)
  {
    hide BridgeParts.Got, BridgeParts.Texts, Concat, Split;
  }

  // ----- a turn's answer

  lemma TurnAnswered(s: System, id: Id, text: string, files: nat, now: nat) returns (claim: Claim)
    requires BridgeRuns.Sound(s) && Enabled(s, EndTurn(id, text, files, now))
    ensures claim in Bare(s.disk.inFlight) && claim.id == id
    ensures var n := Next(s, EndTurn(id, text, files, now));
            |n.disk.pending| == |s.disk.pending| + 1 && AnswersWith(n.disk.pending[|s.disk.pending|], claim, text)
  {
    hide BridgeRuns.Sound, Enabled, Next, AnswersWith, Ended, IndexOf, Bare, Agree;
    BridgeRuns.ClaimsTrackSound(s);
    EndStep(s, EndTurn(id, text, files, now));
    TurnClaimed(s, id, text, files, now);
    claim := ClaimAnswered(s, id, text, files, now);
  }

  lemma ClaimAnswered(s: System, id: Id, text: string, files: nat, now: nat) returns (claim: Claim)
    requires Agree(s) && s.up && IndexOf(s.mem.inFlight, id) < |s.mem.inFlight|
    ensures claim in Bare(s.disk.inFlight) && claim.id == id
    ensures var n := Ended(s, id, text, files, now);
            |n.disk.pending| == |s.disk.pending| + 1 && AnswersWith(n.disk.pending[|s.disk.pending|], claim, text)
  {
    hide EndClaim, IndexOf, Carries, PrunedAway, WithoutOne, AnswersWith;
    var i := IndexOf(s.mem.inFlight, id);
    EndClaimAnswers(s.mem, i, text, files, now, s.unused);
    claim := Bare(s.mem.inFlight)[i];
    AnswersBare(EndClaim(s.mem, i, text, files, now, s.unused).pending[|s.mem.pending|], s.mem.inFlight[i], text);
    hide Bare;
  }

  lemma AnswersBare(p: Pending, claim: Claim, text: string)
    requires AnswersWith(p, claim, text)
    ensures AnswersWith(p, claim.(reaction := None), text)
  {
  }

  lemma TurnClaimed(s: System, id: Id, text: string, files: nat, now: nat)
    requires BridgeRuns.Sound(s) && Enabled(s, EndTurn(id, text, files, now))
    ensures s.up && IndexOf(s.mem.inFlight, id) < |s.mem.inFlight|
  {
    hide BridgeReplies.Inv, BridgeParts.Inv, BridgeMail.Inv, BridgeClaims.Inv, IndexOf;
    BridgeRuns.ClaimsTrack(s);
    BridgeClaims.TurnHasClaim(s, id);
  }

  /** The platform has `text` under the reply's client IDs, behind what the reply carries, and all of it at `to`. */
  ghost predicate Told(received: seq<Part>, p: Pending, to: Id, text: string) {
    var got := BridgeParts.Got(received, p.clients);
    BridgeParts.AllTo(got, to) && Says(Concat(BridgeParts.Texts(got)), p.carried, text)
  }

  /** What becomes of the reply to a claim: it waits, or the platform refused it, or has `text` at the claim's
      address. */
  ghost predicate AnswerBecomes(s: System, later: seq<Event>, p: Pending, claim: Claim, text: string, m: nat, received: seq<Part>)
    requires IsRun(s, later)
  {
    && AnswersWith(p, claim, text) && Followed(s, later, p, m)
    && (m < |later| ==>
          later[m].Finish? && (Refuses(After(s, later[..m])) || Told(received, p, claim.to, text)))
  }

  lemma AnswerIs(s: System, later: seq<Event>, p: Pending, claim: Claim, text: string, m: nat, received: seq<Part>)
    requires IsRun(s, later) && AnswersWith(p, claim, text) && Becomes(s, later, p, m, received)
    ensures AnswerBecomes(s, later, p, claim, text, m, received)
  {
    hide BridgeParts.Got, BridgeParts.Texts, Concat, Split, Says, IsRun, After, Refuses, SameReply;
  }

  /** In every run, when the turn of a message ends with `text`, its claim was taken on at event `k` and becomes a
      reply that says `text`; and whatever happens later that reply waits, or was refused, or the platform has
      `text`, at the address the message was taken on with. */
  lemma EveryAnswer(before: seq<Event>, id: Id, text: string, files: nat, now: nat, later: seq<Event>)
    returns (claim: Claim, k: nat, m: nat)
    requires IsRun(START, before) && Enabled(After(START, before), EndTurn(id, text, files, now))
    requires IsRun(START, before + [EndTurn(id, text, files, now)] + later)
    ensures TakenIn(before, k, claim) && claim.id == id
    ensures var was, s := After(START, before), Next(After(START, before), EndTurn(id, text, files, now));
            && |s.disk.pending| == |was.disk.pending| + 1 && IsRun(s, later)
            && AnswerBecomes(s, later, s.disk.pending[|was.disk.pending|], claim, text, m,
                             After(START, before + [EndTurn(id, text, files, now)] + later).received)
  {
    var e, was := EndTurn(id, text, files, now), After(START, before);
    hide IsRun, After, BridgeRuns.Sound, Becomes, AnswersWith, TakenIn, AnswerBecomes, Enabled, Next;
    BridgeRuns.EveryRun(before);
    claim := TurnAnswered(was, id, text, files, now);
    k := TakenOnAt(before, claim);
    RunAppend(START, before, [e]);
    RunOne(was, e);
    m := EveryReply(before + [e], |was.disk.pending|, later);
    AnswerIs(Next(was, e), later, Next(was, e).disk.pending[|was.disk.pending|], claim, text, m,
             After(START, before + [e] + later).received);
  }
}

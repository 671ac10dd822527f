/** In every run a mail chat's state holds only transient replies, at most one for each notice key, and
    an ordinary chat's state holds no keyed notice. */
module BridgeMail {
  import opened Wrappers
  import opened Ids
  import opened Text
  import opened Seen
  import opened Held
  import opened Delivery
  import opened Bridge

  ghost predicate OnlyTransient(pending: seq<Pending>) {
    forall i :: 0 <= i < |pending| ==> pending[i].transient && pending[i].reaction.None?
  }

  ghost predicate OncePerKey(pending: seq<Pending>) {
    forall i, j :: 0 <= i < j < |pending| && pending[i].noticeKey.Some? ==> pending[i].noticeKey != pending[j].noticeKey
  }

  ghost predicate NoNotice(pending: seq<Pending>) {
    forall i :: 0 <= i < |pending| ==> pending[i].noticeKey.None?
  }

  ghost predicate MailOk(st: State) {
    && st.inFlight == [] && st.held == [] && st.jobs == [] && st.removing == []
    && OnlyTransient(st.pending) && OncePerKey(st.pending)
  }

  /** A state of either kind of chat. */
  ghost predicate Ok(st: State) {
    if st.mail then MailOk(st) else NoNotice(st.pending)
  }

  ghost predicate Inv(s: System) {
    Ok(s.disk) && (s.up ==> Ok(s.mem))
  }

  lemma StartOk()
    ensures Inv(START)
  {
  }

  // ----- replies

  lemma PushOk(st: State, p: Pending)
    requires Ok(st) && p.noticeKey.None? && (st.mail ==> p.transient && p.reaction.None?)
    ensures Ok(st.(pending := st.pending + [p]))
  {
  }

  lemma SeenOk(st: State, id: Id)
    requires Ok(st)
    ensures Ok(MarkSeen(st, id))
  {
    hide Mark;
  }

  lemma StepIntake(s: System, e: Event)
    requires Inv(s) && OfIntake(e) && MayHear(s, e) && (e.Hear? || e.Again? || e.Ignore? || e.TakeOn? || e.Return? || e.Polled?)
    ensures Inv(Intake(s, e))
  {
    hide Mark, Known, OnlyTransient, OncePerKey, NoNotice;
  }

  lemma StepAnswers(s: System, e: Event)
    requires Inv(s) && (e.Answer? || e.AnswerSeen?) && MayHear(s, e)
    ensures Inv(Intake(s, e))
  {
    hide Ok, Mark, Split, FreshIds;
    var p := NewPending(s.hearing, e.to, e.key, e.text, s.unused).(transient := true);
    SeenOk(s.mem, s.hearing.value);
    PushOk(if e.Answer? then s.mem else MarkSeen(s.mem, s.hearing.value), p);
  }

  lemma StepQueue(s: System, e: Event)
    requires Inv(s) && e.Queue? && MayWork(s, e)
    ensures Inv(Work(s, e))
  {
    hide Kept, Ended, Stored, Ok, Split, FreshIds;
    PushOk(s.mem, NewPending(None, e.to, e.key, e.text, s.unused).(
             files := if e.question.Some? then 0 else e.files, transient := e.question.Some?, question := e.question));
  }

  /** A notice is stored only if none with its key waits. */
  lemma StepMailNotice(s: System, e: Event)
    requires Inv(s) && e.MailNotice? && MayWork(s, e)
    ensures Inv(Work(s, e))
    ensures KnownKey(Work(s, e).mem, e.noticeKey)
  {
    hide Kept, Ended, Split, FreshIds, PruneKeys;
    if !KnownKey(s.mem, e.noticeKey) {
      var next := Work(s, e).mem;
      assert next.pending[|s.mem.pending|].noticeKey == Some(e.noticeKey);
      assert OncePerKey(next.pending);
    }
  }

  lemma StepEndTurn(s: System, e: Event)
    requires Inv(s) && e.EndTurn? && MayWork(s, e)
    ensures Inv(Work(s, e))
  {
    hide Split, FreshIds, Prune, Take, Composed, RoomBeside, Waiting, PrunedAway, RecoverDrops, RefusalDrops, WithoutOne, IndexOf, MailOk;
    var i := IndexOf(s.mem.inFlight, e.id);
    assert s.mem.mail ==> i == |s.mem.inFlight| by { assert MailOk(s.mem) ==> s.mem.inFlight == [] by { MailEmpty(s.mem); } }
  }

  lemma MailEmpty(st: State)
    ensures MailOk(st) ==> st.inFlight == []
  {
  }

  lemma StepWork(s: System, e: Event)
    requires Inv(s) && (e.Reacted? || e.NotReacted? || e.StartTurn? || e.RecordJobs?) && MayWork(s, e)
    ensures Inv(Work(s, e))
  {
    hide WithoutOne, IndexOf, OnlyTransient, OncePerKey, NoNotice;
  }

  lemma PopOk(st: State)
    requires Ok(st) && st.pending != []
    ensures Ok(st.(pending := st.pending[1..]))
    ensures st.mail ==> st.pending[0].transient && st.pending[0].reaction.None?
  {
  }

  lemma FinishOk(st: State, refused: bool, now: nat)
    requires Ok(st) && st.pending != [] && st.pending[0].next <= |Chunks(st.pending[0])|
    ensures Ok(FinishFirst(st, refused, now))
  {
    hide Chunks, Mark, Restored, AsHeld, OnlyTransient, OncePerKey, NoNotice;
    PopOk(st);
    assert st.removing + [] == st.removing;
  }

  lemma StepPop(s: System, e: Event)
    requires Inv(s) && (e.DropQuestion? || e.Finish?) && MayDeliver(s, e)
    ensures Inv(Deliver(s, e))
  {
    hide Chunks, Waiting, PrunedAway, RecoverDrops, RefusalDrops, AsHeld, FinishFirst, Ok;
    PopOk(s.mem);
    if e.Finish? {
      FinishOk(s.mem, s.sending.value.refused, e.now);
    }
  }

  lemma StepProgress(s: System, e: Event)
    requires Inv(s) && (e.Advance? || e.FileDone?) && MayDeliver(s, e)
    ensures Inv(Deliver(s, e))
  {
    hide Chunks;
  }

  lemma StepSends(s: System, e: Event)
    requires Inv(s) && (e.Pick? || e.Delivered? || e.Rejected? || e.Unsure? || e.FileUnsure?) && MayDeliver(s, e)
    ensures Inv(Deliver(s, e))
  {
    hide Chunks, Ok, Receive, NextPart;
  }

  // ----- keys remembered

  lemma {:induction false} RecentKeeps(keys: seq<RecentKey>, i: nat, now: nat) returns (j: nat)
    requires i < |keys| && now < keys[i].storedAt + 604800
    ensures var recent := OnlyRecent(keys, now);
            |recent| <= |keys| && j < |recent| && recent[j] == keys[i] && |recent| - j <= |keys| - i
    decreases |keys|
  {
    if i == 0 {
      j := 0;
      RecentShorter(keys, now);
    } else {
      j := RecentKeeps(keys[1..], i - 1, now);
      if now < keys[0].storedAt + RECENT_KEY_SECONDS {
        j := j + 1;
      }
    }
  }

  lemma {:induction false} RecentShorter(keys: seq<RecentKey>, now: nat)
    ensures |OnlyRecent(keys, now)| <= |keys|
    decreases |keys|
  {
    if keys != [] {
      RecentShorter(keys[1..], now);
    }
  }

  /** A notice is stored under its key, which is remembered; and so is every key stored within the last week that is
      among the newest 512. */
  lemma KeysRemembered(st: State, key: Id, to: Id, text: string, now: nat, from: nat, i: nat)
    requires !KnownKey(st, key) && i < |st.keys| && now < st.keys[i].storedAt + 604800 && i + 511 >= |st.keys|
    ensures var next := StoreMailNotice(st, key, to, text, now, from);
            st.keys[i] in next.keys && RecentKey(key, now) in next.keys
  {
    var all := st.keys + [RecentKey(key, now)];
    var j := RecentKeeps(all, i, now);
    var k := RecentKeeps(all, |st.keys|, now);
    hide OnlyRecent, KnownKey;
  }

  // ----- starting

  lemma {:induction false} RecoverClaimsOrdinary(st: State, reply: string, now: nat, from: nat)
    requires !st.mail && NoNotice(st.pending)
    ensures var r := RecoverClaims(st, reply, now, from).state; !r.mail && NoNotice(r.pending)
    decreases |st.inFlight|
  {
    hide Split, FreshIds, Prune, Take, Composed, RoomBeside;
    if st.inFlight != [] {
      var next := EndClaim(st, 0, reply, 0, now, from);
      assert NoNotice(next.pending);
      hide NoNotice, EndClaim;
      EndKeepsKind(st, reply, now, from);
      RecoverClaimsOrdinary(next, reply, now, from + |next.pending[|st.pending|].clients|);
    }
  }

  lemma EndKeepsKind(st: State, reply: string, now: nat, from: nat)
    requires st.inFlight != []
    ensures var next := EndClaim(st, 0, reply, 0, now, from);
            next.mail == st.mail && |next.inFlight| == |st.inFlight| - 1 && |next.pending| == |st.pending| + 1
  {
  }

  lemma {:induction false} TellJobsOrdinary(st: State, jobs: seq<Job>, notices: Notices, from: nat)
    requires !st.mail && NoNotice(st.pending)
    ensures var r := TellJobs(st, jobs, notices, from).state; !r.mail && NoNotice(r.pending)
    decreases |jobs|
  {
    hide Split, FreshIds;
    if jobs != [] {
      var p := Telling(jobs[0], notices, from);
      TellJobsOrdinary(st.(pending := st.pending + [p]), jobs[1..], notices, from + |p.clients|);
    }
  }

  /** A mail chat has nothing to recover. */
  lemma MailRecovers(st: State, failure: string, notices: Notices, now: nat, from: nat)
    requires st.inFlight == [] && st.jobs == []
    ensures Recover(st, failure, notices, now, from).state == st
  {
    assert StoppedJobs([], {}) == [];
  }

  lemma OrdinaryRecovers(st: State, failure: string, notices: Notices, now: nat, from: nat)
    requires !st.mail && NoNotice(st.pending)
    ensures Ok(Recover(st, failure, notices, now, from).state) && !Recover(st, failure, notices, now, from).state.mail
  {
    RecoverClaimsOrdinary(st, failure, now, from);
    hide RecoverClaims, TellJobs, NoNotice, StoppedJobs;
    var claims := RecoverClaims(st, failure, now, from);
    TellJobsOrdinary(claims.state.(jobs := []), StoppedJobs(st.jobs, {}), notices, claims.unused);
  }

  /** Only an account with no chat and no chat log of its own becomes a mail chat, and a mail chat never
      becomes an ordinary one. */
  lemma StepBoot(s: System, mail: bool, logged: bool, failure: string, notices: Notices, now: nat)
    requires Inv(s) && Enabled(s, Boot(mail, logged, failure, notices, now))
    ensures var next := Started(s, mail, failure, notices, now);
            && Inv(next) && next.disk.mail == mail
            && (s.disk.mail ==> next.disk == s.disk)
            && (next.disk.mail && !s.disk.mail ==> !Ordinary(s.disk) && !logged)
  {
    hide Recover, RecoverDrops, Failures, MayDeliver, MayHear, MayWork;
    var st := s.disk.(mail := mail);
    if mail {
      MailRecovers(st, failure, notices, now, s.unused);
    } else {
      OrdinaryRecovers(st, failure, notices, now, s.unused);
      hide Ok;
    }
  }

  lemma StepElse(s: System, e: Event)
    requires Inv(s) && (e.Crash? || e.TryRemoval? || e.Removed?) && Enabled(s, e)
    ensures Inv(Next(s, e))
  {
    hide MayDeliver, MayHear, MayWork, Deliver, Intake, Work, OnlyTransient, OncePerKey, NoNotice, Ordinary, Started;
  }

  /** Every step keeps each kind of chat as it is. */
  lemma StepKeeps(s: System, e: Event)
    requires Inv(s) && Enabled(s, e)
    ensures Inv(Next(s, e))
  {
    hide Inv, MayDeliver, MayHear, MayWork, Deliver, Intake, Work, Started;
    if OfDelivery(e) {
      if e.Finish? || e.DropQuestion? {
        StepPop(s, e);
      } else if e.Advance? || e.FileDone? {
        StepProgress(s, e);
      } else {
        StepSends(s, e);
      }
    } else if OfIntake(e) {
      if e.Answer? || e.AnswerSeen? {
        StepAnswers(s, e);
      } else {
        StepIntake(s, e);
      }
    } else if e.Queue? {
      StepQueue(s, e);
    } else if e.MailNotice? {
      StepMailNotice(s, e);
    } else if e.EndTurn? {
      StepEndTurn(s, e);
    } else if OfWork(e) {
      StepWork(s, e);
    } else if e.Boot? {
      StepBoot(s, e.mail, e.logged, e.failure, e.notices, e.now);
    } else {
      StepElse(s, e);
    }
  }
}

/** In every run of the bridge a saved working reaction is in exactly one place, with the claim, with its
    reply or in the list to take off, until taking it off was tried. */
module BridgeReactions {
  import opened Wrappers
  import opened Ids
  import opened Text
  import opened Seen
  import opened Held
  import opened Delivery
  import opened Bridge
  import opened BridgeReplies
  import BridgeClaims

  /** The reaction a claim keeps. */
  function OfClaim(c: Claim): multiset<Reaction> {
    if c.reaction.Some? then multiset{Reaction(c.id, c.reaction.value)} else multiset{}
  }

  function OfPending(p: Pending): multiset<Reaction> {
    if p.reaction.Some? && p.id.Some? then multiset{Reaction(p.id.value, p.reaction.value)} else multiset{}
  }

  function OfClaims(claims: seq<Claim>): multiset<Reaction> {
    if claims == [] then multiset{} else OfClaim(claims[0]) + OfClaims(claims[1..])
  }

  function OfReplies(pending: seq<Pending>): multiset<Reaction> {
    if pending == [] then multiset{} else OfPending(pending[0]) + OfReplies(pending[1..])
  }

  /** Every place a reaction is in: with a claim, with a reply, or in the list to take off. */
  function Places(st: State): multiset<Reaction> {
    OfClaims(st.inFlight) + OfReplies(st.pending) + multiset(st.removing)
  }

  // ----- multisets

  lemma Assoc(a: multiset<Reaction>, b: multiset<Reaction>, c: multiset<Reaction>)
    ensures a + b + c == a + (b + c)
  {
  }

  lemma NothingAdds(a: multiset<Reaction>)
    ensures multiset{} + a == a && a + multiset{} == a
  {
  }

  lemma Regroup(a: multiset<Reaction>, p: multiset<Reaction>, r: multiset<Reaction>, x: multiset<Reaction>)
    ensures a + p + r + x == a + x + (p + r)
  {
  }

  lemma Swap(a: multiset<Reaction>, b: multiset<Reaction>, p: multiset<Reaction>, r: multiset<Reaction>,
             x: multiset<Reaction>, y: multiset<Reaction>)
    requires a + x == b + y
    ensures a + p + r + x == b + p + r + y
  {
    Regroup(a, p, r, x);
    Regroup(b, p, r, y);
  }

  // ----- reactions of claims

  lemma OfClaimsNone()
    ensures OfClaims([]) == multiset{}
  {
  }

  lemma OfClaimsHead(c: Claim, rest: seq<Claim>)
    ensures OfClaims([c] + rest) == OfClaim(c) + OfClaims(rest)
  {
    assert ([c] + rest)[1..] == rest;
  }

  lemma {:induction false} OfClaimsAppend(a: seq<Claim>, b: seq<Claim>)
    ensures OfClaims(a + b) == OfClaims(a) + OfClaims(b)
    decreases |a|
  {
    hide OfClaims, OfClaim;
    if a == [] {
      assert a + b == b;
      OfClaimsNone();
      NothingAdds(OfClaims(b));
    } else {
      OfClaimsAppend(a[1..], b);
      assert a + b == [a[0]] + (a[1..] + b);
      OfClaimsHead(a[0], a[1..]);
      OfClaimsHead(a[0], a[1..] + b);
      assert [a[0]] + a[1..] == a;
      Assoc(OfClaim(a[0]), OfClaims(a[1..]), OfClaims(b));
    }
  }

  lemma OfClaimsOne(c: Claim)
    ensures OfClaims([c]) == OfClaim(c)
  {
    assert [c][1..] == [];
    OfClaimsNone();
  }

  lemma OfClaimsAt(claims: seq<Claim>, i: nat)
    requires i < |claims|
    ensures OfClaims(claims) == OfClaims(claims[..i] + claims[i + 1..]) + OfClaim(claims[i])
  {
    hide OfClaims, OfClaim;
    assert claims == claims[..i] + ([claims[i]] + claims[i + 1..]);
    OfClaimsAppend(claims[..i], [claims[i]] + claims[i + 1..]);
    OfClaimsAppend([claims[i]], claims[i + 1..]);
    OfClaimsAppend(claims[..i], claims[i + 1..]);
    OfClaimsOne(claims[i]);
  }

  lemma OfClaimsSet(claims: seq<Claim>, i: nat, c: Claim)
    requires i < |claims|
    ensures OfClaims(claims[i := c]) + OfClaim(claims[i]) == OfClaims(claims) + OfClaim(c)
  {
    hide OfClaims, OfClaim;
    OfClaimsAt(claims, i);
    OfClaimsAt(claims[i := c], i);
    assert claims[i := c][..i] + claims[i := c][i + 1..] == claims[..i] + claims[i + 1..];
  }

  lemma {:induction false} OfRepliesPush(a: seq<Pending>, p: Pending)
    ensures OfReplies(a + [p]) == OfReplies(a) + OfPending(p)
    decreases |a|
  {
    hide OfPending;
    if a == [] {
      assert (a + [p])[1..] == [];
      assert OfReplies([]) == multiset{};
    } else {
      OfRepliesPush(a[1..], p);
      assert (a + [p])[1..] == a[1..] + [p];
    }
  }

  // ----- the invariant

  /** Removals tried and not saved as tried. */
  function Tried(s: System): seq<Reaction> {
    if |s.mem.removing| <= |s.disk.removing| then s.disk.removing[..|s.disk.removing| - |s.mem.removing|] else []
  }

  /** What is saved to take off is what was tried and not saved as tried, and then what memory has. */
  ghost predicate Lags(s: System) {
    s.disk.removing == Tried(s) + s.mem.removing && Places(s.disk) == Places(s.mem) + multiset(Tried(s))
  }

  /** The account of reactions: each that was saved, or put back by a crash, is in one place or was tried. */
  ghost predicate Balanced(saved: multiset<Reaction>, again: multiset<Reaction>, tried: multiset<Reaction>, st: State) {
    saved + again == Places(st) + tried
  }

  ghost predicate Inv(s: System) {
    && (s.up ==> Balanced(s.saved, s.again, s.tried, s.mem) && Lags(s) && s.again + multiset(Tried(s)) <= s.tried)
    && (!s.up ==> Balanced(s.saved, s.again, s.tried, s.disk) && s.again <= s.tried)
    && (s.removing.Some? ==> s.up && s.mem.removing != [] && s.mem.removing[0] == s.removing.value)
  }

  lemma StartOk()
    ensures Inv(START)
  {
    assert Places(EMPTY) == multiset{};
  }

  /** A step that saves a state with the same reactions. */
  lemma Saving(s: System, next: System)
    requires Inv(s) && s.up && next.up && next.disk == next.mem && next.saved == s.saved && next.tried == s.tried
    requires next.again == s.again
    requires Places(next.mem) == Places(s.mem) && next.removing == s.removing && s.mem.removing <= next.mem.removing
    ensures Inv(next)
  {
    hide Places;
    assert next.disk.removing[..0] == [];
    NothingAdds(Places(next.mem));
  }

  /** Reactions do not depend on the rest of the state. */
  lemma PlacesSame(a: State, b: State)
    requires a.inFlight == b.inFlight && a.pending == b.pending && a.removing == b.removing
    ensures Places(a) == Places(b)
  {
  }

  lemma PushPlaces(st: State, p: Pending)
    requires p.reaction.None?
    ensures Places(st.(pending := st.pending + [p])) == Places(st)
  {
    hide OfReplies, OfClaims;
    OfRepliesPush(st.pending, p);
  }

  lemma ClaimPlaces(st: State, c: Claim)
    requires c.reaction.None?
    ensures Places(st.(inFlight := st.inFlight + [c])) == Places(st)
  {
    hide OfReplies, OfClaims;
    OfClaimsAppend(st.inFlight, [c]);
    OfClaimsOne(c);
  }

  /** A reply takes its claim's reaction over. */
  lemma EndPlaces(st: State, i: nat, own: string, files: nat, now: nat, from: nat)
    requires i < |st.inFlight|
    ensures Places(EndClaim(st, i, own, files, now, from)) == Places(st)
    ensures EndClaim(st, i, own, files, now, from).removing == st.removing
  {
    hide OfReplies, OfClaims, Take, Prune, Composed, RoomBeside, FreshIds, Split;
    var (p, left) := Compose(st.held, st.inFlight[i], own, now, from);
    OfRepliesPush(st.pending, p.(files := files));
    OfClaimsAt(st.inFlight, i);
  }

  // ----- steps

  lemma StepMarks(s: System, e: Event)
    requires Inv(s) && (e.Again? || e.Ignore?) && MayHear(s, e)
    ensures Inv(Intake(s, e))
  {
    hide Inv, Mark, Known, Places;
    var next := Intake(s, e);
    PlacesSame(next.mem, s.mem);
    Saving(s, next);
  }

  lemma StepAnswers(s: System, e: Event)
    requires Inv(s) && (e.Answer? || e.AnswerSeen?) && MayHear(s, e)
    ensures Inv(Intake(s, e))
  {
    hide Inv, Mark, Places, FreshIds, Split;
    var next := Intake(s, e);
    var p := NewPending(s.hearing, e.to, e.key, e.text, s.unused).(transient := true);
    PushPlaces(s.mem, p);
    PlacesSame(next.mem, s.mem.(pending := s.mem.pending + [p]));
    Saving(s, next);
  }

  lemma StepClaims(s: System, e: Event)
    requires Inv(s) && (e.TakeOn? || e.Return?) && MayHear(s, e)
    ensures Inv(Intake(s, e))
  {
    hide Inv, Known, Places;
    var next := Intake(s, e);
    ClaimPlaces(s.mem, Claim(if e.TakeOn? then s.hearing.value else e.id, e.to, e.key, None));
    Saving(s, next);
  }

  lemma StepQueue(s: System, e: Event)
    requires Inv(s) && e.Queue? && MayWork(s, e)
    ensures Inv(Work(s, e))
  {
    hide Kept, Ended, Stored, Inv, Places, FreshIds, Split;
    PushPlaces(s.mem, NewPending(None, e.to, e.key, e.text, s.unused).(
                 files := if e.question.Some? then 0 else e.files, transient := e.question.Some?, question := e.question));
    Saving(s, Work(s, e));
  }

  lemma StepMailNotice(s: System, e: Event)
    requires Inv(s) && e.MailNotice? && MayWork(s, e)
    ensures Inv(Work(s, e))
  {
    hide Kept, Ended, Inv, Places, FreshIds, Split, KnownKey, PruneKeys;
    if !KnownKey(s.mem, e.noticeKey) {
      var next := Work(s, e);
      var p := NewPending(None, e.to, e.to, e.text, s.unused).(transient := true, noticeKey := Some(e.noticeKey));
      PushPlaces(s.mem, p);
      PlacesSame(next.mem, s.mem.(pending := s.mem.pending + [p]));
      Saving(s, next);
    }
  }

  lemma StepJobs(s: System, e: Event)
    requires Inv(s) && e.RecordJobs? && MayWork(s, e)
    ensures Inv(Work(s, e))
  {
    hide Kept, Ended, Stored, NewPending, Inv, Places;
    PlacesSame(Work(s, e).mem, s.mem);
    Saving(s, Work(s, e));
  }

  /** A crash puts back what was tried and not saved as tried. */
  lemma DownKeeps(s: System)
    requires Inv(s) && s.up
    ensures Inv(Down(s))
  {
    hide Places;
    var tried := multiset(Tried(s));
    assert multiset(s.disk.removing) == tried + multiset(s.mem.removing);
    assert Forgotten(s) == tried;
    assert s.saved + (s.again + tried) == s.saved + s.again + tried;
    assert Places(s.mem) + s.tried + tried == Places(s.mem) + tried + s.tried;
  }

  lemma EndedKeeps(s: System, id: Id, text: string, files: nat, now: nat)
    requires Inv(s) && s.up
    ensures Inv(Ended(s, id, text, files, now))
  {
    hide Inv, Places, EndClaim, PrunedAway, WithoutOne, Down;
    var i := IndexOf(s.mem.inFlight, id);
    hide IndexOf;
    if i < |s.mem.inFlight| {
      EndPlaces(s.mem, i, text, files, now, s.unused);
      Saving(s, Ended(s, id, text, files, now));
    } else {
      DownKeeps(s);
    }
  }

  lemma StepEndTurn(s: System, e: Event)
    requires Inv(s) && e.EndTurn? && MayWork(s, e)
    ensures Inv(Work(s, e))
  {
    hide Inv, Ended, Kept, Stored, NewPending;
    EndedKeeps(s, e.id, e.text, e.files, e.now);
  }

  /** An add ends for a claim that already has a reaction. */
  predicate Overwrites(s: System, e: Event) {
    && e.Reacted?
    && var i := IndexOf(s.mem.inFlight, e.id); i < |s.mem.inFlight| && s.mem.inFlight[i].reaction.Some?
  }

  lemma KeptPlaces(st: State, i: nat, reaction: Option<Id>)
    requires i < |st.inFlight|
    ensures var c := st.inFlight[i];
            Places(WithReaction(st, i, reaction)) + OfClaim(c) == Places(st) + OfClaim(c.(reaction := reaction))
  {
    hide OfClaims, OfReplies, OfClaim;
    var c := st.inFlight[i].(reaction := reaction);
    OfClaimsSet(st.inFlight, i, c);
    Swap(OfClaims(st.inFlight[i := c]), OfClaims(st.inFlight), OfReplies(st.pending), multiset(st.removing),
         OfClaim(st.inFlight[i]), OfClaim(c));
  }

  lemma AddBalanced(saved: multiset<Reaction>, again: multiset<Reaction>, tried: multiset<Reaction>, places: multiset<Reaction>,
                    r: multiset<Reaction>)
    requires saved + again == places + tried
    ensures saved + r + again == places + r + tried
  {
    assert saved + r + again == (saved + again) + r;
  }

  /** An add that is saved. */
  lemma StepKept(s: System, id: Id, token: Id)
    requires Inv(s) && s.up && !Overwrites(s, Reacted(id, token, true)) && IndexOf(s.mem.inFlight, id) < |s.mem.inFlight|
    ensures Inv(Kept(s, id, token, true))
  {
    hide Places, WithoutOne;
    var i := IndexOf(s.mem.inFlight, id);
    hide IndexOf;
    var next := Kept(s, id, token, true);
    var r := multiset{Reaction(id, token)};
    KeptPlaces(s.mem, i, Some(token));
    NothingAdds(Places(next.mem));
    assert Places(next.mem) == Places(s.mem) + r;
    AddBalanced(s.saved, s.again, s.tried, Places(s.mem), r);
    assert next.disk.removing[..0] == [];
  }

  lemma NothingSet(st: State, i: nat)
    requires i < |st.inFlight| && st.inFlight[i].reaction.None?
    ensures WithReaction(st, i, None) == st
  {
    assert st.inFlight[i := st.inFlight[i]] == st.inFlight;
  }

  /** An add that is not saved, for a claim without a reaction or for none. */
  lemma StepUnkept(s: System, id: Id, token: Id, ok: bool)
    requires Inv(s) && s.up && !Overwrites(s, Reacted(id, token, ok))
    requires IndexOf(s.mem.inFlight, id) < |s.mem.inFlight| ==> !ok
    ensures Inv(Kept(s, id, token, ok))
  {
    FirstRemoval(s);
    hide Inv, WithoutOne, WithReaction;
    var i := IndexOf(s.mem.inFlight, id);
    hide IndexOf;
    if i < |s.mem.inFlight| {
      NothingSet(s.mem, i);
    }
    Idle(s, Kept(s, id, token, ok));
  }

  lemma StepReacted(s: System, e: Event)
    requires Inv(s) && e.Reacted? && MayWork(s, e) && !Overwrites(s, e)
    ensures Inv(Work(s, e))
  {
    hide Inv, Kept, IndexOf, Ended, Stored, NewPending;
    if IndexOf(s.mem.inFlight, e.id) < |s.mem.inFlight| && e.ok {
      StepKept(s, e.id, e.token);
    } else {
      StepUnkept(s, e.id, e.token, e.ok);
    }
  }

  lemma SizesDiffer(a: multiset<Reaction>, b: multiset<Reaction>, places: multiset<Reaction>, left: multiset<Reaction>,
                    tried: multiset<Reaction>, x: multiset<Reaction>, y: multiset<Reaction>)
    requires a == places + tried && |x| == 1 && left + x == places + y
    ensures a + y != left + tried
  {
    assert |a| == |places| + |tried| && |left + x| == |left| + |x| && |places + y| == |places| + |y|;
    assert |a + y| == |a| + |y| && |left + tried| == |left| + |tried|;
  }

  lemma OverwriteBreaks(s: System, e: Event)
    requires Inv(s) && e.Reacted? && MayWork(s, e) && Overwrites(s, e)
    ensures !Inv(Work(s, e))
  {
    hide Places, WithoutOne;
    var i := IndexOf(s.mem.inFlight, e.id);
    hide IndexOf;
    var c, next := s.mem.inFlight[i], Work(s, e);
    var reaction := if e.ok then Some(e.token) else None;
    var y := OfClaim(c.(reaction := reaction));
    KeptPlaces(s.mem, i, reaction);
    SizesDiffer(s.saved + s.again, s.saved, Places(s.mem), Places(next.mem), s.tried, OfClaim(c), y);
    assert next.saved + next.again == s.saved + s.again + y by {
      if e.ok {
        assert s.saved + y + s.again == s.saved + s.again + y;
      } else {
        NothingAdds(s.saved + s.again);
      }
    }
  }

  /** An add that ends breaks the account if and only if its claim already has a reaction, whether or not the
      new one is saved. */
  lemma OverwriteLoses(s: System, e: Event)
    requires Inv(s) && e.Reacted? && MayWork(s, e)
    ensures Inv(Work(s, e)) <==> !Overwrites(s, e)
  {
    hide Inv, Work, Overwrites, MayWork;
    if Overwrites(s, e) {
      OverwriteBreaks(s, e);
    } else {
      StepReacted(s, e);
    }
  }

  lemma StepFinish(s: System, now: nat)
    requires Inv(s) && Agree(s) && AllOk(s.disk.pending) && MayDeliver(s, Finish(now))
    ensures Inv(Deliver(s, Finish(now)))
  {
    hide Chunks, Waiting, PrunedAway, RecoverDrops, RefusalDrops, AsHeld, FinishFirst, Inv, Places, Composed;
    assert PendingOk(s.mem.pending[0]);
    hide PendingOk;
    FinishPlaces(s.mem, s.sending.value.refused, now);
    Saving(s, Deliver(s, Finish(now)));
  }

  /** The reaction of a finished reply, as it joins the list to take off. */
  function Leaving(p: Pending): seq<Reaction> {
    if p.reaction.Some? && p.id.Some? then [Reaction(p.id.value, p.reaction.value)] else []
  }

  lemma FinishFields(st: State, refused: bool, now: nat)
    requires st.pending != [] && st.pending[0].next <= |Chunks(st.pending[0])|
    ensures var next := FinishFirst(st, refused, now);
            && next.inFlight == st.inFlight && next.pending == st.pending[1..]
            && next.removing == st.removing + Leaving(st.pending[0])
  {
    hide Chunks, HoldRefused, Mark;
  }

  lemma FinishPlaces(st: State, refused: bool, now: nat)
    requires st.pending != [] && st.pending[0].next <= |Chunks(st.pending[0])|
    ensures var next := FinishFirst(st, refused, now);
            Places(next) == Places(st) && st.removing <= next.removing
  {
    hide Chunks, FinishFirst;
    FinishFields(st, refused, now);
    var p := st.pending[0];
    assert multiset(Leaving(p)) == OfPending(p);
    assert multiset(st.removing + Leaving(p)) == multiset(st.removing) + OfPending(p);
    hide OfClaims, Leaving, OfPending;
    Moving(OfClaims(st.inFlight), OfPending(p), OfReplies(st.pending[1..]), multiset(st.removing));
  }

  lemma Moving(a: multiset<Reaction>, p: multiset<Reaction>, rest: multiset<Reaction>, r: multiset<Reaction>)
    ensures a + rest + (r + p) == a + (p + rest) + r
  {
  }

  lemma StepDropQuestion(s: System)
    requires Inv(s) && Agree(s) && AllOk(s.disk.pending) && MayDeliver(s, DropQuestion)
    ensures Inv(Deliver(s, DropQuestion))
  {
    hide Inv, OfClaims, Chunks, Composed;
    assert PendingOk(s.mem.pending[0]);
    assert OfReplies(s.mem.pending) == OfReplies(s.mem.pending[1..]);
    Saving(s, Deliver(s, DropQuestion));
  }

  lemma StepProgress(s: System, e: Event)
    requires Inv(s) && Agree(s) && Tracks(s) && (e.Advance? || e.FileDone?) && MayDeliver(s, e)
    ensures Inv(Deliver(s, e))
  {
    hide Inv, OfClaims, Chunks;
    var next := Deliver(s, e);
    assert next.mem.pending[1..] == s.mem.pending[1..];
    assert OfReplies(next.mem.pending) == OfReplies(s.mem.pending);
    hide OfReplies;
    Saving(s, next);
  }

  lemma {:induction false} RecoverClaimsPlaces(st: State, reply: string, now: nat, from: nat)
    ensures Places(RecoverClaims(st, reply, now, from).state) == Places(st)
    decreases |st.inFlight|
  {
    hide Places, EndClaim;
    if st.inFlight != [] {
      EndPlaces(st, 0, reply, 0, now, from);
      var next := EndClaim(st, 0, reply, 0, now, from);
      EndShortens(st, reply, now, from);
      RecoverClaimsPlaces(next, reply, now, from + |next.pending[|st.pending|].clients|);
    }
  }

  lemma EndShortens(st: State, reply: string, now: nat, from: nat)
    requires st.inFlight != []
    ensures var next := EndClaim(st, 0, reply, 0, now, from);
            |next.inFlight| == |st.inFlight| - 1 && |next.pending| == |st.pending| + 1
  {
  }

  lemma {:induction false} TellJobsPlaces(st: State, jobs: seq<Job>, notices: Notices, from: nat)
    ensures Places(TellJobs(st, jobs, notices, from).state) == Places(st)
    decreases |jobs|
  {
    hide Places, FreshIds, Split;
    if jobs != [] {
      var p := Telling(jobs[0], notices, from);
      PushPlaces(st, p);
      TellJobsPlaces(st.(pending := st.pending + [p]), jobs[1..], notices, from + |p.clients|);
    }
  }

  lemma StepBoot(s: System, mail: bool, failure: string, notices: Notices, now: nat)
    requires Inv(s) && !s.up
    ensures Inv(Started(s, mail, failure, notices, now))
  {
    hide Places, Waiting, PrunedAway, RecoverDrops, RefusalDrops, RecoverClaims, TellJobs, StoppedJobs, Failures;
    var st := s.disk.(mail := mail);
    PlacesSame(st, s.disk);
    RecoverClaimsPlaces(st, failure, now, s.unused);
    var claims := RecoverClaims(st, failure, now, s.unused);
    PlacesSame(claims.state, claims.state.(jobs := []));
    TellJobsPlaces(claims.state.(jobs := []), StoppedJobs(st.jobs, {}), notices, claims.unused);
  }

  lemma RemovePlaces(st: State)
    requires st.removing != []
    ensures Places(st) == Places(st.(removing := st.removing[1..])) + multiset{st.removing[0]}
  {
    hide OfClaims, OfReplies;
    assert st.removing == [st.removing[0]] + st.removing[1..];
    assert multiset(st.removing) == multiset{st.removing[0]} + multiset(st.removing[1..]);
  }

  lemma RemovedBalanced(s: System)
    requires Inv(s) && s.up && s.removing.Some?
    ensures var left := s.mem.(removing := s.mem.removing[1..]);
            && Places(s.mem) == Places(left) + multiset{s.removing.value}
            && Balanced(s.saved, s.again, s.tried + multiset{s.removing.value}, left)
  {
    hide Places, Lags;
    var left, r := s.mem.(removing := s.mem.removing[1..]), multiset{s.removing.value};
    RemovePlaces(s.mem);
    Assoc(Places(left), r, s.tried);
    assert r + s.tried == s.tried + r;
  }

  lemma RemovedTried(s: System)
    requires Inv(s) && s.up && s.removing.Some?
    ensures var next := Untied(s, false);
            Tried(next) == Tried(s) + [s.removing.value] && next.disk.removing == Tried(next) + next.mem.removing
  {
    hide Places, Balanced;
    var k := |s.disk.removing| - |s.mem.removing|;
    assert s.disk.removing[k] == s.mem.removing[0];
  }

  /** A removal tried and saved as tried. */
  lemma StepRemovedSaved(s: System)
    requires Inv(s) && s.up && s.removing.Some? && s.mem.removing != []
    ensures Inv(Untied(s, true))
  {
    RemovedBalanced(s);
    hide Places, Balanced;
    var next := Untied(s, true);
    SavedLags(next);
    NothingAdds(s.again);
    hide Lags, Tried;
    assert s.again <= s.tried;
  }

  lemma SavedLags(s: System)
    requires s.disk == s.mem
    ensures Lags(s) && multiset(Tried(s)) == multiset{}
  {
    hide Places;
    assert s.disk.removing[..0] == [];
    NothingAdds(Places(s.mem));
  }

  lemma Folded(places: multiset<Reaction>, r: multiset<Reaction>, tried: multiset<Reaction>)
    ensures places + r + tried == places + (tried + r)
  {
  }

  lemma Monotone(again: multiset<Reaction>, tried: multiset<Reaction>, all: multiset<Reaction>, r: multiset<Reaction>)
    requires again + tried <= all
    ensures again + (tried + r) <= all + r
  {
  }

  /** A removal tried and not saved as tried. */
  lemma StepRemovedUnsaved(s: System)
    requires Inv(s) && s.up && s.removing.Some? && s.mem.removing != []
    ensures Inv(Untied(s, false))
  {
    RemovedBalanced(s);
    RemovedTried(s);
    var r, next := multiset{s.removing.value}, Untied(s, false);
    assert multiset(Tried(next)) == multiset(Tried(s)) + r;
    hide Places, Balanced, Tried;
    Folded(Places(next.mem), r, multiset(Tried(s)));
    Monotone(s.again, multiset(Tried(s)), s.tried, r);
  }

  lemma StepRemoved(s: System, ok: bool)
    requires Inv(s) && s.up && s.removing.Some? && s.mem.removing != []
    ensures Inv(Untied(s, ok))
  {
    hide Inv, Untied;
    if ok {
      StepRemovedSaved(s);
    } else {
      StepRemovedUnsaved(s);
    }
  }

  /** Steps that change neither the saved state nor memory. */
  lemma Idle(s: System, next: System)
    requires Inv(s) && next.disk == s.disk && next.saved == s.saved && next.tried == s.tried && next.again == s.again
    requires next.up == s.up && next.mem == s.mem
    requires next.removing.Some? ==>
               next.up && next.mem.removing != [] && next.mem.removing[0] == next.removing.value
    ensures Inv(next)
  {
    hide Places;
  }

  lemma StepSends(s: System, e: Event)
    requires Inv(s) && (e.Pick? || e.Delivered? || e.Rejected? || e.Unsure? || e.FileUnsure?) && MayDeliver(s, e)
    ensures Inv(Deliver(s, e))
  {
    hide Receive, NextPart, Chunks;
    assert s.removing.Some? ==> s.mem.removing != [] && s.mem.removing[0] == s.removing.value;
    hide Inv;
    Idle(s, Deliver(s, e));
  }

  lemma FirstRemoval(s: System)
    requires Inv(s)
    ensures s.removing.Some? ==> s.up && s.mem.removing != [] && s.mem.removing[0] == s.removing.value
  {
    hide Places, Lags;
  }

  lemma StepHear(s: System, id: Id)
    requires Inv(s) && MayHear(s, Hear(id))
    ensures Inv(Intake(s, Hear(id)))
  {
    hide Inv, Known;
    FirstRemoval(s);
    Idle(s, Intake(s, Hear(id)));
  }

  lemma StepStart(s: System, id: Id)
    requires Inv(s) && MayWork(s, StartTurn(id))
    ensures Inv(Work(s, StartTurn(id)))
  {
    hide Kept, Ended, Stored, NewPending, Inv, WithoutOne;
    FirstRemoval(s);
    Idle(s, Work(s, StartTurn(id)));
  }

  lemma StepNotReacted(s: System, id: Id)
    requires Inv(s) && MayWork(s, NotReacted(id))
    ensures Inv(Work(s, NotReacted(id)))
  {
    hide Kept, Ended, Stored, NewPending, Inv, WithoutOne;
    FirstRemoval(s);
    Idle(s, Work(s, NotReacted(id)));
  }

  lemma StepTry(s: System)
    requires Inv(s) && s.up && s.mem.removing != []
    ensures Inv(s.(removing := Some(s.mem.removing[0])))
  {
    hide Inv;
    Idle(s, s.(removing := Some(s.mem.removing[0])));
  }

  lemma StepPolled(s: System, e: Event)
    requires Inv(s) && e.Polled? && MayHear(s, e)
    ensures Inv(Intake(s, e))
  {
    hide Inv, Places;
    PlacesSame(Intake(s, e).mem, s.mem);
    Saving(s, Intake(s, e));
  }

  /** Every step keeps it that does not replace a claim's reaction. */
  lemma StepKeeps(s: System, e: Event)
    requires Inv(s) && Agree(s) && Tracks(s) && AllOk(s.disk.pending) && Enabled(s, e) && !Overwrites(s, e)
    ensures Inv(Next(s, e))
  {
    hide Inv, Agree, Tracks, MayDeliver, MayHear, MayWork, Deliver, Intake, Work, Started, AllOk, Overwrites;
    if OfDelivery(e) {
      if e.Finish? {
        StepFinish(s, e.now);
      } else if e.DropQuestion? {
        StepDropQuestion(s);
      } else if e.Advance? || e.FileDone? {
        StepProgress(s, e);
      } else {
        StepSends(s, e);
      }
    } else if OfIntake(e) {
      StepIntake(s, e);
    } else if OfWork(e) {
      StepWork(s, e);
    } else if e.Boot? {
      StepBoot(s, e.mail, e.failure, e.notices, e.now);
    } else if e.Removed? {
      StepRemoved(s, e.ok);
    } else if e.Crash? {
      DownKeeps(s);
    } else {
      StepTry(s);
    }
  }

  lemma StepIntake(s: System, e: Event)
    requires Inv(s) && OfIntake(e) && MayHear(s, e)
    ensures Inv(Intake(s, e))
  {
    hide Inv, MayHear, Intake;
    if e.Again? || e.Ignore? {
      StepMarks(s, e);
    } else if e.Answer? || e.AnswerSeen? {
      StepAnswers(s, e);
    } else if e.Hear? {
      StepHear(s, e.id);
    } else if e.Polled? {
      StepPolled(s, e);
    } else {
      StepClaims(s, e);
    }
  }

  lemma StepWork(s: System, e: Event)
    requires Inv(s) && OfWork(e) && MayWork(s, e) && !Overwrites(s, e)
    ensures Inv(Work(s, e))
  {
    hide Inv, MayWork, Work, Overwrites;
    if e.Reacted? {
      StepReacted(s, e);
    } else if e.NotReacted? {
      StepNotReacted(s, e.id);
    } else if e.EndTurn? {
      StepEndTurn(s, e);
    } else if e.Queue? {
      StepQueue(s, e);
    } else if e.MailNotice? {
      StepMailNotice(s, e);
    } else if e.RecordJobs? {
      StepJobs(s, e);
    } else {
      StepStart(s, e.id);
    }
  }

  /** A reaction whose removal was not tried is saved in as many places as it was saved times. */
  lemma UntriedInPlace(s: System, r: Reaction)
    requires Inv(s)
    ensures s.up ==> s.saved + s.again == Places(s.mem) + s.tried
    ensures s.tried[r] == 0 ==> Places(s.disk)[r] == s.saved[r]
  {
    hide Places, Tried;
    if s.up {
      assert (s.saved + s.again)[r] == (Places(s.mem) + s.tried)[r];
      assert (s.again + multiset(Tried(s)))[r] <= s.tried[r];
      assert Places(s.disk)[r] == Places(s.mem)[r] + multiset(Tried(s))[r];
    } else {
      assert (s.saved + s.again)[r] == (Places(s.disk) + s.tried)[r];
    }
  }

  // ----- when no reaction is replaced

  /** No message is taken on again while the last add of its reaction still runs. */
  predicate Unhurried(s: System, e: Event) {
    e.TakeOn? && s.hearing.Some? ==> s.hearing.value !in s.reacting
  }

  ghost predicate Unset(claims: seq<Claim>, reacting: seq<Id>) {
    forall i :: 0 <= i < |claims| && claims[i].id in reacting ==> claims[i].reaction.None?
  }

  /** At most one add runs for a message, and its claim has no reaction yet. */
  ghost predicate AddsOk(s: System) {
    && (forall id :: multiset(s.reacting)[id] <= 1) && Unset(s.mem.inFlight, s.reacting)
    && (!s.up ==> s.reacting == [])
  }

  lemma AddsNeverOverwrite(s: System, e: Event)
    requires AddsOk(s) && Enabled(s, e)
    ensures !Overwrites(s, e)
  {
    hide IndexOf;
  }

  lemma StartAddsOk()
    ensures AddsOk(START)
  {
  }

  /** One add less. */
  lemma AddsGone(reacting: seq<Id>, id: Id)
    requires id in reacting && forall x :: multiset(reacting)[x] <= 1
    ensures var left := WithoutOne(reacting, id);
            && (forall x :: multiset(left)[x] <= 1) && (forall x :: x in left ==> x in reacting && x != id)
  {
    BridgeClaims.WithoutOneIs(reacting, id);
    hide WithoutOne;
    var left := WithoutOne(reacting, id);
    assert multiset(reacting)[id] <= 1;
    assert id !in multiset(left);
    forall x | x in left ensures x in reacting && x != id {
      assert x in multiset(left);
      assert x in multiset(reacting);
    }
  }

  /** An add that ends leaves the others alone. */
  lemma KeptAdds(s: System, id: Id, token: Id, ok: bool)
    requires AddsOk(s) && s.up && id in s.reacting
    ensures AddsOk(Kept(s, id, token, ok))
  {
    AddsGone(s.reacting, id);
    hide IndexOf, WithoutOne;
  }

  lemma NotReactedAdds(s: System, id: Id)
    requires AddsOk(s) && s.up && id in s.reacting
    ensures AddsOk(s.(reacting := WithoutOne(s.reacting, id)))
  {
    AddsGone(s.reacting, id);
    hide WithoutOne;
  }

  lemma AddEnds(s: System, e: Event)
    requires AddsOk(s) && (e.Reacted? || e.NotReacted?) && MayWork(s, e)
    ensures AddsOk(Work(s, e))
  {
    hide AddsOk, Kept, Ended, Stored, NewPending, WithoutOne;
    if e.Reacted? {
      KeptAdds(s, e.id, e.token, e.ok);
    } else {
      NotReactedAdds(s, e.id);
    }
  }

  lemma HearingUnclaimed(s: System)
    requires BridgeClaims.InStep(s) && s.up && s.hearing.Some?
    ensures forall i :: 0 <= i < |s.mem.inFlight| ==> s.mem.inFlight[i].id != s.hearing.value
  {
    var ids := BridgeClaims.ClaimIds(s.mem.inFlight);
    BridgeClaims.BareIds(s.mem.inFlight, s.disk.inFlight);
    assert s.hearing.value !in multiset(ids);
    assert forall i :: 0 <= i < |s.mem.inFlight| ==> s.mem.inFlight[i].id == ids[i];
  }

  /** One more add, of a message that has none and no claim yet. */
  lemma AddsPush(claims: seq<Claim>, reacting: seq<Id>, c: Claim)
    requires Unset(claims, reacting) && c.reaction.None? && c.id !in reacting
    requires (forall id :: multiset(reacting)[id] <= 1) && forall i :: 0 <= i < |claims| ==> claims[i].id != c.id
    ensures Unset(claims + [c], reacting + [c.id]) && forall id :: multiset(reacting + [c.id])[id] <= 1
  {
    assert multiset(reacting + [c.id]) == multiset(reacting) + multiset{c.id};
    assert c.id !in multiset(reacting);
    assert forall x :: x in reacting + [c.id] ==> x in reacting || x == c.id;
  }

  lemma AddStarts(s: System, e: Event)
    requires AddsOk(s) && BridgeClaims.InStep(s) && (e.TakeOn? || e.Return?) && MayHear(s, e) && Unhurried(s, e)
    ensures AddsOk(Intake(s, e))
  {
    hide Known;
    if e.TakeOn? {
      HearingUnclaimed(s);
      hide BridgeClaims.InStep;
      AddsPush(s.mem.inFlight, s.reacting, Claim(s.hearing.value, e.to, e.key, None));
      hide Unset;
    } else {
      hide BridgeClaims.InStep;
      var next := Intake(s, e);
      assert next.mem.inFlight == s.mem.inFlight + [Claim(e.id, e.to, e.key, None)];
    }
  }

  lemma EndLeavesAdds(s: System, e: Event)
    requires AddsOk(s) && e.EndTurn? && MayWork(s, e)
    ensures AddsOk(Work(s, e))
  {
    hide IndexOf, WithoutOne, Compose, Waiting, PrunedAway, RecoverDrops, RefusalDrops;
    var i := IndexOf(s.mem.inFlight, e.id);
    if i < |s.mem.inFlight| {
      var left := s.mem.inFlight[..i] + s.mem.inFlight[i + 1..];
      forall j | 0 <= j < |left| ensures left[j] in s.mem.inFlight {
      }
      assert Unset(left, s.reacting);
    }
  }

  /** The claims and the adds that run are as they were. */
  ghost predicate SameAdds(s: System, next: System) {
    next.mem.inFlight == s.mem.inFlight && next.reacting == s.reacting && next.up == s.up
  }

  lemma DeliverSameAdds(s: System, e: Event)
    requires OfDelivery(e) && MayDeliver(s, e)
    ensures SameAdds(s, Deliver(s, e))
  {
    hide Receive, NextPart, Chunks, HoldRefused, Waiting, PrunedAway, RecoverDrops, RefusalDrops, AsHeld, Mark;
  }

  lemma IntakeSameAdds(s: System, e: Event)
    requires OfIntake(e) && MayHear(s, e) && !TouchesClaims(e)
    ensures SameAdds(s, Intake(s, e))
  {
    hide Mark, NewPending, Known;
  }

  lemma WorkSameAdds(s: System, e: Event)
    requires OfWork(e) && MayWork(s, e) && !TouchesClaims(e) && !e.NotReacted?
    ensures SameAdds(s, Work(s, e))
  {
    hide NewPending, KnownKey, PruneKeys, Split, WithoutOne, EndClaim, IndexOf;
  }

  lemma OthersLeaveAdds(s: System, e: Event)
    requires AddsOk(s) && Enabled(s, e) && !TouchesClaims(e) && !e.NotReacted?
    ensures AddsOk(Next(s, e))
  {
    hide MayDeliver, MayHear, MayWork, Deliver, Intake, Work, Recover;
    if OfDelivery(e) {
      DeliverSameAdds(s, e);
    } else if OfIntake(e) {
      IntakeSameAdds(s, e);
    } else if OfWork(e) {
      WorkSameAdds(s, e);
    }
  }

  lemma StepAdds(s: System, e: Event)
    requires AddsOk(s) && BridgeClaims.InStep(s) && Enabled(s, e) && Unhurried(s, e)
    ensures AddsOk(Next(s, e))
  {
    hide AddsOk, Unhurried, MayHear, MayWork, Intake, Work, BridgeClaims.InStep, MayDeliver, Deliver, Recover;
    hide Waiting, PrunedAway, RecoverDrops, RefusalDrops, Failures;
    if e.NotReacted? {
      AddEnds(s, e);
    } else if !TouchesClaims(e) {
      OthersLeaveAdds(s, e);
    } else if e.EndTurn? {
      EndLeavesAdds(s, e);
    } else if e.Reacted? {
      AddEnds(s, e);
    } else if e.Boot? {
      BootNoAdds(s, e.mail, e.failure, e.notices, e.now);
    } else {
      AddStarts(s, e);
    }
  }

  lemma BootNoAdds(s: System, mail: bool, failure: string, notices: Notices, now: nat)
    requires AddsOk(s) && !s.up
    ensures AddsOk(Started(s, mail, failure, notices, now))
  {
    hide Recover, Waiting, PrunedAway, RecoverDrops, RefusalDrops, Failures;
  }

  /** Trying the oldest waiting removal takes it off the list, and off the saved one if that save works. */
  lemma TakenOff(s: System, ok: bool)
    requires s.up && s.removing.None? && s.mem.removing != []
    ensures IsRun(s, [TryRemoval, Removed(ok)])
    ensures var n := After(s, [TryRemoval, Removed(ok)]);
            && n.mem.removing == s.mem.removing[1..] && n.removing.None?
            && n.disk == (if ok then n.mem else s.disk) && n.tried == s.tried + multiset{s.mem.removing[0]}
  {
    TryIs(s);
    RemovedOne(Next(s, TryRemoval), ok);
    hide Enabled, Next;
    assert [TryRemoval, Removed(ok)][1..] == [Removed(ok)];
    RunOne(Next(s, TryRemoval), Removed(ok));
  }

  lemma TryIs(s: System)
    requires s.up && s.removing.None? && s.mem.removing != []
    ensures Enabled(s, TryRemoval) && Next(s, TryRemoval) == s.(removing := Some(s.mem.removing[0]))
  {
    hide MayDeliver, Deliver, MayHear, Intake, MayWork, Work, Started, Untied, Ordinary, Down;
  }

  lemma RemovedOne(s: System, ok: bool)
    requires s.up && s.removing.Some? && s.mem.removing != []
    ensures Enabled(s, Removed(ok)) && Next(s, Removed(ok)) == Untied(s, ok)
  {
    hide MayDeliver, Deliver, MayHear, Intake, MayWork, Work, Started, Untied, Ordinary, Down;
  }
}

/** What holds in every run of the bridge from an empty account, however its steps interleave and
    wherever it crashes. */
module BridgeRuns {
  import opened Wrappers
  import opened Ids
  import opened Text
  import opened Seen
  import opened Held
  import opened Delivery
  import opened Bridge
  import BridgeClaims
  import BridgeReplies
  import BridgeParts
  import BridgeReactions
  import BridgeMail

  /** Messages, replies, parts and kinds of chat are all in order. */
  ghost predicate Sound(s: System) {
    BridgeClaims.Inv(s) && BridgeReplies.Inv(s) && BridgeParts.Inv(s) && BridgeMail.Inv(s)
  }

  lemma StartSound()
    ensures Sound(START)
  {
    hide BridgeClaims.Inv, BridgeReplies.Inv, BridgeParts.Inv, BridgeMail.Inv;
    BridgeClaims.StartOk();
    BridgeReplies.StartOk();
    BridgeParts.StartOk();
    BridgeMail.StartOk();
  }

  lemma ClaimsTrack(s: System)
    requires BridgeClaims.Inv(s)
    ensures BridgeClaims.InStep(s) && Agree(s) && Tracks(s)
  {
    hide BridgeClaims.Good;
  }

  lemma ClaimsTrackSound(s: System)
    requires Sound(s)
    ensures Agree(s) && Tracks(s)
  {
    hide BridgeClaims.Inv, BridgeReplies.Inv, BridgeParts.Inv, BridgeMail.Inv;
    ClaimsTrack(s);
  }

  lemma RepliesShaped(s: System)
    requires BridgeReplies.Inv(s)
    ensures BridgeReplies.AllOk(s.disk.pending)
  {
    hide BridgeReplies.AllOk, BridgeReplies.Accounted, BridgeReplies.SendingOk;
  }

  /** A question answers no message. */
  lemma QuestionsAnswerNothing(s: System, e: Event)
    requires BridgeReplies.Inv(s) && Agree(s) && Enabled(s, e)
    ensures BridgeReplies.AllOk(s.disk.pending)
    ensures e.DropQuestion? ==> s.mem.pending[0].id.None?
  {
    hide BridgeReplies.Accounted, BridgeReplies.SendingOk, Composed, Chunks;
  }

  lemma StepSound(s: System, e: Event)
    requires Sound(s) && Enabled(s, e)
    ensures Sound(Next(s, e))
  {
    hide BridgeClaims.Inv, BridgeReplies.Inv, BridgeParts.Inv, BridgeMail.Inv;
    hide BridgeReplies.AllOk, Enabled, Next, Agree, Tracks, BridgeClaims.InStep;
    ClaimsTrack(s);
    QuestionsAnswerNothing(s, e);
    BridgeClaims.StepKeeps(s, e);
    BridgeReplies.StepKeeps(s, e);
    BridgeParts.StepKeeps(s, e);
    BridgeMail.StepKeeps(s, e);
  }

  lemma {:induction false} RunSound(s: System, events: seq<Event>)
    requires Sound(s) && IsRun(s, events)
    ensures Sound(After(s, events))
    decreases |events|
  {
    hide Sound, Enabled, Next;
    if events != [] {
      StepSound(s, events[0]);
      RunSound(Next(s, events[0]), events[1..]);
    }
  }

  /** Every run from an empty account is sound at its end, so at every step. */
  lemma EveryRun(events: seq<Event>)
    requires IsRun(START, events)
    ensures Sound(After(START, events))
  {
    hide Sound;
    StartSound();
    RunSound(START, events);
  }

  // ----- messages

  /** In every run, between two times a message is taken on, two turns of it, or two replies to it, it was
      marked seen and at least the window's number of other messages was marked before it was taken on
      again. */
  lemma OncePerWindow(events: seq<Event>, i: nat, j: nat) returns (m: nat, k: nat)
    requires IsRun(START, events)
    requires var log := After(START, events).log; i < j < |log| && log[j] == log[i] && BridgeClaims.Happens(log[i])
    ensures var log := After(START, events).log;
            && i < m < k <= j && log[m] == Marked(log[i].id) && log[k] == Took(log[i].id)
            && log[i].id !in BridgeClaims.Marks(log[m + 1..k]) && |Set(BridgeClaims.Marks(log[m + 1..k]))| >= WINDOW
  {
    hide BridgeClaims.Inv, BridgeReplies.Inv, BridgeParts.Inv, BridgeMail.Inv, BridgeClaims.Marks, IsRun, After;
    EveryRun(events);
    m, k := BridgeClaims.OncePerWindow(After(START, events), i, j);
  }

  /** In every run each time a message was taken on it was answered once, or is still claimed, and ran at most
      once. */
  lemma TurnsAndReplies(events: seq<Event>, id: Id)
    requires IsRun(START, events)
    ensures var s := After(START, events);
            && multiset(s.log)[Replied(id)] + BridgeClaims.Claims(s.disk)[id] == multiset(s.log)[Took(id)]
            && multiset(s.log)[Ran(id)] <= multiset(s.log)[Took(id)]
  {
    hide BridgeClaims.Inv, BridgeReplies.Inv, BridgeParts.Inv, BridgeMail.Inv, IsRun, After;
    EveryRun(events);
    BridgeClaims.EachAnswered(After(START, events), id);
  }

  /** In every run what was taken on is claimed, pending, or was marked since. */
  lemma NothingLost(events: seq<Event>, i: nat)
    requires IsRun(START, events)
    requires var log := After(START, events).log; i < |log| && log[i].Took?
    ensures var s := After(START, events);
            s.log[i].id in BridgeClaims.Live(s.disk) || exists m :: i < m < |s.log| && s.log[m] == Marked(s.log[i].id)
  {
    hide BridgeClaims.Inv, BridgeReplies.Inv, BridgeParts.Inv, BridgeMail.Inv, IsRun, After;
    EveryRun(events);
    BridgeClaims.NeverLost(After(START, events), i);
  }

  /** In every run a claimed message is neither pending nor seen, and no message is claimed or pending
      twice. */
  lemma ClaimedApart(events: seq<Event>, id: Id)
    requires IsRun(START, events)
    ensures var st := After(START, events).disk;
            && BridgeClaims.Live(st)[id] <= 1
            && (id in BridgeClaims.ClaimIds(st.inFlight) ==> id !in BridgeClaims.PendingIds(st.pending) && id !in st.seen)
  {
    hide BridgeReplies.Inv, BridgeParts.Inv, BridgeMail.Inv, IsRun, After, BridgeClaims.AllCounted;
    hide BridgeClaims.OwedHeld, BridgeClaims.EntriesRight;
    hide BridgeClaims.InStep, BridgeClaims.ClaimIds, BridgeClaims.PendingIds, BridgeClaims.Live;
    EveryRun(events);
    var s := After(START, events);
    if id in BridgeClaims.ClaimIds(s.disk.inFlight) {
      BridgeClaims.InOnePlace(s, id);
    }
  }

  /** In every run a running turn finds its claim when it ends. */
  lemma TurnsKeepTheirClaims(events: seq<Event>, id: Id)
    requires IsRun(START, events) && id in After(START, events).running
    ensures var s := After(START, events); IndexOf(s.mem.inFlight, id) < |s.mem.inFlight|
  {
    hide BridgeClaims.Inv, BridgeReplies.Inv, BridgeParts.Inv, BridgeMail.Inv, IsRun, After, IndexOf;
    EveryRun(events);
    var s := After(START, events);
    ClaimsTrack(s);
    BridgeClaims.TurnHasClaim(s, id);
  }

  // ----- replies

  /** In every run the reply the delivery loop edits as the oldest is the one it read. */
  lemma EditsWhatItRead(events: seq<Event>)
    requires IsRun(START, events) && After(START, events).sending.Some?
    ensures var s := After(START, events);
            s.up && s.mem.pending == s.disk.pending != [] && s.mem.pending[0] == s.sending.value.entry
  {
    hide BridgeReplies.Inv, BridgeParts.Inv, BridgeMail.Inv, IsRun, After, BridgeClaims.Good;
    EveryRun(events);
  }

  /** In every run each refused reply waits, went out inside a later one, or was dropped by a limit, as
      often as it was refused. */
  lemma RepliesAccounted(events: seq<Event>)
    requires IsRun(START, events)
    ensures var s := After(START, events); s.refused == Waiting(s.disk) + s.delivered + s.dropped
  {
    hide BridgeClaims.Inv, BridgeParts.Inv, BridgeMail.Inv, IsRun, After, BridgeReplies.AllOk, BridgeReplies.SendingOk;
    EveryRun(events);
  }

  /** Event `k` of the run drops `x`. */
  ghost predicate DroppedAt(events: seq<Event>, k: nat, x: HeldReply) {
    k < |events| && IsRun(START, events[..k]) && BridgeReplies.DropsAt(After(START, events[..k]), events[k], x)
  }

  /** In every run what was dropped was, at some event, stale or without room beside the newer ones kept. */
  lemma {:induction false} DroppedWhen(events: seq<Event>, x: HeldReply) returns (k: nat)
    requires IsRun(START, events) && x in After(START, events).dropped
    ensures DroppedAt(events, k, x)
    decreases |events|
  {
    k := 0;
    if events == [] {
      NoEvents(START);
    } else {
      var before, last := events[..|events| - 1], events[|events| - 1];
      assert events == before + [last];
      LastStep(before, last);
      EveryRun(before);
      ClaimsTrackSound(After(START, before));
      hide *;
      if x in After(START, before).dropped {
        k := DroppedWhen(before, x);
        DroppedStill(before, last, k, x);
      } else {
        k := |before|;
        BridgeReplies.StepDrops(After(START, before), last, x);
        DroppedNow(before, last, x);
      }
    }
  }

  lemma DroppedStill(events: seq<Event>, e: Event, k: nat, x: HeldReply)
    requires DroppedAt(events, k, x)
    ensures DroppedAt(events + [e], k, x)
  {
    hide IsRun, After, BridgeReplies.DropsAt;
    assert (events + [e])[..k] == events[..k];
  }

  lemma DroppedNow(events: seq<Event>, e: Event, x: HeldReply)
    requires IsRun(START, events) && BridgeReplies.DropsAt(After(START, events), e, x)
    ensures DroppedAt(events + [e], |events|, x)
  {
    hide IsRun, After, BridgeReplies.DropsAt;
    assert (events + [e])[..|events|] == events;
  }

  /** In every run the platform has, of the oldest reply, its recorded parts or one more, in order and
      each once, and nothing of any later one. */
  lemma PartsInOrder(events: seq<Event>)
    requires IsRun(START, events)
    ensures var s := After(START, events);
            && (forall i :: 1 <= i < |s.disk.pending| ==> BridgeParts.Got(s.received, s.disk.pending[i].clients) == [])
            && (s.disk.pending != [] ==> BridgeParts.Prefix(s.received, s.disk.pending[0]))
  {
    hide BridgeClaims.Inv, BridgeReplies.Inv, BridgeMail.Inv, IsRun, After, BridgeParts.Numbered, BridgeParts.Prefix;
    hide BridgeParts.Got;
    EveryRun(events);
    var s := After(START, events);
    forall i | 1 <= i < |s.disk.pending| ensures BridgeParts.Got(s.received, s.disk.pending[i].clients) == [] {
      assert BridgeParts.Untouched(s.received, s.disk.pending[i]);
      BridgeParts.GotNothing(s.received, s.disk.pending[i].clients);
    }
  }

  /** In every run, whatever happens after a reply is done with without a refusal, the platform has all of
      it, each part once and in order. */
  lemma FinishedStaysWhole(before: seq<Event>, now: nat, later: seq<Event>)
    requires IsRun(START, before) && MayDeliver(After(START, before), Finish(now))
    requires !After(START, before).sending.value.refused && IsRun(START, before + [Finish(now)] + later)
    ensures var p := After(START, before).mem.pending[0];
            && BridgeParts.Whole(After(START, before + [Finish(now)] + later).received, p) && p.nextFile == p.files
  {
    hide Sound, IsRun, After, MayDeliver, Enabled, Deliver, Next, BridgeParts.Got, BridgeParts.Texts, Chunks, Concat;
    hide BridgeParts.AllTo;
    EveryRun(before);
    FinishIs(After(START, before), now);
    FinishSettles(After(START, before), now, After(START, before).mem.pending[0]);
    RunOne(After(START, before), Finish(now));
    RunAppend(START, before, [Finish(now)]);
    EveryRun(before + [Finish(now)]);
    RunAppend(START, before + [Finish(now)], later);
    SettledForGood(After(START, before + [Finish(now)]), later, After(START, before).mem.pending[0].clients);
  }

  ghost predicate WholeAndPast(s: System, p: Pending) {
    && BridgeParts.Whole(s.received, p) && p.nextFile == p.files
    && BridgeParts.Past(s.disk.pending, s.unused, p.clients)
  }

  /** A reply that is done with is whole on the platform and past. */
  lemma FinishSettles(s: System, now: nat, p: Pending)
    requires MayDeliver(s, Finish(now)) && !s.sending.value.refused && p == s.mem.pending[0]
    requires Sound(s)
    ensures WholeAndPast(Deliver(s, Finish(now)), p)
  {
    hide BridgeClaims.Inv, BridgeReplies.Inv, BridgeParts.Inv, BridgeMail.Inv, BridgeParts.Past, BridgeParts.Whole;
    hide Chunks, Deliver, BridgeClaims.InStep, BridgeReplies.AllOk;
    ClaimsTrack(s);
    QuestionsAnswerNothing(s, Finish(now));
    BridgeParts.FinishedWhole(s, now);
    BridgeParts.FinishedPast(s, Finish(now));
    DeliveryFramed(s, Finish(now));
  }

  lemma FinishIs(s: System, now: nat)
    ensures Enabled(s, Finish(now)) <==> MayDeliver(s, Finish(now))
    ensures Enabled(s, Finish(now)) ==> Next(s, Finish(now)) == Deliver(s, Finish(now)) && s.mem.pending != []
  {
    hide Chunks, Deliver;
  }

  /** Once a reply is no longer pending, nothing that happens later changes what the platform has of it. */
  lemma {:induction false} SettledForGood(s: System, events: seq<Event>, clients: seq<nat>)
    requires Sound(s) && IsRun(s, events) && BridgeParts.Past(s.disk.pending, s.unused, clients)
    ensures BridgeParts.Got(After(s, events).received, clients) == BridgeParts.Got(s.received, clients)
    decreases |events|
  {
    hide BridgeClaims.Inv, BridgeReplies.Inv, BridgeParts.Inv, BridgeMail.Inv, Enabled, Next, Agree, Tracks;
    hide BridgeParts.Past;
    hide BridgeParts.Got, BridgeClaims.InStep;
    if events != [] {
      ClaimsTrack(s);
      StepSound(s, events[0]);
      BridgeParts.PastStays(s, events[0], clients);
      SettledForGood(Next(s, events[0]), events[1..], clients);
    }
  }

  // ----- reactions

  /** A run in which no add of a reaction ends for a claim that already has one. */
  ghost predicate NoneOverwrites(s: System, events: seq<Event>)
    requires IsRun(s, events)
    decreases |events|
  {
    events == [] || (!BridgeReactions.Overwrites(s, events[0]) && NoneOverwrites(Next(s, events[0]), events[1..]))
  }

  lemma {:induction false} RunReactions(s: System, events: seq<Event>)
    requires Sound(s) && BridgeReactions.Inv(s) && IsRun(s, events) && NoneOverwrites(s, events)
    ensures BridgeReactions.Inv(After(s, events))
    decreases |events|
  {
    hide BridgeClaims.Inv, BridgeReplies.Inv, BridgeParts.Inv, BridgeMail.Inv, Enabled, Next, Agree, Tracks;
    hide BridgeClaims.InStep, BridgeReactions.Inv, BridgeReactions.Overwrites, BridgeReplies.AllOk;
    if events != [] {
      var e := events[0];
      ClaimsTrack(s);
      QuestionsAnswerNothing(s, e);
      StepSound(s, e);
      BridgeReactions.StepKeeps(s, e);
      RunReactions(Next(s, e), events[1..]);
    }
  }

  /** In every run in which none is replaced, each reaction that was saved, or put back by a crash, is in one
      place in memory or was tried; and as long as its removal was not tried it is saved in as many places as
      it was saved times. */
  lemma ReactionsInOnePlace(events: seq<Event>, r: Reaction)
    requires IsRun(START, events) && NoneOverwrites(START, events)
    ensures var s := After(START, events);
            && (s.up ==> s.saved + s.again == BridgeReactions.Places(s.mem) + s.tried)
            && (s.tried[r] == 0 ==> BridgeReactions.Places(s.disk)[r] == s.saved[r])
  {
    hide Sound, IsRun, After, NoneOverwrites, BridgeReactions.Inv;
    StartSound();
    BridgeReactions.StartOk();
    RunReactions(START, events);
    BridgeReactions.UntriedInPlace(After(START, events), r);
  }

  /** A run in which no message is taken on while the last add of its reaction still runs. */
  ghost predicate UnhurriedRun(s: System, events: seq<Event>)
    requires IsRun(s, events)
    decreases |events|
  {
    events == [] || (BridgeReactions.Unhurried(s, events[0]) && UnhurriedRun(Next(s, events[0]), events[1..]))
  }

  lemma {:induction false} UnhurriedFrom(s: System, events: seq<Event>)
    requires Sound(s) && BridgeReactions.AddsOk(s) && IsRun(s, events) && UnhurriedRun(s, events)
    ensures NoneOverwrites(s, events)
    decreases |events|
  {
    hide BridgeClaims.Inv, BridgeReplies.Inv, BridgeParts.Inv, BridgeMail.Inv, Enabled, Next, Agree, Tracks;
    hide BridgeClaims.InStep, BridgeReactions.AddsOk, BridgeReactions.Unhurried, BridgeReactions.Overwrites;
    if events != [] {
      var e := events[0];
      ClaimsTrack(s);
      StepSound(s, e);
      BridgeReactions.AddsNeverOverwrite(s, e);
      BridgeReactions.StepAdds(s, e);
      UnhurriedFrom(Next(s, e), events[1..]);
    }
  }

  /** Then none is replaced. */
  lemma UnhurriedNeverOverwrites(events: seq<Event>)
    requires IsRun(START, events) && UnhurriedRun(START, events)
    ensures NoneOverwrites(START, events)
  {
    hide Sound, IsRun, UnhurriedRun, NoneOverwrites, BridgeReactions.AddsOk;
    StartSound();
    BridgeReactions.StartAddsOk();
    UnhurriedFrom(START, events);
  }

  // ----- mail

  /** In every run a mail chat's state holds only transient replies, each notice key once, and an
      ordinary chat's state no keyed notice. */
  lemma KindsOfChat(events: seq<Event>)
    requires IsRun(START, events)
    ensures BridgeMail.Ok(After(START, events).disk)
  {
    hide BridgeClaims.Inv, BridgeReplies.Inv, BridgeParts.Inv, IsRun, After, BridgeMail.Ok;
    EveryRun(events);
  }

  /** In every run an account that ever took on or marked a message as an ordinary chat never becomes a mail
      chat. */
  lemma ChatNeverBecomesMail(events: seq<Event>, logged: bool, failure: string, notices: Notices, now: nat)
    requires IsRun(START, events) && After(START, events).log != [] && !After(START, events).disk.mail
    ensures !Enabled(After(START, events), Boot(true, logged, failure, notices, now))
  {
    hide BridgeClaims.Inv, BridgeReplies.Inv, BridgeParts.Inv, BridgeMail.Inv, IsRun, After, MayDeliver, MayHear, MayWork;
    EveryRun(events);
    BridgeClaims.LoggedIsOrdinary(After(START, events));
  }
}

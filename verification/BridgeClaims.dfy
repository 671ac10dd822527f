/** In every run of the bridge each message is taken on at most once while its ID is remembered, gets at
    most one turn and at most one reply, and is never lost between claim, reply and seen. */
module BridgeClaims {
  import opened Wrappers
  import opened Ids
  import opened Text
  import opened Seen
  import opened Held
  import opened Delivery
  import opened Bridge

  // ----- the messages a state holds

  function ClaimIds(claims: seq<Claim>): seq<Id> {
    seq(|claims|, i requires 0 <= i < |claims| => claims[i].id)
  }

  function PendingIds(pending: seq<Pending>): seq<Id> {
    if pending == [] then []
    else (if pending[0].id.Some? then [pending[0].id.value] else []) + PendingIds(pending[1..])
  }

  function IdOf(p: Pending): multiset<Id> {
    if p.id.Some? then multiset{p.id.value} else multiset{}
  }

  /** Messages claimed or waiting for their reply to go out. */
  function Live(st: State): multiset<Id> {
    multiset(ClaimIds(st.inFlight)) + multiset(PendingIds(st.pending))
  }

  lemma {:induction false} PendingPush(pending: seq<Pending>, p: Pending)
    ensures multiset(PendingIds(pending + [p])) == multiset(PendingIds(pending)) + IdOf(p)
    decreases |pending|
  {
    if pending == [] {
      assert ([] + [p])[1..] == [];
    } else {
      PendingPush(pending[1..], p);
      assert (pending + [p])[1..] == pending[1..] + [p];
    }
  }

  lemma PendingPop(pending: seq<Pending>)
    requires pending != []
    ensures multiset(PendingIds(pending)) == IdOf(pending[0]) + multiset(PendingIds(pending[1..]))
  {
  }

  lemma {:induction false} PendingHolds(pending: seq<Pending>, id: Id)
    ensures id in PendingIds(pending) <==> exists i :: 0 <= i < |pending| && pending[i].id == Some(id)
    decreases |pending|
  {
    if pending != [] {
      PendingHolds(pending[1..], id);
      if id in PendingIds(pending[1..]) {
        var i :| 0 <= i < |pending[1..]| && pending[1..][i].id == Some(id);
        assert pending[i + 1].id == Some(id);
      }
      if pending[0].id != Some(id) && (exists i :: 0 <= i < |pending| && pending[i].id == Some(id)) {
        var i :| 0 <= i < |pending| && pending[i].id == Some(id);
        assert pending[1..][i - 1].id == Some(id);
      }
    }
  }

  lemma ClaimPush(claims: seq<Claim>, c: Claim)
    ensures multiset(ClaimIds(claims + [c])) == multiset(ClaimIds(claims)) + multiset{c.id}
  {
    assert ClaimIds(claims + [c]) == ClaimIds(claims) + [c.id];
  }

  lemma ClaimRemove(claims: seq<Claim>, i: nat)
    requires i < |claims|
    ensures multiset(ClaimIds(claims)) == multiset(ClaimIds(claims[..i] + claims[i + 1..])) + multiset{claims[i].id}
  {
    var ids := ClaimIds(claims);
    assert ids == ids[..i] + [claims[i].id] + ids[i + 1..];
    assert ClaimIds(claims[..i] + claims[i + 1..]) == ids[..i] + ids[i + 1..];
  }

  /** What intake checks is what the state holds. */
  lemma KnownIs(st: State, id: Id)
    ensures Known(st, id) <==> id in st.seen || id in Live(st)
  {
    PendingHolds(st.pending, id);
    assert id in ClaimIds(st.inFlight) <==> exists i :: 0 <= i < |st.inFlight| && st.inFlight[i].id == id by {
      if exists i :: 0 <= i < |st.inFlight| && st.inFlight[i].id == id {
        var i :| 0 <= i < |st.inFlight| && st.inFlight[i].id == id;
        assert ClaimIds(st.inFlight)[i] == id;
      }
    }
  }

  // ----- the run's history

  function Marks(log: seq<Entry>): seq<Id> {
    if log == [] then []
    else Marks(log[..|log| - 1]) + if log[|log| - 1].Marked? then [log[|log| - 1].id] else []
  }

  /** `id` was taken on and has not been marked seen since. */
  predicate Owed(log: seq<Entry>, id: Id) {
    if log == [] then false
    else if log[|log| - 1] == Took(id) then true
    else if log[|log| - 1] == Marked(id) then false
    else Owed(log[..|log| - 1], id)
  }

  /** `id` may be taken on: nothing is owed for it and it is not remembered. */
  predicate Free(log: seq<Entry>, id: Id) {
    !Owed(log, id) && id !in MarkAll(Marks(log), WINDOW)
  }

  /** How often `what`, an entry of the message `id`, was logged since `id` was last taken on. */
  function Since(log: seq<Entry>, id: Id, what: Entry): nat {
    if log == [] || log[|log| - 1] == Took(id) then 0
    else Since(log[..|log| - 1], id, what) + if log[|log| - 1] == what then 1 else 0
  }

  lemma LogPush(log: seq<Entry>, e: Entry)
    ensures Marks(log + [e]) == Marks(log) + if e.Marked? then [e.id] else []
    ensures forall id :: Owed(log + [e], id)
                    <==> if e == Took(id) then true else if e == Marked(id) then false else Owed(log, id)
    ensures MarkAll(Marks(log + [e]), WINDOW)
         == if e.Marked? then Mark(MarkAll(Marks(log), WINDOW), e.id, WINDOW) else MarkAll(Marks(log), WINDOW)
  {
    assert (log + [e])[..|log|] == log;
    assert (Marks(log) + [e.id])[..|Marks(log)|] == Marks(log);
    assert Marks(log) + [] == Marks(log);
  }

  lemma SincePush(log: seq<Entry>, e: Entry, id: Id, what: Entry)
    ensures Since(log + [e], id, what) == if e == Took(id) then 0 else Since(log, id, what) + if e == what then 1 else 0
  {
    assert (log + [e])[..|log|] == log;
  }

  lemma LogGrows(log: seq<Entry>, e: Entry)
    ensures multiset(log + [e]) == multiset(log) + multiset{e}
  {
  }

  // ----- the invariant

  /** Each message is in one place, and none that is claimed is remembered as seen. */
  ghost predicate Apart(seen: seq<Id>, claims: multiset<Id>, live: multiset<Id>) {
    && claims <= live && (forall id :: live[id] <= 1)
    && (forall id :: id in seen ==> id !in claims)
  }

  /** Since a message was last taken on it ran at most once and was answered at most once, counting what
      waits to run and what is claimed; and each time it was taken on it was answered or is claimed. */
  ghost predicate Counted(claims: nat, queued: nat, log: seq<Entry>, id: Id) {
    && Since(log, id, Ran(id)) + queued <= 1 && Since(log, id, Replied(id)) + claims <= 1
    && multiset(log)[Ran(id)] + queued <= multiset(log)[Took(id)]
    && multiset(log)[Replied(id)] + claims == multiset(log)[Took(id)]
  }

  ghost predicate AllCounted(claims: multiset<Id>, queued: multiset<Id>, log: seq<Entry>) {
    forall id :: Counted(claims[id], queued[id], log, id)
  }

  /** What is owed is held, and what is claimed is owed. */
  ghost predicate OwedHeld(claims: multiset<Id>, live: multiset<Id>, log: seq<Entry>) {
    && (forall id :: Owed(log, id) ==> id in live)
    && (forall id :: id in claims ==> Owed(log, id))
  }

  /** A message is taken on only if free, and runs and is answered only while owed, once. */
  ghost predicate EntryRight(log: seq<Entry>, e: Entry) {
    && (e.Took? ==> Free(log, e.id))
    && (e.Ran? || e.Replied? ==> Owed(log, e.id) && Since(log, e.id, e) == 0)
  }

  ghost predicate EntriesRight(log: seq<Entry>) {
    forall i :: 0 <= i < |log| ==> EntryRight(log[..i], log[i])
  }

  ghost predicate Sane(seen: seq<Id>, claims: multiset<Id>, live: multiset<Id>, queued: multiset<Id>, log: seq<Entry>) {
    && Apart(seen, claims, live) && seen == MarkAll(Marks(log), WINDOW)
    && AllCounted(claims, queued, log) && OwedHeld(claims, live, log) && EntriesRight(log)
  }

  function Claims(st: State): multiset<Id> {
    multiset(ClaimIds(st.inFlight))
  }

  /** The part of the invariant that speaks of one state: it agrees with the log. */
  ghost predicate Good(st: State, queued: multiset<Id>, log: seq<Entry>) {
    Sane(st.seen, Claims(st), Live(st), queued, log)
  }

  /** The running bridge's memory is the saved state but for what it could not save of reactions. */
  ghost predicate InStep(s: System) {
    && Agree(s)
    && (!s.up ==> s.hearing.None? && s.queued == [] && s.running == [] && s.sending.None?)
    && multiset(s.queued) + multiset(s.running) <= multiset(ClaimIds(s.disk.inFlight))
    && (s.hearing.Some? ==> s.hearing.value !in Live(s.disk) && s.hearing.value !in s.disk.seen)
    && Tracks(s)
  }

  ghost predicate Inv(s: System) {
    Good(s.disk, multiset(s.queued), s.log) && InStep(s)
  }

  lemma StartOk()
    ensures Inv(START)
  {
    hide Good, ClaimIds;
    EmptyGood();
    NothingYet();
    assert multiset(START.queued) == multiset{};
  }

  lemma EmptyGood()
    ensures Good(EMPTY, multiset{}, [])
  {
    hide ClaimIds, PendingIds, Marks, MarkAll, Owed;
    NothingYet();
    assert Live(EMPTY) == multiset{};
  }

  lemma NothingYet()
    ensures ClaimIds([]) == [] && PendingIds([]) == [] && Marks([]) == [] && MarkAll([], WINDOW) == []
    ensures forall id :: !Owed([], id)
  {
  }

  // ----- what an entry does to the log

  lemma EntriesPush(log: seq<Entry>, e: Entry)
    requires EntriesRight(log) && EntryRight(log, e)
    ensures EntriesRight(log + [e])
  {
    hide EntryRight;
    assert (log + [e])[..|log|] == log;
    forall i | 0 <= i < |log| ensures EntryRight((log + [e])[..i], (log + [e])[i]) {
      assert (log + [e])[..i] == log[..i];
    }
  }

  /** How an entry changes the counts of one message. */
  lemma CountPush(claims: nat, queued: nat, log: seq<Entry>, e: Entry, id: Id)
    requires Counted(claims, queued, log, id)
    ensures e.id != id || e.Marked? ==> Counted(claims, queued, log + [e], id)
    ensures e == Took(id) && claims == 0 && queued == 0 ==> Counted(1, 1, log + [e], id)
    ensures e == Ran(id) && queued > 0 ==> Counted(claims, queued - 1, log + [e], id)
    ensures e == Replied(id) && claims > 0 ==> Counted(claims - 1, queued, log + [e], id)
  {
    hide Since;
    LogGrows(log, e);
    SincePush(log, e, id, Ran(id));
    SincePush(log, e, id, Replied(id));
  }

  /** What is claimed is not yet answered, and what is queued has not yet run. */
  lemma NotYet(claims: nat, queued: nat, log: seq<Entry>, id: Id)
    requires Counted(claims, queued, log, id)
    ensures claims > 0 ==> Since(log, id, Replied(id)) == 0
    ensures queued > 0 ==> Since(log, id, Ran(id)) == 0
  {
    hide Since;
  }

  /** Taking a message on and answering it at once. */
  lemma CountAnswer(queued: nat, log: seq<Entry>, id: Id)
    requires Counted(0, queued, log, id)
    ensures Counted(0, queued, log + [Took(id)] + [Replied(id)], id)
  {
    hide Since;
    var took := log + [Took(id)];
    LogGrows(log, Took(id));
    LogGrows(took, Replied(id));
    SincePush(log, Took(id), id, Ran(id));
    SincePush(log, Took(id), id, Replied(id));
    SincePush(took, Replied(id), id, Ran(id));
    SincePush(took, Replied(id), id, Replied(id));
  }

  /** The message is marked; if it was pending it may go. */
  lemma SaneMark(
    seen: seq<Id>, claims: multiset<Id>, live: multiset<Id>, left: multiset<Id>, queued: multiset<Id>, log: seq<Entry>, id: Id)
    requires Sane(seen, claims, live, queued, log) && id !in claims && claims <= left <= live
    requires forall x :: x != id ==> left[x] == live[x]
    ensures Sane(Mark(seen, id, WINDOW), claims, left, queued, log + [Marked(id)])
  {
    hide MarkAll, Marks, Owed, Counted, Mark, Free;
    var e := Marked(id);
    LogPush(log, e);
    EntriesPush(log, e);
    MarkMembers(seen, id);
    forall x ensures Counted(claims[x], queued[x], log + [e], x) {
      CountPush(claims[x], queued[x], log, e, x);
    }
    hide EntriesRight;
  }

  lemma SaneTake(seen: seq<Id>, claims: multiset<Id>, live: multiset<Id>, queued: multiset<Id>, log: seq<Entry>, id: Id)
    requires Sane(seen, claims, live, queued, log) && id !in live && id !in seen && id !in queued
    ensures Sane(seen, claims + multiset{id}, live + multiset{id}, queued + multiset{id}, log + [Took(id)])
  {
    hide MarkAll, Marks, Owed, Counted;
    var e := Took(id);
    LogPush(log, e);
    EntriesPush(log, e);
    forall x ensures Counted((claims + multiset{id})[x], (queued + multiset{id})[x], log + [e], x) {
      CountPush(claims[x], queued[x], log, e, x);
    }
    hide EntriesRight;
  }

  lemma SaneAnswer(seen: seq<Id>, claims: multiset<Id>, live: multiset<Id>, queued: multiset<Id>, log: seq<Entry>, id: Id)
    requires Sane(seen, claims, live, queued, log) && id !in live && id !in seen
    ensures Sane(seen, claims, live + multiset{id}, queued, log + [Took(id)] + [Replied(id)])
  {
    hide MarkAll, Marks, Owed, Counted;
    var took := log + [Took(id)];
    LogPush(log, Took(id));
    LogPush(took, Replied(id));
    EntriesPush(log, Took(id));
    EntriesPush(took, Replied(id));
    forall x ensures Counted(claims[x], queued[x], took + [Replied(id)], x) {
      if x == id {
        CountAnswer(queued[x], log, id);
      } else {
        CountPush(claims[x], queued[x], log, Took(id), x);
        CountPush(claims[x], queued[x], took, Replied(id), x);
      }
    }
    hide EntriesRight;
  }

  lemma SaneReply(seen: seq<Id>, claims: multiset<Id>, live: multiset<Id>, queued: multiset<Id>, log: seq<Entry>, id: Id)
    requires Sane(seen, claims, live, queued, log) && id in claims
    ensures Sane(seen, claims - multiset{id}, live, queued, log + [Replied(id)])
  {
    hide MarkAll, Marks, Owed, Counted;
    var e := Replied(id);
    NotYet(claims[id], queued[id], log, id);
    LogPush(log, e);
    EntriesPush(log, e);
    forall x ensures Counted((claims - multiset{id})[x], queued[x], log + [e], x) {
      CountPush(claims[x], queued[x], log, e, x);
    }
    hide EntriesRight;
  }

  lemma SaneRun(seen: seq<Id>, claims: multiset<Id>, live: multiset<Id>, queued: multiset<Id>, log: seq<Entry>, id: Id)
    requires Sane(seen, claims, live, queued, log) && id in queued && id in claims
    ensures Sane(seen, claims, live, queued - multiset{id}, log + [Ran(id)])
  {
    hide MarkAll, Marks, Owed, Counted;
    var e := Ran(id);
    NotYet(claims[id], queued[id], log, id);
    LogPush(log, e);
    EntriesPush(log, e);
    forall x ensures Counted(claims[x], (queued - multiset{id})[x], log + [e], x) {
      CountPush(claims[x], queued[x], log, e, x);
    }
    hide EntriesRight;
  }

  lemma MarkMembers(seen: seq<Id>, id: Id)
    ensures forall x :: x in Mark(seen, id, WINDOW) ==> x == id || x in seen
  {
    RemoveMembers(seen, id);
  }

  // ----- pieces of steps

  lemma LiveSame(a: State, b: State)
    requires a.inFlight == b.inFlight && a.pending == b.pending
    ensures Live(a) == Live(b)
  {
  }

  /** Claims are among what a state holds. */
  lemma ClaimsLive(st: State)
    ensures Claims(st) <= Live(st)
  {
    hide ClaimIds, PendingIds;
  }

  lemma MarkKeeps(st: State, queued: multiset<Id>, log: seq<Entry>, id: Id)
    requires Good(st, queued, log) && id !in multiset(ClaimIds(st.inFlight))
    ensures Good(MarkSeen(st, id), queued, log + [Marked(id)])
    ensures forall x :: x in MarkSeen(st, id).seen ==> x == id || x in st.seen
  {
    hide Sane, Live, ClaimIds, Mark;
    ClaimsLive(st);
    SaneMark(st.seen, Claims(st), Live(st), Live(st), queued, log, id);
    MarkMembers(st.seen, id);
    LiveSame(st, MarkSeen(st, id));
  }

  /** A claim. */
  lemma ClaimKeeps(st: State, queued: multiset<Id>, log: seq<Entry>, c: Claim)
    requires Good(st, queued, log) && c.id !in Live(st) && c.id !in st.seen && c.id !in queued
    ensures Good(st.(inFlight := st.inFlight + [c]), queued + multiset{c.id}, log + [Took(c.id)])
  {
    hide Sane, ClaimIds, PendingIds;
    ClaimPush(st.inFlight, c);
    SaneTake(st.seen, Claims(st), Live(st), queued, log, c.id);
    assert Live(st.(inFlight := st.inFlight + [c])) == Live(st) + multiset{c.id};
  }

  /** A reply to a message that is not claimed. */
  lemma AnswerKeeps(st: State, queued: multiset<Id>, log: seq<Entry>, p: Pending)
    requires Good(st, queued, log) && p.id.Some? && p.id.value !in Live(st) && p.id.value !in st.seen
    ensures Good(st.(pending := st.pending + [p]), queued, log + [Took(p.id.value)] + [Replied(p.id.value)])
    ensures p.id.value !in multiset(ClaimIds(st.inFlight))
  {
    hide Sane, ClaimIds, PendingIds;
    PendingPush(st.pending, p);
    SaneAnswer(st.seen, Claims(st), Live(st), queued, log, p.id.value);
    assert Live(st.(pending := st.pending + [p])) == Live(st) + multiset{p.id.value};
  }

  /** A reply that answers no message. */
  lemma NoticeKeeps(st: State, queued: multiset<Id>, log: seq<Entry>, p: Pending)
    requires Good(st, queued, log) && p.id.None?
    ensures Good(st.(pending := st.pending + [p]), queued, log)
    ensures Live(st.(pending := st.pending + [p])) == Live(st)
  {
    hide Sane, ClaimIds, PendingIds;
    PendingPush(st.pending, p);
    assert Live(st.(pending := st.pending + [p])) == Live(st);
  }

  /** A claim becomes a reply. */
  lemma EndKeeps(st: State, queued: multiset<Id>, log: seq<Entry>, i: nat, p: Pending)
    requires Good(st, queued, log) && i < |st.inFlight| && p.id == Some(st.inFlight[i].id)
    ensures var next := st.(inFlight := st.inFlight[..i] + st.inFlight[i + 1..], pending := st.pending + [p]);
            Good(next, queued, log + [Replied(st.inFlight[i].id)]) && Live(next) == Live(st)
  {
    hide Sane, ClaimIds, PendingIds;
    var id := st.inFlight[i].id;
    var next := st.(inFlight := st.inFlight[..i] + st.inFlight[i + 1..], pending := st.pending + [p]);
    ClaimRemove(st.inFlight, i);
    PendingPush(st.pending, p);
    assert Claims(next) == Claims(st) - multiset{id};
    assert Live(next) == Live(st);
    SaneReply(st.seen, Claims(st), Live(st), queued, log, id);
  }

  /** The oldest reply, which answers no message, is done with. */
  lemma PopNoticeKeeps(st: State, queued: multiset<Id>, log: seq<Entry>)
    requires Good(st, queued, log) && st.pending != [] && st.pending[0].id.None?
    ensures Good(st.(pending := st.pending[1..]), queued, log)
    ensures Live(st.(pending := st.pending[1..])) == Live(st)
  {
    hide Sane, ClaimIds, PendingIds;
    PendingPop(st.pending);
    assert Live(st.(pending := st.pending[1..])) == Live(st);
  }

  /** The oldest reply is done with and its message is marked. */
  lemma PopKeeps(st: State, queued: multiset<Id>, log: seq<Entry>)
    requires Good(st, queued, log) && st.pending != [] && st.pending[0].id.Some?
    ensures var id := st.pending[0].id.value;
            Good(MarkSeen(st.(pending := st.pending[1..]), id), queued, log + [Marked(id)])
  {
    hide Live, ClaimIds, Mark, AllCounted, OwedHeld, EntriesRight, Marks, MarkAll;
    var id := st.pending[0].id.value;
    var popped := st.(pending := st.pending[1..]);
    PopLive(st);
    assert Live(st)[id] <= 1;
    ClaimsLive(popped);
    LiveSame(popped, MarkSeen(popped, id));
    assert forall x :: x != id ==> Live(popped)[x] == Live(st)[x];
    hide Sane;
    SaneMark(st.seen, Claims(st), Live(st), Live(popped), queued, log, id);
  }

  lemma PopLive(st: State)
    requires st.pending != [] && st.pending[0].id.Some?
    ensures var id, popped := st.pending[0].id.value, st.(pending := st.pending[1..]);
            && Live(st) == Live(popped) + multiset{id} && id in Live(st)
            && (Live(st)[id] <= 1 ==> id !in multiset(ClaimIds(st.inFlight)))
  {
    hide ClaimIds, PendingIds;
    PendingPop(st.pending);
    assert Live(st) == Live(st.(pending := st.pending[1..])) + multiset{st.pending[0].id.value};
  }

  /** A queued turn starts. */
  lemma RunKeeps(st: State, queued: multiset<Id>, log: seq<Entry>, id: Id)
    requires Good(st, queued, log) && id in queued && id in Claims(st)
    ensures Good(st, queued - multiset{id}, log + [Ran(id)])
  {
    hide Sane, Live, ClaimIds;
    SaneRun(st.seen, Claims(st), Live(st), queued, log, id);
  }

  lemma QueueShrinks(st: State, queued: multiset<Id>, less: multiset<Id>, log: seq<Entry>)
    requires Good(st, queued, log) && less <= queued
    ensures Good(st, less, log)
  {
    hide MarkAll, Marks, Live, EntriesRight, Apart, OwedHeld, Since;
    forall id ensures Counted(Claims(st)[id], less[id], log, id) {
      assert Counted(Claims(st)[id], queued[id], log, id);
    }
  }

  /** Parts of the state the invariant does not read. */
  lemma OtherFields(a: State, b: State, queued: multiset<Id>, log: seq<Entry>)
    requires Good(a, queued, log) && a.seen == b.seen && a.pending == b.pending && ClaimIds(a.inFlight) == ClaimIds(b.inFlight)
    ensures Good(b, queued, log) && Live(b) == Live(a)
  {
    hide Sane, ClaimIds, PendingIds;
  }

  // ----- steps

  lemma {:induction false} WithoutOneIs(ids: seq<Id>, id: Id)
    requires id in ids
    ensures multiset(WithoutOne(ids, id)) == multiset(ids) - multiset{id}
    decreases |ids|
  {
    assert ids == [ids[0]] + ids[1..];
    if ids[0] != id {
      WithoutOneIs(ids[1..], id);
      assert multiset(ids) == multiset{ids[0]} + multiset(ids[1..]);
    }
  }

  /** A running turn finds its claim: the bridge never loses a claimed message. */
  lemma TurnHasClaim(s: System, id: Id)
    requires InStep(s) && s.up && id in s.running
    ensures IndexOf(s.mem.inFlight, id) < |s.mem.inFlight|
  {
    var ids := ClaimIds(s.disk.inFlight);
    BareIds(s.mem.inFlight, s.disk.inFlight);
    assert id in multiset(s.running);
    assert id in multiset(s.queued) + multiset(s.running);
    assert id in multiset(ids);
    var i :| 0 <= i < |ids| && ids[i] == id;
    assert ClaimIds(s.mem.inFlight)[i] == id;
  }

  /** Claims that differ only in reactions are of the same messages. */
  lemma BareIds(a: seq<Claim>, b: seq<Claim>)
    requires Bare(a) == Bare(b)
    ensures ClaimIds(a) == ClaimIds(b)
  {
    assert |a| == |Bare(a)| && |b| == |Bare(b)|;
    forall i | 0 <= i < |a| ensures ClaimIds(a)[i] == ClaimIds(b)[i] {
      assert Bare(a)[i] == Bare(b)[i];
    }
  }

  /** The saved state agrees with memory on what the invariant reads. */
  lemma MemGood(s: System)
    requires Inv(s) && s.up
    ensures Good(s.mem, multiset(s.queued), s.log) && Live(s.mem) == Live(s.disk)
    ensures s.mem.pending == s.disk.pending && ClaimIds(s.mem.inFlight) == ClaimIds(s.disk.inFlight) && s.mem.seen == s.disk.seen
  {
    hide Good;
    BareIds(s.mem.inFlight, s.disk.inFlight);
    OtherFields(s.disk, s.mem, multiset(s.queued), s.log);
  }

  /** A step that only marks `id`, which is not claimed. */
  lemma Marking(s: System, id: Id, next: System)
    requires Inv(s) && s.up && (id in s.mem.seen || id !in Live(s.mem))
    requires next.up && next.mem == next.disk == MarkSeen(s.mem, id)
    requires next.log == s.log + [Marked(id)] && next.hearing.None?
    requires next.queued == s.queued && next.running == s.running && next.sending == s.sending
    ensures Inv(next)
  {
    hide Good, Live, Mark, ClaimIds;
    MemGood(s);
    NotClaimed(s.mem, multiset(s.queued), s.log, id);
    MarkGood(s.mem, multiset(s.queued), s.log, id);
  }

  lemma StepAgain(s: System, id: Id)
    requires Inv(s) && MayHear(s, Again(id))
    ensures Inv(Intake(s, Again(id)))
  {
    hide Inv, MarkSeen, Live;
    Marking(s, id, Intake(s, Again(id)));
  }

  lemma StepIgnore(s: System)
    requires Inv(s) && MayHear(s, Ignore)
    ensures Inv(Intake(s, Ignore))
  {
    hide Good, MarkSeen, Live;
    MemGood(s);
    Marking(s, s.hearing.value, Intake(s, Ignore));
  }

  lemma NotClaimed(st: State, queued: multiset<Id>, log: seq<Entry>, id: Id)
    requires Good(st, queued, log) && (id in st.seen || id !in Live(st))
    ensures id !in multiset(ClaimIds(st.inFlight))
  {
  }

  lemma MarkGood(st: State, queued: multiset<Id>, log: seq<Entry>, id: Id)
    requires Good(st, queued, log) && id !in multiset(ClaimIds(st.inFlight))
    ensures Good(MarkSeen(st, id), queued, log + [Marked(id)])
  {
    hide Good;
    MarkKeeps(st, queued, log, id);
  }

  lemma StepAnswer(s: System, to: Id, key: Id, text: string)
    requires Inv(s) && MayHear(s, Answer(to, key, text))
    ensures Inv(Intake(s, Answer(to, key, text)))
  {
    hide Good, Live, Split, FreshIds, ClaimIds;
    MemGood(s);
    var id := s.hearing.value;
    var p := NewPending(s.hearing, to, key, text, s.unused).(transient := true);
    AnswerKeeps(s.mem, multiset(s.queued), s.log, p);
    assert s.log + [Took(id)] + [Replied(id)] == s.log + [Took(id), Replied(id)];
  }

  lemma StepAnswerSeen(s: System, to: Id, key: Id, text: string)
    requires Inv(s) && MayHear(s, AnswerSeen(to, key, text))
    ensures Inv(Intake(s, AnswerSeen(to, key, text)))
  {
    hide Good, Live, Split, FreshIds, Mark, ClaimIds;
    MemGood(s);
    var id, q := s.hearing.value, multiset(s.queued);
    var p := NewPending(s.hearing, to, key, text, s.unused).(transient := true);
    AnswerKeeps(s.mem, q, s.log, p);
    MarkGood(s.mem.(pending := s.mem.pending + [p]), q, s.log + [Took(id)] + [Replied(id)], id);
    assert s.log + [Took(id)] + [Replied(id)] + [Marked(id)] == s.log + [Took(id), Replied(id), Marked(id)];
  }

  /** What is queued is claimed. */
  lemma NotQueued(s: System, id: Id)
    requires InStep(s) && id !in Live(s.disk)
    ensures id !in multiset(s.queued)
  {
    hide ClaimIds, PendingIds;
  }

  /** A step that claims a message nobody holds. */
  lemma Claiming(s: System, c: Claim, next: System)
    requires Inv(s) && s.up && c.id !in Live(s.mem) && c.id !in s.mem.seen
    requires next.up && next.mem == next.disk == s.mem.(inFlight := s.mem.inFlight + [c])
    requires next.log == s.log + [Took(c.id)] && next.hearing.None?
    requires next.queued == s.queued + [c.id] && next.running == s.running && next.sending == s.sending
    ensures Inv(next)
  {
    hide Good, Live, ClaimIds;
    MemGood(s);
    NotQueued(s, c.id);
    ClaimKeeps(s.mem, multiset(s.queued), s.log, c);
    ClaimPush(s.mem.inFlight, c);
    assert multiset(s.queued + [c.id]) == multiset(s.queued) + multiset{c.id};
  }

  lemma StepTakeOn(s: System, to: Id, key: Id)
    requires Inv(s) && MayHear(s, TakeOn(to, key))
    ensures Inv(Intake(s, TakeOn(to, key)))
  {
    hide Good, Live;
    MemGood(s);
    Claiming(s, Claim(s.hearing.value, to, key, None), Intake(s, TakeOn(to, key)));
  }

  lemma StepReturn(s: System, id: Id, to: Id, key: Id)
    requires Inv(s) && MayHear(s, Return(id, to, key))
    ensures Inv(Intake(s, Return(id, to, key)))
  {
    hide Inv, Live, Known;
    KnownIs(s.mem, id);
    Claiming(s, Claim(id, to, key, None), Intake(s, Return(id, to, key)));
  }

  lemma StepHear(s: System, id: Id)
    requires Inv(s) && MayHear(s, Hear(id))
    ensures Inv(Intake(s, Hear(id)))
  {
    hide Good, Live, Known;
    KnownIs(s.mem, id);
    MemGood(s);
  }

  /** A step that changes nothing the invariant reads. */
  lemma Unread(s: System, next: System)
    requires Inv(s) && s.up && next.up && Agree(next)
    requires next.disk.seen == s.disk.seen && next.disk.pending == s.disk.pending
    requires ClaimIds(next.disk.inFlight) == ClaimIds(s.disk.inFlight)
    requires next.log == s.log && next.hearing == s.hearing && next.queued == s.queued && next.running == s.running
    requires Tracks(next)
    ensures Inv(next)
  {
    hide Good, Live, ClaimIds;
    OtherFields(s.disk, next.disk, multiset(s.queued), s.log);
  }

  lemma StepReacted(s: System, id: Id, token: Id, ok: bool)
    requires Inv(s) && MayWork(s, Reacted(id, token, ok))
    ensures Inv(Work(s, Reacted(id, token, ok)))
  {
    hide Good, Live, WithoutOne;
    var i := IndexOf(s.mem.inFlight, id);
    MemGood(s);
    var next := Work(s, Reacted(id, token, ok));
    if i < |s.mem.inFlight| {
      BareSet(s.mem.inFlight, i, Some(token));
      BareSet(s.mem.inFlight, i, None);
    }
    hide Bare, ClaimIds, IndexOf;
    assert Bare(next.mem.inFlight) == Bare(s.mem.inFlight);
    assert Bare(next.disk.inFlight) == Bare(s.disk.inFlight);
    BareIds(next.disk.inFlight, s.disk.inFlight);
    hide Inv;
    Unread(s, next);
  }

  lemma StepNotReacted(s: System, id: Id)
    requires Inv(s) && MayWork(s, NotReacted(id))
    ensures Inv(Work(s, NotReacted(id)))
  {
    hide Kept, Ended, Stored, NewPending, Good, Live, ClaimIds, WithoutOne, Bare;
    Unread(s, Work(s, NotReacted(id)));
  }

  lemma StepStartTurn(s: System, id: Id)
    requires Inv(s) && MayWork(s, StartTurn(id))
    ensures Inv(Work(s, StartTurn(id)))
  {
    hide Kept, Ended, Stored, NewPending, Good, Live, ClaimIds, WithoutOne, Save;
    WithoutOneIs(s.queued, id);
    assert id in multiset(s.queued) && id in multiset(ClaimIds(s.disk.inFlight));
    RunKeeps(s.disk, multiset(s.queued), s.log, id);
    Moved(multiset(s.queued), s.running, multiset(ClaimIds(s.disk.inFlight)), id);
  }

  lemma Moved(queued: multiset<Id>, running: seq<Id>, claims: multiset<Id>, id: Id)
    requires queued + multiset(running) <= claims && id in queued
    ensures queued - multiset{id} + multiset(running + [id]) <= claims
  {
    assert multiset(running + [id]) == multiset(running) + multiset{id};
    assert queued - multiset{id} + multiset(running + [id]) == queued + multiset(running);
  }

  lemma StepEndTurn(s: System, id: Id, text: string, files: nat, now: nat)
    requires Inv(s) && MayWork(s, EndTurn(id, text, files, now))
    ensures Inv(Work(s, EndTurn(id, text, files, now)))
  {
    hide Good, Live, ClaimIds, Compose, IndexOf, Waiting, PrunedAway, RecoverDrops, RefusalDrops, WithoutOne;
    TurnHasClaim(s, id);
    MemGood(s);
    var i := IndexOf(s.mem.inFlight, id);
    EndClaimKeeps(s.mem, multiset(s.queued), s.log, i, text, files, now, s.unused);
    ClaimRemove(s.mem.inFlight, i);
    WithoutOneIs(s.running, id);
    Fewer(multiset(s.queued), multiset(s.running), multiset(ClaimIds(s.mem.inFlight)), id);
  }

  lemma Fewer(queued: multiset<Id>, running: multiset<Id>, claims: multiset<Id>, id: Id)
    requires queued + running <= claims && id in running
    ensures queued + (running - multiset{id}) <= claims - multiset{id}
  {
    assert forall x :: (queued + running)[x] <= claims[x];
  }

  lemma ComposedFor(held: seq<HeldReply>, claim: Claim, own: string, now: nat, from: nat)
    ensures Compose(held, claim, own, now, from).0.id == Some(claim.id)
  {
    hide Take, Prune, Composed, Split, RoomBeside;
  }

  lemma EndClaimKeeps(
    st: State, queued: multiset<Id>, log: seq<Entry>, i: nat, own: string, files: nat, now: nat, from: nat)
    requires Good(st, queued, log) && i < |st.inFlight|
    ensures var next := EndClaim(st, i, own, files, now, from);
            && Good(next, queued, log + [Replied(st.inFlight[i].id)]) && Live(next) == Live(st)
            && next.seen == st.seen && (st.pending != [] ==> next.pending[0] == st.pending[0])
  {
    hide Good, Live, ClaimIds, Compose;
    var (p, left) := Compose(st.held, st.inFlight[i], own, now, from);
    ComposedFor(st.held, st.inFlight[i], own, now, from);
    EndKeeps(st, queued, log, i, p.(files := files));
    var ended := st.(inFlight := st.inFlight[..i] + st.inFlight[i + 1..], pending := st.pending + [p.(files := files)]);
    OtherFields(ended, ended.(held := left), queued, log + [Replied(st.inFlight[i].id)]);
  }

  /** A step that queues a reply to nobody in particular. */
  lemma Noticing(s: System, p: Pending, next: System)
    requires Inv(s) && s.up && p.id.None?
    requires next.up && next.mem == next.disk
    requires next.disk.inFlight == s.mem.inFlight && next.disk.seen == s.mem.seen
    requires next.disk.pending == s.mem.pending + [p]
    requires next.log == s.log && next.hearing == s.hearing
    requires next.queued == s.queued && next.running == s.running && next.sending == s.sending
    ensures Inv(next)
  {
    hide Good, Live, ClaimIds;
    MemGood(s);
    NoticeKeeps(s.mem, multiset(s.queued), s.log, p);
    OtherFields(s.mem.(pending := s.mem.pending + [p]), next.disk, multiset(s.queued), s.log);
  }

  lemma StepQueue(s: System, to: Id, key: Id, text: string, files: nat, question: Option<Id>)
    requires Inv(s) && MayWork(s, Queue(to, key, text, files, question))
    ensures Inv(Work(s, Queue(to, key, text, files, question)))
  {
    hide Kept, Ended, Stored, Inv, Split, FreshIds;
    var next := Work(s, Queue(to, key, text, files, question));
    Noticing(s, next.mem.pending[|s.mem.pending|], next);
  }

  lemma StepMailNotice(s: System, noticeKey: Id, to: Id, text: string, now: nat)
    requires Inv(s) && MayWork(s, MailNotice(noticeKey, to, text, now))
    ensures Inv(Work(s, MailNotice(noticeKey, to, text, now)))
  {
    hide Kept, Ended, Good, Live, Split, FreshIds, PruneKeys, KnownKey, ClaimIds;
    MemGood(s);
    var next := Work(s, MailNotice(noticeKey, to, text, now));
    if !KnownKey(s.mem, noticeKey) {
      Noticing(s, next.mem.pending[|s.mem.pending|], next);
    }
  }

  lemma StepRecordJobs(s: System, jobs: seq<Job>)
    requires Inv(s) && MayWork(s, RecordJobs(jobs))
    ensures Inv(Work(s, RecordJobs(jobs)))
  {
    hide Kept, Ended, Stored, NewPending, Good, Live, ClaimIds;
    MemGood(s);
    Unread(s, Work(s, RecordJobs(jobs)));
  }

  lemma StepPolled(s: System, cursor: Option<Id>)
    requires Inv(s) && MayHear(s, Polled(cursor))
    ensures Inv(Intake(s, Polled(cursor)))
  {
    hide Good, Live, ClaimIds;
    MemGood(s);
    Unread(s, Intake(s, Polled(cursor)));
  }

  lemma StepTryRemoval(s: System)
    requires Inv(s) && s.up && s.mem.removing != []
    ensures Inv(s.(removing := Some(s.mem.removing[0])))
  {
    hide Good, ClaimIds;
    Unread(s, s.(removing := Some(s.mem.removing[0])));
  }

  lemma StepRemoved(s: System, ok: bool)
    requires Inv(s) && s.up && s.mem.removing != [] && s.removing.Some?
    ensures Inv(Untied(s, ok))
  {
    hide Good, ClaimIds, Live, Bare;
    MemGood(s);
    Unread(s, Untied(s, ok));
  }

  lemma StepCrash(s: System)
    requires Inv(s) && s.up
    ensures Inv(Down(s))
  {
    hide Good, Live, ClaimIds;
    QueueShrinks(s.disk, multiset(s.queued), multiset{}, s.log);
    assert multiset(Down(s).queued) == multiset{};
  }

  // ----- delivery

  lemma StepDropQuestion(s: System)
    requires Inv(s) && MayDeliver(s, DropQuestion) && s.mem.pending[0].id.None?
    ensures Inv(Deliver(s, DropQuestion))
  {
    hide Good, Live, ClaimIds;
    MemGood(s);
    PopNoticeKeeps(s.mem, multiset(s.queued), s.log);
  }

  lemma StepPick(s: System)
    requires Inv(s) && MayDeliver(s, Pick)
    ensures Inv(Deliver(s, Pick))
  {
    hide Good, ClaimIds;
    MemGood(s);
    Unread(s, Deliver(s, Pick));
  }

  /** Sending records nothing. */
  lemma StepSent(s: System, arrived: bool, next: Option<Sending>)
    requires Inv(s) && CanSend(s) && (next.Some? ==> next.value.entry == s.sending.value.entry)
    ensures Inv(Sent(s, arrived, next))
  {
    hide Good, ClaimIds, Receive, NextPart, Chunks;
    Unread(s, Sent(s, arrived, next));
  }

  lemma StepFileUnsure(s: System)
    requires Inv(s) && MayDeliver(s, FileUnsure)
    ensures Inv(Deliver(s, FileUnsure))
  {
    hide Good, ClaimIds, Chunks;
    Unread(s, Deliver(s, FileUnsure));
  }

  /** Recording progress of the oldest reply changes no ID. */
  lemma FirstKeeps(st: State, queued: multiset<Id>, log: seq<Entry>, p: Pending)
    requires Good(st, queued, log) && st.pending != [] && p.id == st.pending[0].id
    ensures Good(WithFirst(st, p), queued, log) && Live(WithFirst(st, p)) == Live(st)
  {
    assert st.pending[0 := p][1..] == st.pending[1..];
    assert PendingIds(WithFirst(st, p).pending) == PendingIds(st.pending);
    hide Sane, ClaimIds, PendingIds;
  }

  /** A step that records progress of the oldest reply. */
  lemma Recording(s: System, p: Pending, next: System)
    requires Inv(s) && s.up && s.sending.Some? && p.id == s.sending.value.entry.id
    requires s.mem.pending != [] && next.mem == next.disk == WithFirst(s.mem, p)
    requires next.up && next.log == s.log && next.hearing == s.hearing
    requires next.queued == s.queued && next.running == s.running
    requires next.sending.Some? && next.sending.value.entry == p
    ensures Inv(next)
  {
    hide Good, Live, ClaimIds;
    MemGood(s);
    FirstKeeps(s.mem, multiset(s.queued), s.log, p);
  }

  /** The delivery loop's entry is the oldest reply in memory too. */
  lemma TracksMem(s: System)
    requires Inv(s) && s.up && s.sending.Some?
    ensures s.mem.pending != [] && s.mem.pending[0] == s.sending.value.entry
  {
    hide Good, ClaimIds, Bare, Live;
  }

  lemma StepAdvance(s: System)
    requires Inv(s) && MayDeliver(s, Advance)
    ensures Inv(Deliver(s, Advance))
  {
    hide Inv, Done, Sent, Chunks;
    TracksMem(s);
    var p := s.sending.value.entry;
    Recording(s, p.(next := p.next + 1), Deliver(s, Advance));
  }

  lemma StepFileDone(s: System)
    requires Inv(s) && MayDeliver(s, FileDone)
    ensures Inv(Deliver(s, FileDone))
  {
    hide Inv, Done, Sent, Chunks;
    TracksMem(s);
    var p := s.sending.value.entry;
    Recording(s, p.(nextFile := p.nextFile + 1), Deliver(s, FileDone));
  }

  /** A step that takes out the oldest reply and marks its message. */
  lemma Finishing(s: System, next: System)
    requires Inv(s) && s.up && s.mem.pending != [] && next.up && next.mem == next.disk
    requires next.disk.inFlight == s.mem.inFlight && next.disk.pending == s.mem.pending[1..]
    requires var p := s.mem.pending[0];
             if p.id.Some? then next.disk.seen == Mark(s.mem.seen, p.id.value, WINDOW) && next.log == s.log + [Marked(p.id.value)]
             else next.disk.seen == s.mem.seen && next.log == s.log
    requires next.hearing == s.hearing && next.queued == s.queued && next.running == s.running && next.sending.None?
    ensures Inv(next)
  {
    hide Good, Live, ClaimIds, Mark;
    MemGood(s);
    var q, popped := multiset(s.queued), s.mem.(pending := s.mem.pending[1..]);
    if s.mem.pending[0].id.Some? {
      var id := s.mem.pending[0].id.value;
      PopKeeps(s.mem, q, s.log);
      PopLive(s.mem);
      MarkMembers(s.mem.seen, id);
      LiveSame(popped, MarkSeen(popped, id));
      OtherFields(MarkSeen(popped, id), next.disk, q, s.log + [Marked(id)]);
    } else {
      PopNoticeKeeps(s.mem, q, s.log);
      OtherFields(popped, next.disk, q, s.log);
    }
  }

  lemma StepFinish(s: System, now: nat)
    requires Inv(s) && MayDeliver(s, Finish(now))
    ensures Inv(Deliver(s, Finish(now)))
  {
    hide Inv, Chunks, HoldRefused, AsHeld, Waiting, PrunedAway, RecoverDrops, RefusalDrops, Mark;
    assert s.log + [] == s.log;
    Finishing(s, Deliver(s, Finish(now)));
  }

  // ----- recovery

  lemma {:induction false} RecoverClaimsKeeps(st: State, log: seq<Entry>, reply: string, now: nat, from: nat)
    requires Good(st, multiset{}, log)
    ensures var r := RecoverClaims(st, reply, now, from).state;
            Good(r, multiset{}, log + Failures(st.inFlight)) && r.inFlight == []
    decreases |st.inFlight|
  {
    hide Good, Compose;
    if st.inFlight == [] {
      assert log + [] == log;
    } else {
      EndClaimKeeps(st, multiset{}, log, 0, reply, 0, now, from);
      var next := EndClaim(st, 0, reply, 0, now, from);
      var e := Replied(st.inFlight[0].id);
      assert next.inFlight == st.inFlight[1..];
      RecoverClaimsKeeps(next, log + [e], reply, now, from + |next.pending[|st.pending|].clients|);
      assert log + [e] + Failures(st.inFlight[1..]) == log + ([e] + Failures(st.inFlight[1..]));
    }
  }

  lemma {:induction false} TellJobsKeeps(st: State, log: seq<Entry>, jobs: seq<Job>, notices: Notices, from: nat)
    requires Good(st, multiset{}, log)
    ensures Good(TellJobs(st, jobs, notices, from).state, multiset{}, log)
    decreases |jobs|
  {
    hide Good, Split, FreshIds;
    if jobs != [] {
      var p := Telling(jobs[0], notices, from);
      NoticeKeeps(st, multiset{}, log, p);
      TellJobsKeeps(st.(pending := st.pending + [p]), log, jobs[1..], notices, from + |p.clients|);
    }
  }

  lemma StepBoot(s: System, mail: bool, failure: string, notices: Notices, now: nat)
    requires Inv(s) && !s.up
    ensures Inv(Started(s, mail, failure, notices, now))
  {
    hide Good, RecoverClaims, TellJobs, StoppedJobs, Waiting, PrunedAway, RecoverDrops, RefusalDrops, ClaimIds, Live;
    var st, log := s.disk.(mail := mail), s.log + Failures(s.disk.inFlight);
    assert multiset(s.queued) == multiset{};
    OtherFields(s.disk, st, multiset{}, s.log);
    RecoverClaimsKeeps(st, s.log, failure, now, s.unused);
    var claims := RecoverClaims(st, failure, now, s.unused);
    OtherFields(claims.state, claims.state.(jobs := []), multiset{}, log);
    TellJobsKeeps(claims.state.(jobs := []), log, StoppedJobs(st.jobs, {}), notices, claims.unused);
  }

  // ----- main results

  lemma StepDelivers(s: System, e: Event)
    requires Inv(s) && OfDelivery(e) && MayDeliver(s, e)
    requires e.DropQuestion? ==> s.mem.pending[0].id.None?
    ensures Inv(Deliver(s, e))
  {
    hide Inv, Chunks, Done;
    match e
    case DropQuestion => StepDropQuestion(s);
    case Pick => StepPick(s);
    case Delivered => StepSent(s, true, Some(s.sending.value.(ahead := true)));
    case Rejected => StepSent(s, false, Some(s.sending.value.(refused := true)));
    case Unsure(arrived) => StepSent(s, arrived, None);
    case Advance => StepAdvance(s);
    case FileDone => StepFileDone(s);
    case FileUnsure => StepFileUnsure(s);
    case Finish(now) => StepFinish(s, now);
  }

  lemma StepHears(s: System, e: Event)
    requires Inv(s) && OfIntake(e) && MayHear(s, e)
    ensures Inv(Intake(s, e))
  {
    hide Inv, Intake, Known;
    match e
    case Hear(id) => StepHear(s, id);
    case Again(id) => StepAgain(s, id);
    case Ignore => StepIgnore(s);
    case Answer(to, key, text) => StepAnswer(s, to, key, text);
    case AnswerSeen(to, key, text) => StepAnswerSeen(s, to, key, text);
    case TakeOn(to, key) => StepTakeOn(s, to, key);
    case Return(id, to, key) => StepReturn(s, id, to, key);
    case Polled(cursor) => StepPolled(s, cursor);
  }

  lemma StepWorks(s: System, e: Event)
    requires Inv(s) && OfWork(e) && MayWork(s, e)
    ensures Inv(Work(s, e))
  {
    hide Inv, Work;
    match e
    case Reacted(id, token, ok) => StepReacted(s, id, token, ok);
    case NotReacted(id) => StepNotReacted(s, id);
    case StartTurn(id) => StepStartTurn(s, id);
    case EndTurn(id, text, files, now) => StepEndTurn(s, id, text, files, now);
    case Queue(to, key, text, files, question) => StepQueue(s, to, key, text, files, question);
    case MailNotice(noticeKey, to, text, now) => StepMailNotice(s, noticeKey, to, text, now);
    case RecordJobs(jobs) => StepRecordJobs(s, jobs);
  }

  /** Every step keeps the invariant. */
  lemma StepKeeps(s: System, e: Event)
    requires Inv(s) && Enabled(s, e)
    requires e.DropQuestion? ==> s.mem.pending[0].id.None?
    ensures Inv(Next(s, e))
  {
    hide Inv, MayDeliver, MayHear, MayWork, Deliver, Intake, Work, Started, Down, Untied, Ordinary;
    if OfDelivery(e) {
      StepDelivers(s, e);
    } else if OfIntake(e) {
      StepHears(s, e);
    } else if OfWork(e) {
      StepWorks(s, e);
    } else {
      match e
      case Boot(mail, _, failure, notices, now) => StepBoot(s, mail, failure, notices, now);
      case Crash => StepCrash(s);
      case TryRemoval => StepTryRemoval(s);
      case Removed(ok) => StepRemoved(s, ok);
    }
  }

  // ----- what the invariant means

  /** A claimed message is in exactly one of the claims and the pending replies, and not yet seen. */
  lemma InOnePlace(s: System, id: Id)
    requires Inv(s) && id in ClaimIds(s.disk.inFlight)
    ensures id !in PendingIds(s.disk.pending) && id !in s.disk.seen
  {
    hide PendingIds, ClaimIds, AllCounted, OwedHeld, EntriesRight;
    var claims, pending := ClaimIds(s.disk.inFlight), PendingIds(s.disk.pending);
    assert id in multiset(claims);
    assert Live(s.disk)[id] <= 1;
    assert id in pending ==> id in multiset(pending);
  }

  /** What was taken on is claimed, pending, or marked since. */
  lemma NeverLost(s: System, i: nat)
    requires Inv(s) && i < |s.log| && s.log[i].Took?
    ensures s.log[i].id in Live(s.disk) || exists m :: i < m < |s.log| && s.log[m] == Marked(s.log[i].id)
  {
    hide Live, MarkAll, Marks, Apart, AllCounted, EntriesRight;
    if !Owed(s.log, s.log[i].id) {
      assert s.log[..i + 1][..i] == s.log[..i];
      assert Owed(s.log[..i + 1], s.log[i].id);
      hide Owed;
      var m := LastMark(s.log, i + 1, s.log[i].id);
    }
  }

  ghost predicate MarkedAt(log: seq<Entry>, m: nat, id: Id) {
    m < |log| && id !in Marks(log[m + 1..]) && Marks(log) == Marks(log[..m]) + [id] + Marks(log[m + 1..])
  }

  /** The last mark of a message that was owed before, and the marks since. */
  lemma {:induction false} LastMark(log: seq<Entry>, i: nat, id: Id) returns (m: nat)
    requires i <= |log| && Owed(log[..i], id) && !Owed(log, id)
    ensures i <= m < |log| && log[m] == Marked(id) && MarkedAt(log, m, id)
    decreases |log|
  {
    WholeLog(log);
    var last := |log| - 1;
    hide Marks;
    if log[last] == Marked(id) {
      m := last;
      LastEntry(log);
      NothingYet();
      assert log[m + 1..] == [] && Marks(log) == Marks(log[..m]) + [id] + [];
    } else {
      assert log[..last][..i] == log[..i];
      m := LastMark(log[..last], i, id);
      SinceGrows(log, m, id);
    }
  }

  lemma WholeLog(log: seq<Entry>)
    ensures log[..|log|] == log
  {
  }

  lemma SinceGrows(log: seq<Entry>, m: nat, id: Id)
    requires log != [] && MarkedAt(log[..|log| - 1], m, id) && log[|log| - 1] != Marked(id)
    ensures MarkedAt(log, m, id)
  {
    hide Marks;
    var last, since := |log| - 1, log[m + 1..];
    LastEntry(log);
    LastEntry(since);
    assert log[..last][..m] == log[..m];
    assert since[..|since| - 1] == log[..last][m + 1..] && since[|since| - 1] == log[last];
  }

  lemma LastEntry(log: seq<Entry>)
    requires log != []
    ensures var last := log[|log| - 1];
            Marks(log) == Marks(log[..|log| - 1]) + if last.Marked? then [last.id] else []
  {
  }

  /** A message that was owed is taken on again only after it was marked and at least the window's number
      of others was marked since. */
  lemma TakenAgain(s: System, i: nat, k: nat, id: Id) returns (m: nat)
    requires Inv(s) && i <= k < |s.log| && Owed(s.log[..i], id) && s.log[k] == Took(id)
    ensures i <= m < k && s.log[m] == Marked(id)
    ensures id !in Marks(s.log[m + 1..k]) && |Set(Marks(s.log[m + 1..k]))| >= WINDOW
  {
    hide Live, MarkAll, Apart, AllCounted, OwedHeld, Owed, Marks;
    var before := s.log[..k];
    assert EntryRight(before, s.log[k]);
    assert before[..i] == s.log[..i];
    m := LastMark(before, i, id);
    assert before[m + 1..] == s.log[m + 1..k];
    RememberedWhile(Marks(before[..m]), id, Marks(before[m + 1..]), WINDOW);
  }

  /** Whatever was logged before and not since the last time its message was taken on. */
  lemma {:induction false} TookSince(log: seq<Entry>, i: nat, id: Id, what: Entry) returns (k: nat)
    requires i < |log| && log[i] == what && what != Took(id) && Since(log, id, what) == 0
    ensures i < k < |log| && log[k] == Took(id)
    decreases |log|
  {
    var last := |log| - 1;
    if log[last] == Took(id) {
      k := last;
    } else {
      assert log[..last][i] == what;
      k := TookSince(log[..last], i, id, what);
    }
  }

  predicate Happens(e: Entry) {
    e.Took? || e.Ran? || e.Replied?
  }

  /** Between two times a message is taken on, two turns of it, or two replies to it, it was marked seen and
      at least the window's number of other messages was marked before it was taken on again. */
  lemma OncePerWindow(s: System, i: nat, j: nat) returns (m: nat, k: nat)
    requires Inv(s) && i < j < |s.log| && s.log[j] == s.log[i] && Happens(s.log[i])
    ensures i < m < k <= j && s.log[m] == Marked(s.log[i].id) && s.log[k] == Took(s.log[i].id)
    ensures s.log[i].id !in Marks(s.log[m + 1..k]) && |Set(Marks(s.log[m + 1..k]))| >= WINDOW
  {
    var id := s.log[i].id;
    hide Inv, Owed, Marks, Since, EntryRight;
    EntriesOf(s);
    OwedAfter(s.log, i);
    if s.log[i].Took? {
      k := j;
    } else {
      NotSince(s.log, j);
      assert s.log[..j][i] == s.log[i];
      k := TookSince(s.log[..j], i, id, s.log[i]);
    }
    m := TakenAgain(s, i + 1, k, id);
  }

  lemma EntriesOf(s: System)
    requires Inv(s)
    ensures EntriesRight(s.log)
  {
    hide Apart, AllCounted, OwedHeld, EntriesRight;
  }

  /** A message is owed from the time it was taken on, runs or is answered. */
  lemma OwedAfter(log: seq<Entry>, i: nat)
    requires EntriesRight(log) && i < |log| && Happens(log[i])
    ensures Owed(log[..i + 1], log[i].id)
  {
    assert EntryRight(log[..i], log[i]);
    assert log[..i + 1][..i] == log[..i];
    hide Since, Free;
  }

  lemma NotSince(log: seq<Entry>, j: nat)
    requires EntriesRight(log) && j < |log| && (log[j].Ran? || log[j].Replied?)
    ensures Since(log[..j], log[j].id, log[j]) == 0
  {
    assert EntryRight(log[..j], log[j]);
    hide Since, Free, Owed;
  }

  /** Each time a message was taken on it was answered, or it is still claimed. */
  lemma EachAnswered(s: System, id: Id)
    requires Inv(s)
    ensures multiset(s.log)[Replied(id)] + Claims(s.disk)[id] == multiset(s.log)[Took(id)]
    ensures multiset(s.log)[Ran(id)] <= multiset(s.log)[Took(id)]
  {
    hide Live, Marks, OwedHeld, EntriesRight, Since, ClaimIds;
    assert Counted(Claims(s.disk)[id], multiset(s.queued)[id], s.log, id);
  }

  /** A message that was answered when it was taken on has its reply pending, or was marked since. */
  lemma AnswerKept(s: System, a: nat)
    requires Inv(s) && a + 1 < |s.log| && s.log[a].Took? && s.log[a + 1] == Replied(s.log[a].id)
    ensures || s.log[a].id in PendingIds(s.disk.pending)
            || exists m :: a < m < |s.log| && s.log[m] == Marked(s.log[a].id)
  {
    var id := s.log[a].id;
    hide PendingIds, ClaimIds, Marks, MarkAll;
    assert Counted(Claims(s.disk)[id], multiset(s.queued)[id], s.log, id);
    EntriesOf(s);
    OwedAfter(s.log, a + 1);
    hide Owed, Since, EntriesRight, Counted;
    if !Owed(s.log, id) {
      var m := LastMark(s.log, a + 2, id);
    } else if Since(s.log, id, Replied(id)) == 0 {
      var k := TookSince(s.log, a + 1, id, Replied(id));
      var m := TakenAgain(s, a + 2, k, id);
    } else {
      assert Claims(s.disk)[id] == 0 by { AnsweredOnce(Claims(s.disk)[id], multiset(s.queued)[id], s.log, id); }
      assert id in Live(s.disk);
      assert id in multiset(PendingIds(s.disk.pending));
    }
  }

  lemma AnsweredOnce(claims: nat, queued: nat, log: seq<Entry>, id: Id)
    requires Counted(claims, queued, log, id) && Since(log, id, Replied(id)) > 0
    ensures claims == 0
  {
    hide Since;
  }

  /** An account with a history holds a message or remembers one. */
  lemma LoggedIsOrdinary(s: System)
    requires Inv(s) && s.log != []
    ensures Ordinary(s.disk)
  {
    hide Apart, AllCounted, ClaimIds, PendingIds, MarkAll;
    var id := s.log[0].id;
    assert EntryRight(s.log[..0], s.log[0]);
    assert s.log[..0] == [];
    NothingYet();
    if Owed(s.log, id) {
      hide Owed, Marks;
      assert id in Live(s.disk);
    } else {
      FirstMarked(s.log);
      MarkedSeen(Marks(s.log));
      hide Owed, Marks;
    }
  }

  /** A log that starts with an entry of a message that is no longer owed has marks. */
  lemma FirstMarked(log: seq<Entry>)
    requires log != [] && (log[0].Took? || log[0].Marked?) && !Owed(log, log[0].id)
    ensures Marks(log) != []
  {
    var id := log[0].id;
    if log[0].Took? {
      assert log[..1][..0] == [];
      assert Owed(log[..1], id);
      var m := LastMark(log, 1, id);
    } else {
      MarksStart(log);
    }
  }

  lemma {:induction false} MarksStart(log: seq<Entry>)
    requires log != [] && log[0].Marked?
    ensures Marks(log) != []
    decreases |log|
  {
    if |log| > 1 {
      MarksStart(log[..|log| - 1]);
    }
  }

  lemma MarkedSeen(marks: seq<Id>)
    requires marks != []
    ensures MarkAll(marks, WINDOW) != []
  {
  }
}

/** The delivery state of one chat as the running bridge changes it in place under its lock
    (crates/scv-channels/src/lib.rs). Each method is tied to the step of the state it makes. */
module ChatState {
  import opened Wrappers
  import opened Ids
  import opened Text
  import opened Seen
  import opened Held
  import opened Delivery

  lemma {:induction false} FlaggedPush(held: seq<HeldReply>, keep: seq<bool>, i: nat)
    requires i < |held| && |keep| == |held|
    ensures Flagged(held[..i + 1], keep[..i + 1])
         == Flagged(held[..i], keep[..i]) + if keep[i] then [held[i]] else []
    decreases i
  {
    if i == 0 {
      assert held[..1][1..] == [] && keep[..1][1..] == [];
    } else {
      FlaggedPush(held[1..], keep[1..], i - 1);
      assert held[..i + 1][1..] == held[1..][..i] && keep[..i + 1][1..] == keep[1..][..i];
      assert held[..i][1..] == held[1..][..i - 1] && keep[..i][1..] == keep[1..][..i - 1];
    }
  }

  lemma {:induction false} OnlyFreshPush(held: seq<HeldReply>, now: nat, i: nat)
    requires i < |held|
    ensures OnlyFresh(held[..i + 1], now) == OnlyFresh(held[..i], now) + if Fresh(held[i], now) then [held[i]] else []
    decreases i
  {
    if i == 0 {
      assert held[..1][1..] == [];
    } else {
      OnlyFreshPush(held[1..], now, i - 1);
      assert held[..i + 1][1..] == held[1..][..i];
      assert held[..i][1..] == held[1..][..i - 1];
    }
  }

  method RetainFresh(held: seq<HeldReply>, now: nat) returns (kept: seq<HeldReply>)
    ensures kept == OnlyFresh(held, now)
  {
    kept := [];
    for i := 0 to |held|
      invariant kept == OnlyFresh(held[..i], now)
    {
      OnlyFreshPush(held, now, i);
      if (if now < held[i].heldAt then 0 else now - held[i].heldAt) < MAX_AGE {
        kept := kept + [held[i]];
      }
    }
    assert held[..|held|] == held;
  }

  method RetainFlagged(held: seq<HeldReply>, keep: array<bool>) returns (kept: seq<HeldReply>)
    requires keep.Length == |held|
    ensures kept == Flagged(held, keep[..])
  {
    kept := [];
    ghost var flags := keep[..];
    for i := 0 to |held|
      invariant keep[..] == flags && kept == Flagged(held[..i], flags[..i])
    {
      FlaggedPush(held, flags, i);
      if keep[i] {
        kept := kept + [held[i]];
      }
    }
    assert held[..|held|] == held && flags[..|held|] == flags;
  }

  /** What a conversation keeps so far: how many replies and how many bytes. */
  datatype Use = Use(count: nat, bytes: nat)

  function UseOf(usage: map<Id, Use>, key: Id): Use {
    if key in usage then usage[key] else Use(0, 0)
  }

  ghost predicate Counts(usage: map<Id, Use>, kept: seq<HeldReply>) {
    forall key :: UseOf(usage, key) == Use(Count(kept, key), Size(kept, key))
  }

  /** Which replies to keep, newest first. */
  method ChooseKept(held: seq<HeldReply>) returns (keep: array<bool>)
    ensures keep.Length == |held| && Flagged(held, keep[..]) == Keep(held)
  {
    keep := new bool[|held|](_ => false);
    var usage: map<Id, Use> := map[];
    var total := 0;
    var i := |held|;
    assert held[i..] == [];
    while i > 0
      invariant 0 <= i <= |held| && keep.Length == |held|
      invariant Flagged(held[i..], keep[i..]) == Keep(held[i..])
      invariant total == |Keep(held[i..])| && Counts(usage, Keep(held[i..]))
      invariant forall j :: 0 <= j < i ==> !keep[j]
    {
      i := i - 1;
      ghost var newer := Keep(held[i + 1..]);
      ghost var flags := keep[i + 1..];
      assert held[i..][1..] == held[i + 1..];
      var use := UseOf(usage, held[i].key);
      if total < MAX_TOTAL && use.count < MAX_PER_CONVERSATION
         && use.bytes + Bytes(held[i].reply) <= MAX_BYTES_PER_CONVERSATION {
        keep[i] := true;
        usage := usage[held[i].key := Use(use.count + 1, use.bytes + Bytes(held[i].reply))];
        total := total + 1;
      }
      assert keep[i..][1..] == flags;
    }
    assert held[0..] == held && keep[0..] == keep[..];
  }

  lemma TakeSkips(held: seq<HeldReply>, index: nat, key: Id, room: int)
    requires index < |held| && held[index].key != key
    ensures var t, u := Take(held[index..], key, room), Take(held[index + 1..], key, room);
            t.carried == u.carried && held[..index] + t.left == held[..index + 1] + u.left
  {
    assert held[index..][1..] == held[index + 1..];
    hide Take;
    var u := Take(held[index + 1..], key, room);
    assert held[..index] + [held[index]] == held[..index + 1];
    assert held[..index] + ([held[index]] + u.left) == held[..index] + [held[index]] + u.left;
  }

  lemma TakeTakes(held: seq<HeldReply>, index: nat, key: Id, room: int)
    requires index < |held| && held[index].key == key && QuoteBytes(held[index]) <= room
    ensures var rest := held[..index] + held[index + 1..];
            var t, u := Take(held[index..], key, room), Take(rest[index..], key, room - QuoteBytes(held[index]));
            t.carried == [held[index]] + u.carried && t.left == u.left && rest[..index] == held[..index]
  {
    hide QuoteBytes;
    var rest := held[..index] + held[index + 1..];
    assert held[index..][1..] == held[index + 1..] == rest[index..];
  }

  lemma TakeStops(held: seq<HeldReply>, index: nat, key: Id, room: int)
    requires index < |held| ==> held[index].key == key && QuoteBytes(held[index]) > room
    requires index <= |held|
    ensures Take(held[index..], key, room) == Taken([], held[index..]) && held[..index] + held[index..] == held
  {
    hide QuoteBytes;
  }

  lemma {:induction false} QuotesPush(carried: seq<HeldReply>, x: HeldReply)
    ensures Quotes(carried + [x]) == Quotes(carried) + Quote(x)
    decreases |carried|
  {
    hide Quote;
    if carried == [] {
      assert ([] + [x])[1..] == [];
    } else {
      QuotesPush(carried[1..], x);
      assert (carried + [x])[1..] == carried[1..] + [x];
    }
  }

  /** What a bridge keeps for one chat; client IDs are numbered as they are made. */
  class Chat {
    var seen: seq<Id>
    var pending: seq<Pending>
    var inFlight: seq<Claim>
    var held: seq<HeldReply>
    var jobs: seq<Job>
    var mail: bool
    var keys: seq<RecentKey>
    var removing: seq<Reaction>
    var cursor: Option<Id>
    var unused: nat

    ghost function Value(): State
      reads this
    {
      State(seen, pending, inFlight, held, jobs, mail, keys, removing, cursor)
    }

    /** Forget and append, which moves `id` to the end. */
    method MarkSeen(id: Id)
      requires NoRepeats(seen)
      modifies this`seen
      ensures seen == Mark(old(seen), id, WINDOW) && NoRepeats(seen)
    {
      var i := 0;
      while i < |seen| && seen[i] != id
        invariant 0 <= i <= |seen| && id !in seen[..i]
      {
        i := i + 1;
      }
      ghost var before := seen;
      RemoveAt(before, id, i);
      MarkNoRepeats(before, id);
      hide Remove, NoRepeats;
      if i < |seen| {
        seen := seen[..i] + seen[i + 1..];
      }
      seen := seen + [id];
      var excess := if |seen| > WINDOW then |seen| - WINDOW else 0;
      seen := seen[excess..];
    }

    method PruneHeld(now: nat)
      modifies this`held
      ensures held == Prune(old(held), now)
    {
      held := RetainFresh(held, now);
      var keep := ChooseKept(held);
      held := RetainFlagged(held, keep);
    }

    /** The conversation's held replies, oldest first, as far as `room` bytes allow, as quoted text. */
    method TakeHeld(key: Id, room: int) returns (body: string, carried: seq<HeldReply>)
      modifies this`held
      ensures Take(old(held), key, room) == Taken(carried, held) && body == Quotes(carried)
    {
      hide Bytes, Take, Quote, QuoteBytes;
      var bodyBytes, index := 0, 0;
      body, carried := [], [];
      assert held[0..] == held;
      EmptyQuotes();
      while index < |held|
        invariant 0 <= index <= |held|
        invariant body == Quotes(carried) && bodyBytes == Bytes(body)
        invariant var t := Take(held[index..], key, room - bodyBytes);
                  Take(old(held), key, room) == Taken(carried + t.carried, held[..index] + t.left)
        decreases |held| - index
      {
        if held[index].key != key {
          TakeSkips(held, index, key, room - bodyBytes);
          index := index + 1;
          continue;
        }
        var bytes := QuoteBytes(held[index]);
        if bodyBytes + bytes > room {
          break;
        }
        TakeTakes(held, index, key, room - bodyBytes);
        QuotesPush(carried, held[index]);
        QuoteIs(held[index]);
        BytesAppend(body, Quote(held[index]));
        ghost var u := Take((held[..index] + held[index + 1..])[index..], key, room - bodyBytes - bytes);
        assert carried + ([held[index]] + u.carried) == carried + [held[index]] + u.carried;
        body := body + Quote(held[index]);
        bodyBytes := bodyBytes + bytes;
        carried := carried + [held[index]];
        held := held[..index] + held[index + 1..];
      }
      TakeStops(held, index, key, room - bodyBytes);
      assert carried + [] == carried;
    }

    /** Held replies of the conversation ride ahead, oldest first, as far as one message allows. */
    method ComposePending(claim: Claim, own: string, now: nat) returns (p: Pending)
      modifies this`held, this`unused
      ensures (p, held) == Compose(old(held), claim, own, now, old(unused))
      ensures unused == old(unused) + |p.clients|
    {
      hide Bytes, Prune, Take, Split, LatestHeader, FreshIds, Quotes;
      PruneHeld(now);
      var body, carried := TakeHeld(claim.key, MAX_REPLY - (Bytes(LatestHeader()) + Bytes(own)));
      var reply := if carried == [] then own else body + (LatestHeader() + own);
      p := NewPending(Some(claim.id), claim.to, claim.key, reply, unused).(reaction := claim.reaction);
      if carried != [] {
        p := p.(own := Some(own), carried := carried);
      }
      unused := unused + |p.clients|;
    }

    /** Keep a refused reply, and put back what it carried. */
    method HoldRefused(p: Pending, now: nat)
      requires p.next <= |Chunks(p)|
      modifies this`held
      ensures held == Delivery.HoldRefused(old(held), p, now)
    {
      if p.transient {
        return;
      }
      hide Chunks, Concat, Sort, Prune;
      var chunks := Chunks(p);
      var reply;
      if p.next == 0 {
        held := held + p.carried;
        reply := if p.own.Some? then p.own.value else p.reply;
      } else {
        reply := Concat(chunks[p.next..]);
      }
      assert p.next != 0 ==> held + [] == held;
      held := Sort(held + [HeldReply(p.key, p.to, Truncate(reply), now)]);
      PruneHeld(now);
    }

    /** The oldest reply is done with, in one write. */
    method FinishFirst(refused: bool, now: nat)
      requires NoRepeats(seen) && pending != [] && pending[0].next <= |Chunks(pending[0])|
      modifies this`seen, this`pending, this`held, this`removing
      ensures Value() == Delivery.FinishFirst(old(Value()), refused, now) && NoRepeats(seen)
    {
      hide Chunks, Delivery.HoldRefused, Mark;
      var p := pending[0];
      pending := pending[1..];
      removing := removing + if p.reaction.Some? && p.id.Some? then [Reaction(p.id.value, p.reaction.value)] else [];
      if p.id.Some? {
        MarkSeen(p.id.value);
      }
      if refused {
        HoldRefused(p, now);
      }
    }

    /** A turn's claim becomes its reply, in one write. */
    method EndClaim(i: nat, own: string, files: nat, now: nat)
      requires i < |inFlight|
      modifies this`inFlight, this`pending, this`held, this`unused
      ensures Value() == Delivery.EndClaim(old(Value()), i, own, files, now, old(unused))
      ensures |pending| == |old(pending)| + 1 && unused == old(unused) + |pending[|old(pending)|].clients|
    {
      hide Compose;
      var claim := inFlight[i];
      inFlight := inFlight[..i] + inFlight[i + 1..];
      var p := ComposePending(claim, own, now);
      pending := pending + [p.(files := files)];
    }

    /** Every claim an interrupted run left becomes a failure reply, and each conversation whose jobs
        stopped is told, in one write. */
    method RecoverInterrupted(reply: string, notices: Notices, now: nat)
      modifies this`inFlight, this`pending, this`held, this`unused, this`jobs
      ensures Stepped(Value(), unused) == Recover(old(Value()), reply, notices, now, old(unused))
    {
      hide Delivery.EndClaim, StoppedJobs, TellJobs, Telling;
      while inFlight != []
        invariant jobs == old(jobs)
        invariant RecoverClaims(Value(), reply, now, unused) == RecoverClaims(old(Value()), reply, now, old(unused))
        decreases |inFlight|
      {
        ClaimsLeft(Value(), reply, now, unused);
        EndClaim(0, reply, 0, now);
      }
      ghost var claims := RecoverClaims(old(Value()), reply, now, old(unused));
      assert claims == Stepped(Value(), unused);
      var first := FirstJobs(jobs);
      jobs := [];
      ghost var st, from := Value(), unused;
      assert st == claims.state.(jobs := []);
      assert first[0..] == first;
      var i := 0;
      while i < |first|
        invariant 0 <= i <= |first|
        invariant TellJobs(Value(), first[i..], notices, unused) == TellJobs(st, first, notices, from)
      {
        var p := Telling(first[i], notices, unused);
        JobTold(Value(), first, i, notices, unused);
        pending := pending + [p];
        unused := unused + |p.clients|;
        i := i + 1;
      }
      assert first[|first|..] == [];
      NoneTold(Value(), notices, unused);
    }
  }

  lemma ClaimsLeft(st: State, reply: string, now: nat, from: nat)
    requires st.inFlight != []
    ensures var next := EndClaim(st, 0, reply, 0, now, from);
            && |next.inFlight| == |st.inFlight| - 1 && |next.pending| == |st.pending| + 1 && next.jobs == st.jobs
            && RecoverClaims(st, reply, now, from) == RecoverClaims(next, reply, now, from + |next.pending[|st.pending|].clients|)
  {
    hide Compose;
  }

  lemma JobTold(st: State, jobs: seq<Job>, i: nat, notices: Notices, from: nat)
    requires i < |jobs|
    ensures var p := Telling(jobs[i], notices, from);
            TellJobs(st, jobs[i..], notices, from) ==
            TellJobs(st.(pending := st.pending + [p]), jobs[i + 1..], notices, from + |p.clients|)
  {
    assert jobs[i..][1..] == jobs[i + 1..];
  }

  lemma NoneTold(st: State, notices: Notices, from: nat)
    ensures TellJobs(st, [], notices, from) == Stepped(st, from)
  {
  }

  function Keys(jobs: seq<Job>): set<Id> {
    set job | job in jobs :: job.key
  }

  lemma JobSkipped(jobs: seq<Job>, i: nat, first: seq<Job>)
    requires i < |jobs|
    ensures StoppedJobs(jobs[i..], Keys(first))
         == if jobs[i].key in Keys(first) then StoppedJobs(jobs[i + 1..], Keys(first))
            else [jobs[i]] + StoppedJobs(jobs[i + 1..], Keys(first + [jobs[i]]))
  {
    assert jobs[i..][1..] == jobs[i + 1..];
    assert Keys(first + [jobs[i]]) == Keys(first) + {jobs[i].key};
  }

  /** The first job of each conversation. */
  method FirstJobs(jobs: seq<Job>) returns (first: seq<Job>)
    ensures first == StoppedJobs(jobs, {})
  {
    hide StoppedJobs;
    first := [];
    assert Keys([]) == {} && jobs[0..] == jobs;
    for i := 0 to |jobs|
      invariant first + StoppedJobs(jobs[i..], Keys(first)) == StoppedJobs(jobs, {})
    {
      JobSkipped(jobs, i, first);
      var told := false;
      for j := 0 to |first|
        invariant told == (jobs[i].key in Keys(first[..j]))
      {
        assert Keys(first[..j + 1]) == Keys(first[..j]) + {first[j].key};
        told := told || first[j].key == jobs[i].key;
      }
      assert first[..|first|] == first;
      if !told {
        assert first + ([jobs[i]] + StoppedJobs(jobs[i + 1..], Keys(first + [jobs[i]])))
            == first + [jobs[i]] + StoppedJobs(jobs[i + 1..], Keys(first + [jobs[i]]));
        first := first + [jobs[i]];
      }
    }
    NoJobs(Keys(first));
    assert jobs[|jobs|..] == [];
  }

  lemma NoJobs(told: set<Id>)
    ensures StoppedJobs([], told) == []
  {
  }

  lemma MarkNoRepeats(seen: seq<Id>, id: Id)
    requires NoRepeats(seen)
    ensures NoRepeats(Mark(seen, id, WINDOW))
  {
    RemoveNoRepeats(seen, id);
    hide Remove;
  }

  lemma {:induction false} RemoveNoRepeats(seen: seq<Id>, id: Id)
    requires NoRepeats(seen)
    ensures NoRepeats(Remove(seen, id))
    decreases |seen|
  {
    if seen != [] {
      RemoveNoRepeats(seen[1..], id);
      RemoveMembers(seen[1..], id);
      var rest := Remove(seen[1..], id);
      forall j | 0 <= j < |rest| ensures rest[j] != seen[0] {
        assert rest[j] in seen[1..];
      }
    }
  }

  lemma EmptyQuotes()
    ensures Quotes([]) == [] && Bytes("") == 0
  {
  }

  lemma {:induction false} RemoveAt(seen: seq<Id>, id: Id, i: nat)
    requires NoRepeats(seen) && i <= |seen| && id !in seen[..i] && (i < |seen| ==> seen[i] == id)
    ensures Remove(seen, id) == if i < |seen| then seen[..i] + seen[i + 1..] else seen
    decreases i
  {
    if i == 0 {
      if seen != [] {
        RemoveAbsent(seen[1..], id);
      }
    } else {
      assert seen[0] == seen[..i][0];
      assert seen[1..][..i - 1] == seen[..i][1..];
      RemoveAt(seen[1..], id, i - 1);
      hide Remove, NoRepeats;
      Rejoin(seen, i);
    }
  }

  lemma Rejoin(seen: seq<Id>, i: nat)
    requires 0 < i <= |seen|
    ensures i < |seen| ==> [seen[0]] + (seen[1..][..i - 1] + seen[1..][i..]) == seen[..i] + seen[i + 1..]
  {
  }
}

/** In every run of the bridge, with a platform that drops repeated client IDs, what the platform has of
    a reply is its sent parts or one more, in order and each once, across retries and restarts. */
module BridgeParts {
  import opened Wrappers
  import opened Ids
  import opened Text
  import opened Seen
  import opened Held
  import opened Delivery
  import opened Bridge
  import opened BridgeReplies

  /** What the platform has under `clients`, in the order it came. */
  function Got(received: seq<Part>, clients: seq<nat>): seq<Part> {
    if received == [] then []
    else
      var last := received[|received| - 1];
      Got(received[..|received| - 1], clients) + if last.client in clients then [last] else []
  }

  /** The parts of a reply as they are to arrive. */
  function Parts(p: Pending): seq<Part>
    requires |p.clients| >= |Chunks(p)|
  {
    seq(|Chunks(p)|, i requires 0 <= i < |Chunks(p)| => Part(p.clients[i], p.to, Chunks(p)[i]))
  }

  lemma GotPush(received: seq<Part>, part: Part, clients: seq<nat>)
    ensures Got(received + [part], clients)
         == Got(received, clients) + if part.client in clients then [part] else []
  {
    assert (received + [part])[..|received|] == received;
  }

  lemma {:induction false} GotMembers(received: seq<Part>, clients: seq<nat>)
    ensures forall part :: part in Got(received, clients) <==> part in received && part.client in clients
    decreases |received|
  {
    if received != [] {
      var last := |received| - 1;
      GotMembers(received[..last], clients);
      assert received == received[..last] + [received[last]];
    }
  }

  lemma {:induction false} GotNothing(received: seq<Part>, clients: seq<nat>)
    requires forall part :: part in received ==> part.client !in clients
    ensures Got(received, clients) == []
    decreases |received|
  {
    if received != [] {
      GotNothing(received[..|received| - 1], clients);
    }
  }

  // ----- client IDs

  ghost predicate Rising(clients: seq<nat>) {
    forall a, b :: 0 <= a < b < |clients| ==> clients[a] < clients[b]
  }

  ghost predicate Below(clients: seq<nat>, n: nat) {
    forall a :: a in clients ==> a < n
  }

  ghost predicate Before(earlier: seq<nat>, later: seq<nat>) {
    forall a, b :: a in earlier && b in later ==> a < b
  }

  ghost predicate AllRising(pending: seq<Pending>, unused: nat) {
    forall i :: 0 <= i < |pending| ==> Rising(pending[i].clients) && Below(pending[i].clients, unused)
  }

  /** No client ID is used twice, and older replies have older ones. */
  ghost predicate Ordered(pending: seq<Pending>) {
    forall i, j :: 0 <= i < j < |pending| ==> Before(pending[i].clients, pending[j].clients)
  }

  ghost predicate AllBelow(received: seq<Part>, unused: nat) {
    forall part :: part in received ==> part.client < unused
  }

  // ----- what arrived

  ghost predicate Untouched(received: seq<Part>, p: Pending) {
    p.next == 0 && forall part :: part in received ==> part.client !in p.clients
  }

  /** Only the oldest reply has been tried. */
  ghost predicate RestUntouched(received: seq<Part>, pending: seq<Pending>) {
    forall i :: 1 <= i < |pending| ==> Untouched(received, pending[i])
  }

  ghost predicate Has(received: seq<Part>, p: Pending, n: nat) {
    |p.clients| >= |Chunks(p)| && n <= |Chunks(p)| && Got(received, p.clients) == Parts(p)[..n]
  }

  /** The platform has the parts recorded as sent, or one more. */
  ghost predicate Prefix(received: seq<Part>, p: Pending) {
    Has(received, p, p.next) || Has(received, p, p.next + 1)
  }

  /** While a part is sent and not recorded the platform has it. */
  ghost predicate Exact(received: seq<Part>, w: Sending) {
    w.ahead ==> Has(received, w.entry, w.entry.next + 1)
  }

  ghost predicate Arrived(pending: seq<Pending>, received: seq<Part>) {
    RestUntouched(received, pending) && (pending != [] ==> Prefix(received, pending[0]))
  }

  ghost predicate Numbered(pending: seq<Pending>, received: seq<Part>, unused: nat) {
    AllRising(pending, unused) && Ordered(pending) && AllBelow(received, unused)
  }

  ghost predicate Inv(s: System) {
    && Numbered(s.disk.pending, s.received, s.unused) && Arrived(s.disk.pending, s.received)
    && (s.sending.Some? ==> Exact(s.received, s.sending.value))
  }

  lemma StartOk()
    ensures Inv(START)
  {
  }

  // ----- a new reply

  lemma UntouchedPrefix(received: seq<Part>, p: Pending)
    requires Untouched(received, p) && |p.clients| >= |Chunks(p)|
    ensures Prefix(received, p)
  {
    hide Got, Chunks;
    GotNothing(received, p.clients);
    assert Has(received, p, 0);
  }

  lemma PushNumbered(pending: seq<Pending>, received: seq<Part>, unused: nat, p: Pending)
    requires Numbered(pending, received, unused) && p.clients == FreshIds(unused, |p.clients|)
    ensures Numbered(pending + [p], received, unused + |p.clients|)
  {
    assert forall a :: a in p.clients ==> unused <= a < unused + |p.clients|;
    hide FreshIds;
  }

  lemma PushArrived(pending: seq<Pending>, received: seq<Part>, unused: nat, p: Pending)
    requires Numbered(pending, received, unused) && Arrived(pending, received)
    requires p.clients == FreshIds(unused, |p.clients|) && p.next == 0 && |p.clients| >= |Chunks(p)|
    ensures Arrived(pending + [p], received)
  {
    hide Prefix, Chunks, AllRising, Ordered;
    assert forall a :: a in p.clients ==> unused <= a;
    assert Untouched(received, p);
    UntouchedPrefix(received, p);
  }

  lemma PopArrived(pending: seq<Pending>, received: seq<Part>)
    requires Arrived(pending, received) && AllOk(pending) && pending != []
    ensures Arrived(pending[1..], received)
  {
    hide Chunks, Got;
    if |pending| > 1 {
      assert PendingOk(pending[1]);
      UntouchedPrefix(received, pending[1]);
    }
    hide Prefix, Untouched, PendingOk;
  }

  lemma PopNumbered(pending: seq<Pending>, received: seq<Part>, unused: nat)
    requires Numbered(pending, received, unused) && pending != []
    ensures Numbered(pending[1..], received, unused)
  {
    hide Rising, Below, Before;
  }

  /** A step that queues a reply. */
  lemma Pushing(s: System, p: Pending, next: System)
    requires Inv(s) && p.clients == FreshIds(s.unused, |p.clients|) && p.next == 0 && |p.clients| >= |Chunks(p)|
    requires next.disk.pending == s.disk.pending + [p] && next.unused == s.unused + |p.clients|
    requires next.received == s.received && next.sending == s.sending
    ensures Inv(next)
  {
    hide Numbered, Arrived, Exact, Chunks;
    PushNumbered(s.disk.pending, s.received, s.unused, p);
    PushArrived(s.disk.pending, s.received, s.unused, p);
  }

  lemma StepAnswers(s: System, e: Event)
    requires Inv(s) && Agree(s) && (e.Answer? || e.AnswerSeen?) && MayHear(s, e)
    ensures Inv(Intake(s, e))
  {
    hide Inv, Mark, Split, FreshIds;
    Pushing(s, NewPending(s.hearing, e.to, e.key, e.text, s.unused).(transient := true), Intake(s, e));
  }

  lemma StepQueue(s: System, e: Event)
    requires Inv(s) && Agree(s) && e.Queue? && MayWork(s, e)
    ensures Inv(Work(s, e))
  {
    hide Kept, Ended, Stored, Inv, Split, FreshIds;
    Pushing(s, NewPending(None, e.to, e.key, e.text, s.unused).(
              files := if e.question.Some? then 0 else e.files, transient := e.question.Some?, question := e.question),
            Work(s, e));
  }

  lemma StepMailNotice(s: System, e: Event)
    requires Inv(s) && Agree(s) && e.MailNotice? && MayWork(s, e)
    ensures Inv(Work(s, e))
  {
    hide Kept, Ended, Inv, Split, FreshIds, PruneKeys, KnownKey;
    if !KnownKey(s.mem, e.noticeKey) {
      Pushing(s, NewPending(None, e.to, e.to, e.text, s.unused).(transient := true, noticeKey := Some(e.noticeKey)), Work(s, e));
    }
  }

  lemma ComposeFresh(held: seq<HeldReply>, claim: Claim, own: string, now: nat, from: nat, files: nat)
    ensures var p := Compose(held, claim, own, now, from).0.(files := files);
            p.clients == FreshIds(from, |p.clients|) && p.next == 0 && |p.clients| >= |Chunks(p)|
  {
    hide Split, Prune, Take, RoomBeside, Composed, FreshIds;
  }

  lemma EndPushes(st: State, i: nat, own: string, files: nat, now: nat, from: nat)
    requires i < |st.inFlight|
    ensures EndClaim(st, i, own, files, now, from).pending
         == st.pending + [Compose(st.held, st.inFlight[i], own, now, from).0.(files := files)]
  {
    hide Compose;
  }

  lemma DownKeeps(s: System)
    requires Inv(s)
    ensures Inv(Down(s))
  {
    hide Numbered, Arrived;
  }

  lemma EndedKeeps(s: System, id: Id, text: string, files: nat, now: nat)
    requires Inv(s) && Agree(s) && s.up
    ensures Inv(Ended(s, id, text, files, now))
  {
    hide Inv, Compose, EndClaim, PrunedAway, WithoutOne, Chunks, Down;
    var i := IndexOf(s.mem.inFlight, id);
    hide IndexOf;
    if i < |s.mem.inFlight| {
      EndPushes(s.mem, i, text, files, now, s.unused);
      ComposeFresh(s.mem.held, s.mem.inFlight[i], text, now, s.unused, files);
      var p := Compose(s.mem.held, s.mem.inFlight[i], text, now, s.unused).0.(files := files);
      Pushing(s, p, Ended(s, id, text, files, now));
    } else {
      DownKeeps(s);
    }
  }

  lemma StepEndTurn(s: System, e: Event)
    requires Inv(s) && Agree(s) && e.EndTurn? && MayWork(s, e)
    ensures Inv(Work(s, e))
  {
    hide Inv, Agree, Ended, Kept, Stored, NewPending;
    EndedKeeps(s, e.id, e.text, e.files, e.now);
  }

  lemma {:induction false} RecoverClaimsParts(st: State, reply: string, now: nat, from: nat, received: seq<Part>)
    requires Numbered(st.pending, received, from) && Arrived(st.pending, received)
    ensures var r := RecoverClaims(st, reply, now, from);
            Numbered(r.state.pending, received, r.unused) && Arrived(r.state.pending, received)
    decreases |st.inFlight|
  {
    hide Numbered, Arrived, Compose, Chunks;
    if st.inFlight != [] {
      var next := EndClaim(st, 0, reply, 0, now, from);
      var p := Compose(st.held, st.inFlight[0], reply, now, from).0.(files := 0);
      ComposeFresh(st.held, st.inFlight[0], reply, now, from, 0);
      PushNumbered(st.pending, received, from, p);
      PushArrived(st.pending, received, from, p);
      assert next.pending == st.pending + [p];
      RecoverClaimsParts(next, reply, now, from + |p.clients|, received);
    }
  }

  lemma {:induction false} TellJobsParts(st: State, jobs: seq<Job>, notices: Notices, from: nat, received: seq<Part>)
    requires Numbered(st.pending, received, from) && Arrived(st.pending, received)
    ensures var r := TellJobs(st, jobs, notices, from);
            Numbered(r.state.pending, received, r.unused) && Arrived(r.state.pending, received)
    decreases |jobs|
  {
    hide Numbered, Arrived, Split, FreshIds;
    if jobs != [] {
      var p := Telling(jobs[0], notices, from);
      PushNumbered(st.pending, received, from, p);
      PushArrived(st.pending, received, from, p);
      TellJobsParts(st.(pending := st.pending + [p]), jobs[1..], notices, from + |p.clients|, received);
    }
  }

  lemma StepBoot(s: System, mail: bool, failure: string, notices: Notices, now: nat)
    requires Inv(s)
    ensures Inv(Started(s, mail, failure, notices, now))
  {
    hide Numbered, Arrived, Waiting, PrunedAway, RecoverDrops, RefusalDrops, RecoverClaims, TellJobs, StoppedJobs, Failures, Exact;
    var st := s.disk.(mail := mail);
    RecoverClaimsParts(st, failure, now, s.unused, s.received);
    var claims := RecoverClaims(st, failure, now, s.unused);
    TellJobsParts(claims.state.(jobs := []), StoppedJobs(st.jobs, {}), notices, claims.unused, s.received);
  }

  // ----- sending

  /** Sending the next part once more changes nothing if it arrived, and completes the prefix if not. */
  lemma ReceiveNext(received: seq<Part>, p: Pending)
    requires Rising(p.clients) && Prefix(received, p) && p.next < |Chunks(p)| && |p.clients| >= |Chunks(p)|
    ensures Has(Receive(received, NextPart(p)), p, p.next + 1)
    ensures (exists i :: 0 <= i < |received| && received[i].client == NextPart(p).client) <==> !Has(received, p, p.next)
  {
    hide Got, Chunks;
    var part := NextPart(p);
    GotMembers(received, p.clients);
    assert part == Parts(p)[p.next] && part.client in p.clients;
    assert Parts(p)[..p.next + 1] == Parts(p)[..p.next] + [part];
    if Has(received, p, p.next) {
      forall i | 0 <= i < |received| ensures received[i].client != part.client {
        var x := received[i];
        assert x in received;
        assert x.client in p.clients ==> x in Parts(p)[..p.next];
      }
      GotPush(received, part, p.clients);
    } else {
      assert part in Parts(p)[..p.next + 1];
      assert part in received;
    }
  }

  lemma ReceiveOthers(received: seq<Part>, part: Part, pending: seq<Pending>)
    requires RestUntouched(received, pending) && Ordered(pending) && pending != [] && part.client in pending[0].clients
    ensures RestUntouched(Receive(received, part), pending)
  {
    assert forall x :: x in Receive(received, part) ==> x in received || x == part;
    hide Receive;
    forall i | 1 <= i < |pending| ensures Untouched(Receive(received, part), pending[i]) {
      assert Untouched(received, pending[i]);
      assert Before(pending[0].clients, pending[i].clients);
    }
  }

  lemma ReceiveBelow(received: seq<Part>, part: Part, unused: nat)
    requires AllBelow(received, unused) && part.client < unused
    ensures AllBelow(Receive(received, part), unused)
  {
  }

  /** What is received once the next part was sent, whether or not it arrives. */
  lemma SentReceived(s: System)
    requires Inv(s) && Tracks(s) && AllOk(s.disk.pending) && CanSend(s)
    ensures var p := s.sending.value.entry;
            var now := Receive(s.received, NextPart(p));
            && Numbered(s.disk.pending, now, s.unused) && Arrived(s.disk.pending, now) && Has(now, p, p.next + 1)
  {
    var p := s.sending.value.entry;
    var pending, part := s.disk.pending, NextPart(p);
    assert PendingOk(p) && pending[0] == p;
    assert Rising(p.clients) && Below(p.clients, s.unused);
    assert part.client in p.clients;
    hide Chunks, PendingOk, AllRising, Ordered, Has, NextPart, AllOk, Rising, Below;
    ReceiveNext(s.received, p);
    ReceiveOthers(s.received, part, pending);
    ReceiveBelow(s.received, part, s.unused);
    hide AllBelow, RestUntouched, Receive;
  }

  lemma SentKeeps(s: System, arrived: bool, next: Option<Sending>)
    requires Inv(s) && Tracks(s) && AllOk(s.disk.pending) && CanSend(s)
    requires next.Some? ==> next.value.entry == s.sending.value.entry && (next.value.ahead ==> arrived)
    ensures Inv(Sent(s, arrived, next))
  {
    SentReceived(s);
    hide Numbered, Arrived, Has, AllOk, Receive, NextPart, Chunks, Tracks;
  }

  lemma StepSent(s: System, e: Event)
    requires Inv(s) && Agree(s) && Tracks(s) && AllOk(s.disk.pending)
    requires (e.Delivered? || e.Rejected? || e.Unsure?) && MayDeliver(s, e)
    ensures Inv(Deliver(s, e))
  {
    hide Inv, AllOk, Agree, Tracks, Sent, Done, Chunks;
    if e.Delivered? {
      SentKeeps(s, true, Some(s.sending.value.(ahead := true)));
    } else if e.Rejected? {
      SentKeeps(s, false, Some(s.sending.value.(refused := true)));
    } else {
      SentKeeps(s, e.arrived, None);
    }
  }

  lemma StepFirst(s: System, p: Pending, next: System)
    requires Inv(s) && s.disk.pending != [] && p.clients == s.disk.pending[0].clients
    requires next.disk.pending == s.disk.pending[0 := p] && next.unused == s.unused && next.received == s.received
    requires next.sending == Some(Sending(p, false, false)) && Prefix(s.received, p)
    ensures Inv(next)
  {
    hide Prefix, Rising, Below, Before, Untouched, AllBelow;
  }

  /** The platform has the parts recorded as sent, or one more, after one more is recorded. */
  lemma ProgressPrefix(s: System, e: Event, q: Pending)
    requires Inv(s) && Tracks(s) && (e.Advance? || e.FileDone?) && MayDeliver(s, e) && AllOk(s.disk.pending)
    requires var p := s.sending.value.entry;
             q == if e.Advance? then p.(next := p.next + 1) else p.(nextFile := p.nextFile + 1)
    ensures Prefix(s.received, q)
  {
    hide Split, Got, Numbered, RestUntouched, Composed;
    var p := s.sending.value.entry;
    assert PendingOk(p) by { assert PendingOk(s.disk.pending[0]); }
    assert Chunks(q) == Chunks(p) && Parts(q) == Parts(p);
    hide Chunks, PendingOk;
  }

  lemma StepProgress(s: System, e: Event)
    requires Inv(s) && Agree(s) && Tracks(s) && (e.Advance? || e.FileDone?) && MayDeliver(s, e)
    requires AllOk(s.disk.pending)
    ensures Inv(Deliver(s, e))
  {
    var p := s.sending.value.entry;
    var q := if e.Advance? then p.(next := p.next + 1) else p.(nextFile := p.nextFile + 1);
    ProgressPrefix(s, e, q);
    hide Chunks, Prefix, Inv, AllOk, Done, Sent;
    StepFirst(s, q, Deliver(s, e));
  }

  lemma StepPop(s: System, e: Event)
    requires Inv(s) && Agree(s) && Tracks(s) && (e.DropQuestion? || e.Finish?) && MayDeliver(s, e)
    requires AllOk(s.disk.pending)
    ensures Inv(Deliver(s, e))
  {
    hide Numbered, Arrived, Chunks, Waiting, PrunedAway, RecoverDrops, RefusalDrops, AsHeld, FinishFirst, PendingOk, Exact;
    if e.Finish? {
      FinishPops(s.mem, s.sending.value.refused, e.now);
    }
    PopArrived(s.disk.pending, s.received);
    PopNumbered(s.disk.pending, s.received, s.unused);
  }

  /** Steps that send nothing and leave the replies alone. */
  lemma StepElse(s: System, e: Event)
    requires Inv(s) && Agree(s) && Enabled(s, e) && !TouchesPending(e)
    requires !(e.Delivered? || e.Rejected? || e.Unsure?)
    ensures Inv(Next(s, e))
  {
    StepFramed(s, e);
    if OfDelivery(e) {
      hide Numbered, Arrived, Intake, Work;
    } else {
      hide Numbered, Arrived, Intake, Work, Next, Enabled, Exact;
    }
  }

  lemma StepDeliver(s: System, e: Event)
    requires Inv(s) && Agree(s) && Tracks(s) && AllOk(s.disk.pending) && OfDelivery(e) && MayDeliver(s, e)
    requires TouchesPending(e)
    ensures Inv(Deliver(s, e))
  {
    hide Inv, Agree, Tracks, MayDeliver, Deliver, AllOk;
    if e.Advance? || e.FileDone? {
      StepProgress(s, e);
    } else {
      StepPop(s, e);
    }
  }

  /** Every step keeps it. */
  lemma StepKeeps(s: System, e: Event)
    requires Inv(s) && Agree(s) && Tracks(s) && AllOk(s.disk.pending) && Enabled(s, e)
    ensures Inv(Next(s, e))
  {
    hide Inv, Agree, Tracks, MayDeliver, MayHear, MayWork, Deliver, Intake, Work, Started, AllOk;
    if e.Delivered? || e.Rejected? || e.Unsure? {
      StepSent(s, e);
    } else if !TouchesPending(e) {
      StepElse(s, e);
    } else if OfDelivery(e) {
      StepDeliver(s, e);
    } else if e.Answer? || e.AnswerSeen? {
      StepAnswers(s, e);
    } else if e.EndTurn? {
      StepEndTurn(s, e);
    } else if e.Queue? {
      StepQueue(s, e);
    } else if e.MailNotice? {
      StepMailNotice(s, e);
    } else {
      StepBoot(s, e.mail, e.failure, e.notices, e.now);
    }
  }

  // ----- what it means

  function Texts(parts: seq<Part>): seq<string> {
    seq(|parts|, i requires 0 <= i < |parts| => parts[i].text)
  }

  lemma TextsOf(p: Pending, n: nat)
    requires |p.clients| >= |Chunks(p)| && n <= |Chunks(p)|
    ensures Texts(Parts(p)[..n]) == Chunks(p)[..n]
  {
    hide Chunks;
  }

  /** All of `parts` went to one address. */
  ghost predicate AllTo(parts: seq<Part>, to: Id) {
    forall part :: part in parts ==> part.to == to
  }

  /** The platform has all of a reply, each part once and in order, at the reply's address. */
  ghost predicate Whole(received: seq<Part>, p: Pending) {
    var got := Got(received, p.clients);
    Texts(got) == Chunks(p) && Concat(Texts(got)) == p.reply && AllTo(got, p.to)
  }

  /** A reply whose last part is recorded as sent has arrived whole. */
  lemma TextWhole(s: System)
    requires Inv(s) && Tracks(s) && AllOk(s.disk.pending) && TextDone(s)
    ensures Whole(s.received, s.sending.value.entry)
  {
    hide Got, Numbered, RestUntouched, Concat, Composed;
    var p := s.sending.value.entry;
    assert PendingOk(p) by { assert PendingOk(s.disk.pending[0]); }
    ChunksWhole(p);
    TextsOf(p, |Chunks(p)|);
    assert Chunks(p)[..|Chunks(p)|] == Chunks(p);
    assert Got(s.received, p.clients) == Parts(p)[..|Chunks(p)|];
    assert AllTo(Parts(p), p.to);
  }

  /** A reply that is done with and was not refused has arrived whole, and all its files were sent. */
  lemma FinishedWhole(s: System, now: nat)
    requires Inv(s) && Agree(s) && Tracks(s) && AllOk(s.disk.pending) && MayDeliver(s, Finish(now))
    requires !s.sending.value.refused
    ensures Whole(s.received, s.mem.pending[0]) && s.mem.pending[0].nextFile == s.mem.pending[0].files
  {
    FilesSent(s, now);
    hide Inv, Whole, Chunks, AllOk;
    TextWhole(s);
  }

  lemma FilesSent(s: System, now: nat)
    requires Agree(s) && Tracks(s) && AllOk(s.disk.pending) && MayDeliver(s, Finish(now)) && !s.sending.value.refused
    ensures s.mem.pending[0].nextFile == s.mem.pending[0].files
  {
    assert PendingOk(s.disk.pending[0]);
    hide Chunks, Composed, Bare;
  }

  /** A reply of files alone has no text part; every part of another has text, but for the one part of an empty
      reply. */
  lemma PartsSent(p: Pending)
    ensures Chunks(p) == [] <==> p.reply == [] && p.files > 0
    ensures forall k :: 0 <= k < |Chunks(p)| ==> (Chunks(p)[k] == [] <==> p.reply == [])
    ensures p.reply == [] && p.files == 0 ==> Chunks(p) == [[]]
  {
    forall k | 0 <= k < |Chunks(p)| ensures Chunks(p)[k] == [] <==> p.reply == [] {
      PartNotEmpty(p, k);
    }
    if p.reply == [] && p.files == 0 {
      SplitFirst([], MAX_REPLY);
    }
    hide Split;
  }

  lemma ChunksWhole(p: Pending)
    ensures Concat(Chunks(p)) == p.reply
  {
    if p.reply == [] && p.files > 0 {
    } else {
      SplitParts(p.reply, MAX_REPLY);
    }
  }

  /** The platform has the part the delivery loop would send next. */
  predicate HasNext(received: seq<Part>, p: Pending)
    requires p.next < |p.clients|
  {
    exists i :: 0 <= i < |received| && received[i].client == p.clients[p.next]
  }

  /** When the platform refuses a plain reply, what it has of it and what is held of it, before truncation,
      are the reply exactly if it did not have the part it refused. It may: a send that nobody saw arrive can
      have arrived, and its retry be refused. An empty reply loses nothing either way. */
  lemma RefusedExact(s: System, now: nat)
    requires Inv(s) && Agree(s) && Tracks(s) && BridgeReplies.Inv(s) && MayDeliver(s, Finish(now))
    requires s.sending.value.refused && s.mem.pending[0].carried == []
    ensures var p := s.mem.pending[0];
            && p.next < |p.clients|
            && (Concat(Texts(Got(s.received, p.clients))) + Undelivered(p) == p.reply
                <==> !HasNext(s.received, p) || p.reply == [])
  {
    var p := s.mem.pending[0];
    RefusedShape(s, now);
    hide BridgeReplies.Inv, Inv, Got, Concat, Undelivered, Chunks, Has, MayDeliver, Agree, Tracks, PendingOk;
    ReceiveNext(s.received, p);
    assert HasNext(s.received, p) <==> !Has(s.received, p, p.next);
    if HasNext(s.received, p) {
      HeldTwice(s.received, p);
    } else {
      HeldOnce(s.received, p);
    }
  }

  /** A reply that carries others and is refused is put back with all of them, whether or not it had arrived:
      the platform has nothing of it, or all of it. */
  lemma CarryingRefused(s: System, now: nat)
    requires Inv(s) && Agree(s) && Tracks(s) && BridgeReplies.Inv(s) && MayDeliver(s, Finish(now))
    requires s.sending.value.refused && s.mem.pending[0].carried != []
    ensures var p := s.mem.pending[0];
            && p.next < |p.clients| && p.own.Some?
            && Texts(Got(s.received, p.clients)) == (if HasNext(s.received, p) then [p.reply] else [])
            && HoldRefused(s.mem.held, p, now)
            == Restored(s.mem.held, p.carried, HeldReply(p.key, p.to, Truncate(p.own.value), now), now)
  {
    var p := s.mem.pending[0];
    RefusedShape(s, now);
    hide BridgeReplies.Inv, Inv, Got, Chunks, HoldRefused, Restored, Truncate, MayDeliver, Agree, Tracks, PendingOk;
    CarryingRefusedWhole(s, now);
    CarryingHas(s.received, p);
  }

  /** What is known of a refused reply. */
  lemma RefusedShape(s: System, now: nat)
    requires Inv(s) && Agree(s) && Tracks(s) && BridgeReplies.Inv(s) && MayDeliver(s, Finish(now)) && s.sending.value.refused
    ensures var p := s.mem.pending[0];
            && PendingOk(p) && p.next < |Chunks(p)| <= |p.clients| && Rising(p.clients) && Prefix(s.received, p)
            && (p.carried != [] ==> p.next == 0 && p.own.Some? && Chunks(p) == [p.reply])
  {
    hide Chunks, Composed, Accounted, Got;
    assert PendingOk(s.disk.pending[0]);
  }

  lemma CarryingHas(received: seq<Part>, p: Pending)
    requires p.next == 0 && Chunks(p) == [p.reply] && |p.clients| >= 1 && Rising(p.clients) && Prefix(received, p)
    ensures Texts(Got(received, p.clients)) == if HasNext(received, p) then [p.reply] else []
  {
    hide Got, Chunks;
    ReceiveNext(received, p);
    TextsOf(p, 0);
    TextsOf(p, 1);
    assert Chunks(p)[..0] == [] && Chunks(p)[..1] == [p.reply];
  }

  lemma HeldOnce(received: seq<Part>, p: Pending)
    requires PendingOk(p) && p.carried == [] && Has(received, p, p.next)
    ensures Concat(Texts(Got(received, p.clients))) + Undelivered(p) == p.reply
  {
    hide Got, Concat, Composed, Undelivered, Chunks;
    TextsOf(p, p.next);
    PlainReplyWhole(p);
  }

  /** A part that arrived and was then refused is both delivered and held. */
  lemma HeldTwice(received: seq<Part>, p: Pending)
    requires PendingOk(p) && p.carried == [] && p.next < |Chunks(p)| && Has(received, p, p.next + 1)
    ensures |Concat(Texts(Got(received, p.clients))) + Undelivered(p)| == |p.reply| + |Chunks(p)[p.next]|
    ensures Chunks(p)[p.next] == [] <==> p.reply == []
  {
    PartNotEmpty(p, p.next);
    hide Got, Concat, Composed, Undelivered, Chunks;
    TextsOf(p, p.next + 1);
    PlainReplyWhole(p);
    var chunks := Chunks(p);
    assert chunks[..p.next + 1] == chunks[..p.next] + [chunks[p.next]];
    ConcatAppend(chunks[..p.next], [chunks[p.next]]);
    ConcatOne(chunks[p.next]);
  }

  lemma PartNotEmpty(p: Pending, k: nat)
    requires k < |Chunks(p)|
    ensures Chunks(p)[k] == [] <==> p.reply == []
  {
    SplitParts(p.reply, MAX_REPLY);
    if p.reply == [] {
      assert Split([], MAX_REPLY) == [[]];
    }
  }

  /** A reply that is no longer pending: every client ID the bridge may still use is newer. */
  ghost predicate Past(pending: seq<Pending>, unused: nat, clients: seq<nat>) {
    Below(clients, unused) && forall i :: 0 <= i < |pending| ==> Before(clients, pending[i].clients)
  }

  /** The reply the delivery loop finishes becomes past. */
  lemma FinishedPast(s: System, e: Event)
    requires Inv(s) && Agree(s) && Tracks(s) && (e.DropQuestion? || e.Finish?) && MayDeliver(s, e)
    ensures var next := Deliver(s, e); Past(next.disk.pending, next.unused, s.disk.pending[0].clients)
  {
    hide Arrived, Chunks, Waiting, PrunedAway, RecoverDrops, RefusalDrops, AsHeld, FinishFirst, Exact, Rising, Below, Before, AllBelow;
    if e.Finish? {
      FinishPops(s.mem, s.sending.value.refused, e.now);
    }
  }

  lemma PastPush(pending: seq<Pending>, unused: nat, clients: seq<nat>, p: Pending)
    requires Past(pending, unused, clients) && p.clients == FreshIds(unused, |p.clients|)
    ensures Past(pending + [p], unused + |p.clients|, clients)
  {
    assert forall a :: a in p.clients ==> unused <= a;
    hide FreshIds;
  }

  lemma {:induction false} RecoverClaimsPast(st: State, reply: string, now: nat, from: nat, clients: seq<nat>)
    requires Past(st.pending, from, clients)
    ensures var r := RecoverClaims(st, reply, now, from); Past(r.state.pending, r.unused, clients)
    decreases |st.inFlight|
  {
    hide Past, Compose, Chunks;
    if st.inFlight != [] {
      var next := EndClaim(st, 0, reply, 0, now, from);
      var p := Compose(st.held, st.inFlight[0], reply, now, from).0.(files := 0);
      ComposeFresh(st.held, st.inFlight[0], reply, now, from, 0);
      PastPush(st.pending, from, clients, p);
      assert next.pending == st.pending + [p];
      RecoverClaimsPast(next, reply, now, from + |p.clients|, clients);
    }
  }

  lemma {:induction false} TellJobsPast(st: State, jobs: seq<Job>, notices: Notices, from: nat, clients: seq<nat>)
    requires Past(st.pending, from, clients)
    ensures var r := TellJobs(st, jobs, notices, from); Past(r.state.pending, r.unused, clients)
    decreases |jobs|
  {
    hide Past, Split, FreshIds;
    if jobs != [] {
      var p := Telling(jobs[0], notices, from);
      PastPush(st.pending, from, clients, p);
      TellJobsPast(st.(pending := st.pending + [p]), jobs[1..], notices, from + |p.clients|, clients);
    }
  }

  lemma BootPast(s: System, mail: bool, failure: string, notices: Notices, now: nat, clients: seq<nat>)
    requires Past(s.disk.pending, s.unused, clients)
    ensures var next := Started(s, mail, failure, notices, now);
            Past(next.disk.pending, next.unused, clients) && next.received == s.received
  {
    hide Past, Waiting, PrunedAway, RecoverDrops, RefusalDrops, RecoverClaims, TellJobs, StoppedJobs, Failures;
    var st := s.disk.(mail := mail);
    RecoverClaimsPast(st, failure, now, s.unused, clients);
    var claims := RecoverClaims(st, failure, now, s.unused);
    TellJobsPast(claims.state.(jobs := []), StoppedJobs(st.jobs, {}), notices, claims.unused, clients);
  }

  lemma IntakePast(s: System, e: Event, clients: seq<nat>)
    requires Agree(s) && (e.Answer? || e.AnswerSeen?) && MayHear(s, e) && Past(s.disk.pending, s.unused, clients)
    ensures var next := Intake(s, e); Past(next.disk.pending, next.unused, clients)
  {
    hide Past, Mark, Split, FreshIds;
    PastPush(s.disk.pending, s.unused, clients, NewPending(s.hearing, e.to, e.key, e.text, s.unused).(transient := true));
  }

  lemma EndTurnPast(s: System, e: Event, clients: seq<nat>)
    requires Agree(s) && e.EndTurn? && MayWork(s, e) && Past(s.disk.pending, s.unused, clients)
    ensures var next := Work(s, e); Past(next.disk.pending, next.unused, clients)
  {
    hide Past, Compose, Waiting, PrunedAway, RecoverDrops, RefusalDrops, WithoutOne, IndexOf, Chunks;
    var i := IndexOf(s.mem.inFlight, e.id);
    if i < |s.mem.inFlight| {
      ComposeFresh(s.mem.held, s.mem.inFlight[i], e.text, e.now, s.unused, e.files);
      PastPush(s.disk.pending, s.unused, clients,
               Compose(s.mem.held, s.mem.inFlight[i], e.text, e.now, s.unused).0.(files := e.files));
    }
  }

  lemma QueuePast(s: System, e: Event, clients: seq<nat>)
    requires Agree(s) && e.Queue? && MayWork(s, e) && Past(s.disk.pending, s.unused, clients)
    ensures var next := Work(s, e); Past(next.disk.pending, next.unused, clients)
  {
    hide Kept, Ended, Stored, Past, Split, FreshIds;
    PastPush(s.disk.pending, s.unused, clients, NewPending(None, e.to, e.key, e.text, s.unused).(
               files := if e.question.Some? then 0 else e.files, transient := e.question.Some?, question := e.question));
  }

  lemma MailNoticePast(s: System, e: Event, clients: seq<nat>)
    requires Agree(s) && e.MailNotice? && MayWork(s, e) && Past(s.disk.pending, s.unused, clients)
    ensures var next := Work(s, e); Past(next.disk.pending, next.unused, clients)
  {
    hide Kept, Ended, Past, Split, FreshIds, KnownKey, PruneKeys;
    PastPush(s.disk.pending, s.unused, clients,
             NewPending(None, e.to, e.to, e.text, s.unused).(transient := true, noticeKey := Some(e.noticeKey)));
  }

  lemma DeliverPast(s: System, e: Event, clients: seq<nat>)
    requires Agree(s) && Tracks(s) && OfDelivery(e) && TouchesPending(e) && MayDeliver(s, e)
    requires Past(s.disk.pending, s.unused, clients)
    ensures var next := Deliver(s, e); Past(next.disk.pending, next.unused, clients)
  {
    hide Chunks, Waiting, PrunedAway, RecoverDrops, RefusalDrops, AsHeld, FinishFirst, Before, Below;
    if e.Finish? {
      FinishPops(s.mem, s.sending.value.refused, e.now);
    }
  }

  lemma SentPast(s: System, e: Event, clients: seq<nat>)
    requires Agree(s) && Tracks(s) && (e.Delivered? || e.Rejected? || e.Unsure?) && MayDeliver(s, e)
    requires Past(s.disk.pending, s.unused, clients)
    ensures Got(Deliver(s, e).received, clients) == Got(s.received, clients)
  {
    hide Chunks, Got;
    var part := NextPart(s.sending.value.entry);
    assert part.client in s.disk.pending[0].clients;
    assert part.client !in clients;
    GotPush(s.received, part, clients);
  }

  /** Nothing that happens later changes what the platform has of a past reply. */
  lemma PastStays(s: System, e: Event, clients: seq<nat>)
    requires Agree(s) && Tracks(s) && Enabled(s, e) && Past(s.disk.pending, s.unused, clients)
    ensures var next := Next(s, e); Past(next.disk.pending, next.unused, clients)
    ensures Got(Next(s, e).received, clients) == Got(s.received, clients)
  {
    hide Past, Tracks, MayDeliver, MayHear, MayWork, Deliver, Intake, Work, Started, Agree, Got;
    StepFramed(s, e);
    if e.Delivered? || e.Rejected? || e.Unsure? {
      SentPast(s, e, clients);
    } else if !TouchesPending(e) {
    } else if OfDelivery(e) {
      DeliverPast(s, e, clients);
    } else if OfIntake(e) {
      IntakePast(s, e, clients);
    } else if e.EndTurn? {
      EndTurnPast(s, e, clients);
    } else if e.Queue? {
      QueuePast(s, e, clients);
    } else if e.MailNotice? {
      MailNoticePast(s, e, clients);
    } else {
      BootPast(s, e.mail, e.failure, e.notices, e.now, clients);
    }
  }
}

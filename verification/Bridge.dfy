/** Every run of one account's bridge: what can happen between two state locks, with a crash allowed
    anywhere, and what a platform that drops repeated client IDs receives.

    A step that changes delivery state saves it before it releases the lock; if the save fails the run
    ends, which is a crash before the step. The two saves whose failure the bridge tolerates, of a
    working reaction and of its removal, have an outcome of their own. */
module Bridge {
  import opened Wrappers
  import opened Ids
  import opened Text
  import opened Seen
  import opened Held
  import opened Delivery

  /** A part the platform accepted for an address. */
  datatype Part = Part(client: nat, to: Id, text: string)

  /** The reply the delivery loop works on: the entry it read, whether it sent a part it has not
      recorded yet, and whether the platform refused it. */
  datatype Sending = Sending(entry: Pending, ahead: bool, refused: bool)

  /** What happened, for every message: it was taken on (claimed or answered), its turn ran, its reply
      was queued, or it was marked seen. */
  datatype Entry = Took(id: Id) | Ran(id: Id) | Replied(id: Id) | Marked(id: Id)

  /** The saved state, the running bridge's memory, the platform, and the history of the run: refused
      replies and what became of them; reactions saved, tried to take off, and put back by a crash. */
  datatype System = System(
    disk: State,
    up: bool, mem: State,
    hearing: Option<Id>, queued: seq<Id>, running: seq<Id>, reacting: seq<Id>,
    sending: Option<Sending>, removing: Option<Reaction>,
    received: seq<Part>, unused: nat,
    log: seq<Entry>,
    refused: multiset<HeldReply>, delivered: multiset<HeldReply>, dropped: multiset<HeldReply>,
    saved: multiset<Reaction>, tried: multiset<Reaction>, again: multiset<Reaction>)

  const START := System(
    EMPTY, false, EMPTY, None, [], [], [], None, None, [], 0, [],
    multiset{}, multiset{}, multiset{}, multiset{}, multiset{}, multiset{})

  datatype Event =
    | Boot(mail: bool, logged: bool, failure: string, notices: Notices, now: nat)
    | Crash
    // intake
    | Hear(id: Id) | Again(id: Id) | Ignore
    | Answer(to: Id, key: Id, text: string) | AnswerSeen(to: Id, key: Id, text: string)
    | TakeOn(to: Id, key: Id) | Return(id: Id, to: Id, key: Id) | Polled(cursor: Option<Id>)
    // turns
    | Reacted(id: Id, token: Id, ok: bool) | NotReacted(id: Id)
    | StartTurn(id: Id) | EndTurn(id: Id, text: string, files: nat, now: nat)
    | Queue(to: Id, key: Id, text: string, files: nat, question: Option<Id>)
    | MailNotice(noticeKey: Id, to: Id, text: string, now: nat)
    | RecordJobs(jobs: seq<Job>)
    // delivery
    | DropQuestion | Pick | Delivered | Rejected | Unsure(arrived: bool) | Advance
    | FileDone | FileUnsure | Finish(now: nat)
    // working reactions
    | TryRemoval | Removed(ok: bool)

  // ----- helpers

  predicate Known(st: State, id: Id) {
    || id in st.seen
    || (exists i :: 0 <= i < |st.inFlight| && st.inFlight[i].id == id)
    || (exists i :: 0 <= i < |st.pending| && st.pending[i].id == Some(id))
  }

  function WithoutOne(ids: seq<Id>, id: Id): seq<Id> {
    if ids == [] then [] else if ids[0] == id then ids[1..] else [ids[0]] + WithoutOne(ids[1..], id)
  }

  function Save(s: System, st: State): System {
    s.(mem := st, disk := st)
  }

  /** Queue a pending reply. */
  function Push(s: System, p: Pending): System {
    Save(s, s.mem.(pending := s.mem.pending + [p])).(unused := s.unused + |p.clients|)
  }

  function Receive(received: seq<Part>, part: Part): seq<Part> {
    if exists i :: 0 <= i < |received| && received[i].client == part.client then received else received + [part]
  }

  function NextPart(p: Pending): Part
    requires p.next < |Chunks(p)| && p.next < |p.clients|
  {
    Part(p.clients[p.next], p.to, Chunks(p)[p.next])
  }

  /** Whether the delivery loop may send the next part of what it read. */
  predicate CanSend(s: System) {
    && s.up && s.sending.Some? && !s.sending.value.ahead && !s.sending.value.refused
    && var p := s.sending.value.entry; p.next < |Chunks(p)| && p.next < |p.clients|
  }

  predicate TextDone(s: System) {
    && s.up && s.sending.Some? && !s.sending.value.ahead && !s.sending.value.refused
    && s.sending.value.entry.next >= |Chunks(s.sending.value.entry)|
  }

  // ----- what can happen

  predicate OfDelivery(e: Event) {
    || e.DropQuestion? || e.Pick? || e.Delivered? || e.Rejected? || e.Unsure? || e.Advance?
    || e.FileDone? || e.FileUnsure? || e.Finish?
  }

  predicate MayDeliver(s: System, e: Event)
    requires OfDelivery(e)
  {
    match e
    case DropQuestion => s.up && s.sending.None? && s.mem.pending != [] && s.mem.pending[0].question.Some?
    case Pick => s.up && s.sending.None? && s.mem.pending != []
    case Delivered => CanSend(s)
    case Rejected => CanSend(s)
    case Unsure(_) => CanSend(s)
    case Advance => s.up && s.sending.Some? && s.sending.value.ahead && s.mem.pending != []
    case FileDone => TextDone(s) && s.sending.value.entry.nextFile < s.sending.value.entry.files && s.mem.pending != []
    case FileUnsure => TextDone(s) && s.sending.value.entry.nextFile < s.sending.value.entry.files
    case Finish(_) =>
      && s.up && s.sending.Some? && s.mem.pending != [] && s.mem.pending[0].next <= |Chunks(s.mem.pending[0])|
      && (|| s.sending.value.refused
          || (TextDone(s) && s.sending.value.entry.nextFile >= s.sending.value.entry.files))
  }

  predicate OfIntake(e: Event) {
    || e.Hear? || e.Again? || e.Ignore? || e.Answer? || e.AnswerSeen? || e.TakeOn? || e.Return?
    || e.Polled?
  }

  predicate MayHear(s: System, e: Event)
    requires OfIntake(e)
  {
    match e
    case Hear(id) => s.up && s.hearing.None? && !Known(s.mem, id)
    case Again(id) => s.up && s.hearing.None? && id in s.mem.seen
    case Ignore => s.up && s.hearing.Some?
    case Answer(_, _, _) => s.up && s.hearing.Some?
    case AnswerSeen(_, _, _) => s.up && s.hearing.Some? && !s.mem.mail
    case TakeOn(_, _) => s.up && s.hearing.Some? && !s.mem.mail
    case Return(id, _, _) => s.up && s.hearing.None? && !s.mem.mail && !Known(s.mem, id)
    case Polled(_) => s.up && s.hearing.None?
  }

  predicate OfWork(e: Event) {
    e.Reacted? || e.NotReacted? || e.StartTurn? || e.EndTurn? || e.Queue? || e.MailNotice? || e.RecordJobs?
  }

  predicate MayWork(s: System, e: Event)
    requires OfWork(e)
  {
    match e
    case Reacted(id, _, _) => s.up && id in s.reacting
    case NotReacted(id) => s.up && id in s.reacting
    case StartTurn(id) => s.up && id in s.queued
    case EndTurn(id, _, _, _) => s.up && id in s.running
    case Queue(_, _, _, _, _) => s.up && !s.mem.mail
    case MailNotice(_, _, _, _) => s.up && s.mem.mail
    case RecordJobs(_) => s.up && !s.mem.mail
  }

  predicate Enabled(s: System, e: Event) {
    if OfDelivery(e) then MayDeliver(s, e)
    else if OfIntake(e) then MayHear(s, e)
    else if OfWork(e) then MayWork(s, e)
    else match e
      // `logged` is whether the account has a chat log.
      case Boot(mail, logged, _, _, _) =>
        !s.up && if mail then s.disk.mail || (!Ordinary(s.disk) && !logged) else !s.disk.mail
      case Crash => s.up
      case TryRemoval => s.up && s.removing.None? && s.mem.removing != []
      case Removed(_) => s.up && s.removing.Some? && s.mem.removing != []
  }

  /** Removals tried whose record was not saved: the next run tries them again. */
  function Forgotten(s: System): multiset<Reaction> {
    multiset(s.disk.removing) - multiset(s.mem.removing)
  }

  function Down(s: System): System {
    s.(up := false, again := s.again + Forgotten(s), hearing := None, queued := [], running := [], reacting := [], sending := None, removing := None)
  }

  function Started(s: System, mail: bool, failure: string, notices: Notices, now: nat): System {
    var st := s.disk.(mail := mail);
    var r := Recover(st, failure, notices, now, s.unused);
    Save(s, r.state).(up := true, unused := r.unused, log := s.log + Failures(st.inFlight),
                      dropped := s.dropped + RecoverDrops(st, failure, now, s.unused))
  }

  /** What pruning leaves out while recovery turns claims into replies. */
  function RecoverDrops(st: State, reply: string, now: nat, from: nat): multiset<HeldReply>
    decreases |st.inFlight|
  {
    if st.inFlight == [] then multiset{}
    else
      var next := EndClaim(st, 0, reply, 0, now, from);
      PrunedAway(st.held, now) + RecoverDrops(next, reply, now, from + |next.pending[|st.pending|].clients|)
  }

  /** What pruning leaves out when a refused reply is held. */
  function RefusalDrops(held: seq<HeldReply>, p: Pending, now: nat): multiset<HeldReply>
    requires p.next <= |Chunks(p)|
  {
    if p.transient then multiset{}
    else PrunedAway(PutBack(held, if p.next == 0 then p.carried else [], AsHeld(p, now)), now)
  }

  /** The replies recovery queues. */
  function Failures(claims: seq<Claim>): seq<Entry> {
    if claims == [] then [] else [Replied(claims[0].id)] + Failures(claims[1..])
  }

  /** Refused replies that still wait, held or carried by a pending reply. */
  function Waiting(st: State): multiset<HeldReply> {
    multiset(st.held) + Carried(st.pending)
  }

  function Carried(pending: seq<Pending>): multiset<HeldReply> {
    if pending == [] then multiset{} else multiset(pending[0].carried) + Carried(pending[1..])
  }

  function Claimed(s: System, claim: Claim): System {
    Save(s, s.mem.(inFlight := s.mem.inFlight + [claim])).(
      queued := s.queued + [claim.id], log := s.log + [Took(claim.id)])
  }

  function Ended(s: System, id: Id, text: string, files: nat, now: nat): System {
    var i := IndexOf(s.mem.inFlight, id);
    if i == |s.mem.inFlight| then Down(s)
    else
      var st := EndClaim(s.mem, i, text, files, now, s.unused);
      Save(s, st).(
        running := WithoutOne(s.running, id), log := s.log + [Replied(id)],
        unused := s.unused + |st.pending[|s.mem.pending|].clients|,
        dropped := s.dropped + PrunedAway(s.mem.held, now))
  }

  function WithReaction(st: State, i: nat, reaction: Option<Id>): State
    requires i < |st.inFlight|
  {
    st.(inFlight := st.inFlight[i := st.inFlight[i].(reaction := reaction)])
  }

  /** An add of a reaction ended: it is saved with its claim, or the claim goes on without one. */
  function Kept(s: System, id: Id, token: Id, ok: bool): System {
    var i := IndexOf(s.mem.inFlight, id);
    var rest := s.(reacting := WithoutOne(s.reacting, id));
    if i == |s.mem.inFlight| then rest
    else if ok then
      Save(rest, WithReaction(s.mem, i, Some(token))).(saved := s.saved + multiset{Reaction(id, token)})
    else rest.(mem := WithReaction(s.mem, i, None))
  }

  /** Sending one part ended somehow. */
  function Sent(s: System, arrived: bool, next: Option<Sending>): System
    requires CanSend(s)
  {
    s.(received := if arrived then Receive(s.received, NextPart(s.sending.value.entry)) else s.received, sending := next)
  }

  function WithFirst(st: State, p: Pending): State
    requires st.pending != []
  {
    st.(pending := st.pending[0 := p])
  }

  function Done(s: System, now: nat): System
    requires s.mem.pending != [] && s.mem.pending[0].next <= |Chunks(s.mem.pending[0])| && s.sending.Some?
  {
    var p, refused := s.mem.pending[0], s.sending.value.refused;
    var st := FinishFirst(s.mem, refused, now);
    var held := if refused && !p.transient then multiset{AsHeld(p, now)} else multiset{};
    Save(s, st).(
      sending := None,
      log := s.log + if p.id.Some? then [Marked(p.id.value)] else [],
      refused := s.refused + held,
      delivered := s.delivered + if refused then multiset{} else multiset(p.carried),
      dropped := s.dropped + if refused then RefusalDrops(s.mem.held, p, now) else multiset{})
  }

  /** A step of the delivery loop. */
  function Deliver(s: System, e: Event): System
    requires OfDelivery(e) && MayDeliver(s, e)
  {
    match e
    case DropQuestion => Save(s, s.mem.(pending := s.mem.pending[1..]))
    case Pick => s.(sending := Some(Sending(s.mem.pending[0], false, false)))
    case Delivered => Sent(s, true, Some(s.sending.value.(ahead := true)))
    case Rejected => Sent(s, false, Some(s.sending.value.(refused := true)))
    case Unsure(arrived) => Sent(s, arrived, None)
    case Advance =>
      var p := s.sending.value.entry.(next := s.sending.value.entry.next + 1);
      Save(s, WithFirst(s.mem, s.mem.pending[0].(next := p.next))).(sending := Some(Sending(p, false, false)))
    case FileDone =>
      var p := s.sending.value.entry.(nextFile := s.sending.value.entry.nextFile + 1);
      Save(s, WithFirst(s.mem, s.mem.pending[0].(nextFile := p.nextFile))).(sending := Some(Sending(p, false, false)))
    case FileUnsure => s.(sending := None)
    case Finish(now) => Done(s, now)
  }

  /** A step of intake. */
  function Intake(s: System, e: Event): System
    requires OfIntake(e) && MayHear(s, e)
  {
    match e
    case Hear(id) => s.(hearing := Some(id))
    case Again(id) => Save(s, MarkSeen(s.mem, id)).(log := s.log + [Marked(id)])
    case Ignore =>
      Save(s, MarkSeen(s.mem, s.hearing.value)).(hearing := None, log := s.log + [Marked(s.hearing.value)])
    case Answer(to, key, text) =>
      Push(s, NewPending(s.hearing, to, key, text, s.unused).(transient := true)).(
        hearing := None, log := s.log + [Took(s.hearing.value), Replied(s.hearing.value)])
    case AnswerSeen(to, key, text) =>
      var id := s.hearing.value;
      Push(s.(mem := MarkSeen(s.mem, id)), NewPending(s.hearing, to, key, text, s.unused).(transient := true)).(
        hearing := None, log := s.log + [Took(id), Replied(id), Marked(id)])
    case TakeOn(to, key) =>
      Claimed(s, Claim(s.hearing.value, to, key, None)).(
        hearing := None, reacting := s.reacting + [s.hearing.value])
    case Return(id, to, key) => Claimed(s, Claim(id, to, key, None))
    case Polled(cursor) => Save(s, s.mem.(cursor := if cursor.Some? then cursor else s.mem.cursor))
  }

  /** A step of a conversation, or of the daemon's notices. */
  function Work(s: System, e: Event): System
    requires OfWork(e) && MayWork(s, e)
  {
    if e.Reacted? then Kept(s, e.id, e.token, e.ok)
    // An add that put nothing on, failed or was given up.
    else if e.NotReacted? then s.(reacting := WithoutOne(s.reacting, e.id))
    else if e.StartTurn? then
      s.(queued := WithoutOne(s.queued, e.id), running := s.running + [e.id], log := s.log + [Ran(e.id)])
    else if e.EndTurn? then Ended(s, e.id, e.text, e.files, e.now)
    else if e.Queue? then
      Push(s, NewPending(None, e.to, e.key, e.text, s.unused).(
             files := if e.question.Some? then 0 else e.files, transient := e.question.Some?, question := e.question))
    else if e.MailNotice? then Stored(s, e.noticeKey, e.to, e.text, e.now)
    else Save(s, s.mem.(jobs := e.jobs))
  }

  function Stored(s: System, noticeKey: Id, to: Id, text: string, now: nat): System {
    if KnownKey(s.mem, noticeKey) then s
    else
      Save(s, StoreMailNotice(s.mem, noticeKey, to, text, now, s.unused)).(
        unused := s.unused + |Split(text, MAX_REPLY)|)
  }

  /** The removal of the oldest waiting reaction was tried. */
  function Untied(s: System, ok: bool): System
    requires s.mem.removing != [] && s.removing.Some?
  {
    var left := s.mem.(removing := s.mem.removing[1..]);
    s.(mem := left, disk := if ok then left else s.disk, removing := None,
       tried := s.tried + multiset{s.removing.value})
  }

  function Next(s: System, e: Event): System
    requires Enabled(s, e)
  {
    if OfDelivery(e) then Deliver(s, e)
    else if OfIntake(e) then Intake(s, e)
    else if OfWork(e) then Work(s, e)
    else match e
      case Boot(mail, _, failure, notices, now) => Started(s, mail, failure, notices, now)
      case Crash => Down(s)
      case TryRemoval => s.(removing := Some(s.mem.removing[0]))
      case Removed(ok) => Untied(s, ok)
  }

  // ----- what a step leaves alone

  /** Claims without their reactions. */
  function Bare(claims: seq<Claim>): seq<Claim> {
    seq(|claims|, i requires 0 <= i < |claims| => claims[i].(reaction := None))
  }

  /** Memory is the saved state but for reactions whose saving or removal could not be saved. */
  ghost predicate Agree(s: System) {
    s.up ==>
      && s.mem.seen == s.disk.seen && s.mem.pending == s.disk.pending && Bare(s.mem.inFlight) == Bare(s.disk.inFlight)
      && s.mem.held == s.disk.held && s.mem.jobs == s.disk.jobs && s.mem.mail == s.disk.mail && s.mem.keys == s.disk.keys
  }

  /** What the delivery loop edits as the oldest reply is the one it read. */
  ghost predicate Tracks(s: System) {
    s.sending.Some? ==> s.disk.pending != [] && s.disk.pending[0] == s.sending.value.entry
  }

  predicate TouchesPending(e: Event) {
    || e.Boot? || e.Answer? || e.AnswerSeen? || e.EndTurn? || e.Queue? || e.MailNotice?
    || e.DropQuestion? || e.Advance? || e.FileDone? || e.Finish?
  }

  predicate TouchesClaims(e: Event) {
    e.Boot? || e.TakeOn? || e.Return? || e.Reacted? || e.EndTurn?
  }

  /** What every other step leaves as it is. */
  ghost predicate Framed(s: System, e: Event, next: System) {
    && Agree(next)
    && (!TouchesPending(e) ==>
          && next.disk.pending == s.disk.pending && next.disk.held == s.disk.held && next.unused == s.unused
          && next.refused == s.refused && next.delivered == s.delivered && next.dropped == s.dropped)
    && (!TouchesClaims(e) ==> Bare(next.disk.inFlight) == Bare(s.disk.inFlight))
    && (!e.Delivered? && !e.Unsure? ==> next.received == s.received)
    && (!OfDelivery(e) ==> next.sending == s.sending || next.sending.None?)
  }

  lemma DoneFramed(s: System, now: nat)
    requires Agree(s) && MayDeliver(s, Finish(now))
    ensures Framed(s, Finish(now), Done(s, now))
  {
    hide Chunks, AsHeld, HoldRefused, Mark, RefusalDrops, Bare;
  }

  lemma SentFramed(s: System, e: Event, arrived: bool, next: Option<Sending>)
    requires Agree(s) && CanSend(s) && OfDelivery(e) && !TouchesPending(e) && (e.Delivered? || e.Unsure? || !arrived)
    ensures Framed(s, e, Sent(s, arrived, next))
  {
    hide Chunks, NextPart, Receive, Bare;
  }

  lemma DeliveryFramed(s: System, e: Event)
    requires OfDelivery(e) && MayDeliver(s, e) && Agree(s)
    ensures Framed(s, e, Deliver(s, e))
  {
    if e.Finish? {
      DoneFramed(s, e.now);
      hide Framed, Agree, Done, Chunks;
    } else if e.Delivered? {
      SentFramed(s, e, true, Some(s.sending.value.(ahead := true)));
      hide Framed, Agree, Sent;
    } else if e.Rejected? {
      SentFramed(s, e, false, Some(s.sending.value.(refused := true)));
      hide Framed, Agree, Sent;
    } else if e.Unsure? {
      SentFramed(s, e, e.arrived, None);
      hide Framed, Agree, Sent;
    } else {
      hide Chunks, Done, Sent, Bare;
    }
  }

  lemma AnswersFramed(s: System, e: Event)
    requires (e.Answer? || e.AnswerSeen?) && MayHear(s, e) && Agree(s)
    ensures Framed(s, e, Intake(s, e))
  {
    hide Mark, NewPending, Bare;
  }

  lemma ClaimsFramed(s: System, e: Event)
    requires (e.TakeOn? || e.Return?) && MayHear(s, e) && Agree(s)
    ensures Framed(s, e, Intake(s, e))
  {
    hide Known, Bare;
  }

  lemma IntakeFramed(s: System, e: Event)
    requires OfIntake(e) && MayHear(s, e) && Agree(s)
    ensures Framed(s, e, Intake(s, e))
  {
    if e.Answer? || e.AnswerSeen? {
      AnswersFramed(s, e);
      hide Framed, Agree, Intake;
    } else if e.TakeOn? || e.Return? {
      ClaimsFramed(s, e);
      hide Framed, Agree, Intake;
    } else {
      hide Mark, Known, Bare;
    }
  }

  lemma KeptFramed(s: System, id: Id, token: Id, ok: bool)
    requires Agree(s) && s.up
    ensures Framed(s, Reacted(id, token, ok), Kept(s, id, token, ok))
  {
    hide IndexOf, WithoutOne, Bare;
    var i := IndexOf(s.mem.inFlight, id);
    if i < |s.mem.inFlight| {
      BareSet(s.mem.inFlight, i, None);
    }
  }

  /** A claim's reaction does not show without reactions. */
  lemma BareSet(claims: seq<Claim>, i: nat, reaction: Option<Id>)
    requires i < |claims|
    ensures Bare(claims[i := claims[i].(reaction := reaction)]) == Bare(claims)
  {
  }

  lemma EndedFramed(s: System, id: Id, text: string, files: nat, now: nat)
    requires Agree(s) && s.up
    ensures Framed(s, EndTurn(id, text, files, now), Ended(s, id, text, files, now))
  {
    hide EndClaim, IndexOf, WithoutOne, PrunedAway, Bare;
  }

  lemma StoredFramed(s: System, noticeKey: Id, to: Id, text: string, now: nat)
    requires Agree(s) && s.up
    ensures Framed(s, MailNotice(noticeKey, to, text, now), Stored(s, noticeKey, to, text, now))
  {
    hide NewPending, KnownKey, PruneKeys, Split, Bare;
  }

  lemma WorkFramed(s: System, e: Event)
    requires OfWork(e) && MayWork(s, e) && Agree(s)
    ensures Framed(s, e, Work(s, e))
  {
    hide Kept, Ended, Stored, NewPending, WithoutOne, Bare;
    if e.Reacted? {
      KeptFramed(s, e.id, e.token, e.ok);
      hide Framed, Agree;
    } else if e.EndTurn? {
      EndedFramed(s, e.id, e.text, e.files, e.now);
      hide Framed, Agree;
    } else if e.MailNotice? {
      StoredFramed(s, e.noticeKey, e.to, e.text, e.now);
      hide Framed, Agree;
    }
  }

  lemma StepFramed(s: System, e: Event)
    requires Enabled(s, e) && Agree(s)
    ensures Framed(s, e, Next(s, e))
  {
    hide MayDeliver, MayHear, MayWork, Deliver, Intake, Work, Recover, Waiting, PrunedAway, RecoverDrops, RefusalDrops, Failures, Ordinary;
    if OfDelivery(e) {
      DeliveryFramed(s, e);
    } else if OfIntake(e) {
      IntakeFramed(s, e);
    } else if OfWork(e) {
      WorkFramed(s, e);
    }
  }

  /** A run: each event can happen when it does. */
  ghost predicate IsRun(s: System, events: seq<Event>)
    decreases |events|
  {
    events == [] || (Enabled(s, events[0]) && IsRun(Next(s, events[0]), events[1..]))
  }

  ghost function After(s: System, events: seq<Event>): System
    requires IsRun(s, events)
    decreases |events|
  {
    if events == [] then s else After(Next(s, events[0]), events[1..])
  }

  /** A run after a run. */
  lemma {:induction false} RunAppend(s: System, a: seq<Event>, b: seq<Event>)
    requires IsRun(s, a)
    ensures IsRun(s, a + b) <==> IsRun(After(s, a), b)
    ensures IsRun(s, a + b) ==> After(s, a + b) == After(After(s, a), b)
    decreases |a|
  {
    hide Enabled, Next;
    if a == [] {
      assert a + b == b;
    } else {
      RunAppend(Next(s, a[0]), a[1..], b);
      assert (a + b)[1..] == a[1..] + b;
    }
  }

  /** The first part of a run is a run. */
  lemma {:induction false} RunSplit(s: System, a: seq<Event>, b: seq<Event>)
    requires IsRun(s, a + b)
    ensures IsRun(s, a) && IsRun(After(s, a), b) && After(s, a + b) == After(After(s, a), b)
    decreases |a|
  {
    hide Enabled, Next;
    if a == [] {
      assert a + b == b;
    } else {
      assert (a + b)[1..] == a[1..] + b && (a + b)[0] == a[0];
      RunSplit(Next(s, a[0]), a[1..], b);
    }
  }

  lemma LastStep(before: seq<Event>, last: Event)
    requires IsRun(START, before + [last])
    ensures IsRun(START, before) && Enabled(After(START, before), last)
    ensures After(START, before + [last]) == Next(After(START, before), last)
  {
    hide Enabled, Next;
    RunSplit(START, before, [last]);
    RunOne(After(START, before), last);
  }

  lemma NoEvents(s: System)
    ensures IsRun(s, []) && After(s, []) == s
  {
  }

  /** The steps of each part of the bridge, as steps of the bridge. */
  lemma DeliverStep(s: System, e: Event)
    requires OfDelivery(e) && MayDeliver(s, e)
    ensures Enabled(s, e) && Next(s, e) == Deliver(s, e)
  {
    hide MayDeliver, Deliver, MayHear, Intake, MayWork, Work, Started, Untied, Ordinary, Down;
  }

  lemma IntakeStep(s: System, e: Event)
    requires OfIntake(e) && MayHear(s, e)
    ensures Enabled(s, e) && Next(s, e) == Intake(s, e)
  {
    hide MayDeliver, Deliver, MayHear, Intake, MayWork, Work, Started, Untied, Ordinary, Down;
  }

  lemma WorkStep(s: System, e: Event)
    requires OfWork(e) && MayWork(s, e)
    ensures Enabled(s, e) && Next(s, e) == Work(s, e)
  {
    hide MayDeliver, Deliver, MayHear, Intake, MayWork, Work, Started, Untied, Ordinary, Down;
  }

  /** And a step of the bridge as a step of its part. */
  lemma StepIs(s: System, e: Event)
    requires Enabled(s, e)
    ensures OfDelivery(e) ==> MayDeliver(s, e) && Next(s, e) == Deliver(s, e)
    ensures OfIntake(e) ==> MayHear(s, e) && Next(s, e) == Intake(s, e)
    ensures OfWork(e) ==> MayWork(s, e) && Next(s, e) == Work(s, e)
    ensures e.Boot? ==> Next(s, e) == Started(s, e.mail, e.failure, e.notices, e.now)
  {
    hide MayDeliver, Deliver, MayHear, Intake, MayWork, Work, Started, Untied, Ordinary, Down;
  }

  lemma RunOne(s: System, e: Event)
    ensures IsRun(s, [e]) <==> Enabled(s, e)
    ensures Enabled(s, e) ==> After(s, [e]) == Next(s, e)
  {
    hide Enabled, Next;
    assert [e][1..] == [];
  }

  /** What the platform has only grows. */
  lemma ReceivedGrows(s: System, e: Event)
    requires Enabled(s, e)
    ensures s.received <= Next(s, e).received
  {
    hide MayDeliver, MayHear, MayWork, Deliver, Intake, Work, Recover, RecoverDrops, Failures, Ordinary;
    if OfDelivery(e) {
      DeliverReceives(s, e);
    } else if OfIntake(e) {
      IntakeReceives(s, e);
    } else if OfWork(e) {
      WorkReceives(s, e);
    }
  }

  lemma DeliverReceives(s: System, e: Event)
    requires OfDelivery(e) && MayDeliver(s, e)
    ensures s.received <= Deliver(s, e).received
  {
    hide Chunks, FinishFirst, AsHeld, RefusalDrops, NextPart;
  }

  lemma IntakeReceives(s: System, e: Event)
    requires OfIntake(e) && MayHear(s, e)
    ensures s.received == Intake(s, e).received
  {
    hide Mark, NewPending, Known;
  }

  lemma WorkReceives(s: System, e: Event)
    requires OfWork(e) && MayWork(s, e)
    ensures s.received == Work(s, e).received
  {
    hide NewPending, EndClaim, PrunedAway, IndexOf, WithoutOne, KnownKey, PruneKeys, Split;
  }

  /** The history only grows. */
  lemma LogGrows(s: System, e: Event)
    requires Enabled(s, e)
    ensures s.log <= Next(s, e).log
  {
    hide MayDeliver, MayHear, MayWork, Deliver, Intake, Work, Recover, RecoverDrops, Failures, Ordinary;
    if OfDelivery(e) {
      DeliverGrows(s, e);
    } else if OfIntake(e) {
      IntakeGrows(s, e);
    } else if OfWork(e) {
      WorkGrows(s, e);
    }
  }

  lemma DeliverGrows(s: System, e: Event)
    requires OfDelivery(e) && MayDeliver(s, e)
    ensures s.log <= Deliver(s, e).log
  {
    hide Chunks, FinishFirst, AsHeld, RefusalDrops, NextPart, Receive;
  }

  lemma IntakeGrows(s: System, e: Event)
    requires OfIntake(e) && MayHear(s, e)
    ensures s.log <= Intake(s, e).log
  {
    hide Mark, NewPending, Known;
  }

  lemma WorkGrows(s: System, e: Event)
    requires OfWork(e) && MayWork(s, e)
    ensures s.log <= Work(s, e).log
  {
    hide NewPending, EndClaim, PrunedAway, IndexOf, WithoutOne, KnownKey, PruneKeys, Split;
  }
}

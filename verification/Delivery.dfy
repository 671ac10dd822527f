/** The durable delivery state of one chat account (crates/scv-channels/src/state.rs) and what each
    part of the bridge does to it under the state lock (crates/scv-channels/src/lib.rs).

    An inbound message becomes a claim, its answer a pending reply, and its ID is marked seen once the
    reply is done with. */
module Delivery {
  import opened Wrappers
  import opened Ids
  import opened Text
  import opened Seen
  import opened Held

  /** A claimed message whose turn has not completed; `reaction` takes its working reaction off. */
  datatype Claim = Claim(id: Id, to: Id, key: Id, reaction: Option<Id>)

  /** A reply waiting to be sent. `id` is the message it answers, `clients` the retry identity of each
      part, `next` the first part not yet sent, `carried` the earlier refused replies ahead of `own`. */
  datatype Pending = Pending(
    id: Option<Id>, to: Id, key: Id, reply: string, clients: seq<nat>, next: nat,
    carried: seq<HeldReply>, own: Option<string>, transient: bool, files: nat, nextFile: nat,
    question: Option<Id>, noticeKey: Option<Id>, reaction: Option<Id>)

  datatype Reaction = Reaction(id: Id, token: Id)

  /** A background job a conversation's session runs. */
  datatype Job = Job(to: Id, key: Id)

  datatype RecentKey = RecentKey(key: Id, storedAt: nat)

  datatype State = State(
    seen: seq<Id>, pending: seq<Pending>, inFlight: seq<Claim>, held: seq<HeldReply>, jobs: seq<Job>,
    mail: bool, keys: seq<RecentKey>, removing: seq<Reaction>, cursor: Option<Id>)

  const EMPTY := State([], [], [], [], [], false, [], [], None)

  const MAX_RECENT_KEYS := 512
  const RECENT_KEY_SECONDS := 7 * 24 * 60 * 60

  // ----- replies

  /** A reply's text parts; a reply of files alone has none. */
  function Chunks(p: Pending): seq<string> {
    if p.reply == [] && p.files > 0 then [] else Split(p.reply, MAX_REPLY)
  }

  function FreshIds(from: nat, n: nat): (ids: seq<nat>)
    ensures |ids| == n && forall i :: 0 <= i < n ==> ids[i] == from + i
  {
    seq(n, i => from + i)
  }

  /** A pending reply with a fresh client ID for each part. */
  function NewPending(id: Option<Id>, to: Id, key: Id, reply: string, from: nat): Pending {
    Pending(id, to, key, reply, FreshIds(from, |Split(reply, MAX_REPLY)|), 0, [], None, false, 0, 0, None, None, None)
  }

  /** The reply to a claim, which takes over its reaction, and the held replies left. */
  function Compose(held: seq<HeldReply>, claim: Claim, own: string, now: nat, from: nat): (Pending, seq<HeldReply>) {
    var taken := Take(Prune(held, now), claim.key, RoomBeside(own));
    var p := NewPending(Some(claim.id), claim.to, claim.key, Composed(taken.carried, own), from)
             .(reaction := claim.reaction);
    (if taken.carried == [] then p else p.(own := Some(own), carried := taken.carried), taken.left)
  }

  /** The text a refused reply is held for: what was not delivered, or its own reply when nothing was. */
  function Undelivered(p: Pending): string
    requires p.next <= |Chunks(p)|
  {
    if p.next == 0 then (if p.own.Some? then p.own.value else p.reply) else Concat(Chunks(p)[p.next..])
  }

  function AsHeld(p: Pending, now: nat): HeldReply
    requires p.next <= |Chunks(p)|
  {
    HeldReply(p.key, p.to, Truncate(Undelivered(p)), now)
  }

  function HoldRefused(held: seq<HeldReply>, p: Pending, now: nat): seq<HeldReply>
    requires p.next <= |Chunks(p)|
  {
    if p.transient then held
    else Restored(held, if p.next == 0 then p.carried else [], AsHeld(p, now), now)
  }

  // ----- steps of the state

  function MarkSeen(st: State, id: Id): State {
    st.(seen := Mark(st.seen, id, WINDOW))
  }

  function IndexOf(claims: seq<Claim>, id: Id): (i: nat)
    ensures i <= |claims| && (i < |claims| ==> claims[i].id == id)
    ensures i == |claims| ==> forall j :: 0 <= j < |claims| ==> claims[j].id != id
  {
    if claims == [] then 0 else if claims[0].id == id then 0 else 1 + IndexOf(claims[1..], id)
  }

  /** The claim becomes a pending reply in one write. */
  function EndClaim(st: State, i: nat, own: string, files: nat, now: nat, from: nat): State
    requires i < |st.inFlight|
  {
    var (p, left) := Compose(st.held, st.inFlight[i], own, now, from);
    st.(inFlight := st.inFlight[..i] + st.inFlight[i + 1..],
        held := left, pending := st.pending + [p.(files := files)])
  }

  /** A state and the first client ID not yet used. */
  datatype Stepped = Stepped(state: State, unused: nat)

  /** Every claim an interrupted run left becomes a failure reply. */
  function RecoverClaims(st: State, reply: string, now: nat, from: nat): Stepped
    decreases |st.inFlight|
  {
    if st.inFlight == [] then Stepped(st, from)
    else
      var next := EndClaim(st, 0, reply, 0, now, from);
      RecoverClaims(next, reply, now, from + |next.pending[|st.pending|].clients|)
  }

  /** The first job of each conversation whose background jobs stopped. */
  function StoppedJobs(jobs: seq<Job>, told: set<Id>): seq<Job> {
    if jobs == [] then []
    else if jobs[0].key in told then StoppedJobs(jobs[1..], told)
    else [jobs[0]] + StoppedJobs(jobs[1..], told + {jobs[0].key})
  }

  /** What each conversation is told of the jobs it lost. */
  type Notices = map<Id, string>

  function NoticeFor(notices: Notices, key: Id): string {
    if key in notices then notices[key] else []
  }

  /** The notice for the conversation of `job`. */
  function Telling(job: Job, notices: Notices, from: nat): Pending {
    NewPending(None, job.to, job.key, NoticeFor(notices, job.key), from)
  }

  /** One notice for each of `jobs`. */
  function TellJobs(st: State, jobs: seq<Job>, notices: Notices, from: nat): Stepped
    decreases |jobs|
  {
    if jobs == [] then Stepped(st, from)
    else
      var p := Telling(jobs[0], notices, from);
      TellJobs(st.(pending := st.pending + [p]), jobs[1..], notices, from + |p.clients|)
  }

  /** What a new run makes of the state the last one left. */
  function Recover(st: State, reply: string, notices: Notices, now: nat, from: nat): Stepped {
    var claims := RecoverClaims(st, reply, now, from);
    TellJobs(claims.state.(jobs := []), StoppedJobs(st.jobs, {}), notices, claims.unused)
  }

  /** What only an ordinary chat leaves behind. */
  predicate Ordinary(st: State) {
    st.cursor.Some? || st.seen != [] || st.pending != [] || st.inFlight != [] || st.held != [] || st.jobs != [] || st.removing != []
  }

  function PruneKeys(keys: seq<RecentKey>, now: nat): seq<RecentKey> {
    Last(OnlyRecent(keys, now), MAX_RECENT_KEYS)
  }

  function OnlyRecent(keys: seq<RecentKey>, now: nat): seq<RecentKey> {
    if keys == [] then []
    else if now < keys[0].storedAt + RECENT_KEY_SECONDS then [keys[0]] + OnlyRecent(keys[1..], now)
    else OnlyRecent(keys[1..], now)
  }

  predicate KnownKey(st: State, key: Id) {
    || (exists i :: 0 <= i < |st.keys| && st.keys[i].key == key)
    || (exists i :: 0 <= i < |st.pending| && st.pending[i].noticeKey == Some(key))
  }

  /** Store a mail notice once. */
  function StoreMailNotice(st: State, key: Id, to: Id, text: string, now: nat, from: nat): State {
    if KnownKey(st, key) then st
    else
      st.(pending := st.pending + [NewPending(None, to, to, text, from).(transient := true, noticeKey := Some(key))],
          keys := PruneKeys(st.keys + [RecentKey(key, now)], now))
  }

  /** The oldest reply is done with: its reaction comes off next, its message is seen, and a refused one
      is held. */
  function FinishFirst(st: State, refused: bool, now: nat): State
    requires st.pending != [] && (refused ==> st.pending[0].next <= |Chunks(st.pending[0])|)
  {
    var p := st.pending[0];
    var done := st.(
      pending := st.pending[1..],
      removing := st.removing + if p.reaction.Some? && p.id.Some? then [Reaction(p.id.value, p.reaction.value)] else [],
      held := if refused then HoldRefused(st.held, p, now) else st.held);
    if p.id.Some? then MarkSeen(done, p.id.value) else done
  }
}

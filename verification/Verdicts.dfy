/** What the bridge does with one received message (crates/scv-channels/src/intake.rs), and the loop that
    carries the verdict out (`accept`, crates/scv-channels/src/lib.rs). */
module Verdicts {
  import opened Wrappers
  import opened Ids
  import opened Text
  import opened Seen
  import opened Delivery
  import opened Bridge
  import opened Words
  import Questions

  // ----- conversations

  datatype Media = Media(audio: bool, transcript: Option<string>)

  datatype Message = Message(
    id: Id, sender: string, group: Option<string>, thread: Option<string>, text: string, media: seq<Media>,
    sentMs: Option<nat>)

  const NUL: char := 0 as char

  function ThreadMark(): string { [NUL] + "thread" + [NUL] }

  /** The chat a message is in: the sender's direct chat, or the sender within a group. */
  function ChatKey(m: Message): string {
    if m.group.Some? then m.group.value + ([NUL] + m.sender) else m.sender
  }

  /** The conversation it belongs to: its chat, or a thread in it. */
  function ConversationOf(m: Message): string {
    if m.thread.Some? then ChatKey(m) + (ThreadMark() + m.thread.value) else ChatKey(m)
  }

  /** What comes before the first thread mark; all of it when there is none. */
  function ChatOf(key: string): string {
    if key == [] || ThreadMark() <= key then [] else [key[0]] + ChatOf(key[1..])
  }

  predicate Plain(s: string) {
    NUL !in s
  }

  /** IDs as the platforms make them hold no NUL. */
  predicate PlainIds(m: Message) {
    Plain(m.sender) && (m.group.Some? ==> Plain(m.group.value)) && (m.thread.Some? ==> Plain(m.thread.value))
  }

  /** The pieces of a key between its NULs. */
  function Pieces(s: string): (r: seq<string>)
    ensures r != []
  {
    if s == [] then [[]]
    else if s[0] == NUL then [[]] + Pieces(s[1..])
    else
      var rest := Pieces(s[1..]);
      [[s[0]] + rest[0]] + rest[1..]
  }

  lemma {:induction false} PiecesPlain(s: string)
    requires Plain(s)
    ensures Pieces(s) == [s]
    decreases |s|
  {
    if s != [] {
      PiecesPlain(s[1..]);
      assert [s[0]] + s[1..] == s;
    }
  }

  /** A NUL ends a piece. */
  lemma {:induction false} PiecesSplit(a: string, b: string)
    ensures Pieces(a + ([NUL] + b)) == Pieces(a) + Pieces(b)
    decreases |a|
  {
    if a == [] {
      assert a + ([NUL] + b) == [NUL] + b;
      assert ([NUL] + b)[1..] == b;
    } else {
      PiecesSplit(a[1..], b);
      assert (a + ([NUL] + b))[1..] == a[1..] + ([NUL] + b);
      Fronts(a[0], Pieces(a[1..]), Pieces(b));
    }
  }

  lemma Fronts(c: char, p: seq<string>, q: seq<string>)
    requires p != []
    ensures [[]] + (p + q) == [[]] + p + q
    ensures [[c] + (p + q)[0]] + (p + q)[1..] == [[c] + p[0]] + p[1..] + q
  {
  }

  function Joined(pieces: seq<string>): string
    requires pieces != []
  {
    if |pieces| == 1 then pieces[0] else pieces[0] + ([NUL] + Joined(pieces[1..]))
  }

  /** The pieces determine the text. */
  lemma {:induction false} PiecesJoin(s: string)
    ensures Joined(Pieces(s)) == s
    decreases |s|
  {
    if s != [] {
      PiecesJoin(s[1..]);
      var rest := Pieces(s[1..]);
      if s[0] == NUL {
        assert ([[]] + rest)[1..] == rest;
        assert [] + ([NUL] + s[1..]) == s;
      } else {
        JoinedPush(s[0], rest);
        assert [s[0]] + s[1..] == s;
      }
    }
  }

  lemma JoinedPush(c: char, rest: seq<string>)
    requires rest != []
    ensures Joined([[c] + rest[0]] + rest[1..]) == [c] + Joined(rest)
  {
    var p := [[c] + rest[0]] + rest[1..];
    assert p[1..] == rest[1..];
    assert |rest| > 1 ==> [c] + rest[0] + ([NUL] + Joined(rest[1..])) == [c] + (rest[0] + ([NUL] + Joined(rest[1..])));
  }

  /** The pieces of a message's IDs, and the mark's own word before a thread's. */
  function PiecesOf(m: Message): seq<string> {
    (if m.group.Some? then Pieces(m.group.value) else []) + Pieces(m.sender)
    + (if m.thread.Some? then ["thread"] + Pieces(m.thread.value) else [])
  }

  lemma ThreadPieces(a: string, thread: string)
    ensures Pieces(a + (ThreadMark() + thread)) == Pieces(a) + (["thread"] + Pieces(thread))
  {
    assert Plain("thread");
    hide Pieces;
    assert ThreadMark() + thread == [NUL] + ("thread" + ([NUL] + thread));
    PiecesSplit(a, "thread" + ([NUL] + thread));
    PiecesSplit("thread", thread);
    PiecesPlain("thread");
  }

  lemma KeyPieces(m: Message)
    ensures Pieces(ConversationOf(m)) == PiecesOf(m)
  {
    hide Pieces, ThreadMark;
    if m.group.Some? {
      PiecesSplit(m.group.value, m.sender);
    }
    if m.thread.Some? {
      ThreadPieces(ChatKey(m), m.thread.value);
      Grouped(if m.group.Some? then Pieces(m.group.value) else [], Pieces(m.sender), ["thread"] + Pieces(m.thread.value));
    }
  }

  lemma Grouped(a: seq<string>, b: seq<string>, c: seq<string>)
    ensures a + b + c == a + (b + c) && [] + b == b && b + [] == b
  {
  }

  /** For any IDs, two messages share a conversation exactly when their IDs, read one after the other, have the
      same pieces. */
  lemma SamePieces(a: Message, b: Message)
    ensures ConversationOf(a) == ConversationOf(b) <==> PiecesOf(a) == PiecesOf(b)
  {
    KeyPieces(a);
    KeyPieces(b);
    PiecesJoin(ConversationOf(a));
    PiecesJoin(ConversationOf(b));
    hide Pieces, ConversationOf, PiecesOf;
  }

  /** With IDs that hold no NUL, that is when group, sender and thread agree. */
  lemma SameConversation(a: Message, b: Message)
    requires PlainIds(a) && PlainIds(b)
    ensures ConversationOf(a) == ConversationOf(b) <==> a.group == b.group && a.sender == b.sender && a.thread == b.thread
  {
    SamePieces(a, b);
    PlainPieces(a);
    PlainPieces(b);
    hide Pieces, ConversationOf;
    var p, q := PiecesOf(a), PiecesOf(b);
    hide PiecesOf;
    if p == q {
      assert |p| == |q|;
      assert p[0] == q[0] && p[|p| - 1] == q[|q| - 1] && (|p| > 1 ==> p[1] == q[1]);
    }
  }

  lemma PlainPieces(m: Message)
    requires PlainIds(m)
    ensures var p := PiecesOf(m);
            && p == (if m.group.Some? then [m.group.value] else []) + [m.sender]
                    + (if m.thread.Some? then ["thread", m.thread.value] else [])
            && (m.group.Some? ==> |p| % 2 == 0 && p[0] == m.group.value && p[1] == m.sender)
            && (m.group.None? ==> |p| % 2 == 1 && p[0] == m.sender)
            && (m.thread.Some? ==> |p| > 2 && p[|p| - 1] == m.thread.value) && (m.thread.None? ==> |p| <= 2)
  {
    hide Pieces;
    PiecesPlain(m.sender);
    if m.group.Some? {
      PiecesPlain(m.group.value);
    }
    if m.thread.Some? {
      PiecesPlain(m.thread.value);
      assert ["thread"] + [m.thread.value] == ["thread", m.thread.value];
    }
  }

  /** With a NUL in an ID that fails: every conversation in a group has the key of a direct chat. */
  lemma NulCollides(m: Message)
    requires m.group.Some?
    ensures var direct := m.(group := None, sender := m.group.value + ([NUL] + m.sender));
            direct.group != m.group && ConversationOf(direct) == ConversationOf(m)
  {
  }

  lemma {:induction false} ChatOfSkips(a: string, rest: string)
    requires Plain(a)
    ensures ChatOf(a + rest) == a + ChatOf(rest)
    decreases |a|
  {
    if a == [] {
      assert a + rest == rest;
    } else {
      ChatOfSkips(a[1..], rest);
      assert (a + rest)[1..] == a[1..] + rest;
      assert (a + rest)[0] != NUL && ThreadMark()[0] == NUL;
      assert [a[0]] + (a[1..] + ChatOf(rest)) == a + ChatOf(rest);
    }
  }

  lemma ChatOfMark(rest: string)
    ensures ChatOf(ThreadMark() + rest) == [] && ChatOf([]) == []
  {
  }

  /** A thread mark right before a sender is the sender's own name, followed by a mark. */
  lemma MarkBefore(sender: string, tail: string)
    requires Plain(sender) && (tail == [] || tail[0] == NUL)
    ensures ThreadMark() <= [NUL] + (sender + tail) <==> sender == "thread" && tail != []
  {
    var s, mark := [NUL] + (sender + tail), ThreadMark();
    hide Pieces;
    SenderPieces(sender, tail);
    if mark <= s {
      MarkPieces(s[|mark|..]);
      assert s == mark + s[|mark|..];
    }
    if sender == "thread" && tail != [] {
      assert s == mark + tail[1..];
    }
  }

  lemma SenderPieces(sender: string, tail: string)
    requires Plain(sender) && (tail == [] || tail[0] == NUL)
    ensures var p := Pieces([NUL] + (sender + tail)); |p| > 1 && p[1] == sender && (tail == [] ==> |p| == 2)
  {
    hide Pieces;
    NulPieces(sender + tail);
    PiecesPlain(sender);
    if tail == [] {
      assert sender + tail == sender;
    } else {
      assert tail == [NUL] + tail[1..];
      PiecesSplit(sender, tail[1..]);
    }
  }

  lemma MarkPieces(x: string)
    ensures var p := Pieces(ThreadMark() + x); |p| > 2 && p[1] == "thread"
  {
    assert Plain("thread");
    hide Pieces;
    assert ThreadMark() + x == [NUL] + ("thread" + ([NUL] + x));
    NulPieces("thread" + ([NUL] + x));
    PiecesSplit("thread", x);
    PiecesPlain("thread");
  }

  lemma NulPieces(s: string)
    ensures Pieces([NUL] + s) == [[]] + Pieces(s)
  {
    assert ([NUL] + s)[1..] == s;
  }

  lemma DirectReadBack(sender: string, tail: string)
    requires Plain(sender) && ChatOf(tail) == []
    ensures ChatOf(sender + tail) == sender
  {
    hide ChatOf, ThreadMark;
    ChatOfSkips(sender, tail);
    assert sender + [] == sender;
  }

  lemma AfterNul(s: string)
    ensures ChatOf([NUL] + s) == if ThreadMark() <= [NUL] + s then [] else [NUL] + ChatOf(s)
  {
    assert ([NUL] + s)[1..] == s;
  }

  lemma GroupReadBack(group: string, sender: string, tail: string)
    requires Plain(group) && Plain(sender) && ChatOf(tail) == [] && (tail == [] || tail[0] == NUL)
    ensures ChatOf(group + ([NUL] + (sender + tail)))
         == if sender == "thread" && tail != [] then group else group + ([NUL] + sender)
  {
    MarkBefore(sender, tail);
    DirectReadBack(sender, tail);
    AfterNul(sender + tail);
    hide ChatOf, ThreadMark;
    ChatOfSkips(group, [NUL] + (sender + tail));
    assert group + [] == group;
  }

  /** The mark stands somewhere in `s`. */
  predicate HasMark(s: string) {
    s != [] && (ThreadMark() <= s || HasMark(s[1..]))
  }

  lemma MarkFits(a: string, tail: string)
    requires a != [] && (tail == [] || ThreadMark() <= tail)
    ensures ThreadMark() <= a + tail <==> ThreadMark() <= a + if tail == [] then [] else [NUL]
  {
    var mark := ThreadMark();
    assert |mark| == 8 && mark[0] == NUL && mark[7] == NUL && forall i :: 1 <= i < 7 ==> mark[i] == "thread"[i - 1] && mark[i] != NUL;
    var whole, front := a + tail, a + if tail == [] then [] else [NUL];
    assert front <= whole;
    if mark <= whole {
      assert |a| < 8 ==> whole[|a|] == mark[|a|];
      assert |a| < 8 ==> whole[|a|] == tail[0] == NUL;
      assert |a| >= 7;
      assert forall i :: 0 <= i < 8 ==> front[i] == whole[i];
    }
  }

  /** A chat is read back from a conversation in it exactly when no mark ends before the thread's own does. */
  lemma {:induction false} ReadBack(a: string, tail: string)
    requires tail == [] || ThreadMark() <= tail
    ensures ChatOf(a + tail) == a <==> !HasMark(a + if tail == [] then [] else [NUL])
    decreases |a|
  {
    var front := if tail == [] then [] else [NUL];
    if a == [] {
      assert a + tail == tail && a + front == front;
      assert |ThreadMark()| == 8;
      assert !HasMark([]);
      assert [NUL][1..] == [];
    } else {
      MarkFits(a, tail);
      assert (a + tail)[1..] == a[1..] + tail && (a + front)[1..] == a[1..] + front;
      ReadBack(a[1..], tail);
      assert [a[0]] + a[1..] == a;
    }
  }

  /** For any IDs, a conversation's chat is read back from its key exactly when its chat, up to the first NUL
      of its thread's mark, holds no mark. */
  lemma ChatReadBackWhen(m: Message)
    ensures ChatOf(ConversationOf(m)) == ChatKey(m) <==> !HasMark(ChatKey(m) + if m.thread.Some? then [NUL] else [])
  {
    var tail := if m.thread.Some? then ThreadMark() + m.thread.value else [];
    ReadBack(ChatKey(m), tail);
    hide ChatOf, HasMark;
    assert ChatKey(m) + [] == ChatKey(m);
  }

  /** The chat of a conversation is read back from its key, except in a group's thread by a sender whose
      ID is the mark's own word. */
  lemma ChatReadBack(m: Message)
    requires PlainIds(m)
    ensures ChatOf(ConversationOf(m)) == ChatKey(m) <==> !(m.group.Some? && m.thread.Some? && m.sender == "thread")
  {
    var tail := if m.thread.Some? then ThreadMark() + m.thread.value else [];
    ChatOfMark(if m.thread.Some? then m.thread.value else []);
    assert tail != [] ==> tail[0] == NUL;
    hide ChatOf, ThreadMark;
    if m.group.Some? {
      GroupReadBack(m.group.value, m.sender, tail);
      Regrouped(m.group.value, m.sender, tail);
    } else {
      DirectReadBack(m.sender, tail);
      assert m.sender + [] == m.sender;
    }
  }

  /** Every group's thread by a sender with the ID "thread" reads back as the group alone. */
  lemma ThreadSenderMisread(m: Message)
    requires PlainIds(m) && m.group.Some? && m.thread.Some? && m.sender == "thread"
    ensures ChatOf(ConversationOf(m)) == m.group.value != ChatKey(m)
  {
    var tail := ThreadMark() + m.thread.value;
    ChatOfMark(m.thread.value);
    assert tail[0] == NUL;
    hide ChatOf, ThreadMark;
    GroupReadBack(m.group.value, m.sender, tail);
    Regrouped(m.group.value, m.sender, tail);
  }

  lemma Regrouped(group: string, sender: string, tail: string)
    ensures group + ([NUL] + (sender + tail)) == group + ([NUL] + sender) + tail
    ensures group + ([NUL] + sender) + [] == group + ([NUL] + sender) && |group + ([NUL] + sender)| > |group|
  {
  }

  // ----- the verdict

  const MAX_CLAIMS := 64
  const MAX_QUEUED := 8
  const MAX_SESSIONS := 32

  datatype Inbound = Said(message: Message) | Other(id: Id)

  function IdOf(inbound: Inbound): Id {
    if inbound.Said? then inbound.message.id else inbound.id
  }

  /** A live conversation, in the order the session table lists them. */
  datatype Live = Live(key: Id, lastUsed: nat, watching: bool)

  /** What a verdict is based on. `tools` is the owner who holds remote tools. */
  datatype Situation = Situation(
    state: State, live: seq<Live>, owner: Option<string>, tools: Option<string>, ownerOnly: bool, question: Option<nat>)

  datatype Verdict =
    | Pass | AlreadyHere | Stranger
    | Busy(key: Id) | Unheard(key: Id) | Answers(key: Id, yes: bool)
    | Turn(key: Id, tools: bool, evict: Option<Id>)

  function KeyOf(m: Message): Id {
    Id(ConversationOf(m))
  }

  predicate OwnerChat(x: Situation, m: Message) {
    m.group.None? && x.owner == Some(m.sender)
  }

  predicate IsUnheard(m: Message) {
    && Blank(m.text) && m.media != []
    && forall i :: 0 <= i < |m.media| ==>
         m.media[i].audio && (m.media[i].transcript.None? || Blank(m.media[i].transcript.value))
  }

  function ClaimsOf(claims: seq<Claim>, key: Id): nat {
    if claims == [] then 0 else (if claims[0].key == key then 1 else 0) + ClaimsOf(claims[1..], key)
  }

  predicate Evictable(claims: seq<Claim>, c: Live) {
    ClaimsOf(claims, c.key) == 0 && !c.watching
  }

  /** The least recently used conversation with nothing waiting and no background work. */
  function ToEvict(claims: seq<Claim>, live: seq<Live>): Option<Live> {
    if live == [] then None
    else
      var rest := ToEvict(claims, live[1..]);
      if Evictable(claims, live[0]) && (rest.None? || live[0].lastUsed <= rest.value.lastUsed) then Some(live[0]) else rest
  }

  predicate IsLive(live: seq<Live>, key: Id) {
    exists i :: 0 <= i < |live| && live[i].key == key
  }

  function Evicting(x: Situation, key: Id): Option<Id> {
    if IsLive(x.live, key) || |x.live| < MAX_SESSIONS then None
    else
      var e := ToEvict(x.state.inFlight, x.live);
      if e.Some? then Some(e.value.key) else None
  }

  predicate HasRoom(x: Situation, key: Id) {
    && |x.state.inFlight| < MAX_CLAIMS && ClaimsOf(x.state.inFlight, key) < MAX_QUEUED
    && (IsLive(x.live, key) || |x.live| < MAX_SESSIONS || Evicting(x, key).Some?)
  }

  predicate IsAnswer(x: Situation, m: Message) {
    && x.question.Some? && OwnerChat(x, m) && m.thread.None? && m.media == []
    && m.sentMs.Some? && m.sentMs.value >= x.question.value && AnswerIn(m.text).Some?
  }

  function Classify(inbound: Inbound, x: Situation): Verdict {
    var id := IdOf(inbound);
    if id in x.state.seen then Pass
    else if Known(x.state, id) then AlreadyHere
    else if inbound.Other? then Pass
    else
      var m := inbound.message;
      if x.ownerOnly && x.owner != Some(m.sender) then Stranger
      else if IsAnswer(x, m) then Answers(KeyOf(m), AnswerIn(m.text).value)
      else if IsUnheard(m) then Unheard(KeyOf(m))
      else if HasRoom(x, KeyOf(m)) then
        Turn(KeyOf(m), m.group.None? && x.tools == Some(m.sender), Evicting(x, KeyOf(m)))
      else Busy(KeyOf(m))
  }

  lemma {:induction false} EvictsOldest(claims: seq<Claim>, live: seq<Live>)
    ensures var e := ToEvict(claims, live);
            && (e.Some? ==> e.value in live && Evictable(claims, e.value))
            && (forall i :: 0 <= i < |live| && Evictable(claims, live[i]) ==> e.Some? && e.value.lastUsed <= live[i].lastUsed)
    decreases |live|
  {
    hide Evictable;
    if live != [] {
      EvictsOldest(claims, live[1..]);
      forall i | 0 <= i < |live| && Evictable(claims, live[i])
        ensures var e := ToEvict(claims, live); e.Some? && e.value.lastUsed <= live[i].lastUsed
      {
        assert i > 0 ==> live[i] == live[1..][i - 1];
      }
    }
  }

  // ----- when each verdict is given

  predicate IsStranger(x: Situation, m: Message) {
    x.ownerOnly && x.owner != Some(m.sender)
  }

  /** The owner, in the direct chat itself and in plain words, after the question reached them. */
  ghost predicate AnswersQuestion(x: Situation, m: Message) {
    && x.question.Some? && m.sentMs.Some? && x.question.value <= m.sentMs.value
    && m.group.None? && x.owner == Some(m.sender) && m.thread.None? && m.media == []
    && (SaysYes(m.text) || SaysNo(m.text))
  }

  ghost predicate SaysYes(text: string) {
    exists word :: MeansYes(word) && Says(text, word)
  }

  ghost predicate SaysNo(text: string) {
    exists word :: MeansNo(word) && Says(text, word)
  }

  /** Nothing but voice that nobody transcribed. */
  predicate OnlyVoice(m: Message) {
    && Blank(m.text) && m.media != []
    && forall media :: media in m.media ==> media.audio && (media.transcript.Some? ==> Blank(media.transcript.value))
  }

  function KeysOf(claims: seq<Claim>): seq<Id> {
    seq(|claims|, i requires 0 <= i < |claims| => claims[i].key)
  }

  /** Nothing waits for the conversation and it has no work in the background. */
  predicate IsIdle(claims: seq<Claim>, c: Live) {
    c.key !in KeysOf(claims) && !c.watching
  }

  /** Fewer than 64 claims, fewer than 8 of the conversation's own, and a place among 32 live conversations: its own, a
      free one, or one of an idle conversation. */
  ghost predicate FindsRoom(x: Situation, key: Id) {
    && |x.state.inFlight| < 64 && multiset(KeysOf(x.state.inFlight))[key] < 8
    && (|| (exists c :: c in x.live && c.key == key) || |x.live| < 32
        || exists c :: c in x.live && IsIdle(x.state.inFlight, c))
  }

  lemma {:induction false} ClaimsAre(claims: seq<Claim>, key: Id)
    ensures ClaimsOf(claims, key) == multiset(KeysOf(claims))[key]
    decreases |claims|
  {
    if claims != [] {
      ClaimsAre(claims[1..], key);
      assert KeysOf(claims) == [claims[0].key] + KeysOf(claims[1..]);
    }
  }

  lemma EvictableIs(claims: seq<Claim>, c: Live)
    ensures Evictable(claims, c) <==> IsIdle(claims, c)
  {
    ClaimsAre(claims, c.key);
    hide ClaimsOf, KeysOf;
    assert c.key in multiset(KeysOf(claims)) <==> c.key in KeysOf(claims);
  }

  lemma RoomIs(x: Situation, key: Id)
    ensures HasRoom(x, key) <==> FindsRoom(x, key)
  {
    ClaimsAre(x.state.inFlight, key);
    EvictsOldest(x.state.inFlight, x.live);
    hide ClaimsOf, KeysOf, Evictable, IsIdle, ToEvict;
    forall c ensures Evictable(x.state.inFlight, c) <==> IsIdle(x.state.inFlight, c) {
      EvictableIs(x.state.inFlight, c);
    }
    assert forall c :: c in x.live ==> exists i :: 0 <= i < |x.live| && x.live[i] == c;
  }

  lemma AnswerIsRead(x: Situation, m: Message)
    ensures IsAnswer(x, m) <==> AnswersQuestion(x, m)
    ensures IsAnswer(x, m) ==> (AnswerIn(m.text).value <==> SaysYes(m.text))
  {
    AnswerSays(m.text);
    hide AnswerIn, Says, MeansYes, MeansNo;
    if AnswerIn(m.text).Some? {
      assert AnswerIn(m.text) == if AnswerIn(m.text).value then Some(true) else Some(false);
    }
  }

  lemma VoiceIs(m: Message)
    ensures IsUnheard(m) <==> OnlyVoice(m)
  {
    hide Blank;
    assert forall media :: media in m.media ==> exists i :: 0 <= i < |m.media| && m.media[i] == media;
  }

  /** Exactly when each verdict is given to a message. */
  lemma VerdictWhen(m: Message, x: Situation)
    ensures var v, isNew := Classify(Said(m), x), !Known(x.state, m.id);
            && (v.Pass? <==> m.id in x.state.seen)
            && (v.AlreadyHere? <==> m.id !in x.state.seen && Known(x.state, m.id))
            && (v.Stranger? <==> isNew && IsStranger(x, m))
            && (v.Answers? <==> isNew && !IsStranger(x, m) && AnswersQuestion(x, m))
            && (v.Unheard? <==> isNew && !IsStranger(x, m) && !AnswersQuestion(x, m) && OnlyVoice(m))
            && (v.Turn? <==> isNew && !IsStranger(x, m) && !AnswersQuestion(x, m) && !OnlyVoice(m) && FindsRoom(x, KeyOf(m)))
            && (v.Busy? <==> isNew && !IsStranger(x, m) && !AnswersQuestion(x, m) && !OnlyVoice(m) && !FindsRoom(x, KeyOf(m)))
  {
    SeenKnown(x.state, m.id);
    AnswerIsRead(x, m);
    VoiceIs(m);
    RoomIs(x, KeyOf(m));
    hide Known, IsAnswer, IsUnheard, HasRoom, AnswersQuestion, OnlyVoice, FindsRoom, AnswerIn, Evicting, KeyOf;
  }

  /** What is no message is passed over. */
  lemma OtherPassed(id: Id, x: Situation)
    ensures Classify(Other(id), x) == if Known(x.state, id) && id !in x.state.seen then AlreadyHere else Pass
  {
    SeenKnown(x.state, id);
    hide Known;
  }

  /** The least recently used of the idle conversations. */
  ghost predicate IsOldestIdle(x: Situation, c: Live) {
    && c in x.live && IsIdle(x.state.inFlight, c)
    && forall d :: d in x.live && IsIdle(x.state.inFlight, d) ==> c.lastUsed <= d.lastUsed
  }

  /** What a verdict says: the conversation; for an answer, yes exactly if it is a word for yes; for a turn, tools
      exactly in a direct chat of the owner who has them, and the least recently used idle conversation to close
      exactly when there is no other place. */
  lemma VerdictSays(m: Message, x: Situation)
    ensures var v := Classify(Said(m), x);
            && (v.Busy? || v.Unheard? || v.Answers? || v.Turn? ==> v.key == Id(ConversationOf(m)))
            && (v.Answers? ==> (v.yes <==> SaysYes(m.text)))
            && (v.Turn? ==>
                  && (v.tools <==> m.group.None? && x.tools == Some(m.sender))
                  && (v.evict.Some? <==> |x.live| >= 32 && forall c :: c in x.live ==> c.key != v.key)
                  && (v.evict.Some? ==> exists c :: IsOldestIdle(x, c) && c.key == v.evict.value))
  {
    AnswerIsRead(x, m);
    if Classify(Said(m), x).Turn? {
      TurnHasRoom(Said(m), x);
      PlaceIs(x, KeyOf(m));
    }
    hide Known, IsAnswer, IsUnheard, HasRoom, AnswerIn, Evicting;
  }

  lemma PlaceIs(x: Situation, key: Id)
    requires HasRoom(x, key)
    ensures Evicting(x, key).Some? <==> |x.live| >= 32 && forall c :: c in x.live ==> c.key != key
    ensures Evicting(x, key).Some? ==> exists c :: IsOldestIdle(x, c) && c.key == Evicting(x, key).value
  {
    EvictsOldest(x.state.inFlight, x.live);
    hide ToEvict, ClaimsOf, Evictable, IsIdle;
    forall c ensures Evictable(x.state.inFlight, c) <==> IsIdle(x.state.inFlight, c) {
      EvictableIs(x.state.inFlight, c);
    }
    assert forall c :: c in x.live ==> exists i :: 0 <= i < |x.live| && x.live[i] == c;
    if Evicting(x, key).Some? {
      assert IsOldestIdle(x, ToEvict(x.state.inFlight, x.live).value);
    }
    assert IsLive(x.live, key) <==> exists c :: c in x.live && c.key == key;
  }

  /** An account for its owner alone runs, answers and excuses nobody else's messages. */
  lemma OnlyOwner(m: Message, x: Situation)
    requires x.ownerOnly && x.owner != Some(m.sender)
    ensures var v := Classify(Said(m), x); v.Pass? || v.AlreadyHere? || v.Stranger?
  {
    hide Known, IsAnswer, IsUnheard, HasRoom, Evicting;
  }

  // ----- carrying a verdict out

  /** The conversations live once a turn's verdict is carried out. */
  function LiveKeys(live: seq<Live>): set<Id> {
    set c | c in live :: c.key
  }

  predicate DistinctKeys(live: seq<Live>) {
    forall i, j :: 0 <= i < j < |live| ==> live[i].key != live[j].key
  }

  lemma {:induction false} CountLive(live: seq<Live>)
    requires DistinctKeys(live)
    ensures |LiveKeys(live)| == |live|
    decreases |live|
  {
    if live != [] {
      CountLive(live[1..]);
      assert LiveKeys(live) == LiveKeys(live[1..]) + {live[0].key};
      assert live[0].key !in LiveKeys(live[1..]);
    }
  }

  lemma ClaimsGrow(claims: seq<Claim>, c: Claim, key: Id)
    ensures ClaimsOf(claims + [c], key) == ClaimsOf(claims, key) + if c.key == key then 1 else 0
  {
    if claims == [] {
      assert (claims + [c])[1..] == [];
    } else {
      ClaimsGrow(claims[1..], c, key);
      assert (claims + [c])[1..] == claims[1..] + [c];
    }
  }

  /** A turn's verdict keeps every limit: claims in all, claims of one conversation, and live sessions, of
      which it closes only one with nothing to do. It is given only for a message the state does not hold. */
  lemma TurnWithinLimits(inbound: Inbound, x: Situation, claim: Claim)
    requires Classify(inbound, x).Turn? && claim.key == Classify(inbound, x).key && DistinctKeys(x.live)
    requires |x.live| <= MAX_SESSIONS && forall key :: ClaimsOf(x.state.inFlight, key) <= MAX_QUEUED
    ensures var v := Classify(inbound, x);
            var closed := if v.evict.Some? then {v.evict.value} else {};
            && !Known(x.state, IdOf(inbound))
            && |x.state.inFlight + [claim]| <= MAX_CLAIMS
            && (forall key :: ClaimsOf(x.state.inFlight + [claim], key) <= MAX_QUEUED)
            && |LiveKeys(x.live) - closed + {v.key}| <= MAX_SESSIONS
            && (v.evict.Some? ==> ClaimsOf(x.state.inFlight, v.evict.value) == 0)
  {
    hide Known, IsAnswer, IsUnheard;
    var v := Classify(inbound, x);
    assert !Known(x.state, IdOf(inbound)) by { SeenKnown(x.state, IdOf(inbound)); }
    hide Classify;
    assert HasRoom(x, v.key) && v.evict == Evicting(x, v.key) by { TurnHasRoom(inbound, x); }
    EvictsOldest(x.state.inFlight, x.live);
    CountLive(x.live);
    forall key ensures ClaimsOf(x.state.inFlight + [claim], key) <= MAX_QUEUED {
      ClaimsGrow(x.state.inFlight, claim, key);
    }
    var keys := LiveKeys(x.live);
    if IsLive(x.live, v.key) {
      assert v.key in keys;
      assert keys + {v.key} == keys;
      assert keys - {} + {v.key} == keys;
    } else if v.evict.Some? {
      assert v.evict.value in keys;
      assert |keys - {v.evict.value}| == |keys| - 1;
    } else {
      assert keys - {} == keys;
    }
  }

  lemma SeenKnown(st: State, id: Id)
    ensures id in st.seen ==> Known(st, id)
  {
  }

  lemma TurnHasRoom(inbound: Inbound, x: Situation)
    requires Classify(inbound, x).Turn?
    ensures var v := Classify(inbound, x); HasRoom(x, v.key) && v.evict == Evicting(x, v.key)
  {
  }

  /** Exactly when a message answers the waiting question. */
  lemma AnswersWhen(inbound: Inbound, x: Situation)
    ensures Classify(inbound, x).Answers? <==>
              && inbound.Said? && !Known(x.state, IdOf(inbound)) && IsAnswer(x, inbound.message)
    ensures x.question.None? ==> !Classify(inbound, x).Answers?
  {
    SeenKnown(x.state, IdOf(inbound));
    hide Known, AnswerIn, IsUnheard, HasRoom;
  }

  /** What a task's subscription says to a message it is offered: it runs as a turn, the task took it, the task
      cannot be resumed, or the subscription could not record it. */
  datatype FollowUp = AsTurn | Taken | Unresumable | Unstored

  /** Only a message that would run, or that finds the bridge busy, is offered. */
  predicate Offered(v: Verdict) {
    v.Turn? || v.Busy?
  }

  /** What follows once a message is heard, with `text` as the answer. */
  function Carrying(to: Id, v: Verdict, follow: FollowUp, text: string): Event
    requires !v.AlreadyHere?
  {
    if Offered(v) && follow.Taken? then Ignore
    else if Offered(v) && follow.Unresumable? then AnswerSeen(to, v.key, text)
    else if Offered(v) && follow.Unstored? then Crash
    else if v.Turn? then TakeOn(to, v.key)
    else if v.Pass? || v.Stranger? then Ignore
    else Answer(to, v.key, text)
  }

  /** The steps that carry a verdict out in an ordinary chat. */
  function StepsOf(id: Id, to: Id, v: Verdict, follow: FollowUp, seen: bool, text: string): seq<Event> {
    if v.AlreadyHere? then []
    else if seen then [Again(id)]
    else [Hear(id), Carrying(to, v, follow, text)]
  }

  /** One reply more, to the message. */
  predicate Answered(was: State, now: State, id: Id, to: Id, key: Id, text: string) {
    && now.inFlight == was.inFlight && |now.pending| == |was.pending| + 1
    && now.pending[..|was.pending|] == was.pending
    && now.pending[|was.pending|].id == Some(id) && now.pending[|was.pending|].reply == text
    && now.pending[|was.pending|].to == to && now.pending[|was.pending|].key == key
  }

  /** What the state is after a verdict. */
  predicate CarriedOut(was: State, now: State, id: Id, to: Id, text: string, v: Verdict, follow: FollowUp) {
    if v.AlreadyHere? then now == was
    else if Offered(v) && follow.Taken? then now == MarkSeen(was, id)
    else if Offered(v) && follow.Unresumable? then Answered(was, now, id, to, v.key, text) && now.seen == MarkSeen(was, id).seen
    else if Offered(v) && follow.Unstored? then now == was
    else if v.Pass? || v.Stranger? then now == MarkSeen(was, id)
    else if v.Turn? then now == was.(inFlight := was.inFlight + [Claim(id, to, v.key, None)])
    else Answered(was, now, id, to, v.key, text) && now.seen == was.seen
  }

  lemma TwoSteps(s: System, a: Event, b: Event)
    requires Enabled(s, a) && Enabled(Next(s, a), b)
    ensures IsRun(s, [a, b]) && After(s, [a, b]) == Next(Next(s, a), b)
  {
    hide Enabled, Next;
    assert [a, b][1..] == [b];
    RunOne(Next(s, a), b);
  }

  lemma CrashIs(s: System)
    requires s.up
    ensures Enabled(s, Crash) && Next(s, Crash) == Down(s)
  {
    hide MayDeliver, MayHear, MayWork, Deliver, Intake, Work, Started, Untied, Ordinary;
  }

  /** Hearing a message and then ignoring it, answering it, taking it on, or ending the run. */
  lemma HeardThen(s: System, id: Id, e: Event)
    requires s.up && s.hearing.None? && !s.mem.mail && !Known(s.mem, id)
    requires e.Ignore? || e.Answer? || e.AnswerSeen? || e.TakeOn? || e.Crash?
    ensures e.Crash? || MayHear(s.(hearing := Some(id)), e)
    ensures IsRun(s, [Hear(id), e])
    ensures After(s, [Hear(id), e]) == if e.Crash? then Down(s.(hearing := Some(id))) else Intake(s.(hearing := Some(id)), e)
  {
    var h := s.(hearing := Some(id));
    IntakeStep(s, Hear(id));
    if e.Crash? {
      CrashIs(h);
    } else {
      IntakeStep(h, e);
    }
    assert Intake(s, Hear(id)) == h;
    hide Known, Enabled, Next, Down, Intake, MayHear, IsRun, After;
    TwoSteps(s, Hear(id), e);
  }

  /** Each verdict is carried out by its steps: a message that is passed over, refused or taken by a task is
      marked, one that is answered gets a reply and no claim, one to run gets its claim and nothing else, and one
      that is held already changes nothing. */
  lemma VerdictsAreSteps(inbound: Inbound, x: Situation, s: System, to: Id, follow: FollowUp, text: string)
    requires x.state == s.mem && s.up && s.hearing.None? && !s.mem.mail
    ensures var v, id := Classify(inbound, x), IdOf(inbound);
            var steps := StepsOf(id, to, v, follow, id in s.mem.seen, text);
            && IsRun(s, steps)
            && CarriedOut(s.mem, After(s, steps).mem, id, to, text, v, follow)
  {
    var v, id := Classify(inbound, x), IdOf(inbound);
    VerdictKnown(inbound, x);
    hide Known, Mark, Next, Enabled, Classify, MarkSeen;
    if v.AlreadyHere? {
      NoEvents(s);
    } else if id in s.mem.seen {
      AgainIs(s, id);
    } else {
      var e := Carrying(to, v, follow, text);
      HeardThen(s, id, e);
      HeardCarries(s, id, to, text, v, follow);
      hide IsRun, After, Intake, CarriedOut, Down, Carrying;
    }
  }

  /** What is held already is passed over, and nothing else is. */
  lemma VerdictKnown(inbound: Inbound, x: Situation)
    ensures var v, id := Classify(inbound, x), IdOf(inbound);
            && (id in x.state.seen ==> v.Pass?) && (v.AlreadyHere? <==> Known(x.state, id) && id !in x.state.seen)
  {
    SeenKnown(x.state, IdOf(inbound));
    hide Known, IsAnswer, IsUnheard, HasRoom;
  }

  lemma AnsweredThen(s: System, id: Id, e: Event)
    requires s.up && !s.mem.mail && (e.Answer? || e.AnswerSeen?)
    ensures var now := Intake(s.(hearing := Some(id)), e).mem;
            Answered(s.mem, now, id, e.to, e.key, e.text) && now.seen == if e.Answer? then s.mem.seen else MarkSeen(s.mem, id).seen
  {
    hide Known, Mark, Split, FreshIds;
  }

  lemma OtherwiseThen(s: System, id: Id, e: Event)
    requires s.up && !s.mem.mail && (e.Ignore? || e.TakeOn?)
    ensures var now := Intake(s.(hearing := Some(id)), e).mem;
            now == if e.Ignore? then MarkSeen(s.mem, id)
                   else s.mem.(inFlight := s.mem.inFlight + [Claim(id, e.to, e.key, None)])
  {
    hide Known, Mark;
  }

  lemma HeardCarries(s: System, id: Id, to: Id, text: string, v: Verdict, follow: FollowUp)
    requires s.up && !s.mem.mail && !v.AlreadyHere?
    ensures var e, h := Carrying(to, v, follow, text), s.(hearing := Some(id));
            if e.Crash? then CarriedOut(s.mem, Down(h).mem, id, to, text, v, follow)
            else OfIntake(e) && MayHear(h, e) && CarriedOut(s.mem, Intake(h, e).mem, id, to, text, v, follow)
  {
    var e := Carrying(to, v, follow, text);
    hide Known, MarkSeen, Answered, Intake;
    if e.Answer? || e.AnswerSeen? {
      AnsweredThen(s, id, e);
    } else if !e.Crash? {
      OtherwiseThen(s, id, e);
    }
  }

  lemma AgainIs(s: System, id: Id)
    requires s.up && s.hearing.None? && id in s.mem.seen
    ensures IsRun(s, [Again(id)]) && After(s, [Again(id)]).mem == MarkSeen(s.mem, id)
  {
    hide Deliver, Work, Mark;
    assert [Again(id)][1..] == [];
  }

  /** Classify until a verdict stands. The question may be gone, or another may wait, by the time it is to be
      taken: `held` is when the one held then reached the chat. */
  method Accept(inbound: Inbound, x: Situation, held: Option<nat>) returns (verdict: Verdict, taken: bool, rounds: nat)
    ensures rounds <= 2
    ensures taken <==> verdict.Answers?
    ensures taken ==> inbound.Said? && inbound.message.sentMs.Some? && Questions.InTime(held, inbound.message.sentMs.value)
    ensures taken <==> Classify(inbound, x).Answers? && Questions.InTime(held, inbound.message.sentMs.value)
    ensures !taken ==> verdict == Classify(inbound, if rounds == 2 then x.(question := None) else x)
    ensures rounds == 2 <==> Classify(inbound, x).Answers? && !taken
  {
    hide Classify, IsAnswer;
    var question := x.question;
    verdict, taken, rounds := Pass, false, 0;
    while true
      invariant !taken && rounds <= 1 && (rounds == 0 ==> question == x.question)
      invariant rounds == 1 ==> question.None? && Classify(inbound, x).Answers?
      invariant rounds == 1 ==> inbound.Said? && inbound.message.sentMs.Some? && !Questions.InTime(held, inbound.message.sentMs.value)
      decreases 2 - rounds
    {
      verdict := Classify(inbound, x.(question := question));
      AnswersWhen(inbound, x.(question := question));
      rounds := rounds + 1;
      assert rounds == 1 ==> x.(question := question) == x;
      if !verdict.Answers? {
        return;
      }
      assert inbound.message.sentMs.Some? by { AnswerHasTime(inbound, x); }
      if Questions.InTime(held, inbound.message.sentMs.value) {
        taken := true;
        return;
      }
      question := None;
    }
  }

  lemma AnswerHasTime(inbound: Inbound, x: Situation)
    requires Classify(inbound, x).Answers?
    ensures inbound.Said? && inbound.message.sentMs.Some?
  {
    AnswersWhen(inbound, x);
    hide Classify;
  }
}

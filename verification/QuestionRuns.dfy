/** Every run of the hub and the bridges that answer its questions: an owner's message takes the question,
    the bridge saves the acknowledgement as the message's reply, and only then is the answer given
    (crates/scv-channels/src/hub.rs; `accept` and `acknowledge`, crates/scv-channels/src/lib.rs). */
module QuestionRuns {
  import opened Wrappers
  import opened Ids
  import opened Questions
  import Bridge
  import Delivery
  import Text
  import BridgeClaims
  import BridgeParts
  import BridgeRuns

  /** How a question was settled. An answer is lost if its acknowledgement is not saved, or if the run that
      holds it ends first. */
  datatype How = Answered(yes: bool, sentMs: nat, component: Id, message: Id) | LostAnswer | Undelivered | Withdrawn

  /** A question's text reached its chat as the reply `entry` of the account `component`, or a question was
      settled. */
  datatype Entry = Reached(id: Id, at: nat, component: Id, entry: Delivery.Pending) | Settling(id: Id, how: How)

  /** An answer in a bridge's hands: the question it took, the message that answers it, and whether the
      bridge is past saving the acknowledgement. */
  datatype Hand = Hand(question: Id, message: Id, yes: bool, sentMs: nat, past: bool)

  /** The hub's questions, each account's bridge, the answers they hold, and what happened. */
  datatype World = World(
    waiting: Waiting, bridges: map<Id, Bridge.System>, hands: map<Id, Hand>, asked: set<Id>, log: seq<Entry>)

  function Start(components: set<Id>): World {
    World(map[], map component | component in components :: Bridge.START, map[], {}, [])
  }

  datatype Event =
    | Ask(id: Id, chat: Chat)
    | Withdraw(id: Id)
    | Deliver(component: Id, id: Id, now: nat)
    | Refuse(component: Id, id: Id)
    | Step(component: Id, e: Bridge.Event)
    | Take(chat: Chat, sentMs: nat, yes: bool)
    | Acknowledge(component: Id, to: Id, key: Id, text: string, ok: bool)
    | Give(component: Id)
    | Lose(component: Id)

  /** The bridge is about to say that it is done with the text of question `id`. */
  predicate Asks(s: Bridge.System, id: Id) {
    s.up && s.sending.Some? && s.sending.value.entry.question == Some(id)
  }

  /** Questions have fresh IDs. A bridge says that a question reached the chat when it sent the last part of its
      text, and that it did not when one was refused. A bridge takes a question for the message it hears, and holds
      its state until it saved the acknowledgement, or failed to and ends; then it gives the answer. */
  predicate Enabled(w: World, e: Event) {
    match e
    case Ask(id, _) => id !in w.asked
    case Deliver(component, id, _) =>
      component in w.bridges && Asks(w.bridges[component], id) && Bridge.TextDone(w.bridges[component])
    case Refuse(component, id) =>
      component in w.bridges && Asks(w.bridges[component], id) && w.bridges[component].sending.value.refused
    case Step(component, e) =>
      && component in w.bridges && Bridge.Enabled(w.bridges[component], e)
      && (component in w.hands ==> w.hands[component].past)
    case Take(chat, _, _) =>
      && chat.component in w.bridges && chat.component !in w.hands
      && w.bridges[chat.component].up && w.bridges[chat.component].hearing.Some?
    case Acknowledge(component, to, key, text, _) =>
      && component in w.bridges && component in w.hands && !w.hands[component].past
      && Bridge.Enabled(w.bridges[component], Bridge.Answer(to, key, text))
    case Give(component) => component in w.hands && w.hands[component].past
    case Lose(component) =>
      component in w.bridges && component in w.hands && Bridge.Enabled(w.bridges[component], Bridge.Crash)
    case _ => true
  }

  /** The bridge of `component` takes a step. */
  function Stepping(w: World, component: Id, e: Bridge.Event): World
    requires component in w.bridges && Bridge.Enabled(w.bridges[component], e)
  {
    w.(bridges := w.bridges[component := Bridge.Next(w.bridges[component], e)])
  }

  /** The answer `component` holds is settled. */
  function Settle(w: World, component: Id, how: How): World
    requires component in w.hands
  {
    w.(hands := w.hands - {component}, log := w.log + [Settling(w.hands[component].question, how)])
  }

  predicate NewlyReached(waiting: Waiting, component: Id, id: Id) {
    exists chat :: chat in waiting && waiting[chat].id == id && chat.component == component && waiting[chat].reached.None?
  }

  function Next(w: World, e: Event): World
    requires Enabled(w, e)
  {
    hide Bridge.Enabled, Bridge.Next, Bridge.TextDone;
    match e
    case Ask(id, chat) =>
      if chat in w.waiting then w
      else w.(waiting := w.waiting[chat := Question(id, None)], asked := w.asked + {id})
    case Withdraw(id) =>
      if !Holds(w.waiting, None, id) then w
      else w.(waiting := Without(w.waiting, None, id), log := w.log + [Settling(id, Withdrawn)])
    case Deliver(component, id, now) =>
      w.(waiting := Reaching(w.waiting, component, id, now),
         log := w.log + if NewlyReached(w.waiting, component, id)
                        then [Reached(id, now, component, w.bridges[component].sending.value.entry)] else [])
    case Refuse(component, id) =>
      if !Holds(w.waiting, Some(component), id) then w
      else w.(waiting := Without(w.waiting, Some(component), id), log := w.log + [Settling(id, Undelivered)])
    case Step(component, e) => Stepping(w, component, e)
    case Take(chat, sentMs, yes) =>
      if !CanTake(w.waiting, chat, sentMs) then w
      else
        var hand := Hand(w.waiting[chat].id, w.bridges[chat.component].hearing.value, yes, sentMs, false);
        w.(waiting := w.waiting - {chat}, hands := w.hands[chat.component := hand])
    case Acknowledge(component, to, key, text, ok) =>
      if ok then
        Stepping(w, component, Bridge.Answer(to, key, text)).(
          hands := w.hands[component := w.hands[component].(past := true)])
      else Settle(w.(bridges := w.bridges[component := Bridge.Down(w.bridges[component])]), component, LostAnswer)
    case Give(component) =>
      var hand := w.hands[component];
      Settle(w, component, Answered(hand.yes, hand.sentMs, component, hand.message))
    case Lose(component) => Settle(Stepping(w, component, Bridge.Crash), component, LostAnswer)
  }

  // ----- the invariant

  function SettledCount(log: seq<Entry>, id: Id): nat {
    if log == [] then 0
    else
      SettledCount(log[..|log| - 1], id)
      + if log[|log| - 1].Settling? && log[|log| - 1].id == id then 1 else 0
  }

  /** The text of `id` reached its chat no later than `sentMs`. */
  ghost predicate ReachedBy(log: seq<Entry>, id: Id, sentMs: nat) {
    exists i :: 0 <= i < |log| && log[i].Reached? && log[i].id == id && log[i].at <= sentMs
  }

  predicate InHand(hands: map<Id, Hand>, id: Id) {
    exists component :: component in hands && hands[component].question == id
  }

  ghost predicate OneHand(hands: map<Id, Hand>) {
    forall a, b :: a in hands && b in hands && hands[a].question == hands[b].question ==> a == b
  }

  /** A question is in one place: it waits, its answer is in hand, or it is settled. */
  ghost predicate InOnePlace(w: World, id: Id) {
    var places := (if Holds(w.waiting, None, id) then 1 else 0) + (if InHand(w.hands, id) then 1 else 0)
                  + SettledCount(w.log, id);
    places == if id in w.asked then 1 else 0
  }

  ghost predicate WaitingRight(waiting: Waiting, log: seq<Entry>) {
    forall chat :: chat in waiting && waiting[chat].reached.Some? ==>
      ReachedBy(log, waiting[chat].id, waiting[chat].reached.value)
  }

  ghost predicate HandsRight(hands: map<Id, Hand>, log: seq<Entry>) {
    forall c :: c in hands ==> ReachedBy(log, hands[c].question, hands[c].sentMs)
  }

  /** Every answer given was to a question that had reached the chat when the answering message was sent. */
  ghost predicate AnswersRight(log: seq<Entry>) {
    forall i :: 0 <= i < |log| && log[i].Settling? && log[i].how.Answered? ==>
      ReachedBy(log[..i], log[i].id, log[i].how.sentMs)
  }

  ghost predicate Placed(w: World) {
    && OneChat(w.waiting) && OneHand(w.hands) && (forall id :: InOnePlace(w, id))
    && WaitingRight(w.waiting, w.log) && HandsRight(w.hands, w.log) && AnswersRight(w.log)
  }

  // ----- acknowledgements

  /** The bridge took the message on and saved a reply to it in one write, as an acknowledgement is. */
  ghost predicate Acked(s: Bridge.System, message: Id) {
    exists a :: 0 <= a < |s.log| - 1 && s.log[a] == Bridge.Took(message) && s.log[a + 1] == Bridge.Replied(message)
  }

  ghost predicate AckedAt(bridges: map<Id, Bridge.System>, component: Id, message: Id) {
    component in bridges && Acked(bridges[component], message)
  }

  /** Until it is past saving, a bridge with an answer in hand still hears the message; after that the
      acknowledgement was saved. */
  ghost predicate HandAcked(bridges: map<Id, Bridge.System>, component: Id, hand: Hand) {
    && component in bridges
    && if hand.past then Acked(bridges[component], hand.message)
       else bridges[component].up && bridges[component].hearing == Some(hand.message)
  }

  ghost predicate AcksSaved(w: World) {
    && (forall c :: c in w.hands ==> HandAcked(w.bridges, c, w.hands[c]))
    && (forall i :: 0 <= i < |w.log| && w.log[i].Settling? && w.log[i].how.Answered? ==>
          AckedAt(w.bridges, w.log[i].how.component, w.log[i].how.message))
  }

  // ----- texts

  /** At some time the platform had all of the reply, each part once and in order. */
  ghost predicate ArrivedWhole(received: seq<Bridge.Part>, p: Delivery.Pending) {
    exists n :: 0 <= n <= |received| && BridgeParts.Whole(received[..n], p)
  }

  /** The text of the question `e.id` arrived whole. */
  ghost predicate TextArrived(bridges: map<Id, Bridge.System>, e: Entry)
    requires e.Reached?
  {
    e.component in bridges && e.entry.question == Some(e.id) && ArrivedWhole(bridges[e.component].received, e.entry)
  }

  ghost predicate TextsArrived(bridges: map<Id, Bridge.System>, log: seq<Entry>) {
    forall i :: 0 <= i < |log| && log[i].Reached? ==> TextArrived(bridges, log[i])
  }

  ghost predicate AllSound(bridges: map<Id, Bridge.System>) {
    forall c :: c in bridges ==> BridgeRuns.Sound(bridges[c])
  }

  ghost predicate Inv(w: World) {
    Placed(w) && AcksSaved(w) && TextsArrived(w.bridges, w.log) && AllSound(w.bridges)
  }

  lemma StartOk(components: set<Id>)
    ensures Inv(Start(components))
  {
    hide BridgeRuns.Sound;
    BridgeRuns.StartSound();
  }

  // ----- the log grows

  lemma Grown(log: seq<Entry>, e: Entry)
    ensures forall id, t :: ReachedBy(log, id, t) ==> ReachedBy(log + [e], id, t)
    ensures forall id :: SettledCount(log + [e], id) == SettledCount(log, id) + if e.Settling? && e.id == id then 1 else 0
    ensures e.Reached? ==> forall t :: e.at <= t ==> ReachedBy(log + [e], e.id, t)
  {
    assert (log + [e])[..|log|] == log;
    hide SettledCount;
    forall id, t | ReachedBy(log, id, t) ensures ReachedBy(log + [e], id, t) {
      var i :| 0 <= i < |log| && log[i].Reached? && log[i].id == id && log[i].at <= t;
      assert (log + [e])[i] == log[i];
    }
    assert (log + [e])[|log|] == e;
  }

  lemma AnswersGrown(log: seq<Entry>, e: Entry)
    requires AnswersRight(log)
    requires e.Settling? && e.how.Answered? ==> ReachedBy(log, e.id, e.how.sentMs)
    ensures AnswersRight(log + [e])
  {
    hide ReachedBy;
    var after := log + [e];
    forall i | 0 <= i < |after| && after[i].Settling? && after[i].how.Answered?
      ensures ReachedBy(after[..i], after[i].id, after[i].how.sentMs)
    {
      assert after[..i] == log[..i];
      assert i == |log| ==> log[..i] == log;
    }
  }

  lemma RightGrown(waiting: Waiting, hands: map<Id, Hand>, log: seq<Entry>, e: Entry)
    requires WaitingRight(waiting, log) && HandsRight(hands, log)
    ensures WaitingRight(waiting, log + [e]) && HandsRight(hands, log + [e])
  {
    Grown(log, e);
    hide ReachedBy, SettledCount;
  }

  // ----- where a question is

  lemma AskKeeps(w: World, id: Id, chat: Chat)
    requires Placed(w) && Enabled(w, Ask(id, chat))
    ensures Placed(Next(w, Ask(id, chat)))
  {
    hide ReachedBy, AnswersRight, SettledCount, InHand;
    if chat !in w.waiting {
      var n := Next(w, Ask(id, chat));
      assert InOnePlace(w, id);
      forall x ensures InOnePlace(n, x) {
        assert InOnePlace(w, x);
        AskHolds(w.waiting, id, chat, x);
      }
    }
  }

  lemma AskHolds(waiting: Waiting, id: Id, chat: Chat, x: Id)
    requires chat !in waiting
    ensures Holds(waiting[chat := Question(id, None)], None, x) <==> x == id || Holds(waiting, None, x)
  {
    var after := waiting[chat := Question(id, None)];
    assert chat in after && after[chat].id == id;
    if Holds(waiting, None, x) {
      var c :| c in waiting && waiting[c].id == x;
      assert after[c].id == x;
    }
  }

  /** A question that leaves its chat is no longer held; the others are. */
  lemma LeftHolds(waiting: Waiting, after: Waiting, chat: Chat, x: Id)
    requires OneChat(waiting) && chat in waiting && after == waiting - {chat}
    ensures Holds(after, None, x) <==> Holds(waiting, None, x) && x != waiting[chat].id
    ensures Holds(waiting, None, waiting[chat].id)
  {
    if Holds(waiting, None, x) && x != waiting[chat].id {
      var c :| c in waiting && waiting[c].id == x;
      assert c in after && after[c].id == x;
    }
  }

  lemma WithoutIs(waiting: Waiting, component: Option<Id>, id: Id) returns (chat: Chat)
    requires OneChat(waiting) && Holds(waiting, component, id)
    ensures chat in waiting && waiting[chat].id == id && Without(waiting, component, id) == waiting - {chat}
  {
    chat :| chat in waiting && waiting[chat].id == id && (component.None? || component.value == chat.component);
  }

  /** A question is settled out of its chat. */
  lemma SettleKeeps(w: World, chat: Chat, how: How)
    requires Placed(w) && chat in w.waiting && !how.Answered?
    ensures Placed(w.(waiting := w.waiting - {chat}, log := w.log + [Settling(w.waiting[chat].id, how)]))
  {
    var id := w.waiting[chat].id;
    var e := Settling(id, how);
    var n := w.(waiting := w.waiting - {chat}, log := w.log + [e]);
    hide ReachedBy, SettledCount, Holds, InHand;
    AnswersGrown(w.log, e);
    RightGrown(n.waiting, w.hands, w.log, e);
    Grown(w.log, e);
    forall x ensures InOnePlace(n, x) {
      assert InOnePlace(w, x);
      LeftHolds(w.waiting, n.waiting, chat, x);
    }
    hide AnswersRight, HandsRight, WaitingRight, InOnePlace, OneHand;
  }

  lemma PlacedOneChat(w: World)
    requires Placed(w)
    ensures OneChat(w.waiting)
  {
  }

  lemma WithdrawKeeps(w: World, id: Id)
    requires Placed(w)
    ensures Placed(Next(w, Withdraw(id)))
  {
    hide Placed, Without;
    if Holds(w.waiting, None, id) {
      PlacedOneChat(w);
      var chat := WithoutIs(w.waiting, None, id);
      SettleKeeps(w, chat, Withdrawn);
    }
  }

  lemma RefuseKeeps(w: World, component: Id, id: Id)
    requires Placed(w) && Enabled(w, Refuse(component, id))
    ensures Placed(Next(w, Refuse(component, id)))
  {
    hide Placed, Without;
    if Holds(w.waiting, Some(component), id) {
      PlacedOneChat(w);
      var chat := WithoutIs(w.waiting, Some(component), id);
      SettleKeeps(w, chat, Undelivered);
    }
  }

  lemma ReachingHolds(waiting: Waiting, component: Id, id: Id, now: nat, x: Id)
    ensures Holds(Reaching(waiting, component, id, now), None, x) <==> Holds(waiting, None, x)
  {
    var after := Reaching(waiting, component, id, now);
    if Holds(waiting, None, x) {
      var c :| c in waiting && waiting[c].id == x;
      assert c in after && after[c].id == x;
    }
    if Holds(after, None, x) {
      var c :| c in after && after[c].id == x;
      assert c in waiting && waiting[c].id == x;
    }
  }

  lemma DeliverKeeps(w: World, component: Id, id: Id, now: nat)
    requires Placed(w) && Enabled(w, Deliver(component, id, now))
    ensures Placed(Next(w, Deliver(component, id, now)))
  {
    hide Bridge.TextDone, Bridge.Enabled, Bridge.Next, Bridge.Down, Stepping, Settle, Without, CanTake;
    hide ReachedBy, SettledCount, Holds, InHand;
    var n := Next(w, Deliver(component, id, now));
    var e := Reached(id, now, component, w.bridges[component].sending.value.entry);
    assert w.log + [] == w.log;
    AnswersGrown(w.log, e);
    RightGrown(w.waiting, w.hands, w.log, e);
    Grown(w.log, e);
    forall x ensures InOnePlace(n, x) {
      assert InOnePlace(w, x);
      ReachingHolds(w.waiting, component, id, now, x);
    }
    hide InOnePlace, OneHand;
    assert forall chat :: chat in n.waiting && n.waiting[chat] != w.waiting[chat] ==> NewlyReached(w.waiting, component, id);
  }

  // ----- answers in hand

  lemma HandAdded(hands: map<Id, Hand>, component: Id, hand: Hand, x: Id)
    requires component !in hands
    ensures InHand(hands[component := hand], x) <==> x == hand.question || InHand(hands, x)
  {
    var after := hands[component := hand];
    assert component in after && after[component].question == hand.question;
    if InHand(hands, x) {
      var c :| c in hands && hands[c].question == x;
      assert c in after && after[c].question == x;
    }
  }

  lemma HandGone(hands: map<Id, Hand>, component: Id, x: Id)
    requires OneHand(hands) && component in hands
    ensures InHand(hands - {component}, x) <==> InHand(hands, x) && x != hands[component].question
    ensures InHand(hands, hands[component].question)
  {
    if InHand(hands, x) && x != hands[component].question {
      var c :| c in hands && hands[c].question == x;
      assert c in hands - {component} && (hands - {component})[c].question == x;
    }
  }

  lemma TakePlaced(w: World, chat: Chat, hand: Hand)
    requires Placed(w) && chat in w.waiting && chat.component !in w.hands && hand.question == w.waiting[chat].id
    requires CanTake(w.waiting, chat, hand.sentMs)
    ensures Placed(w.(waiting := w.waiting - {chat}, hands := w.hands[chat.component := hand]))
  {
    var n := w.(waiting := w.waiting - {chat}, hands := w.hands[chat.component := hand]);
    var id := w.waiting[chat].id;
    assert ReachedBy(w.log, id, hand.sentMs) by {
      assert ReachedBy(w.log, id, w.waiting[chat].reached.value);
    }
    hide ReachedBy, SettledCount, Holds;
    LeftHolds(w.waiting, n.waiting, chat, id);
    assert InOnePlace(w, id);
    assert !InHand(w.hands, id);
    forall x ensures InOnePlace(n, x) {
      assert InOnePlace(w, x);
      LeftHolds(w.waiting, n.waiting, chat, x);
      HandAdded(w.hands, chat.component, hand, x);
    }
    hide InOnePlace, AnswersRight;
  }

  lemma SettlePlaced(w: World, component: Id, how: How)
    requires Placed(w) && component in w.hands && (how.Answered? ==> how.sentMs == w.hands[component].sentMs)
    ensures Placed(Settle(w, component, how))
  {
    var n, e := Settle(w, component, how), Settling(w.hands[component].question, how);
    hide ReachedBy, SettledCount, Holds, InHand;
    AnswersGrown(w.log, e);
    RightGrown(w.waiting, w.hands, w.log, e);
    Grown(w.log, e);
    forall x ensures InOnePlace(n, x) {
      assert InOnePlace(w, x);
      HandGone(w.hands, component, x);
    }
    hide InOnePlace, AnswersRight;
  }

  lemma PastPlaced(w: World, component: Id, bridges: map<Id, Bridge.System>)
    requires Placed(w) && component in w.hands
    ensures Placed(w.(bridges := bridges, hands := w.hands[component := w.hands[component].(past := true)]))
  {
    var after := w.hands[component := w.hands[component].(past := true)];
    var n := w.(bridges := bridges, hands := after);
    hide ReachedBy, SettledCount, Holds;
    forall x ensures InOnePlace(n, x) {
      assert InOnePlace(w, x);
      if InHand(w.hands, x) {
        var c :| c in w.hands && w.hands[c].question == x;
        assert c in after && after[c].question == x;
      }
      if InHand(after, x) {
        var c :| c in after && after[c].question == x;
        assert c in w.hands && w.hands[c].question == x;
      }
    }
    hide InOnePlace, AnswersRight;
  }

  lemma BridgesPlaced(w: World, bridges: map<Id, Bridge.System>)
    requires Placed(w)
    ensures Placed(w.(bridges := bridges))
  {
    hide ReachedBy, SettledCount, Holds, InHand, AnswersRight;
    forall x ensures InOnePlace(w.(bridges := bridges), x) {
      assert InOnePlace(w, x);
    }
  }

  // ----- bridges that step

  lemma AckedStays(s: Bridge.System, t: Bridge.System, message: Id)
    requires Acked(s, message) && s.log <= t.log
    ensures Acked(t, message)
  {
    var a :| 0 <= a < |s.log| - 1 && s.log[a] == Bridge.Took(message) && s.log[a + 1] == Bridge.Replied(message);
    assert t.log[a] == s.log[a] && t.log[a + 1] == s.log[a + 1];
  }

  /** A bridge of an answer that is past saving, or of none, goes on. */
  lemma BridgeGoesOn(w: World, component: Id, t: Bridge.System)
    requires AcksSaved(w) && component in w.bridges && w.bridges[component].log <= t.log
    requires component in w.hands ==> w.hands[component].past
    ensures AcksSaved(w.(bridges := w.bridges[component := t]))
  {
    hide Acked;
    var bridges := w.bridges[component := t];
    forall c | c in w.hands ensures HandAcked(bridges, c, w.hands[c]) {
      assert HandAcked(w.bridges, c, w.hands[c]);
      if c == component {
        AckedStays(w.bridges[c], t, w.hands[c].message);
      }
    }
    forall i | 0 <= i < |w.log| && w.log[i].Settling? && w.log[i].how.Answered?
      ensures AckedAt(bridges, w.log[i].how.component, w.log[i].how.message)
    {
      assert AckedAt(w.bridges, w.log[i].how.component, w.log[i].how.message);
      if w.log[i].how.component == component {
        AckedStays(w.bridges[component], t, w.log[i].how.message);
      }
    }
  }

  lemma ArrivedStays(was: seq<Bridge.Part>, now: seq<Bridge.Part>, p: Delivery.Pending)
    requires ArrivedWhole(was, p) && was <= now
    ensures ArrivedWhole(now, p)
  {
    hide BridgeParts.Whole;
    var n :| 0 <= n <= |was| && BridgeParts.Whole(was[..n], p);
    assert now[..n] == was[..n];
  }

  /** What arrived stays arrived. */
  lemma TextsStay(bridges: map<Id, Bridge.System>, component: Id, t: Bridge.System, log: seq<Entry>)
    requires TextsArrived(bridges, log) && component in bridges && bridges[component].received <= t.received
    ensures TextsArrived(bridges[component := t], log)
  {
    hide ArrivedWhole;
    forall i | 0 <= i < |log| && log[i].Reached? ensures TextArrived(bridges[component := t], log[i]) {
      assert TextArrived(bridges, log[i]);
      if log[i].component == component {
        ArrivedStays(bridges[component].received, t.received, log[i].entry);
      }
    }
  }

  lemma TextsGrow(bridges: map<Id, Bridge.System>, log: seq<Entry>, e: Entry)
    requires TextsArrived(bridges, log) && (e.Reached? ==> TextArrived(bridges, e))
    ensures TextsArrived(bridges, log + [e])
  {
    hide TextArrived;
  }

  /** A question's text is whole on the platform when the bridge says so. */
  lemma AskedWhole(s: Bridge.System, id: Id)
    requires BridgeRuns.Sound(s) && Asks(s, id) && Bridge.TextDone(s)
    ensures ArrivedWhole(s.received, s.sending.value.entry)
  {
    hide BridgeClaims.Inv, BridgeParts.Inv, BridgeParts.Got, BridgeParts.Texts, Delivery.Chunks, Text.Concat;
    BridgeRuns.ClaimsTrack(s);
    BridgeRuns.RepliesShaped(s);
    BridgeParts.TextWhole(s);
    assert s.received[..|s.received|] == s.received;
    assert BridgeParts.Whole(s.received[..|s.received|], s.sending.value.entry);
  }

  lemma OneSound(bridges: map<Id, Bridge.System>, component: Id, t: Bridge.System)
    requires AllSound(bridges) && BridgeRuns.Sound(t)
    ensures AllSound(bridges[component := t])
  {
    hide BridgeRuns.Sound;
  }

  lemma StepGoesOn(w: World, component: Id, e: Bridge.Event)
    requires Inv(w) && Enabled(w, Step(component, e))
    ensures Inv(Next(w, Step(component, e)))
  {
    hide Placed, AcksSaved, TextsArrived, BridgeRuns.Sound, Bridge.Enabled, Bridge.Next;
    var s := w.bridges[component];
    assert BridgeRuns.Sound(s);
    hide AllSound;
    BridgeRuns.StepSound(s, e);
    Bridge.LogGrows(s, e);
    Bridge.ReceivedGrows(s, e);
    var t := Bridge.Next(s, e);
    TextsStay(w.bridges, component, t, w.log);
    BridgeGoesOn(w, component, t);
    OneSound(w.bridges, component, t);
    BridgesPlaced(w, w.bridges[component := t]);
  }

  /** The acknowledgement is saved as the reply to the message the bridge hears. */
  lemma AnswerAcks(s: Bridge.System, to: Id, key: Id, text: string)
    requires Bridge.Enabled(s, Bridge.Answer(to, key, text)) && s.hearing.Some?
    ensures Acked(Bridge.Next(s, Bridge.Answer(to, key, text)), s.hearing.value)
    ensures s.log <= Bridge.Next(s, Bridge.Answer(to, key, text)).log
    ensures var t := Bridge.Next(s, Bridge.Answer(to, key, text));
            t.disk.pending != [] && t.disk.pending[|t.disk.pending| - 1].id == s.hearing
            && t.disk.pending[|t.disk.pending| - 1].reply == text && t.disk.pending[|t.disk.pending| - 1].transient
  {
    hide Bridge.Deliver, Bridge.Work, Bridge.MayDeliver, Bridge.MayWork;
    var t := Bridge.Next(s, Bridge.Answer(to, key, text));
    assert t.log == s.log + [Bridge.Took(s.hearing.value), Bridge.Replied(s.hearing.value)];
    assert t.log[|s.log|] == Bridge.Took(s.hearing.value) && t.log[|s.log| + 1] == Bridge.Replied(s.hearing.value);
  }

  lemma AcknowledgeAcks(w: World, component: Id, t: Bridge.System)
    requires AcksSaved(w) && component in w.bridges && component in w.hands && !w.hands[component].past
    requires Acked(t, w.hands[component].message) && w.bridges[component].log <= t.log
    ensures AcksSaved(w.(bridges := w.bridges[component := t],
                         hands := w.hands[component := w.hands[component].(past := true)]))
  {
    hide Acked;
    BridgeGoesOn(w.(hands := w.hands - {component}), component, t);
  }

  lemma AcknowledgeKeeps(w: World, component: Id, to: Id, key: Id, text: string)
    requires Inv(w) && Enabled(w, Acknowledge(component, to, key, text, true))
    ensures Inv(Next(w, Acknowledge(component, to, key, text, true)))
  {
    hide BridgeRuns.Sound, Bridge.Enabled, Bridge.Next, Placed, TextsArrived;
    var s := w.bridges[component];
    assert BridgeRuns.Sound(s) && HandAcked(w.bridges, component, w.hands[component]);
    hide AllSound, AcksSaved, Acked;
    AnswerAcks(s, to, key, text);
    BridgeRuns.StepSound(s, Bridge.Answer(to, key, text));
    var t := Bridge.Next(s, Bridge.Answer(to, key, text));
    AcknowledgeAcks(w, component, t);
    Bridge.ReceivedGrows(s, Bridge.Answer(to, key, text));
    TextsStay(w.bridges, component, t, w.log);
    OneSound(w.bridges, component, t);
    PastPlaced(w, component, w.bridges[component := t]);
  }

  lemma CrashIs(s: Bridge.System)
    requires s.up
    ensures Bridge.Enabled(s, Bridge.Crash) && Bridge.Next(s, Bridge.Crash) == Bridge.Down(s)
    ensures Bridge.Down(s).log == s.log && Bridge.Down(s).received == s.received
  {
  }

  /** The answer is lost with the run that held it. */
  lemma LostKeeps(w: World, component: Id)
    requires Inv(w) && component in w.bridges && component in w.hands && w.bridges[component].up
    ensures var t := Bridge.Down(w.bridges[component]);
            Inv(Settle(w.(bridges := w.bridges[component := t]), component, LostAnswer))
  {
    hide BridgeRuns.Sound, Placed, TextsArrived, Bridge.Enabled, Bridge.Next, Bridge.Down;
    var s := w.bridges[component];
    assert BridgeRuns.Sound(s);
    CrashIs(s);
    BridgeRuns.StepSound(s, Bridge.Crash);
    var t := Bridge.Down(s);
    OneSound(w.bridges, component, t);
    BridgesPlaced(w, w.bridges[component := t]);
    TextsStay(w.bridges, component, t, w.log);
    TextsGrow(w.bridges[component := t], w.log, Settling(w.hands[component].question, LostAnswer));
    SettlePlaced(w.(bridges := w.bridges[component := t]), component, LostAnswer);
    hide AllSound, Acked;
    BridgeGoesOn(w.(hands := w.hands - {component}), component, t);
  }

  lemma GiveKeeps(w: World, component: Id)
    requires Inv(w) && Enabled(w, Give(component))
    ensures Inv(Next(w, Give(component)))
  {
    hide Placed, AllSound, Acked, TextsArrived;
    var hand := w.hands[component];
    SettlePlaced(w, component, Answered(hand.yes, hand.sentMs, component, hand.message));
    TextsGrow(w.bridges, w.log, Settling(hand.question, Answered(hand.yes, hand.sentMs, component, hand.message)));
    assert HandAcked(w.bridges, component, hand);
    assert AckedAt(w.bridges, component, hand.message);
  }

  lemma TakeAcks(w: World, chat: Chat, hand: Hand)
    requires AcksSaved(w) && HandAcked(w.bridges, chat.component, hand)
    ensures AcksSaved(w.(waiting := w.waiting - {chat}, hands := w.hands[chat.component := hand]))
  {
    hide HandAcked, AckedAt;
  }

  lemma TakeKeeps(w: World, chat: Chat, sentMs: nat, yes: bool)
    requires Inv(w) && Enabled(w, Take(chat, sentMs, yes))
    ensures Inv(Next(w, Take(chat, sentMs, yes)))
  {
    hide Placed, AllSound, Acked, AcksSaved, TextsArrived, Bridge.Enabled, Bridge.Next, Bridge.Down;
    if CanTake(w.waiting, chat, sentMs) {
      var hand := Hand(w.waiting[chat].id, w.bridges[chat.component].hearing.value, yes, sentMs, false);
      TakePlaced(w, chat, hand);
      TakeAcks(w, chat, hand);
    }
  }

  /** A step that logs `e`, which is no answer, and changes no bridge and no hand. */
  lemma Logging(w: World, n: World, e: Entry)
    requires AcksSaved(w) && TextsArrived(w.bridges, w.log) && n.bridges == w.bridges && n.hands == w.hands
    requires n.log == w.log || (n.log == w.log + [e] && if e.Reached? then TextArrived(w.bridges, e) else !e.how.Answered?)
    ensures AcksSaved(n) && TextsArrived(n.bridges, n.log)
  {
    hide AckedAt, HandAcked, TextArrived;
  }

  lemma DeliverLogs(w: World, component: Id, id: Id, now: nat)
    requires Inv(w) && Enabled(w, Deliver(component, id, now))
    ensures Inv(Next(w, Deliver(component, id, now)))
  {
    hide Placed, AcksSaved, TextsArrived, AllSound, Holds, Without, Reaching, NewlyReached, Stepping, Settle, CanTake;
    hide Bridge.Enabled, Bridge.Next, Bridge.Down, Bridge.TextDone;
    hide BridgeRuns.Sound, ArrivedWhole;
    var s := w.bridges[component];
    SoundAt(w.bridges, component);
    AskedWhole(s, id);
    DeliverKeeps(w, component, id, now);
    assert w.log + [] == w.log;
    Logging(w, Next(w, Deliver(component, id, now)), Reached(id, now, component, s.sending.value.entry));
  }

  lemma SoundAt(bridges: map<Id, Bridge.System>, component: Id)
    requires AllSound(bridges) && component in bridges
    ensures BridgeRuns.Sound(bridges[component])
  {
    hide BridgeRuns.Sound;
  }

  lemma RefuseLogs(w: World, component: Id, id: Id)
    requires Inv(w) && Enabled(w, Refuse(component, id))
    ensures Inv(Next(w, Refuse(component, id)))
  {
    hide Placed, AcksSaved, TextsArrived, AllSound, Holds, Without, Reaching, NewlyReached, Stepping, Settle, CanTake;
    hide Bridge.Enabled, Bridge.Next, Bridge.Down, Bridge.TextDone;
    RefuseKeeps(w, component, id);
    Logging(w, Next(w, Refuse(component, id)), Settling(id, Undelivered));
  }

  lemma WithdrawLogs(w: World, id: Id)
    requires Inv(w) && Enabled(w, Withdraw(id))
    ensures Inv(Next(w, Withdraw(id)))
  {
    hide Placed, AcksSaved, TextsArrived, AllSound, Holds, Without, Reaching, NewlyReached, Stepping, Settle, CanTake;
    hide Bridge.Enabled, Bridge.Next, Bridge.Down, Bridge.TextDone;
    WithdrawKeeps(w, id);
    Logging(w, Next(w, Withdraw(id)), Settling(id, Withdrawn));
  }

  lemma AskLogs(w: World, id: Id, chat: Chat)
    requires Inv(w) && Enabled(w, Ask(id, chat))
    ensures Inv(Next(w, Ask(id, chat)))
  {
    hide Placed, AcksSaved, TextsArrived, AllSound, Holds, Without, Reaching, NewlyReached, Stepping, Settle, CanTake;
    hide Bridge.Enabled, Bridge.Next, Bridge.Down, Bridge.TextDone;
    AskKeeps(w, id, chat);
    Logging(w, Next(w, Ask(id, chat)), Settling(id, Withdrawn));
  }

  lemma StepKeeps(w: World, e: Event)
    requires Inv(w) && Enabled(w, e)
    ensures Inv(Next(w, e))
  {
    hide Inv, Next, Enabled;
    if e.Deliver? || e.Refuse? || e.Withdraw? || e.Ask? {
      HubKeeps(w, e);
    } else if e.Step? {
      StepGoesOn(w, e.component, e.e);
    } else if e.Take? {
      TakeKeeps(w, e.chat, e.sentMs, e.yes);
    } else if e.Acknowledge? && e.ok {
      AcknowledgeKeeps(w, e.component, e.to, e.key, e.text);
    } else if e.Acknowledge? || e.Lose? {
      LosingKeeps(w, e);
    } else {
      GiveKeeps(w, e.component);
    }
  }

  lemma HubKeeps(w: World, e: Event)
    requires Inv(w) && Enabled(w, e) && (e.Deliver? || e.Refuse? || e.Withdraw? || e.Ask?)
    ensures Inv(Next(w, e))
  {
    if e.Deliver? {
      hide Inv, Next, Bridge.Enabled, Asks, Bridge.TextDone;
      DeliverLogs(w, e.component, e.id, e.now);
    } else if e.Refuse? {
      hide Inv, Next, Bridge.Enabled, Asks;
      RefuseLogs(w, e.component, e.id);
    } else if e.Withdraw? {
      hide Inv, Next;
      WithdrawLogs(w, e.id);
    } else {
      hide Inv, Next;
      AskLogs(w, e.id, e.chat);
    }
  }

  lemma UpWhile(s: Bridge.System)
    ensures Bridge.Enabled(s, Bridge.Crash) ==> s.up
    ensures forall to, key, text :: Bridge.Enabled(s, Bridge.Answer(to, key, text)) ==> s.up
  {
    hide Bridge.MayDeliver, Bridge.MayWork;
  }

  lemma LosingKeeps(w: World, e: Event)
    requires Inv(w) && Enabled(w, e) && (e.Lose? || (e.Acknowledge? && !e.ok))
    ensures Inv(Next(w, e))
  {
    hide Inv, Bridge.Enabled, Bridge.Next, Bridge.Down;
    var s := w.bridges[e.component];
    UpWhile(s);
    CrashIs(s);
    LostKeeps(w, e.component);
  }

  // ----- every run

  ghost predicate IsRun(w: World, events: seq<Event>)
    decreases |events|
  {
    events == [] || (Enabled(w, events[0]) && IsRun(Next(w, events[0]), events[1..]))
  }

  ghost function After(w: World, events: seq<Event>): World
    requires IsRun(w, events)
    decreases |events|
  {
    if events == [] then w else After(Next(w, events[0]), events[1..])
  }

  lemma {:induction false} RunKeeps(w: World, events: seq<Event>)
    requires Inv(w) && IsRun(w, events)
    ensures Inv(After(w, events))
    decreases |events|
  {
    hide Inv, Enabled, Next;
    if events != [] {
      StepKeeps(w, events[0]);
      RunKeeps(Next(w, events[0]), events[1..]);
    }
  }

  /** In every run each question is settled at most once, and until then it waits or its answer is in hand,
      not both. */
  lemma SettledOnce(components: set<Id>, events: seq<Event>, id: Id)
    requires IsRun(Start(components), events)
    ensures var w := After(Start(components), events);
            && SettledCount(w.log, id) <= 1
            && (id in w.asked && SettledCount(w.log, id) == 0 ==> (Holds(w.waiting, None, id) <==> !InHand(w.hands, id)))
  {
    StartOk(components);
    RunKeeps(Start(components), events);
    hide IsRun, After, SettledCount, Holds, InHand, OneChat, OneHand, WaitingRight, HandsRight, AnswersRight, AcksSaved, AllSound;
    assert InOnePlace(After(Start(components), events), id);
  }

  /** In every run an answer is given only to a question whose whole text the platform had, each part once and in
      order, no later than the answering message was sent. */
  lemma AnsweredInTime(components: set<Id>, events: seq<Event>, i: nat) returns (j: nat)
    requires IsRun(Start(components), events)
    requires var log := After(Start(components), events).log; i < |log| && log[i].Settling? && log[i].how.Answered?
    ensures var w := After(Start(components), events);
            && j < i && w.log[j].Reached? && w.log[j].id == w.log[i].id && w.log[j].at <= w.log[i].how.sentMs
            && TextArrived(w.bridges, w.log[j])
  {
    hide Inv, IsRun, After, TextArrived;
    StartOk(components);
    RunKeeps(Start(components), events);
    j := AnswerReached(After(Start(components), events), i);
  }

  lemma AnswerReached(w: World, i: nat) returns (j: nat)
    requires Inv(w) && i < |w.log| && w.log[i].Settling? && w.log[i].how.Answered?
    ensures j < i && w.log[j].Reached? && w.log[j].id == w.log[i].id && w.log[j].at <= w.log[i].how.sentMs
    ensures TextArrived(w.bridges, w.log[j])
  {
    hide InOnePlace, OneChat, OneHand, WaitingRight, HandsRight, AcksSaved, AllSound, TextArrived;
    assert ReachedBy(w.log[..i], w.log[i].id, w.log[i].how.sentMs);
    j :| 0 <= j < i && w.log[..i][j].Reached? && w.log[..i][j].id == w.log[i].id && w.log[..i][j].at <= w.log[i].how.sentMs;
    assert w.log[..i][j] == w.log[j];
  }

  /** In every run, when an answer has been given its acknowledgement is saved: the reply to the answering
      message is pending in the account's saved state, or it is done with and the message is marked since. */
  lemma AnsweredIsAcknowledged(components: set<Id>, events: seq<Event>, i: nat)
    requires IsRun(Start(components), events)
    requires var log := After(Start(components), events).log; i < |log| && log[i].Settling? && log[i].how.Answered?
    ensures var w := After(Start(components), events);
            var how := w.log[i].how;
            && how.component in w.bridges
            && var s := w.bridges[how.component];
               exists a :: 0 <= a < |s.log| && s.log[a] == Bridge.Took(how.message)
                 && (|| how.message in BridgeClaims.PendingIds(s.disk.pending)
                     || exists m :: a < m < |s.log| && s.log[m] == Bridge.Marked(how.message))
  {
    hide Inv, IsRun, After, BridgeClaims.PendingIds;
    StartOk(components);
    RunKeeps(Start(components), events);
    AnswerAcked(After(Start(components), events), i);
  }

  lemma AnswerAcked(w: World, i: nat)
    requires Inv(w) && i < |w.log| && w.log[i].Settling? && w.log[i].how.Answered?
    ensures var how := w.log[i].how;
            && how.component in w.bridges
            && var s := w.bridges[how.component];
               exists a :: 0 <= a < |s.log| && s.log[a] == Bridge.Took(how.message)
                 && (|| how.message in BridgeClaims.PendingIds(s.disk.pending)
                     || exists m :: a < m < |s.log| && s.log[m] == Bridge.Marked(how.message))
  {
    hide Placed, TextsArrived, BridgeClaims.PendingIds, Acked, BridgeRuns.Sound, HandAcked;
    var how := w.log[i].how;
    assert AckedAt(w.bridges, how.component, how.message);
    hide AcksSaved;
    SoundAt(w.bridges, how.component);
    hide AllSound;
    AckKept(w.bridges[how.component], how.message);
  }

  lemma AckKept(s: Bridge.System, message: Id)
    requires BridgeRuns.Sound(s) && Acked(s, message)
    ensures exists a :: 0 <= a < |s.log| && s.log[a] == Bridge.Took(message)
              && (|| message in BridgeClaims.PendingIds(s.disk.pending)
                  || exists m :: a < m < |s.log| && s.log[m] == Bridge.Marked(message))
  {
    hide BridgeClaims.Inv, BridgeClaims.PendingIds;
    var a :| 0 <= a < |s.log| - 1 && s.log[a] == Bridge.Took(message) && s.log[a + 1] == Bridge.Replied(message);
    BridgeClaims.AnswerKept(s, a);
  }

  // ----- where an answer comes from

  /** Event `e` takes the question `hand` answers, in a chat of the account, for the message its bridge hears, with
      that message's time and what it says. */
  ghost predicate Takes(w: World, e: Event, component: Id, hand: Hand) {
    && e.Take? && e.chat.component == component && e.sentMs == hand.sentMs && e.yes == hand.yes
    && CanTake(w.waiting, e.chat, e.sentMs) && w.waiting[e.chat].id == hand.question
    && component in w.bridges && w.bridges[component].hearing == Some(hand.message)
  }

  ghost predicate TakenAt(components: set<Id>, events: seq<Event>, k: nat, component: Id, hand: Hand) {
    && k < |events| && IsRun(Start(components), events[..k])
    && Takes(After(Start(components), events[..k]), events[k], component, hand)
  }

  /** The answer a log entry records, as it was in hand. */
  function HandOf(e: Entry): Hand
    requires e.Settling? && e.how.Answered?
  {
    Hand(e.id, e.how.message, e.how.yes, e.how.sentMs, false)
  }

  /** What is in hand after a step was in hand before, or the step took it. */
  lemma StepHands(w: World, e: Event, component: Id)
    requires Enabled(w, e) && component in Next(w, e).hands
    ensures var hand := Next(w, e).hands[component];
            || (component in w.hands && hand.(past := false) == w.hands[component].(past := false))
            || Takes(w, e, component, hand)
  {
    hide Holds, Without, Reaching, NewlyReached, Bridge.Enabled, Bridge.Next, Bridge.TextDone, Bridge.Down;
  }

  /** An answer given in a step was in hand before. */
  lemma StepAnswers(w: World, e: Event)
    requires Enabled(w, e)
    ensures var log := Next(w, e).log;
            && |w.log| <= |log| && log[..|w.log|] == w.log
            && forall i :: |w.log| <= i < |log| && log[i].Settling? && log[i].how.Answered? ==>
                 log[i].how.component in w.hands && HandOf(log[i]) == w.hands[log[i].how.component].(past := false)
  {
    hide Holds, Without, Reaching, NewlyReached, Bridge.Enabled, Bridge.Next, Bridge.TextDone, Bridge.Down;
  }

  lemma LastStep(components: set<Id>, before: seq<Event>, last: Event)
    requires IsRun(Start(components), before + [last])
    ensures IsRun(Start(components), before) && Enabled(After(Start(components), before), last)
    ensures After(Start(components), before + [last]) == Next(After(Start(components), before), last)
  {
    RunSplits(Start(components), before, last);
  }

  lemma {:induction false} RunSplits(w: World, before: seq<Event>, last: Event)
    requires IsRun(w, before + [last])
    ensures IsRun(w, before) && Enabled(After(w, before), last)
    ensures After(w, before + [last]) == Next(After(w, before), last)
    decreases |before|
  {
    hide Enabled, Next;
    if before == [] {
      assert ([] + [last])[1..] == [];
    } else {
      assert (before + [last])[1..] == before[1..] + [last];
      RunSplits(Next(w, before[0]), before[1..], last);
    }
  }

  lemma TakenStill(components: set<Id>, events: seq<Event>, e: Event, k: nat, component: Id, hand: Hand)
    requires TakenAt(components, events, k, component, hand)
    ensures TakenAt(components, events + [e], k, component, hand)
  {
    hide IsRun, After, Takes;
    assert (events + [e])[..k] == events[..k];
  }

  lemma TakenNow(components: set<Id>, events: seq<Event>, e: Event, component: Id, hand: Hand)
    requires IsRun(Start(components), events) && Takes(After(Start(components), events), e, component, hand)
    ensures TakenAt(components, events + [e], |events|, component, hand)
  {
    hide IsRun, After, Takes;
    assert (events + [e])[..|events|] == events;
  }

  lemma {:induction false} HandTaken(components: set<Id>, events: seq<Event>, component: Id) returns (k: nat)
    requires IsRun(Start(components), events) && component in After(Start(components), events).hands
    ensures TakenAt(components, events, k, component, After(Start(components), events).hands[component].(past := false))
    decreases |events|
  {
    k := 0;
    if events != [] {
      var before, last := events[..|events| - 1], events[|events| - 1];
      assert events == before + [last];
      LastStep(components, before, last);
      hide IsRun, After, Enabled, Next, TakenAt, Takes;
      var w := After(Start(components), before);
      var hand := Next(w, last).hands[component];
      StepHands(w, last, component);
      if Takes(w, last, component, hand) {
        TakesFresh(w, last, component, hand);
        TakenNow(components, before, last, component, hand.(past := false));
        k := |before|;
      } else {
        k := HandTaken(components, before, component);
        TakenStill(components, before, last, k, component, hand.(past := false));
      }
    }
  }

  lemma TakesFresh(w: World, e: Event, component: Id, hand: Hand)
    requires Takes(w, e, component, hand)
    ensures Takes(w, e, component, hand.(past := false))
  {
  }

  /** In every run each answer given is the one taken: at event `k` the account's bridge took that question, in one of
      the account's chats, in time, for the message it heard, and what the message says is what is given. */
  lemma {:induction false} AnsweredAsTaken(components: set<Id>, events: seq<Event>, i: nat) returns (k: nat)
    requires IsRun(Start(components), events)
    requires var log := After(Start(components), events).log; i < |log| && log[i].Settling? && log[i].how.Answered?
    ensures var entry := After(Start(components), events).log[i];
            TakenAt(components, events, k, entry.how.component, HandOf(entry))
    decreases |events|
  {
    k := 0;
    if events != [] {
      var before, last := events[..|events| - 1], events[|events| - 1];
      assert events == before + [last];
      LastStep(components, before, last);
      hide IsRun, After, Enabled, Next, TakenAt, Takes;
      var w := After(Start(components), before);
      var entry := Next(w, last).log[i];
      StepAnswers(w, last);
      if i < |w.log| {
        assert entry == w.log[i];
        k := AnsweredAsTaken(components, before, i);
      } else {
        k := HandTaken(components, before, entry.how.component);
      }
      TakenStill(components, before, last, k, entry.how.component, HandOf(entry));
    }
  }
}

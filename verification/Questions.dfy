/** Yes-or-no questions to the owner (crates/scv-channels/src/hub.rs): each waits in one chat, can be
    answered once its text got there, and is settled once. */
module Questions {
  import opened Wrappers
  import opened Ids

  /** The direct chat with `peer` on the account `component`. */
  datatype Chat = Chat(component: Id, peer: Id)

  /** `reached` is when its text got to the chat, in milliseconds. */
  datatype Question = Question(id: Id, reached: Option<nat>)

  type Waiting = map<Chat, Question>

  /** No two chats hold the same question. */
  ghost predicate OneChat(waiting: Waiting) {
    forall a, b :: a in waiting && b in waiting && waiting[a].id == waiting[b].id ==> a == b
  }

  predicate Holds(waiting: Waiting, component: Option<Id>, id: Id) {
    exists chat :: chat in waiting && waiting[chat].id == id && (component.None? || component.value == chat.component)
  }

  /** Without question `id`, wherever it waits on `component`. */
  function Without(waiting: Waiting, component: Option<Id>, id: Id): Waiting {
    map chat | chat in waiting && !(waiting[chat].id == id && (component.None? || component.value == chat.component))
      :: waiting[chat]
  }

  /** Question `id` on `component` reached its chat, unless it did before. */
  function Reaching(waiting: Waiting, component: Id, id: Id, now: nat): Waiting {
    map chat | chat in waiting ::
      if waiting[chat].id == id && chat.component == component && waiting[chat].reached.None?
      then waiting[chat].(reached := Some(now)) else waiting[chat]
  }

  /** A question that reached its chat at `reached` can be answered with a message sent at `sentMs`. */
  predicate InTime(reached: Option<nat>, sentMs: nat) {
    reached.Some? && reached.value <= sentMs
  }

  predicate CanTake(waiting: Waiting, chat: Chat, sentMs: nat) {
    chat in waiting && InTime(waiting[chat].reached, sentMs)
  }

  /** A question that arrives stays where it is with the time of its first arrival, and others are untouched. */
  lemma FirstArrivalCounts(waiting: Waiting, component: Id, id: Id, first: nat, later: nat)
    ensures var now := Reaching(waiting, component, id, first);
            && Reaching(now, component, id, later) == now && now.Keys == waiting.Keys
            && forall chat :: chat in waiting ==>
                 && now[chat].id == waiting[chat].id
                 && now[chat].reached == if waiting[chat].reached.None? && waiting[chat].id == id && chat.component == component
                                         then Some(first) else waiting[chat].reached
  {
  }

  /** Without a question no chat holds it, and every other chat holds what it did. */
  lemma WithoutOnly(waiting: Waiting, component: Option<Id>, id: Id)
    ensures var left := Without(waiting, component, id);
            && !Holds(left, component, id)
            && forall chat :: chat in waiting && !(waiting[chat].id == id && (component.None? || component.value == chat.component))
                 ==> chat in left && left[chat] == waiting[chat]
  {
  }

  datatype Withdrawal = Settled | Unanswered | Unsent

  /** The hub's questions, changed under its lock. */
  class Hub {
    var waiting: Waiting

    constructor ()
      ensures waiting == map[]
    {
      waiting := map[];
    }

    method Ask(id: Id, chat: Chat) returns (ok: bool)
      modifies this
      ensures ok <==> chat !in old(waiting)
      ensures waiting == if ok then old(waiting)[chat := Question(id, None)] else old(waiting)
    {
      if chat in waiting {
        return false;
      }
      waiting := waiting[chat := Question(id, None)];
      return true;
    }

    /** The chat that holds a question. */
    method Find(component: Option<Id>, id: Id) returns (chat: Option<Chat>)
      ensures chat.None? <==> !Holds(waiting, component, id)
      ensures chat.Some? ==>
                && chat.value in waiting && waiting[chat.value].id == id
                && (component.None? || component.value == chat.value.component)
    {
      if Holds(waiting, component, id) {
        var found :| found in waiting && waiting[found].id == id && (component.None? || component.value == found.component);
        return Some(found);
      }
      return None;
    }

    method Withdraw(id: Id) returns (stood: Withdrawal)
      requires OneChat(waiting)
      modifies this
      ensures waiting == Without(old(waiting), None, id)
      ensures stood.Settled? <==> !Holds(old(waiting), None, id)
      ensures stood.Unanswered? <==> exists chat :: chat in old(waiting) && old(waiting)[chat].id == id && old(waiting)[chat].reached.Some?
    {
      var chat := Find(None, id);
      if chat.None? {
        assert waiting == Without(waiting, None, id);
        return Settled;
      }
      var question := waiting[chat.value];
      waiting := waiting - {chat.value};
      return if question.reached.Some? then Unanswered else Unsent;
    }

    /** Take the question to answer it with a message sent at `sentMs`. */
    method TakeQuestion(chat: Chat, sentMs: nat) returns (taken: Option<Id>)
      modifies this
      ensures taken == if CanTake(old(waiting), chat, sentMs) then Some(old(waiting)[chat].id) else None
      ensures waiting == if taken.Some? then old(waiting) - {chat} else old(waiting)
    {
      if chat !in waiting || waiting[chat].reached.None? || waiting[chat].reached.value > sentMs {
        return None;
      }
      taken := Some(waiting[chat].id);
      waiting := waiting - {chat};
    }

    method QuestionDelivered(component: Id, id: Id, now: nat)
      requires OneChat(waiting)
      modifies this
      ensures waiting == Reaching(old(waiting), component, id, now)
    {
      var chat := Find(Some(component), id);
      if chat.Some? && waiting[chat.value].reached.None? {
        waiting := waiting[chat.value := waiting[chat.value].(reached := Some(now))];
      }
      assert waiting.Keys == old(waiting).Keys;
    }

    method QuestionUndelivered(component: Id, id: Id)
      requires OneChat(waiting)
      modifies this
      ensures waiting == Without(old(waiting), Some(component), id)
    {
      var chat := Find(Some(component), id);
      if chat.Some? {
        waiting := waiting - {chat.value};
      } else {
        assert waiting == Without(waiting, Some(component), id);
      }
    }
  }
}

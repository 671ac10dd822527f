/** Replaying a conversation as Responses API input (crates/scv-provider-openai/src/encode.rs).

    An item remembers whether a message asked for it or the encoder made it up; `Wire` is what is sent. */
module Encoder {
  import opened Wrappers
  import opened Messages
  import opened Turns
  import Contexts

  datatype Speaker = FromUser | FromAssistant

  datatype Item =
    | Role(speaker: Speaker, text: string)
    | UserWithImages(text: string, images: seq<Image>, show: bool)
    | Call(id: string, name: string, arguments: string)
    | Output(id: string, text: string)
    | InventedCall(id: string, name: string)
    | InventedOutput(id: string)

  const NOT_COMPLETED := "Tool call did not complete: the turn ended before it returned a result."

  /** What the provider receives: it cannot tell an invented item from an asked-for one. */
  function Wire(item: Item): Item {
    match item
    case InventedCall(id, name) => Call(id, name, "{}")
    case InventedOutput(id) => Output(id, NOT_COMPLETED)
    case _ => item
  }

  predicate Invented(item: Item) {
    item.InventedCall? || item.InventedOutput?
  }

  // ----- the encoder

  datatype State = State(items: seq<Item>, open: seq<string>)

  function Closing(open: seq<string>): seq<Item> {
    if open == [] then [] else [InventedOutput(open[0])] + Closing(open[1..])
  }

  function Calls(calls: seq<ToolCall>): seq<Item> {
    if calls == [] then [] else [Call(calls[0].id, calls[0].name, calls[0].arguments)] + Calls(calls[1..])
  }

  function Ids(calls: seq<ToolCall>): seq<string> {
    if calls == [] then [] else [calls[0].id] + Ids(calls[1..])
  }

  /** Index of the first `id` in `open`, or its length. */
  function Position(open: seq<string>, id: string): (i: nat)
    ensures i <= |open| && (i < |open| <==> id in open)
    ensures i < |open| ==> open[i] == id
  {
    if open == [] || open[0] == id then 0 else 1 + Position(open[1..], id)
  }

  function Without(open: seq<string>, i: nat): seq<string>
    requires i < |open|
  {
    open[..i] + open[i + 1..]
  }

  /** The items a message asks for. */
  function Own(m: Message, show: bool): seq<Item> {
    match m
    case Tool(callId, _, content, _) => [Output(callId, content)]
    case Assistant(content, calls) =>
      (if content != [] || calls == [] then [Role(FromAssistant, content)] else []) + Calls(calls)
    case User(content, images) =>
      if images != [] then [UserWithImages(content, images, show)] else [Role(FromUser, content)]
    case HistoryNote(content) => [Role(FromUser, content)]
  }

  function Encode(state: State, m: Message, show: bool): State {
    if m.Tool? then
      var i := Position(state.open, m.callId);
      if i < |state.open| then State(state.items + Own(m, show), Without(state.open, i))
      else State(state.items + ([InventedCall(m.callId, m.name)] + Own(m, show)), state.open)
    else
      State(state.items + (Closing(state.open) + Own(m, show)), if m.Assistant? then Ids(m.calls) else [])
  }

  function EncodeFrom(state: State, messages: seq<Message>, show: seq<bool>): State
    requires |show| == |messages|
    decreases |messages|
  {
    if messages == [] then state else EncodeFrom(Encode(state, messages[0], show[0]), messages[1..], show[1..])
  }

  /** The whole input. */
  function Input(messages: seq<Message>, show: seq<bool>): seq<Item>
    requires |show| == |messages|
  {
    var end := EncodeFrom(State([], []), messages, show);
    end.items + Closing(end.open)
  }

  // ----- what the provider demands

  datatype Balance = Open(calls: multiset<string>) | Rejected

  /** Reading one item: an output must answer an open call, and nothing but outputs and calls may come
      while a call is open. */
  function Read(balance: Balance, item: Item): Balance {
    if balance.Rejected? then Rejected
    else match item
      case Call(id, _, _) => Open(balance.calls + multiset{id})
      case Output(id, _) => if id in balance.calls then Open(balance.calls - multiset{id}) else Rejected
      case _ => if balance.calls == multiset{} then balance else Rejected
  }

  function ReadAll(balance: Balance, items: seq<Item>): Balance
    decreases |items|
  {
    if items == [] then balance else ReadAll(Read(balance, Wire(items[0])), items[1..])
  }

  /** Every call is answered, every output answers a call, and no other item comes in between. */
  predicate Balanced(items: seq<Item>) {
    ReadAll(Open(multiset{}), items) == Open(multiset{})
  }

  lemma {:induction false} ReadAppend(balance: Balance, a: seq<Item>, b: seq<Item>)
    ensures ReadAll(balance, a + b) == ReadAll(ReadAll(balance, a), b)
    decreases |a|
  {
    hide Read;
    if a == [] {
      assert a + b == b;
    } else {
      ReadAppend(Read(balance, Wire(a[0])), a[1..], b);
      assert (a + b)[1..] == a[1..] + b;
    }
  }

  lemma ReadOne(balance: Balance, item: Item)
    ensures ReadAll(balance, [item]) == Read(balance, Wire(item))
  {
    assert [item][1..] == [];
  }

  lemma {:induction false} ReadClosing(open: seq<string>)
    ensures ReadAll(Open(multiset(open)), Closing(open)) == Open(multiset{})
    decreases |open|
  {
    if open != [] {
      assert open == [open[0]] + open[1..];
      assert multiset(open) - multiset{open[0]} == multiset(open[1..]);
      ReadClosing(open[1..]);
      assert Closing(open)[1..] == Closing(open[1..]);
    }
  }

  lemma {:induction false} ReadCalls(before: multiset<string>, calls: seq<ToolCall>)
    ensures ReadAll(Open(before), Calls(calls)) == Open(before + multiset(Ids(calls)))
    decreases |calls|
  {
    if calls == [] {
      assert before + multiset([]) == before;
    } else {
      var id, rest := calls[0].id, calls[1..];
      ReadCalls(before + multiset{id}, rest);
      assert Calls(calls)[1..] == Calls(rest);
      OneIdMore(before, id, Ids(rest));
      hide Calls, Wire;
    }
  }

  lemma OneIdMore(before: multiset<string>, id: string, ids: seq<string>)
    ensures before + multiset{id} + multiset(ids) == before + multiset([id] + ids)
  {
  }

  lemma WireKinds(id: string, name: string, text: string)
    ensures Wire(InventedCall(id, name)).Call? && Wire(InventedCall(id, name)).id == id
    ensures Wire(InventedOutput(id)).Output? && Wire(InventedOutput(id)).id == id
    ensures Wire(Output(id, text)) == Output(id, text)
  {
  }

  lemma KnownResultReads(open: seq<string>, m: Message, show: bool)
    requires m.Tool? && Position(open, m.callId) < |open|
    ensures ReadAll(Open(multiset(open)), Own(m, show))
         == Open(multiset(Without(open, Position(open, m.callId))))
  {
    hide Wire, ReadAll;
    var i := Position(open, m.callId);
    WireKinds(m.callId, m.name, m.content);
    ReadOne(Open(multiset(open)), Output(m.callId, m.content));
    hide Position;
    WithoutOne(open, i);
  }

  lemma WithoutOne(open: seq<string>, i: nat)
    requires i < |open|
    ensures multiset(Without(open, i)) == multiset(open) - multiset{open[i]}
    ensures open[i] in multiset(open)
  {
    assert open == open[..i] + ([open[i]] + open[i + 1..]);
  }

  lemma UnknownResultReads(open: seq<string>, m: Message, show: bool)
    requires m.Tool?
    ensures ReadAll(Open(multiset(open)), [InventedCall(m.callId, m.name)] + Own(m, show)) == Open(multiset(open))
  {
    hide Wire, ReadAll;
    var before, call := Open(multiset(open)), InventedCall(m.callId, m.name);
    var mid := Open(multiset(open) + multiset{m.callId});
    WireKinds(m.callId, m.name, m.content);
    ReadAppend(before, [call], Own(m, show));
    ReadOne(before, call);
    ReadOne(mid, Output(m.callId, m.content));
    assert mid.calls - multiset{m.callId} == multiset(open);
  }

  /** After every message the provider's open calls are the encoder's. */
  lemma EncodeReads(state: State, m: Message, show: bool)
    requires ReadAll(Open(multiset{}), state.items) == Open(multiset(state.open))
    ensures var next := Encode(state, m, show);
            ReadAll(Open(multiset{}), next.items) == Open(multiset(next.open))
  {
    hide ReadAll, Own, Closing, Read;
    var open := state.open;
    if m.Tool? {
      if Position(open, m.callId) < |open| {
        ReadAppend(Open(multiset{}), state.items, Own(m, show));
        KnownResultReads(open, m, show);
      } else {
        ReadAppend(Open(multiset{}), state.items, [InventedCall(m.callId, m.name)] + Own(m, show));
        UnknownResultReads(open, m, show);
      }
    } else {
      ReadAppend(Open(multiset{}), state.items, Closing(open) + Own(m, show));
      ReadAppend(Open(multiset(open)), Closing(open), Own(m, show));
      ReadClosing(open);
      OwnReads(m, show);
    }
  }

  lemma OwnReads(m: Message, show: bool)
    requires !m.Tool?
    ensures ReadAll(Open(multiset{}), Own(m, show))
         == Open(multiset(if m.Assistant? then Ids(m.calls) else []))
  {
    var none := Open(multiset{});
    match m
    case Assistant(content, calls) =>
      var role := if content != [] || calls == [] then [Role(FromAssistant, content)] else [];
      ReadAppend(none, role, Calls(calls));
      ReadCalls(multiset{}, calls);
      ReadOne(none, Role(FromAssistant, content));
      assert multiset{} + multiset(Ids(calls)) == multiset(Ids(calls));
    case User(content, images) => ReadOne(none, Own(m, show)[0]);
    case HistoryNote(content) => ReadOne(none, Own(m, show)[0]);
  }

  lemma {:induction false} EncodeFromReads(state: State, messages: seq<Message>, show: seq<bool>)
    requires |show| == |messages|
    requires ReadAll(Open(multiset{}), state.items) == Open(multiset(state.open))
    ensures var end := EncodeFrom(state, messages, show);
            ReadAll(Open(multiset{}), end.items) == Open(multiset(end.open))
    decreases |messages|
  {
    hide ReadAll, Encode;
    if messages != [] {
      EncodeReads(state, messages[0], show[0]);
      EncodeFromReads(Encode(state, messages[0], show[0]), messages[1..], show[1..]);
    }
  }

  /** The input is balanced for every list of messages. */
  lemma InputBalanced(messages: seq<Message>, show: seq<bool>)
    requires |show| == |messages|
    ensures Balanced(Input(messages, show))
  {
    var end := EncodeFrom(State([], []), messages, show);
    EncodeFromReads(State([], []), messages, show);
    hide EncodeFrom;
    ReadAppend(Open(multiset{}), end.items, Closing(end.open));
    ReadClosing(end.open);
  }

  // ----- nothing is lost or reordered

  function Asked(items: seq<Item>): seq<Item> {
    if items == [] then []
    else if Invented(items[0]) then Asked(items[1..])
    else [items[0]] + Asked(items[1..])
  }

  /** What the messages ask for, in order. */
  function Plain(messages: seq<Message>, show: seq<bool>): seq<Item>
    requires |show| == |messages|
    decreases |messages|
  {
    if messages == [] then [] else Own(messages[0], show[0]) + Plain(messages[1..], show[1..])
  }

  lemma {:induction false} AskedAppend(a: seq<Item>, b: seq<Item>)
    ensures Asked(a + b) == Asked(a) + Asked(b)
    decreases |a|
  {
    hide Invented;
    if a == [] {
      assert a + b == b;
    } else {
      AskedAppend(a[1..], b);
      assert (a + b)[1..] == a[1..] + b;
    }
  }

  lemma {:induction false} AskedClosing(open: seq<string>)
    ensures Asked(Closing(open)) == []
    decreases |open|
  {
    if open != [] {
      AskedClosing(open[1..]);
      assert Closing(open)[1..] == Closing(open[1..]);
    }
  }

  lemma {:induction false} AskedIsAll(items: seq<Item>)
    requires forall i :: 0 <= i < |items| ==> !Invented(items[i])
    ensures Asked(items) == items
    decreases |items|
  {
    if items != [] {
      AskedIsAll(items[1..]);
    }
  }

  lemma {:induction false} OwnIsAsked(m: Message, show: bool)
    ensures Asked(Own(m, show)) == Own(m, show)
  {
    if m.Assistant? {
      CallsAreAsked(m.calls);
    }
    AskedIsAll(Own(m, show));
  }

  lemma {:induction false} CallsAreAsked(calls: seq<ToolCall>)
    ensures forall i :: 0 <= i < |Calls(calls)| ==> !Invented(Calls(calls)[i])
    decreases |calls|
  {
    if calls != [] {
      CallsAreAsked(calls[1..]);
    }
  }

  lemma EncodeAsks(state: State, m: Message, show: bool)
    ensures Asked(Encode(state, m, show).items) == Asked(state.items) + Own(m, show)
  {
    hide Own, Asked, Closing;
    OwnIsAsked(m, show);
    if m.Tool? {
      InventedCallDrops(m, show);
      AskedAppend(state.items, Own(m, show));
      AskedAppend(state.items, [InventedCall(m.callId, m.name)] + Own(m, show));
    } else {
      AskedClosing(state.open);
      AskedAppend(state.items, Closing(state.open) + Own(m, show));
      AskedAppend(Closing(state.open), Own(m, show));
      assert [] + Own(m, show) == Own(m, show);
    }
  }

  lemma InventedCallDrops(m: Message, show: bool)
    requires m.Tool?
    ensures Asked([InventedCall(m.callId, m.name)] + Own(m, show)) == Own(m, show)
  {
    OwnIsAsked(m, show);
    hide Own;
    assert ([InventedCall(m.callId, m.name)] + Own(m, show))[1..] == Own(m, show);
  }

  lemma {:induction false} EncodeFromAsks(state: State, messages: seq<Message>, show: seq<bool>)
    requires |show| == |messages|
    ensures Asked(EncodeFrom(state, messages, show).items) == Asked(state.items) + Plain(messages, show)
    decreases |messages|
  {
    hide Asked, Own, Encode;
    if messages != [] {
      EncodeAsks(state, messages[0], show[0]);
      EncodeFromAsks(Encode(state, messages[0], show[0]), messages[1..], show[1..]);
    }
  }

  /** Without what the encoder made up, the input is what the messages ask for, each once, in order. */
  lemma InputKeepsAll(messages: seq<Message>, show: seq<bool>)
    requires |show| == |messages|
    ensures Asked(Input(messages, show)) == Plain(messages, show)
  {
    hide EncodeFrom, Plain;
    var end := EncodeFrom(State([], []), messages, show);
    EncodeFromAsks(State([], []), messages, show);
    AskedClosing(end.open);
    AskedAppend(end.items, Closing(end.open));
  }

  // ----- what the model is told

  /** What one side says, in order. */
  function SaidBy(items: seq<Item>, speaker: Speaker): seq<string> {
    if items == [] then []
    else (if items[0].Role? && items[0].speaker == speaker then [items[0].text] else []) + SaidBy(items[1..], speaker)
  }

  function CallsIn(items: seq<Item>): seq<ToolCall> {
    if items == [] then []
    else
      (if items[0].Call? then [ToolCall(items[0].id, items[0].name, items[0].arguments)] else []) + CallsIn(items[1..])
  }

  datatype Answer = Answer(callId: string, content: string)

  function ResultsIn(items: seq<Item>): seq<Answer> {
    if items == [] then []
    else (if items[0].Output? then [Answer(items[0].id, items[0].text)] else []) + ResultsIn(items[1..])
  }

  datatype Picture = Picture(text: string, images: seq<Image>, show: bool)

  function PicturesIn(items: seq<Item>): seq<Picture> {
    if items == [] then []
    else
      (if items[0].UserWithImages? then [Picture(items[0].text, items[0].images, items[0].show)] else [])
      + PicturesIn(items[1..])
  }

  /** All that items tell, each kind in order. */
  datatype Told = Told(
    user: seq<string>, assistant: seq<string>, calls: seq<ToolCall>, results: seq<Answer>, pictures: seq<Picture>)

  function ToldBy(items: seq<Item>): Told {
    Told(SaidBy(items, FromUser), SaidBy(items, FromAssistant), CallsIn(items), ResultsIn(items), PicturesIn(items))
  }

  function Both(a: Told, b: Told): Told {
    Told(a.user + b.user, a.assistant + b.assistant, a.calls + b.calls, a.results + b.results, a.pictures + b.pictures)
  }

  lemma {:induction false} SaidAppend(a: seq<Item>, b: seq<Item>, speaker: Speaker)
    ensures SaidBy(a + b, speaker) == SaidBy(a, speaker) + SaidBy(b, speaker)
    decreases |a|
  {
    if a == [] {
      assert a + b == b;
    } else {
      SaidAppend(a[1..], b, speaker);
      assert (a + b)[1..] == a[1..] + b && (a + b)[0] == a[0];
    }
  }

  lemma {:induction false} CallsAppend(a: seq<Item>, b: seq<Item>)
    ensures CallsIn(a + b) == CallsIn(a) + CallsIn(b)
    decreases |a|
  {
    if a == [] {
      assert a + b == b;
    } else {
      CallsAppend(a[1..], b);
      assert (a + b)[1..] == a[1..] + b && (a + b)[0] == a[0];
    }
  }

  lemma {:induction false} ResultsAppend(a: seq<Item>, b: seq<Item>)
    ensures ResultsIn(a + b) == ResultsIn(a) + ResultsIn(b)
    decreases |a|
  {
    if a == [] {
      assert a + b == b;
    } else {
      ResultsAppend(a[1..], b);
      assert (a + b)[1..] == a[1..] + b && (a + b)[0] == a[0];
    }
  }

  lemma {:induction false} PicturesAppend(a: seq<Item>, b: seq<Item>)
    ensures PicturesIn(a + b) == PicturesIn(a) + PicturesIn(b)
    decreases |a|
  {
    if a == [] {
      assert a + b == b;
    } else {
      PicturesAppend(a[1..], b);
      assert (a + b)[1..] == a[1..] + b && (a + b)[0] == a[0];
    }
  }

  lemma ToldAppend(a: seq<Item>, b: seq<Item>)
    ensures ToldBy(a + b) == Both(ToldBy(a), ToldBy(b))
  {
    SaidAppend(a, b, FromUser);
    SaidAppend(a, b, FromAssistant);
    CallsAppend(a, b);
    ResultsAppend(a, b);
    PicturesAppend(a, b);
  }

  /** What one item tells. */
  function Tells(item: Item): Told {
    match item
    case Role(speaker, text) => if speaker.FromUser? then Told([text], [], [], [], []) else Told([], [text], [], [], [])
    case Call(id, name, arguments) => Told([], [], [ToolCall(id, name, arguments)], [], [])
    case Output(id, text) => Told([], [], [], [Answer(id, text)], [])
    case UserWithImages(text, images, show) => Told([], [], [], [], [Picture(text, images, show)])
    case _ => Told([], [], [], [], [])
  }

  lemma ItemTold(item: Item)
    ensures ToldBy([item]) == Tells(item)
  {
    assert [item][1..] == [];
    var t := Tells(item);
    assert SaidBy([item], FromUser) == t.user;
    assert SaidBy([item], FromAssistant) == t.assistant;
    assert CallsIn([item]) == t.calls;
    assert ResultsIn([item]) == t.results;
    assert PicturesIn([item]) == t.pictures;
  }

  /** The users' words and notes that come without images. */
  function UserWords(messages: seq<Message>): seq<string> {
    if messages == [] then []
    else
      var m := messages[0];
      (if m.HistoryNote? || (m.User? && m.images == []) then [m.content] else []) + UserWords(messages[1..])
  }

  /** What the assistant says, unless it only calls tools. */
  function AssistantWords(messages: seq<Message>): seq<string> {
    if messages == [] then []
    else
      var m := messages[0];
      (if m.Assistant? && (m.content != [] || m.calls == []) then [m.content] else []) + AssistantWords(messages[1..])
  }

  function AllCalls(messages: seq<Message>): seq<ToolCall> {
    if messages == [] then [] else (if messages[0].Assistant? then messages[0].calls else []) + AllCalls(messages[1..])
  }

  function AllResults(messages: seq<Message>): seq<Answer> {
    if messages == [] then []
    else (if messages[0].Tool? then [Answer(messages[0].callId, messages[0].content)] else []) + AllResults(messages[1..])
  }

  function AllPictures(messages: seq<Message>, show: seq<bool>): seq<Picture>
    requires |show| == |messages|
    decreases |messages|
  {
    if messages == [] then []
    else
      var m := messages[0];
      (if m.User? && m.images != [] then [Picture(m.content, m.images, show[0])] else [])
      + AllPictures(messages[1..], show[1..])
  }

  function AllOf(messages: seq<Message>, show: seq<bool>): Told
    requires |show| == |messages|
  {
    Told(UserWords(messages), AssistantWords(messages), AllCalls(messages), AllResults(messages), AllPictures(messages, show))
  }

  lemma {:induction false} CallsTold(calls: seq<ToolCall>)
    ensures ToldBy(Calls(calls)) == Told([], [], calls, [], [])
    decreases |calls|
  {
    if calls == [] {
      NothingTold();
    } else {
      var first := Call(calls[0].id, calls[0].name, calls[0].arguments);
      CallsTold(calls[1..]);
      ItemTold(first);
      ToldAppend([first], Calls(calls[1..]));
      hide ToldBy;
      assert calls == [calls[0]] + calls[1..];
    }
  }

  /** What one message has to tell. */
  function ToTell(m: Message, show: bool): Told {
    match m
    case Assistant(content, calls) => Told([], if content != [] || calls == [] then [content] else [], calls, [], [])
    case Tool(callId, _, content, _) => Told([], [], [], [Answer(callId, content)], [])
    case User(content, images) =>
      if images == [] then Told([content], [], [], [], []) else Told([], [], [], [], [Picture(content, images, show)])
    case HistoryNote(content) => Told([content], [], [], [], [])
  }

  lemma OneTold(m: Message, show: bool)
    ensures ToldBy(Own(m, show)) == ToTell(m, show)
  {
    match m
    case Assistant(content, calls) => AssistantTold(content, calls, show);
    case Tool(callId, _, content, _) => ItemTold(Output(callId, content));
    case User(content, images) =>
      ItemTold(Role(FromUser, content));
      ItemTold(UserWithImages(content, images, show));
    case HistoryNote(content) => ItemTold(Role(FromUser, content));
  }

  lemma AssistantTold(content: string, calls: seq<ToolCall>, show: bool)
    ensures ToldBy(Own(Assistant(content, calls), show)) == ToTell(Assistant(content, calls), show)
  {
    var role := if content != [] || calls == [] then [Role(FromAssistant, content)] else [];
    CallsTold(calls);
    ItemTold(Role(FromAssistant, content));
    NothingTold();
    ToldAppend(role, Calls(calls));
    hide ToldBy, Calls;
    assert [] + calls == calls;
  }

  lemma {:induction false} PlainTells(messages: seq<Message>, show: seq<bool>)
    requires |show| == |messages|
    ensures ToldBy(Plain(messages, show)) == AllOf(messages, show)
    decreases |messages|
  {
    hide ToldBy, Own;
    if messages == [] {
      NothingTold();
    } else {
      PlainTells(messages[1..], show[1..]);
      OneTold(messages[0], show[0]);
      ToldAppend(Own(messages[0], show[0]), Plain(messages[1..], show[1..]));
      AllOfMore(messages, show);
    }
  }

  lemma NothingTold()
    ensures ToldBy([]) == Told([], [], [], [], [])
  {
  }

  lemma AllOfMore(messages: seq<Message>, show: seq<bool>)
    requires |show| == |messages| && messages != []
    ensures AllOf(messages, show) == Both(ToTell(messages[0], show[0]), AllOf(messages[1..], show[1..]))
  {
  }

  /** For every list of messages the input tells, besides what the encoder adds, everything each side said, every
      call with its name and arguments, every result under its call's ID, and every message with images, each kind
      once and in order. */
  lemma InputTells(messages: seq<Message>, show: seq<bool>)
    requires |show| == |messages|
    ensures ToldBy(Asked(Input(messages, show))) == AllOf(messages, show)
  {
    hide Input, Plain, ToldBy, AllOf, Asked;
    InputKeepsAll(messages, show);
    PlainTells(messages, show);
  }

  // ----- histories of the runtime need nothing made up

  /** The calls a conversation waits for. */
  function OpenCalls(phase: Phase): seq<string> {
    if phase.Calling? then Ids(phase.calls) else []
  }

  lemma EncodeFollows(state: State, phase: Phase, m: Message, show: bool)
    requires state.open == OpenCalls(phase)
    requires !After(phase, m).Broken? || (m.HistoryNote? && phase.Idle?)
    ensures var next := Encode(state, m, show);
            next.items == state.items + Own(m, show)
            && next.open == if m.HistoryNote? then [] else OpenCalls(After(phase, m))
  {
    if m.Tool? {
      assert Ids(phase.calls)[0] == m.callId;
      assert Without(state.open, 0) == Ids(phase.calls[1..]);
    } else {
      assert Closing(state.open) == [];
      assert [] + Own(m, show) == Own(m, show);
    }
  }

  lemma {:induction false} EncodesPlainly(state: State, phase: Phase, messages: seq<Message>, show: seq<bool>)
    requires |show| == |messages| && state.open == OpenCalls(phase)
    requires !Scan(phase, messages).Broken?
    ensures EncodeFrom(state, messages, show)
         == State(state.items + Plain(messages, show), OpenCalls(Scan(phase, messages)))
    decreases |messages|
  {
    hide After, Own, Encode, OpenCalls, Ids;
    if messages == [] {
      assert state.items + [] == state.items;
    } else {
      var m, next := messages[0], After(phase, messages[0]);
      NotBrokenYet(phase, messages);
      EncodeFollows(state, phase, m, show[0]);
      EncodesPlainly(Encode(state, m, show[0]), next, messages[1..], show[1..]);
      assert state.items + Own(m, show[0]) + Plain(messages[1..], show[1..])
          == state.items + (Own(m, show[0]) + Plain(messages[1..], show[1..]));
    }
  }

  lemma NotBrokenYet(phase: Phase, messages: seq<Message>)
    requires messages != [] && !Scan(phase, messages).Broken?
    ensures !After(phase, messages[0]).Broken?
    ensures !messages[0].HistoryNote?
  {
    BrokenStays(messages[1..]);
  }

  /** A history the runtime may be working on: whole turns and perhaps one that waits for the model,
      behind at most one note. */
  ghost predicate AtStep(h: seq<Message>) {
    || Scan(Idle, h).Idle? || Scan(Idle, h).Waiting?
    || (h != [] && h[0].HistoryNote? && (Scan(Idle, h[1..]).Idle? || Scan(Idle, h[1..]).Waiting?))
  }

  lemma PlainInput(h: seq<Message>, show: seq<bool>)
    requires |show| == |h| && (Scan(Idle, h).Idle? || Scan(Idle, h).Waiting?)
    ensures Input(h, show) == Plain(h, show)
  {
    hide Scan, Plain, EncodeFrom;
    EncodesPlainly(State([], []), Idle, h, show);
    assert [] + Plain(h, show) + [] == Plain(h, show);
  }

  /** The encoder adds nothing to such a history. */
  lemma NothingInvented(h: seq<Message>, show: seq<bool>)
    requires |show| == |h| && AtStep(h)
    ensures Input(h, show) == Plain(h, show)
  {
    if Scan(Idle, h).Idle? || Scan(Idle, h).Waiting? {
      PlainInput(h, show);
    } else {
      NoteThenPlain(h, show);
    }
  }

  lemma NoteThenPlain(h: seq<Message>, show: seq<bool>)
    requires |show| == |h| && h != [] && h[0].HistoryNote?
    requires Scan(Idle, h[1..]).Idle? || Scan(Idle, h[1..]).Waiting?
    ensures Input(h, show) == Plain(h, show)
  {
    hide Scan, Own, Closing, Encode;
    var start := State([], []);
    var own, rest := Own(h[0], show[0]), Plain(h[1..], show[1..]);
    EncodeFollows(start, Idle, h[0], show[0]);
    EncodesPlainly(Encode(start, h[0], show[0]), Idle, h[1..], show[1..]);
    hide EncodeFrom;
    assert Closing([]) == [] by { ClosingNothing(); }
    assert [] + own + rest + [] == own + rest;
  }

  lemma ClosingNothing()
    ensures Closing([]) == []
  {
  }

  /** Cutting such a history in front of a user message, behind a note, leaves such a history. */
  lemma CutAtStep(h: seq<Message>, i: nat, messages: seq<Message>)
    requires AtStep(h) && Contexts.Boundary(h, i)
    requires messages == h[i..] || (messages != [] && messages[0].HistoryNote? && messages[1..] == h[i..])
    requires i == 0 ==> messages == h
    ensures AtStep(messages)
  {
    if i > 0 {
      if Scan(Idle, h).Idle? || Scan(Idle, h).Waiting? {
        PhaseAtUser(h, i);
      } else {
        assert h[1..][i - 1..] == h[i..];
        PhaseAtUser(h[1..], i - 1);
      }
    }
  }

  lemma PhaseAtUser(h: seq<Message>, i: nat)
    requires !Scan(Idle, h).Broken? && i < |h| && h[i].User?
    ensures Scan(Idle, h[i..]) == Scan(Idle, h)
  {
    ScanAppend(Idle, h[..i], h[i..]);
    assert h == h[..i] + h[i..];
    NotBrokenYet(Scan(Idle, h[..i]), h[i..]);
    hide Scan;
  }

  /** Whatever the context policy selects from a history at a step, the encoder adds nothing to it. */
  lemma SelectionNeedsNothing(
    config: Contexts.Config, h: seq<Message>, system: string, toolsBytes: nat, summary: seq<Message> -> string,
    r: Result<Contexts.Selection, Contexts.ContextError>, show: seq<bool>)
    requires AtStep(h) && h != [] && Contexts.Usable(config)
    requires Contexts.Right(config, h, system, toolsBytes, summary, r) && r.Ok?
    requires |show| == |r.value.messages|
    ensures Input(r.value.messages, show) == Plain(r.value.messages, show)
  {
    hide AtStep, Contexts.Right;
    Contexts.SelectionFits(config, h, system, toolsBytes, summary, r);
    assert h[0..] == h;
    CutAtStep(h, r.value.removed, r.value.messages);
    NothingInvented(r.value.messages, show);
  }

  // ----- images

  const MAX_REQUEST_IMAGES := 8

  function ImageCount(m: Message): nat {
    if m.User? then |m.images| else 0
  }

  function Images(messages: seq<Message>): nat {
    if messages == [] then 0 else ImageCount(messages[0]) + Images(messages[1..])
  }

  /** Which messages show their images, newest first while the budget lasts. */
  function Show(messages: seq<Message>, budget: nat): (show: seq<bool>)
    ensures |show| == |messages|
  {
    if messages == [] then []
    else
      var last := |messages| - 1;
      var n := ImageCount(messages[last]);
      if 0 < n <= budget then Show(messages[..last], budget - n) + [true]
      else Show(messages[..last], budget) + [false]
  }

  /** Images of the messages that show them. */
  function Shown(messages: seq<Message>, show: seq<bool>): nat
    requires |show| == |messages|
    decreases |messages|
  {
    if messages == [] then 0
    else (if show[0] then ImageCount(messages[0]) else 0) + Shown(messages[1..], show[1..])
  }

  lemma {:induction false} ShownPush(messages: seq<Message>, show: seq<bool>, m: Message, s: bool)
    requires |show| == |messages|
    ensures Shown(messages + [m], show + [s]) == Shown(messages, show) + if s then ImageCount(m) else 0
    decreases |messages|
  {
    hide ImageCount;
    if messages == [] {
      assert ([] + [m])[1..] == [] && ([] + [s])[1..] == [];
    } else {
      ShownPush(messages[1..], show[1..], m, s);
      assert (messages + [m])[1..] == messages[1..] + [m];
      assert (show + [s])[1..] == show[1..] + [s];
    }
  }

  /** No request shows more images than the budget, and a message is shown whole or not at all. */
  lemma {:induction false} ShowWithinBudget(messages: seq<Message>, budget: nat)
    ensures Shown(messages, Show(messages, budget)) <= budget
    decreases |messages|
  {
    hide ImageCount, Shown;
    if messages == [] {
      ShownNothing();
    } else {
      var last := |messages| - 1;
      var n := ImageCount(messages[last]);
      assert messages == messages[..last] + [messages[last]];
      var rest := if 0 < n <= budget then budget - n else budget;
      ShowWithinBudget(messages[..last], rest);
      ShownPush(messages[..last], Show(messages[..last], rest), messages[last], 0 < n <= budget);
    }
  }

  lemma ShownNothing()
    ensures Shown([], []) == 0
  {
  }

  lemma {:induction false} ImagesPush(messages: seq<Message>, m: Message)
    ensures Images(messages + [m]) == Images(messages) + ImageCount(m)
    decreases |messages|
  {
    hide ImageCount;
    if messages == [] {
      assert ([] + [m])[1..] == [];
    } else {
      ImagesPush(messages[1..], m);
      assert (messages + [m])[1..] == messages[1..] + [m];
    }
  }

  /** The newest images, as the documentation puts it: exactly the image messages from `k` on. */
  predicate FromOn(messages: seq<Message>, show: seq<bool>, k: nat)
    requires |show| == |messages|
  {
    forall i :: 0 <= i < |messages| ==> (show[i] <==> k <= i && ImageCount(messages[i]) > 0)
  }

  /** With no budget left nothing is shown. */
  lemma {:induction false} NoBudget(messages: seq<Message>, k: nat)
    requires k >= |messages|
    ensures FromOn(messages, Show(messages, 0), k)
    decreases |messages|
  {
    if messages != [] {
      NoBudget(messages[..|messages| - 1], k);
    }
  }

  /** When the messages from `k` on use the budget up exactly, or hold every image there is, exactly
      their images are shown. */
  lemma {:induction false} ExactSuffixShown(messages: seq<Message>, budget: nat, k: nat)
    requires k <= |messages|
    requires Images(messages[k..]) == budget || (k == 0 && Images(messages) <= budget)
    ensures FromOn(messages, Show(messages, budget), k)
    decreases |messages|
  {
    hide ImageCount, Images, FromOn;
    if k == |messages| {
      NoImages(messages);
      if messages == [] { NoBudget([], k); } else { NoBudget(messages, k); }
    } else {
      var last := |messages| - 1;
      var n := ImageCount(messages[last]);
      LastImages(messages, k);
      LastImages(messages, 0);
      assert messages[0..] == messages && messages[..last][0..] == messages[..last];
      var rest := if 0 < n then budget - n else budget;
      ExactSuffixShown(messages[..last], rest, k);
      FromOnPush(messages, Show(messages[..last], rest), k, n > 0);
    }
  }

  lemma NoImages(messages: seq<Message>)
    ensures Images(messages[|messages|..]) == 0
  {
  }

  lemma LastImages(messages: seq<Message>, k: nat)
    requires k < |messages|
    ensures var last := |messages| - 1;
            Images(messages[k..]) == Images(messages[..last][k..]) + ImageCount(messages[last])
  {
    var last := |messages| - 1;
    assert messages[k..] == messages[..last][k..] + [messages[last]];
    ImagesPush(messages[..last][k..], messages[last]);
  }

  lemma FromOnPush(messages: seq<Message>, show: seq<bool>, k: nat, s: bool)
    requires k < |messages| == |show| + 1 && FromOn(messages[..|show|], show, k)
    requires s <==> ImageCount(messages[|show|]) > 0
    ensures FromOn(messages, show + [s], k)
  {
    hide ImageCount;
  }

  lemma {:induction false} FromOnShown(messages: seq<Message>, show: seq<bool>, k: nat)
    requires |show| == |messages| && k <= |messages| && FromOn(messages, show, k)
    ensures Shown(messages, show) == Images(messages[k..])
    decreases |messages|
  {
    hide ImageCount, Images, Shown;
    if messages == [] {
      ShownNothing();
      NoImages(messages);
    } else {
      var last := |messages| - 1;
      var before, flags := messages[..last], show[..last];
      assert messages == before + [messages[last]] && show == flags + [show[last]];
      FromOnShown(before, flags, if k <= last then k else last);
      ShownPush(before, flags, messages[last], show[last]);
      NoImages(before);
      NoImages(messages);
      if k <= last {
        LastImages(messages, k);
      }
    }
  }

  /** The newest images that fit are the ones shown, as the documentation puts it. */
  ghost predicate ShowsNewest(messages: seq<Message>, budget: nat) {
    exists k: nat :: k <= |messages| && FromOn(messages, Show(messages, budget), k)
      && Shown(messages, Show(messages, budget)) == Least(budget, Images(messages))
  }

  function Least(a: nat, b: nat): nat {
    if a < b then a else b
  }

  /** That is so exactly when some run of the newest messages holds the budget, or all there is, in whole
      messages. */
  lemma NewestShownWhen(messages: seq<Message>, budget: nat)
    ensures ShowsNewest(messages, budget)
       <==> exists k: nat :: k <= |messages| && Images(messages[k..]) == Least(budget, Images(messages))
  {
    hide Images, Shown, Show, FromOn;
    var show := Show(messages, budget);
    if ShowsNewest(messages, budget) {
      var k: nat :| k <= |messages| && FromOn(messages, show, k) && Shown(messages, show) == Least(budget, Images(messages));
      FromOnShown(messages, show, k);
    }
    if k: nat :| k <= |messages| && Images(messages[k..]) == Least(budget, Images(messages)) {
      var from := if budget <= Images(messages) then k else 0;
      assert messages[0..] == messages;
      ExactSuffixShown(messages, budget, from);
      FromOnShown(messages, show, from);
    }
  }

  /** Otherwise not: a newest message with nine images shows none, and an older one is shown. */
  lemma NewestNotAlwaysShown(image: Image)
    ensures var nine := [image, image, image, image, image, image, image, image, image];
            var messages := [User("old", [image]), User("new", nine)];
            Show(messages, MAX_REQUEST_IMAGES) == [true, false]
  {
    var nine := [image, image, image, image, image, image, image, image, image];
    var messages := [User("old", [image]), User("new", nine)];
    assert messages[..1] == [User("old", [image])];
    assert messages[..1][..0] == [];
  }

  /** Images of the shown messages that can be read and are of a type the API takes. */
  function Visible(messages: seq<Message>, show: seq<bool>, readable: Image -> bool): nat
    requires |show| == |messages|
    decreases |messages|
  {
    if messages == [] then 0
    else (if show[0] && messages[0].User? then Readable(messages[0].images, readable) else 0)
         + Visible(messages[1..], show[1..], readable)
  }

  function Readable(images: seq<Image>, readable: Image -> bool): (n: nat)
    ensures n <= |images|
  {
    if images == [] then 0 else (if readable(images[0]) then 1 else 0) + Readable(images[1..], readable)
  }

  lemma {:induction false} VisibleIsShown(messages: seq<Message>, show: seq<bool>, readable: Image -> bool)
    requires |show| == |messages|
    ensures Visible(messages, show, readable) <= Shown(messages, show)
    decreases |messages|
  {
    hide Readable;
    if messages != [] {
      VisibleIsShown(messages[1..], show[1..], readable);
    }
  }

  // ----- the encoder as the source has it

  method CloseUnanswered(input: seq<Item>, unanswered: seq<string>) returns (out: seq<Item>)
    ensures out == input + Closing(unanswered)
  {
    out := input;
    var i := 0;
    while i < |unanswered|
      invariant i <= |unanswered| && out + Closing(unanswered[i..]) == input + Closing(unanswered)
    {
      assert unanswered[i..][1..] == unanswered[i + 1..];
      out := out + [InventedOutput(unanswered[i])];
      i := i + 1;
    }
  }

  method PushCalls(input: seq<Item>, calls: seq<ToolCall>) returns (out: seq<Item>, unanswered: seq<string>)
    ensures out == input + Calls(calls) && unanswered == Ids(calls)
  {
    out, unanswered := input, [];
    var i := 0;
    while i < |calls|
      invariant i <= |calls|
      invariant out + Calls(calls[i..]) == input + Calls(calls)
      invariant unanswered + Ids(calls[i..]) == Ids(calls)
    {
      assert calls[i..][1..] == calls[i + 1..];
      out := out + [Call(calls[i].id, calls[i].name, calls[i].arguments)];
      unanswered := unanswered + [calls[i].id];
      i := i + 1;
    }
  }

  /** Go back from the last message while the budget lasts, and note whose images to show. */
  method WhichToShow(messages: seq<Message>, images: bool) returns (show: seq<bool>)
    ensures show == Show(messages, if images then MAX_REQUEST_IMAGES else 0)
  {
    show := [];
    var budget: nat := if images then MAX_REQUEST_IMAGES else 0;
    var i := |messages|;
    assert messages[..i] == messages;
    while i > 0
      invariant i <= |messages|
      invariant Show(messages[..i], budget) + show == Show(messages, if images then MAX_REQUEST_IMAGES else 0)
    {
      i := i - 1;
      assert messages[..i + 1][..i] == messages[..i];
      var n := ImageCount(messages[i]);
      if 0 < n <= budget {
        budget := budget - n;
        show := [true] + show;
      } else {
        show := [false] + show;
      }
    }
  }

  lemma Regroup(a: seq<Item>, b: seq<Item>, c: seq<Item>)
    ensures a + b + c == a + (b + c)
  {
  }

  method EncodeOne(input: seq<Item>, unanswered: seq<string>, m: Message, show: bool)
    returns (out: seq<Item>, open: seq<string>)
    ensures State(out, open) == Encode(State(input, unanswered), m, show)
  {
    hide Closing, Calls, Ids, Position;
    if m.Tool? {
      out, open := input, unanswered;
      var position := Position(unanswered, m.callId);
      if position < |unanswered| {
        open := Without(unanswered, position);
      } else {
        out := out + [InventedCall(m.callId, m.name)];
        Regroup(input, [InventedCall(m.callId, m.name)], Own(m, show));
      }
      out := out + [Output(m.callId, m.content)];
    } else {
      out := CloseUnanswered(input, unanswered);
      Regroup(input, Closing(unanswered), Own(m, show));
      if m.Assistant? {
        var role := if m.content != [] || m.calls == [] then [Role(FromAssistant, m.content)] else [];
        Regroup(out, role, Calls(m.calls));
        out, open := PushCalls(out + role, m.calls);
      } else {
        out, open := out + Own(m, show), [];
      }
    }
  }

  method ResponseInput(messages: seq<Message>, images: bool, readable: Image -> bool)
    returns (input: seq<Item>, shown: nat)
    ensures var show := Show(messages, if images then MAX_REQUEST_IMAGES else 0);
            input == Input(messages, show) && shown == Visible(messages, show, readable)
    ensures shown <= MAX_REQUEST_IMAGES && (!images ==> shown == 0)
  {
    hide Encode, Closing, Show, Readable;
    var show := WhichToShow(messages, images);
    var unanswered: seq<string> := [];
    input, shown := [], 0;
    var i := 0;
    assert messages[0..] == messages && show[0..] == show;
    while i < |messages|
      invariant i <= |messages|
      invariant EncodeFrom(State(input, unanswered), messages[i..], show[i..])
             == EncodeFrom(State([], []), messages, show)
      invariant shown + Visible(messages[i..], show[i..], readable) == Visible(messages, show, readable)
    {
      assert messages[i..][1..] == messages[i + 1..] && show[i..][1..] == show[i + 1..];
      if show[i] && messages[i].User? {
        shown := shown + Readable(messages[i].images, readable);
      }
      input, unanswered := EncodeOne(input, unanswered, messages[i], show[i]);
      i := i + 1;
    }
    input := CloseUnanswered(input, unanswered);
    VisibleIsShown(messages, show, readable);
    ShowWithinBudget(messages, if images then MAX_REQUEST_IMAGES else 0);
  }
}

/** History as serde writes it (crates/scv-core/src/message.rs): the text whose length the limits and the context
    budget count. */
module Json {
  import opened Text
  import opened Messages
  import opened HistoryLimits

  // ----- the text

  function HexDigit(n: nat): char
    requires n < 16
  {
    "0123456789abcdef"[n]
  }

  function Escaped(c: char): string {
    if c == '\"' then "\\\""
    else if c == '\\' then "\\\\"
    else if c == '\n' then "\\n"
    else if c == '\r' then "\\r"
    else if c == '\t' then "\\t"
    else if c as int == 8 then "\\b"
    else if c as int == 12 then "\\f"
    else if c as int < 0x20 then "\\u00" + [HexDigit(c as int / 16)] + [HexDigit(c as int % 16)]
    else [c]
  }

  function AllEscaped(s: string): string {
    if s == [] then [] else Escaped(s[0]) + AllEscaped(s[1..])
  }

  function Str(s: string): string {
    "\"" + AllEscaped(s) + "\""
  }

  function Join(parts: seq<string>): string {
    if parts == [] then [] else if |parts| == 1 then parts[0] else parts[0] + "," + Join(parts[1..])
  }

  function ImageText(image: Image): string {
    "{\"path\":" + Str(image.path) + ",\"mime\":" + Str(image.mime) + "}"
  }

  function CallText(call: ToolCall): string {
    "{\"id\":" + Str(call.id) + Name() + Str(call.name) + ",\"arguments\":" + call.arguments + "}"
  }

  function ImageTexts(images: seq<Image>): seq<string> {
    seq(|images|, i requires 0 <= i < |images| => ImageText(images[i]))
  }

  function CallTexts(calls: seq<ToolCall>): seq<string> {
    seq(|calls|, i requires 0 <= i < |calls| => CallText(calls[i]))
  }

  /** The fixed parts of the text. */
  function UserHead(): string { "{\"role\":\"user\",\"content\":" }
  function AssistantHead(): string { "{\"role\":\"assistant\",\"content\":" }
  function ToolHead(): string { "{\"role\":\"tool\",\"call_id\":" }
  function NoteHead(): string { "{\"role\":\"history_note\",\"content\":" }
  function Images(): string { ",\"images\":[" }
  function ToolCalls(): string { ",\"tool_calls\":[" }
  function Name(): string { ",\"name\":" }
  function Content(): string { ",\"content\":" }
  function IsError(): string { ",\"is_error\":" }

  function Flag(yes: bool): string {
    if yes then "true" else "false"
  }

  function ToolStart(callId: string, name: string, content: string): string {
    ToolHead() + Str(callId) + Name() + Str(name) + Content() + Str(content)
  }

  /** An empty list of images or calls is left out. */
  function MessageText(m: Message): string {
    match m
    case User(content, images) =>
      UserHead() + Str(content)
      + (if images == [] then "" else Images() + Join(ImageTexts(images)) + "]") + "}"
    case Assistant(content, calls) =>
      AssistantHead() + Str(content)
      + (if calls == [] then "" else ToolCalls() + Join(CallTexts(calls)) + "]") + "}"
    case Tool(callId, name, content, isError) =>
      ToolStart(callId, name, content) + IsError() + Flag(isError) + "}"
    case HistoryNote(content) => NoteHead() + Str(content) + "}"
  }

  function MessageTexts(h: seq<Message>): seq<string> {
    seq(|h|, i requires 0 <= i < |h| => MessageText(h[i]))
  }

  function HistoryText(h: seq<Message>): string {
    "[" + Join(MessageTexts(h)) + "]"
  }

  // ----- its length

  predicate Ascii(s: string) {
    forall i :: 0 <= i < |s| ==> s[i] as int < 0x80
  }

  lemma HeadTexts()
    ensures Ascii(UserHead()) && |UserHead()| == 25
    ensures Ascii(AssistantHead()) && |AssistantHead()| == 30
    ensures Ascii(ToolHead()) && |ToolHead()| == 25
    ensures Ascii(NoteHead()) && |NoteHead()| == 33
  {
    UserHeadText();
    AssistantHeadText();
    ToolHeadText();
    NoteHeadText();
    hide *;
  }

  lemma UserHeadText()
    ensures Ascii(UserHead()) && |UserHead()| == 25
  {
  }

  lemma AssistantHeadText()
    ensures Ascii(AssistantHead()) && |AssistantHead()| == 30
  {
  }

  lemma ToolHeadText()
    ensures Ascii(ToolHead()) && |ToolHead()| == 25
  {
  }

  lemma NoteHeadText()
    ensures Ascii(NoteHead()) && |NoteHead()| == 33
  {
  }

  lemma FieldTexts()
    ensures Ascii(Images()) && |Images()| == 11
    ensures Ascii(ToolCalls()) && |ToolCalls()| == 15
    ensures Ascii(Name()) && |Name()| == 8
    ensures Ascii(Content()) && |Content()| == 11
    ensures Ascii(IsError()) && |IsError()| == 12
  {
  }

  lemma Fixed(s: string)
    requires Ascii(s)
    ensures Bytes(s) == |s|
  {
    AsciiBytes(s);
  }

  lemma EscapedIs(c: char)
    ensures Bytes(Escaped(c)) == EscapedWidth(c)
  {
    if c as int < 0x20 || c == '\"' || c == '\\' {
      Fixed(Escaped(c));
    } else {
      assert [c][1..] == [];
    }
  }

  lemma {:induction false} AllEscapedIs(s: string)
    ensures Bytes(AllEscaped(s)) == EscapedBytes(s)
    decreases |s|
  {
    hide Escaped, EscapedWidth, Bytes;
    if s != [] {
      AllEscapedIs(s[1..]);
      EscapedIs(s[0]);
      BytesAppend(Escaped(s[0]), AllEscaped(s[1..]));
    } else {
      NoBytes();
    }
  }

  lemma StrIs(s: string)
    ensures Bytes(Str(s)) == Quoted(s)
  {
    AllEscapedIs(s);
    Fixed("\"");
    hide Bytes, AllEscaped, EscapedBytes;
    BytesAppend("\"", AllEscaped(s));
    BytesAppend("\"" + AllEscaped(s), "\"");
  }

  /** A fixed text, something, and the rest. */
  lemma Around(fixed: string, inner: string, rest: string)
    requires Ascii(fixed)
    ensures Bytes(fixed + inner + rest) == |fixed| + Bytes(inner) + Bytes(rest)
  {
    Fixed(fixed);
    hide Bytes;
    BytesAppend(fixed, inner);
    BytesAppend(fixed + inner, rest);
  }

  lemma Behind(text: string, fixed: string, inner: string)
    requires Ascii(fixed)
    ensures Bytes(text + fixed + inner) == Bytes(text) + |fixed| + Bytes(inner)
  {
    Fixed(fixed);
    hide Bytes;
    BytesAppend(text, fixed);
    BytesAppend(text + fixed, inner);
  }

  lemma Closed(text: string, fixed: string)
    requires Ascii(fixed)
    ensures Bytes(text + fixed) == Bytes(text) + |fixed|
  {
    Fixed(fixed);
    hide Bytes;
    BytesAppend(text, fixed);
  }

  lemma ImageIs(image: Image)
    ensures Bytes(ImageText(image)) == ImageBytes(image)
  {
    StrIs(image.path);
    StrIs(image.mime);
    hide Bytes, Str, Quoted;
    var a := "{\"path\":" + Str(image.path);
    Closed("", "{\"path\":");
    Around("{\"path\":", Str(image.path), "");
    assert a + "" == a;
    NoBytes();
    Behind(a, ",\"mime\":", Str(image.mime));
    Closed(a + ",\"mime\":" + Str(image.mime), "}");
  }

  lemma CallIs(call: ToolCall)
    ensures Bytes(CallText(call)) == CallBytes(call)
  {
    StrIs(call.id);
    StrIs(call.name);
    hide Bytes, Str, Quoted;
    var a := "{\"id\":" + Str(call.id);
    Around("{\"id\":", Str(call.id), "");
    assert a + "" == a;
    NoBytes();
    var b := a + Name() + Str(call.name);
    Behind(a, Name(), Str(call.name));
    Behind(b, ",\"arguments\":", call.arguments);
    Closed(b + ",\"arguments\":" + call.arguments, "}");
  }

  lemma JoinFirst(first: string, rest: seq<string>)
    ensures Bytes(Join([first] + rest)) == Bytes(first) + (if rest == [] then 0 else 1 + Bytes(Join(rest)))
  {
    assert ([first] + rest)[1..] == rest;
    if rest != [] {
      hide Bytes;
      Behind(first, ",", Join(rest));
    }
  }

  lemma {:induction false} ImagesAre(images: seq<Image>)
    ensures Bytes(Join(ImageTexts(images))) == ImagesBytes(images)
    decreases |images|
  {
    hide Bytes, Join, ImageText, ImageBytes;
    if images != [] {
      ImageIs(images[0]);
      ImagesAre(images[1..]);
      assert |ImageTexts(images[1..])| == |images| - 1;
      assert ImageTexts(images) == [ImageText(images[0])] + ImageTexts(images[1..]);
      JoinFirst(ImageText(images[0]), ImageTexts(images[1..]));
    } else {
      assert ImageTexts(images) == [];
      NothingJoined();
    }
  }

  lemma NothingJoined()
    ensures Bytes(Join([])) == 0
  {
  }

  lemma {:induction false} CallsAre(calls: seq<ToolCall>)
    ensures Bytes(Join(CallTexts(calls))) == CallsBytes(calls)
    decreases |calls|
  {
    hide Bytes, Join, CallText, CallBytes;
    if calls != [] {
      CallIs(calls[0]);
      CallsAre(calls[1..]);
      assert |CallTexts(calls[1..])| == |calls| - 1;
      assert CallTexts(calls) == [CallText(calls[0])] + CallTexts(calls[1..]);
      JoinFirst(CallText(calls[0]), CallTexts(calls[1..]));
    } else {
      assert CallTexts(calls) == [];
      NothingJoined();
    }
  }

  lemma ListIs(head: string, content: string, open: string, list: string)
    requires Ascii(head) && Ascii(open)
    ensures Bytes(head + content + (open + list + "]") + "}") == |head| + Bytes(content) + |open| + Bytes(list) + 2
    ensures Bytes(head + content + "" + "}") == |head| + Bytes(content) + 1
  {
    NoBytes();
    Around(open, list, "]");
    Fixed("]");
    hide Bytes;
    Around(head, content, open + list + "]");
    Closed(head + content + (open + list + "]"), "}");
    Around(head, content, "");
    Closed(head + content + "", "}");
  }

  lemma ToolStartIs(callId: string, name: string, content: string)
    ensures Bytes(ToolStart(callId, name, content)) == 44 + Quoted(callId) + Quoted(name) + Quoted(content)
  {
    StrIs(callId);
    StrIs(name);
    StrIs(content);
    HeadTexts();
    FieldTexts();
    NoBytes();
    hide Bytes, Str, Quoted, Ascii, ToolHead, Name, Content;
    var a := ToolHead() + Str(callId);
    Around(ToolHead(), Str(callId), "");
    assert a + "" == a;
    Behind(a, Name(), Str(name));
    Behind(a + Name() + Str(name), Content(), Str(content));
  }

  lemma ToolIs(callId: string, name: string, content: string, isError: bool)
    ensures Bytes(MessageText(Tool(callId, name, content, isError))) == MessageBytes(Tool(callId, name, content, isError))
  {
    ToolStartIs(callId, name, content);
    FlagIs(ToolStart(callId, name, content), isError);
    hide Bytes, ToolStart, Quoted, Flag;
  }

  lemma FlagIs(start: string, isError: bool)
    ensures Bytes(start + IsError() + Flag(isError) + "}") == Bytes(start) + 13 + if isError then 4 else 5
  {
    FieldTexts();
    Fixed(Flag(isError));
    Behind(start, IsError(), Flag(isError));
    Brace(start + IsError() + Flag(isError));
    hide *;
    FlagLength(isError);
  }

  lemma FlagLength(isError: bool)
    ensures |Flag(isError)| == if isError then 4 else 5
  {
  }

  lemma Brace(text: string)
    ensures Bytes(text + "}") == Bytes(text) + 1
  {
    Closed(text, "}");
  }

  lemma UserIs(content: string, images: seq<Image>)
    ensures Bytes(MessageText(User(content, images))) == MessageBytes(User(content, images))
  {
    StrIs(content);
    ImagesAre(images);
    HeadTexts();
    FieldTexts();
    hide Bytes, Str, Quoted, Join, ImagesBytes, ImageTexts, Ascii, UserHead, AssistantHead, ToolHead, NoteHead;
    hide Images, ToolCalls, Name, Content, IsError;
    ListIs(UserHead(), Str(content), Images(), Join(ImageTexts(images)));
  }

  lemma AssistantIs(content: string, calls: seq<ToolCall>)
    ensures Bytes(MessageText(Assistant(content, calls))) == MessageBytes(Assistant(content, calls))
  {
    StrIs(content);
    CallsAre(calls);
    HeadTexts();
    FieldTexts();
    hide Bytes, Str, Quoted, Join, CallsBytes, CallTexts, Ascii, UserHead, AssistantHead, ToolHead, NoteHead, Images;
    hide ToolCalls, Name, Content, IsError;
    ListIs(AssistantHead(), Str(content), ToolCalls(), Join(CallTexts(calls)));
  }

  lemma NoteIs(content: string)
    ensures Bytes(MessageText(HistoryNote(content))) == MessageBytes(HistoryNote(content))
  {
    StrIs(content);
    HeadTexts();
    FieldTexts();
    Fixed("}");
    hide Bytes, Str, Quoted, Ascii, UserHead, AssistantHead, ToolHead, NoteHead, Images, ToolCalls, Name, Content;
    hide IsError;
    Around(NoteHead(), Str(content), "}");
  }

  /** A message's size is the length of its JSON. */
  lemma MessageIs(m: Message)
    ensures Bytes(MessageText(m)) == MessageBytes(m)
  {
    hide *;
    match m
    case User(content, images) => UserIs(content, images);
    case Assistant(content, calls) => AssistantIs(content, calls);
    case Tool(callId, name, content, isError) => ToolIs(callId, name, content, isError);
    case HistoryNote(content) => NoteIs(content);
  }

  lemma {:induction false} MessagesAre(h: seq<Message>)
    ensures h != [] ==> Bytes(Join(MessageTexts(h))) + 1 == ListBytes(h)
    decreases |h|
  {
    hide Bytes, Join, MessageText, MessageBytes;
    if h != [] {
      MessageIs(h[0]);
      MessagesAre(h[1..]);
      assert MessageTexts(h) == [MessageText(h[0])] + MessageTexts(h[1..]);
      JoinFirst(MessageText(h[0]), MessageTexts(h[1..]));
    }
  }

  /** The bytes the limits count are those of the history's JSON. */
  lemma HistoryIs(h: seq<Message>)
    ensures Bytes(HistoryText(h)) == HistoryBytes(h)
  {
    MessagesAre(h);
    NothingJoined();
    Fixed("]");
    hide Bytes, Join, ListBytes;
    Around("[", Join(MessageTexts(h)), "]");
  }

  /** The tokens a message costs: those of its JSON, rounded up, 4, and 1600 for each image. */
  lemma TokensAre(m: Message, bytesPerToken: nat) returns (t: nat)
    requires bytesPerToken > 0
    ensures Tokens(m, bytesPerToken) == t + 4 + if m.User? then 1600 * |m.images| else 0
    ensures t * bytesPerToken >= Bytes(MessageText(m)) > (t - 1) * bytesPerToken
  {
    MessageIs(m);
    TokensUnfolded(m, bytesPerToken);
    t := DivCeil(MessageBytes(m), bytesPerToken);
    RoundedUp(MessageBytes(m), bytesPerToken);
    hide *;
  }

  lemma TokensUnfolded(m: Message, d: nat)
    requires d > 0
    ensures Tokens(m, d) == DivCeil(MessageBytes(m), d) + 4 + if m.User? then 1600 * |m.images| else 0
  {
    hide MessageBytes, DivCeil;
  }

  lemma RoundedUp(n: nat, d: nat)
    requires d > 0
    ensures var t := DivCeil(n, d); t * d >= n > (t - 1) * d
  {
    var t := (n + d - 1) / d;
    assert n + d - 1 == d * t + (n + d - 1) % d;
    assert (t - 1) * d == d * t - d;
  }
}

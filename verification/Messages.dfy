/** Canonical history messages and their sizes (crates/scv-core/src/message.rs).

    A message's size is the length of its JSON as serde writes it. Tool-call arguments are kept as
    their JSON text. */
module Messages {
  import opened Text

  datatype Image = Image(path: string, mime: string)

  datatype ToolCall = ToolCall(id: string, name: string, arguments: string)

  datatype Message =
    | User(content: string, images: seq<Image>)
    | Assistant(content: string, calls: seq<ToolCall>)
    | Tool(callId: string, name: string, content: string, isError: bool)
    | HistoryNote(content: string)

  const IMAGE_TOKENS := 1600

  // ----- JSON sizes

  /** Bytes of one character inside a JSON string. */
  function EscapedWidth(c: char): (w: nat)
    ensures w >= 1
  {
    if c == '\"' || c == '\\' || c == '\n' || c == '\r' || c == '\t' || c as int == 8 || c as int == 12 then 2
    else if c as int < 0x20 then 6
    else Width(c)
  }

  function EscapedBytes(s: string): nat {
    if s == [] then 0 else EscapedWidth(s[0]) + EscapedBytes(s[1..])
  }

  /** A JSON string with its quotes. */
  function Quoted(s: string): nat {
    EscapedBytes(s) + 2
  }

  /** `{"path":…,"mime":…}` */
  function ImageBytes(image: Image): nat {
    17 + Quoted(image.path) + Quoted(image.mime)
  }

  /** `{"id":…,"name":…,"arguments":…}` */
  function CallBytes(call: ToolCall): nat {
    28 + Quoted(call.id) + Quoted(call.name) + Bytes(call.arguments)
  }

  function ImagesBytes(images: seq<Image>): nat {
    if images == [] then 0
    else ImageBytes(images[0]) + (if |images| > 1 then 1 else 0) + ImagesBytes(images[1..])
  }

  function CallsBytes(calls: seq<ToolCall>): nat {
    if calls == [] then 0
    else CallBytes(calls[0]) + (if |calls| > 1 then 1 else 0) + CallsBytes(calls[1..])
  }

  /** The message's JSON; an empty image or call list is left out of it. */
  function MessageBytes(m: Message): (n: nat)
    ensures n > 0
  {
    match m
    // {"role":"user","content":…,"images":[…]}
    case User(content, images) =>
      26 + Quoted(content) + if images == [] then 0 else 12 + ImagesBytes(images)
    // {"role":"assistant","content":…,"tool_calls":[…]}
    case Assistant(content, calls) =>
      31 + Quoted(content) + if calls == [] then 0 else 16 + CallsBytes(calls)
    // {"role":"tool","call_id":…,"name":…,"content":…,"is_error":…}
    case Tool(callId, name, content, isError) =>
      57 + Quoted(callId) + Quoted(name) + Quoted(content) + if isError then 4 else 5
    // {"role":"history_note","content":…}
    case HistoryNote(content) => 34 + Quoted(content)
  }

  function DivCeil(n: nat, d: nat): nat
    requires d > 0
  {
    (n + d - 1) / d
  }

  /** Estimated context cost of one message. */
  function Tokens(m: Message, bytesPerToken: nat): nat
    requires bytesPerToken > 0
  {
    DivCeil(MessageBytes(m), bytesPerToken) + 4 + if m.User? then |m.images| * IMAGE_TOKENS else 0
  }

  // ----- sizes of note prefixes grow with the prefix

  lemma EscapedAppend(a: string, b: string)
    ensures EscapedBytes(a + b) == EscapedBytes(a) + EscapedBytes(b)
  {
    if a == [] {
      assert a + b == b;
    } else {
      EscapedAppend(a[1..], b);
      assert (a + b)[1..] == a[1..] + b;
    }
  }

  lemma DivCeilMonotone(a: nat, b: nat, d: nat)
    requires d > 0 && a <= b
    ensures DivCeil(a, d) <= DivCeil(b, d)
  {
    var p, q := (a + d - 1) / d, (b + d - 1) / d;
    assert a + d - 1 == d * p + (a + d - 1) % d;
    assert b + d - 1 == d * q + (b + d - 1) % d;
    assert d * (p - q) < d;
    assert p - q >= 1 ==> d * (p - q) >= d;
  }

  lemma NoteTokensMonotone(content: string, i: nat, j: nat, bytesPerToken: nat)
    requires i <= j <= |content| && bytesPerToken > 0
    ensures Tokens(HistoryNote(content[..i]), bytesPerToken) <= Tokens(HistoryNote(content[..j]), bytesPerToken)
  {
    EscapedAppend(content[..i], content[i..j]);
    assert content[..j] == content[..i] + content[i..j];
    DivCeilMonotone(MessageBytes(HistoryNote(content[..i])), MessageBytes(HistoryNote(content[..j])), bytesPerToken);
  }
}

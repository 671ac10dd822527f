/** SCV's own words as Markdown code blocks, one per message part
    (`code_blocks` and `split_utf8`, crates/scv-channels/src/lib.rs).

    One function pads so that the other cuts exactly between blocks. The reference is a reader of
    fenced code blocks after section 4.5 of the CommonMark specification. */
module CodeBlocks {
  import opened Wrappers
  import opened Text

  predicate AllOf(s: string, c: char) {
    forall i :: 0 <= i < |s| ==> s[i] == c
  }

  function Repeat(c: char, n: nat): (s: string)
    ensures |s| == n && AllOf(s, c)
  {
    seq(n, _ => c)
  }

  // ----- what a Markdown reader sees

  /** Length of the run of `c` that `s` starts with. */
  function Leading(s: string, c: char): (n: nat)
    ensures n <= |s| && AllOf(s[..n], c)
    ensures n < |s| ==> s[n] != c
  {
    if s == [] || s[0] != c then 0 else 1 + Leading(s[1..], c)
  }

  /** A line and what ends it: a line feed, a carriage return, or both; nothing at the end of the text. */
  datatype Line = Line(text: string, ending: string)

  function Lines(s: string): (lines: seq<Line>)
    ensures lines != []
    decreases |s|
  {
    if s == [] then [Line([], [])]
    else if s[0] == '\n' then [Line([], "\n")] + Lines(s[1..])
    else if s[0] == '\r' && |s| > 1 && s[1] == '\n' then [Line([], "\r\n")] + Lines(s[2..])
    else if s[0] == '\r' then [Line([], "\r")] + Lines(s[1..])
    else
      var rest := Lines(s[1..]);
      [Line([s[0]] + rest[0].text, rest[0].ending)] + rest[1..]
  }

  /** The text of whole lines, but for what ends the last. */
  function Content(lines: seq<Line>): string {
    if lines == [] then []
    else if |lines| == 1 then lines[0].text
    else lines[0].text + (lines[0].ending + Content(lines[1..]))
  }

  /** A line that closes a block opened with `fence` backticks: at most three spaces of indentation,
      at least as many backticks, and then only spaces. */
  predicate Closes(line: string, fence: nat) {
    var indent := Leading(line, ' ');
    var ticks := Leading(line[indent..], '`');
    indent <= 3 && ticks >= fence && AllOf(line[indent + ticks..], ' ')
  }

  function FirstClosing(lines: seq<Line>, fence: nat): (i: nat)
    ensures i <= |lines|
  {
    if lines == [] || Closes(lines[0].text, fence) then 0 else 1 + FirstClosing(lines[1..], fence)
  }

  /** The content of `part` when it is exactly one fenced code block, and nothing else. */
  function Rendered(part: string): Option<string> {
    var fence := Leading(part, '`');
    var lines := Lines(part[fence..]);
    if fence < 3 || |lines| < 2 || lines[0].text != [] then None
    else
      var rest := lines[1..];
      if FirstClosing(rest, fence) == |rest| - 1 then Some(Content(rest[..|rest| - 1])) else None
  }

  /** What a reader gets of `content` in a block: a carriage return at its end is part of the line ending in
      front of the closing fence. */
  function ReadAs(content: string): string {
    if content != [] && content[|content| - 1] == '\r' then content[..|content| - 1] else content
  }

  // ----- what SCV writes

  /** The longest run of backticks. */
  function LongestRun(s: string): (n: nat) {
    if s == [] then 0
    else if Leading(s, '`') > LongestRun(s[1..]) then Leading(s, '`') else LongestRun(s[1..])
  }

  function FenceOf(body: string): (n: nat)
    ensures n >= 3
  {
    (if LongestRun(body) > 2 then LongestRun(body) else 2) + 1
  }

  function Block(fence: nat, content: string, padding: nat): string {
    Repeat('`', fence) + ("\n" + (content + ("\n" + (Repeat('`', fence) + Repeat(' ', padding)))))
  }

  /** Blocks of the pieces, each but the last padded as if its piece filled `room`. */
  function Blocks(fence: nat, pieces: seq<string>, room: nat): seq<string> {
    if pieces == [] then []
    else if |pieces| == 1 then [Block(fence, pieces[0], 0)]
    else
      var used := Bytes(pieces[0]);
      [Block(fence, pieces[0], if used <= room then room - used else 0)] + Blocks(fence, pieces[1..], room)
  }

  /** Bytes of the opening and closing fence lines. */
  function Frame(body: string): nat {
    2 * (FenceOf(body) + 1)
  }

  /** Whether `body` goes out fenced: in one block, or with room for any character in each. */
  predicate Fenced(body: string, max: nat) {
    Frame(body) + Bytes(body) <= max || max >= Frame(body) + 4
  }

  function Marked(body: string, max: nat): string {
    if Frame(body) + Bytes(body) <= max then Block(FenceOf(body), body, 0)
    else if max < Frame(body) + 4 then body
    else Concat(Blocks(FenceOf(body), Split(body, max - Frame(body)), max - Frame(body)))
  }

  method MarkBody(body: string, max: nat) returns (blocks: string)
    ensures blocks == Marked(body, max)
  {
    hide Bytes, Fitting, Split, Cut, Block, LongestRun;
    var fence, frame := FenceOf(body), Frame(body);
    if frame + Bytes(body) <= max {
      return Block(fence, body, 0);
    }
    if max < frame + 4 {
      return body;
    }
    var room := max - frame;
    var rest := body;
    blocks := [];
    while Bytes(rest) > room
      invariant blocks + Concat(Blocks(fence, Split(rest, room), room))
             == Concat(Blocks(fence, Split(body, room), room))
      decreases |rest|
    {
      var end := FloorBoundary(rest, room);
      var k := Fitting(rest, end);
      RoomForOne(rest, room);
      SplitFirst(rest, room);
      BlocksFirst(fence, rest[..k], Split(rest[k..], room), room);
      blocks := blocks + Block(fence, rest[..k], room - end);
      rest := rest[k..];
    }
    SplitFirst(rest, room);
    ConcatOne(Block(fence, rest, 0));
    blocks := blocks + Block(fence, rest, 0);
  }

  lemma RoomForOne(s: string, room: nat)
    requires room >= 4 && Bytes(s) > room
    ensures 0 < Fitting(s, room) < |s| && Cut(s, room) == Fitting(s, room)
    ensures Bytes(s[..Fitting(s, room)]) <= room
  {
    FittingIsLongest(s, room);
  }

  lemma BlocksFirst(fence: nat, piece: string, rest: seq<string>, room: nat)
    requires rest != [] && Bytes(piece) <= room
    ensures Blocks(fence, [piece] + rest, room)
         == [Block(fence, piece, room - Bytes(piece))] + Blocks(fence, rest, room)
    ensures Concat(Blocks(fence, [piece] + rest, room))
         == Block(fence, piece, room - Bytes(piece)) + Concat(Blocks(fence, rest, room))
  {
    hide Bytes, Block;
    assert ([piece] + rest)[1..] == rest;
    var first, later := Block(fence, piece, room - Bytes(piece)), Blocks(fence, rest, room);
    assert ([first] + later)[1..] == later;
  }

  // ----- byte lengths of blocks

  lemma RepeatBytes(c: char, n: nat)
    requires Width(c) == 1
    ensures Bytes(Repeat(c, n)) == n
    decreases n
  {
    if n > 0 {
      RepeatBytes(c, n - 1);
      assert Repeat(c, n)[1..] == Repeat(c, n - 1);
    }
  }

  lemma BlockBytes(fence: nat, content: string, padding: nat)
    ensures Bytes(Block(fence, content, padding)) == 2 * (fence + 1) + Bytes(content) + padding
  {
    var ticks, spaces := Repeat('`', fence), Repeat(' ', padding);
    RepeatBytes('`', fence);
    RepeatBytes(' ', padding);
    assert Bytes("\n") == 1;
    hide Bytes;
    BytesAppend(ticks, spaces);
    BytesAppend("\n", ticks + spaces);
    BytesAppend(content, "\n" + (ticks + spaces));
    BytesAppend("\n", content + ("\n" + (ticks + spaces)));
    BytesAppend(ticks, "\n" + (content + ("\n" + (ticks + spaces))));
  }

  // ----- backtick runs

  lemma LeadingIs(s: string, c: char, n: nat)
    requires n <= |s| && AllOf(s[..n], c) && (n < |s| ==> s[n] != c)
    ensures Leading(s, c) == n
  {
    var m := Leading(s, c);
    assert forall k :: 0 <= k < n ==> s[k] == s[..n][k];
    assert forall k :: 0 <= k < m ==> s[k] == s[..m][k];
  }

  lemma {:induction false} LeadingAtLeast(s: string, c: char, n: nat)
    requires n <= |s| && AllOf(s[..n], c)
    ensures Leading(s, c) >= n
    decreases n
  {
    if n > 0 {
      assert s[0] == s[..n][0];
      assert s[1..][..n - 1] == s[..n][1..];
      LeadingAtLeast(s[1..], c, n - 1);
    }
  }

  lemma {:induction false} RunFound(s: string) returns (i: nat)
    ensures i + LongestRun(s) <= |s| && AllOf(s[i..i + LongestRun(s)], '`')
    decreases |s|
  {
    i := 0;
    if s != [] && Leading(s, '`') <= LongestRun(s[1..]) {
      var k := RunFound(s[1..]);
      i := k + 1;
      assert s[1..][k..k + LongestRun(s[1..])] == s[i..i + LongestRun(s)];
    }
  }

  /** The fence is longer than every run of backticks in the body, and no longer than it must be: three, or one more
      than some run. */
  lemma FenceShortest(body: string) returns (i: nat)
    ensures forall a, b :: 0 <= a <= b <= |body| && AllOf(body[a..b], '`') ==> b - a < FenceOf(body)
    ensures FenceOf(body) == 3 || (i + FenceOf(body) - 1 <= |body| && AllOf(body[i..i + FenceOf(body) - 1], '`'))
  {
    i := RunFound(body);
    hide LongestRun;
    forall a, b | 0 <= a <= b <= |body| && AllOf(body[a..b], '`') ensures b - a < FenceOf(body) {
      RunBounded(body, a, b);
    }
  }

  /** No run of backticks is longer than the longest. */
  lemma {:induction false} RunBounded(s: string, i: nat, j: nat)
    requires i <= j <= |s| && AllOf(s[i..j], '`')
    ensures j - i <= LongestRun(s)
    decreases i
  {
    if i == 0 {
      LeadingAtLeast(s, '`', j);
      assert s != [] || j == 0;
    } else {
      assert s[1..][i - 1..j - 1] == s[i..j];
      RunBounded(s[1..], i - 1, j - 1);
    }
  }

  lemma {:induction false} SuffixRun(s: string, k: nat)
    requires k <= |s|
    ensures LongestRun(s[k..]) <= LongestRun(s)
    decreases k
  {
    if k > 0 {
      SuffixRun(s[1..], k - 1);
      assert s[1..][k - 1..] == s[k..];
    } else {
      assert s[0..] == s;
    }
  }

  lemma {:induction false} PrefixRun(p: string, s: string)
    requires p <= s
    ensures LongestRun(p) <= LongestRun(s)
    decreases |p|
  {
    if p != [] {
      PrefixRun(p[1..], s[1..]);
      var n := Leading(p, '`');
      assert s[..n] == p[..n];
      LeadingAtLeast(s, '`', n);
    }
  }

  /** Cutting a body makes no run longer. */
  lemma {:induction false} PieceRuns(body: string, room: nat)
    ensures forall i :: 0 <= i < |Split(body, room)| ==> LongestRun(Split(body, room)[i]) <= LongestRun(body)
    decreases |body|
  {
    hide LongestRun, Cut;
    var k := Cut(body, room);
    if k < |body| {
      PrefixRun(body[..k], body);
      SuffixRun(body, k);
      PieceRuns(body[k..], room);
    }
  }

  // ----- reading a block back

  predicate OneLine(s: string) {
    '\n' !in s && '\r' !in s
  }

  lemma {:induction false} SingleLine(s: string)
    requires OneLine(s)
    ensures Lines(s) == [Line(s, [])]
    decreases |s|
  {
    if s != [] {
      SingleLine(s[1..]);
      assert s == [s[0]] + s[1..];
    }
  }

  /** One more line in front. */
  lemma ContentPush(line: Line, rest: seq<Line>)
    requires rest != []
    ensures Content([line] + rest) == line.text + (line.ending + Content(rest))
  {
    assert ([line] + rest)[1..] == rest;
  }

  lemma ContentHead(c: char, rest: seq<Line>)
    requires rest != []
    ensures Content([Line([c] + rest[0].text, rest[0].ending)] + rest[1..]) == [c] + Content(rest)
  {
    var lines := [Line([c] + rest[0].text, rest[0].ending)] + rest[1..];
    assert lines[1..] == rest[1..];
    if |rest| > 1 {
      assert [c] + rest[0].text + (rest[0].ending + Content(rest[1..])) == [c] + (rest[0].text + (rest[0].ending + Content(rest[1..])));
    }
  }

  /** The lines of a text that a line feed and a last line follow, as a reader sees them: they hold what is seen
      of the text, and no longer run of backticks. */
  ghost predicate LinesOf(s: string, lines: seq<Line>) {
    && lines != [] && Content(lines) == ReadAs(s) && lines[0].text <= s
    && forall i :: 0 <= i < |lines| ==> LongestRun(lines[i].text) <= LongestRun(s)
  }

  lemma {:induction false} LinesThenLine(s: string, last: string) returns (lines: seq<Line>)
    requires OneLine(last)
    ensures Lines(s + ("\n" + last)) == lines + [Line(last, [])] && LinesOf(s, lines)
    decreases |s|
  {
    hide LinesOf, Lines;
    if s == [] || (s[0] == '\r' && |s| == 1) {
      lines := LastEnding(s, last);
    } else if s[0] == '\n' || s[0] == '\r' {
      var k := if s[0] == '\r' && s[1] == '\n' then 2 else 1;
      var rest := LinesThenLine(s[k..], last);
      lines := [Line([], s[..k])] + rest;
      EndingStep(s, k, rest, last);
    } else {
      var rest := LinesThenLine(s[1..], last);
      HasLines(s[1..], rest);
      lines := [Line([s[0]] + rest[0].text, rest[0].ending)] + rest[1..];
      CharStep(s, rest, last);
    }
  }

  lemma HasLines(s: string, lines: seq<Line>)
    requires LinesOf(s, lines)
    ensures lines != []
  {
  }

  /** A line ending first. */
  lemma EndingStep(s: string, k: nat, rest: seq<Line>, last: string)
    requires s != [] && (s[0] == '\n' || (s[0] == '\r' && |s| > 1)) && k == (if s[0] == '\r' && s[1] == '\n' then 2 else 1)
    requires LinesOf(s[k..], rest) && Lines(s[k..] + ("\n" + last)) == rest + [Line(last, [])]
    ensures var lines := [Line([], s[..k])] + rest;
            Lines(s + ("\n" + last)) == lines + [Line(last, [])] && LinesOf(s, lines)
  {
    hide LinesOf, Lines;
    var t := "\n" + last;
    EndingFirst(s, k, t);
    assert (s + t)[k..] == s[k..] + t;
    assert [Line([], s[..k])] + (rest + [Line(last, [])]) == [Line([], s[..k])] + rest + [Line(last, [])];
    EndingOf(s, k, rest);
  }

  lemma EndingOf(s: string, k: nat, rest: seq<Line>)
    requires 1 <= k <= |s| && s[k - 1] in {'\n', '\r'} && (k == |s| ==> s[k - 1] == '\n') && LinesOf(s[k..], rest)
    ensures LinesOf(s, [Line([], s[..k])] + rest)
  {
    hide LongestRun, Content;
    SuffixRun(s, k);
    ContentPush(Line([], s[..k]), rest);
    NoRun(s);
    assert s == s[..k] + s[k..];
    ReadAsTail(s, k);
  }

  lemma ReadAsTail(s: string, k: nat)
    requires k <= |s| && (k == |s| ==> k > 0 && s[k - 1] == '\n')
    ensures ReadAs(s) == s[..k] + ReadAs(s[k..])
  {
  }

  /** Any other character first. */
  lemma CharStep(s: string, rest: seq<Line>, last: string)
    requires s != [] && s[0] != '\n' && s[0] != '\r'
    requires LinesOf(s[1..], rest) && Lines(s[1..] + ("\n" + last)) == rest + [Line(last, [])]
    ensures var lines := [Line([s[0]] + rest[0].text, rest[0].ending)] + rest[1..];
            Lines(s + ("\n" + last)) == lines + [Line(last, [])] && LinesOf(s, lines)
  {
    HasLines(s[1..], rest);
    CharLines(s, "\n" + last, rest, Line(last, []));
    CharOf(s, rest);
    hide LinesOf, Lines;
  }

  lemma CharLines(s: string, t: string, rest: seq<Line>, last: Line)
    requires s != [] && s[0] != '\n' && s[0] != '\r' && rest != [] && Lines(s[1..] + t) == rest + [last]
    ensures Lines(s + t) == [Line([s[0]] + rest[0].text, rest[0].ending)] + rest[1..] + [last]
  {
    assert (s + t)[1..] == s[1..] + t && (s + t)[0] == s[0];
    assert (rest + [last])[1..] == rest[1..] + [last];
  }

  lemma CharOf(s: string, rest: seq<Line>)
    requires s != [] && s[0] != '\r' && LinesOf(s[1..], rest)
    ensures LinesOf(s, [Line([s[0]] + rest[0].text, rest[0].ending)] + rest[1..])
  {
    hide LongestRun, Content;
    var first := [s[0]] + rest[0].text;
    SuffixRun(s, 1);
    ContentHead(s[0], rest);
    assert s == [s[0]] + s[1..];
    assert first <= s;
    PrefixRun(first, s);
  }

  lemma NoRun(s: string)
    ensures LongestRun([]) <= LongestRun(s)
  {
  }

  lemma EndingFirst(s: string, k: nat, t: string)
    requires |s| > 1 || (s != [] && s[0] == '\n')
    requires s[0] == '\n' || s[0] == '\r'
    requires k == if s[0] == '\r' && s[1] == '\n' then 2 else 1
    ensures Lines(s + t) == [Line([], s[..k])] + Lines((s + t)[k..])
  {
    var u := s + t;
    assert u[0] == s[0] && (|s| > 1 ==> u[1] == s[1]);
    assert s[..k] == if s[0] == '\n' then "\n" else if k == 2 then "\r\n" else "\r";
  }

  /** Nothing, or a carriage return alone, in front of the line feed. */
  lemma LastEnding(s: string, last: string) returns (lines: seq<Line>)
    requires OneLine(last) && (s == [] || s == "\r")
    ensures Lines(s + ("\n" + last)) == lines + [Line(last, [])] && LinesOf(s, lines)
  {
    SingleLine(last);
    var t := "\n" + last;
    assert t[1..] == last;
    NoRun(s);
    if s == [] {
      lines := [Line([], "\n")];
      assert s + t == t;
    } else {
      lines := [Line([], "\r\n")];
      var u := s + t;
      assert u[0] == '\r' && u[1] == '\n' && u[2..] == last;
    }
    hide LongestRun;
  }

  lemma LongFenceNeverCloses(line: string, fence: nat)
    requires fence > LongestRun(line)
    ensures !Closes(line, fence)
  {
    var indent := Leading(line, ' ');
    var ticks := Leading(line[indent..], '`');
    assert line[indent..][..ticks] == line[indent..indent + ticks];
    RunBounded(line, indent, indent + ticks);
  }

  lemma {:induction false} FirstClosingIs(lines: seq<Line>, last: Line, fence: nat)
    requires forall i :: 0 <= i < |lines| ==> !Closes(lines[i].text, fence)
    requires Closes(last.text, fence)
    ensures FirstClosing(lines + [last], fence) == |lines|
    decreases |lines|
  {
    hide Closes;
    if lines != [] {
      assert (lines + [last])[1..] == lines[1..] + [last];
      FirstClosingIs(lines[1..], last, fence);
    }
  }

  lemma ClosingLine(fence: nat, padding: nat)
    requires fence > 0
    ensures var line := Repeat('`', fence) + Repeat(' ', padding);
            Closes(line, fence) && OneLine(line)
  {
    var line := Repeat('`', fence) + Repeat(' ', padding);
    LeadingIs(line, ' ', 0);
    assert line[0..] == line;
    assert line[..fence] == Repeat('`', fence);
    LeadingIs(line, '`', fence);
  }

  /** A block whose fence is longer than every run inside reads as what is seen of its content. */
  lemma BlockRenders(fence: nat, content: string, padding: nat)
    requires fence >= 3 && fence > LongestRun(content)
    ensures Rendered(Block(fence, content, padding)) == Some(ReadAs(content))
  {
    hide LongestRun, Closes, Content;
    var closing := Repeat('`', fence) + Repeat(' ', padding);
    var after := content + ("\n" + closing);
    var part := Block(fence, content, padding);
    assert part == Repeat('`', fence) + ("\n" + after);
    assert part[..fence] == Repeat('`', fence) && part[fence..] == "\n" + after && part[fence] == '\n';
    LeadingIs(part, '`', fence);
    ClosingLine(fence, padding);
    var lines := LinesThenLine(content, closing);
    assert ("\n" + after)[1..] == after;
    assert Lines("\n" + after) == [Line([], "\n")] + Lines(after);
    hide Lines;
    forall i | 0 <= i < |lines| ensures !Closes(lines[i].text, fence) {
      LongFenceNeverCloses(lines[i].text, fence);
    }
    FirstClosingIs(lines, Line(closing, []), fence);
    assert ([Line([], "\n")] + (lines + [Line(closing, [])]))[1..] == lines + [Line(closing, [])];
    assert (lines + [Line(closing, [])])[..|lines|] == lines;
  }

  // ----- main result

  /** The parts are blocks of the pieces: full but for the last, and each reads as its piece. */
  lemma {:induction false} BlocksHold(fence: nat, pieces: seq<string>, room: nat)
    requires pieces != [] && fence >= 3
    requires forall i :: 0 <= i < |pieces| ==> Bytes(pieces[i]) <= room && LongestRun(pieces[i]) < fence
    ensures var blocks, max := Blocks(fence, pieces, room), room + 2 * (fence + 1);
            && |blocks| == |pieces|
            && (forall i :: 0 <= i < |blocks| - 1 ==> Bytes(blocks[i]) == max)
            && 0 < Bytes(blocks[|blocks| - 1]) <= max
            && (forall i :: 0 <= i < |blocks| ==> Rendered(blocks[i]) == Some(ReadAs(pieces[i])))
    decreases |pieces|
  {
    hide Bytes, Block, Rendered, LongestRun;
    if |pieces| == 1 {
      BlockBytes(fence, pieces[0], 0);
      BlockRenders(fence, pieces[0], 0);
    } else {
      BlockBytes(fence, pieces[0], room - Bytes(pieces[0]));
      BlockRenders(fence, pieces[0], room - Bytes(pieces[0]));
      BlocksHold(fence, pieces[1..], room);
    }
  }

  /** `parts` are complete code blocks of at most `max` bytes, full but for the last, that read as what is
      seen of `pieces`. */
  ghost predicate Rendering(parts: seq<string>, pieces: seq<string>, max: nat) {
    && |parts| == |pieces|
    && (forall i :: 0 <= i < |parts| ==> Rendered(parts[i]) == Some(ReadAs(pieces[i])))
    && (forall i :: 0 <= i < |parts| ==> Bytes(parts[i]) <= max)
    && (forall i :: 0 <= i < |parts| - 1 ==> Bytes(parts[i]) == max)
  }

  /** Whenever the body goes out fenced, each part the splitter cuts is one complete code block of at
      most `max` bytes, every part but the last is full, and each reads as one piece of the body, but for a
      carriage return at a piece's end. */
  lemma PartsAreBlocks(body: string, max: nat)
    requires Fenced(body, max)
    ensures Rendering(Split(Marked(body, max), max), PiecesOf(body, max), max) && Concat(PiecesOf(body, max)) == body
  {
    hide Bytes, Block, Rendered, LongestRun, Split;
    if Frame(body) + Bytes(body) <= max {
      OneBlock(body, max);
      ConcatOne(body);
    } else {
      PiecesFit(body, max - Frame(body));
      ManyBlocks(FenceOf(body), Split(body, max - Frame(body)), max - Frame(body));
    }
  }

  /** The pieces of a body that goes out fenced: all of it, or as much as each block has room for. */
  function PiecesOf(body: string, max: nat): seq<string>
    requires Fenced(body, max)
  {
    if Frame(body) + Bytes(body) <= max then [body] else Split(body, max - Frame(body))
  }

  /** What a reader gets of all the parts. */
  function Contents(parts: seq<string>): string {
    if parts == [] then []
    else (if Rendered(parts[0]).Some? then Rendered(parts[0]).value else []) + Contents(parts[1..])
  }

  predicate EndsWithReturn(s: string) {
    s != [] && s[|s| - 1] == '\r'
  }

  /** How many pieces lose a carriage return. */
  function Lost(pieces: seq<string>): nat {
    if pieces == [] then 0 else (if EndsWithReturn(pieces[0]) then 1 else 0) + Lost(pieces[1..])
  }

  lemma {:induction false} LostNone(pieces: seq<string>)
    ensures Lost(pieces) == 0 <==> forall i :: 0 <= i < |pieces| ==> !EndsWithReturn(pieces[i])
    decreases |pieces|
  {
    hide EndsWithReturn;
    if pieces != [] {
      LostNone(pieces[1..]);
      if Lost(pieces[1..]) > 0 {
        var i :| 0 <= i < |pieces[1..]| && EndsWithReturn(pieces[1..][i]);
        assert EndsWithReturn(pieces[i + 1]);
      }
    }
  }

  /** The contents are the pieces, each without a carriage return at its end. */
  lemma {:induction false} ContentsOf(parts: seq<string>, pieces: seq<string>)
    requires |parts| == |pieces| && forall i :: 0 <= i < |parts| ==> Rendered(parts[i]) == Some(ReadAs(pieces[i]))
    ensures |Contents(parts)| == |Concat(pieces)| - Lost(pieces)
    ensures Lost(pieces) == 0 ==> Contents(parts) == Concat(pieces)
    decreases |parts|
  {
    hide Rendered;
    if parts != [] {
      ContentsOf(parts[1..], pieces[1..]);
    }
  }

  /** Exactly when the contents of the parts join to the body: no piece ends with a carriage return. */
  lemma PartsReadAsBody(body: string, max: nat)
    requires Fenced(body, max)
    ensures Contents(Split(Marked(body, max), max)) == body
       <==> forall i :: 0 <= i < |PiecesOf(body, max)| ==> !EndsWithReturn(PiecesOf(body, max)[i])
  {
    PartsAreBlocks(body, max);
    var parts, pieces := Split(Marked(body, max), max), PiecesOf(body, max);
    hide Split, Marked, Rendered, Concat, PiecesOf, Bytes, Contents, Lost, EndsWithReturn, ReadAs;
    ContentsOf(parts, pieces);
    LostNone(pieces);
  }

  lemma {:induction false} NoReturns(pieces: seq<string>)
    requires '\r' !in Concat(pieces)
    ensures forall i :: 0 <= i < |pieces| ==> !EndsWithReturn(pieces[i])
    decreases |pieces|
  {
    if pieces != [] {
      assert forall c :: c in pieces[0] || c in Concat(pieces[1..]) ==> c in Concat(pieces);
      NoReturns(pieces[1..]);
    }
  }

  /** So they do for every body without one. */
  lemma PlainReadAsBody(body: string, max: nat)
    requires Fenced(body, max) && '\r' !in body
    ensures Contents(Split(Marked(body, max), max)) == body
  {
    hide Split, Marked, Rendered, Concat, PiecesOf, Bytes, Contents, EndsWithReturn;
    PartsAreBlocks(body, max);
    NoReturns(PiecesOf(body, max));
    PartsReadAsBody(body, max);
  }

  /** A body whose last character is lost. */
  lemma ReturnLost()
    ensures Fenced("a\r", 100) && Contents(Split(Marked("a\r", 100), 100)) != "a\r"
  {
    var body := "a\r";
    assert body[1..] == "\r" && body[1..][1..] == [];
    assert Bytes(body) == 2;
    assert LongestRun(body) == 0;
    assert PiecesOf(body, 100) == [body];
    assert EndsWithReturn(PiecesOf(body, 100)[0]);
    hide Split, Marked, Bytes, Contents, LongestRun, PiecesOf;
    PartsReadAsBody(body, 100);
  }

  lemma OneBlock(body: string, max: nat)
    requires Frame(body) + Bytes(body) <= max
    ensures Rendering(Split(Marked(body, max), max), [body], max)
  {
    hide Bytes, Block, Rendered, LongestRun;
    FenceBeatsRuns(body);
    BlockBytes(FenceOf(body), body, 0);
    BlockRenders(FenceOf(body), body, 0);
  }

  lemma ManyBlocks(fence: nat, pieces: seq<string>, room: nat)
    requires pieces != [] && fence >= 3
    requires forall i :: 0 <= i < |pieces| ==> Bytes(pieces[i]) <= room && LongestRun(pieces[i]) < fence
    ensures var max := room + 2 * (fence + 1);
            Rendering(Split(Concat(Blocks(fence, pieces, room)), max), pieces, max)
  {
    hide Bytes, Block, Rendered, LongestRun, Split, Blocks;
    BlocksHold(fence, pieces, room);
    SplitExactParts(Blocks(fence, pieces, room), room + 2 * (fence + 1));
  }

  lemma FenceBeatsRuns(body: string)
    ensures FenceOf(body) > LongestRun(body)
  {
  }

  lemma PiecesFit(body: string, room: nat)
    requires room >= 4 && body != []
    ensures Concat(Split(body, room)) == body
    ensures forall i :: 0 <= i < |Split(body, room)| ==>
              Bytes(Split(body, room)[i]) <= room && LongestRun(Split(body, room)[i]) < FenceOf(body)
  {
    SplitParts(body, room);
    PieceRuns(body, room);
    FenceBeatsRuns(body);
    hide Split, LongestRun;
    forall i | 0 <= i < |Split(body, room)| ensures Bytes(Split(body, room)[i]) <= room {
      var p := Split(body, room)[i];
      assert GoodPart(p, room);
      if |p| == 1 {
        assert p[1..] == [];
      }
    }
  }

  /** A body that cannot go out fenced is sent as it is, and reads as no single block of itself. */
  lemma UnfencedIsBare(body: string, max: nat)
    requires !Fenced(body, max)
    ensures Marked(body, max) == body
    ensures Rendered(body) != Some(body)
  {
    var fence := Leading(body, '`');
    if Rendered(body).Some? {
      var lines := Lines(body[fence..]);
      LinesHold(body[fence..]);
      ContentShorter(lines[1..][..|lines[1..]| - 1]);
      PrefixHeld(lines[1..], |lines[1..]| - 1);
    }
  }

  /** How many characters the lines hold. */
  function Held(lines: seq<Line>): nat {
    if lines == [] then 0 else |lines[0].text| + |lines[0].ending| + Held(lines[1..])
  }

  lemma {:induction false} LinesHold(s: string)
    ensures Held(Lines(s)) == |s|
    decreases |s|
  {
    if s != [] {
      if s[0] == '\r' && |s| > 1 && s[1] == '\n' {
        LinesHold(s[2..]);
        assert ([Line([], "\r\n")] + Lines(s[2..]))[1..] == Lines(s[2..]);
      } else {
        LinesHold(s[1..]);
        var rest := Lines(s[1..]);
        assert ([Line([], s[..1])] + rest)[1..] == rest && s[..1] == [s[0]];
        assert ([Line([s[0]] + rest[0].text, rest[0].ending)] + rest[1..])[1..] == rest[1..];
      }
    }
  }

  lemma {:induction false} ContentShorter(lines: seq<Line>)
    ensures |Content(lines)| <= Held(lines)
    decreases |lines|
  {
    if |lines| > 1 {
      ContentShorter(lines[1..]);
    }
  }

  lemma {:induction false} PrefixHeld(lines: seq<Line>, k: nat)
    requires k <= |lines|
    ensures Held(lines[..k]) <= Held(lines)
    decreases k
  {
    if k > 0 {
      PrefixHeld(lines[1..], k - 1);
      assert lines[..k][1..] == lines[1..][..k - 1];
    }
  }
}

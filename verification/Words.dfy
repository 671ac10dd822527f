/** The words that answer a yes-or-no question (`answer`, crates/scv-channels/src/intake.rs). */
module Words {
  import opened Wrappers
  import opened Text

  function LowerChar(c: char): char {
    if 'A' <= c <= 'Z' then (c as int + 32) as char else c
  }

  function Lower(s: string): string {
    seq(|s|, i requires 0 <= i < |s| => LowerChar(s[i]))
  }

  function TrimStart(s: string): string {
    if s != [] && IsSpace(s[0]) then TrimStart(s[1..]) else s
  }

  function TrimEnd(s: string): string {
    if s != [] && IsSpace(s[|s| - 1]) then TrimEnd(s[..|s| - 1]) else s
  }

  predicate IsStop(c: char) {
    c in {'.', '!', '\U{3002}', '\U{FF01}'}
  }

  function WithoutStops(s: string): string {
    if s != [] && IsStop(s[|s| - 1]) then WithoutStops(s[..|s| - 1]) else s
  }

  const YES: seq<string> := ["yes", "y", "\U{662F}", "\U{662F}\U{7684}", "\U{786E}\U{8BA4}", "\U{540C}\U{610F}"]
  const NO: seq<string> := [
    "no", "n", "\U{5426}", "\U{4E0D}", "\U{4E0D}\U{8981}", "\U{53D6}\U{6D88}", "\U{7B97}\U{4E86}", "stop"]

  /** What the text answers, in plain words. Only ASCII letters have a lower case that occurs in a word. */
  function AnswerIn(text: string): Option<bool> {
    var word := TrimEnd(WithoutStops(Lower(TrimStart(TrimEnd(text)))));
    if word in YES then Some(true) else if word in NO then Some(false) else None
  }

  // ----- what counts as an answer

  /** The words for yes, and for no. */
  predicate MeansYes(word: string) {
    word in ["yes", "y", "\U{662F}", "\U{662F}\U{7684}", "\U{786E}\U{8BA4}", "\U{540C}\U{610F}"]
  }

  predicate MeansNo(word: string) {
    word in ["no", "n", "\U{5426}", "\U{4E0D}", "\U{4E0D}\U{8981}", "\U{53D6}\U{6D88}", "\U{7B97}\U{4E86}", "stop"]
  }

  predicate Stops(s: string) {
    forall i :: 0 <= i < |s| ==> s[i] in {'.', '!', '\U{3002}', '\U{FF01}'}
  }

  /** `text` is `said`, in capitals or not, with spaces around it and perhaps full stops or exclamation marks behind. */
  predicate SaysIn(text: string, before: string, said: string, gap: string, stops: string, after: string) {
    && text == before + said + gap + stops + after
    && Blank(before) && Blank(gap) && Blank(after) && Stops(stops)
  }

  ghost predicate Says(text: string, word: string) {
    exists before, said, gap, stops, after :: SaysIn(text, before, said, gap, stops, after) && Lower(said) == word
  }

  /** A word starts and ends with neither a space nor a stop. */
  predicate Bounded(word: string) {
    word != [] && !IsSpace(word[0]) && !IsSpace(word[|word| - 1]) && !IsStop(word[|word| - 1])
  }

  lemma WordsBounded(word: string)
    requires MeansYes(word) || MeansNo(word)
    ensures Bounded(word)
  {
  }

  lemma LowerAppend(a: string, b: string)
    ensures Lower(a + b) == Lower(a) + Lower(b)
  {
    hide LowerChar;
  }

  lemma LowerKeeps(s: string)
    ensures Blank(s) ==> Lower(s) == s
    ensures Stops(s) ==> Lower(s) == s
    ensures s != [] ==> forall c :: c == s[|s| - 1] ==>
              (IsSpace(LowerChar(c)) <==> IsSpace(c)) && (IsStop(LowerChar(c)) <==> IsStop(c))
  {
  }

  // ----- trimming

  lemma {:induction false} TrimEndSplits(s: string) returns (tail: string)
    ensures s == TrimEnd(s) + tail && Blank(tail)
    decreases |s|
  {
    hide IsSpace;
    tail := [];
    if s != [] && IsSpace(s[|s| - 1]) {
      var rest := TrimEndSplits(s[..|s| - 1]);
      tail := rest + [s[|s| - 1]];
      assert s == s[..|s| - 1] + [s[|s| - 1]];
    }
  }

  lemma {:induction false} TrimStartSplits(s: string) returns (head: string)
    ensures s == head + TrimStart(s) && Blank(head)
    decreases |s|
  {
    hide IsSpace;
    head := [];
    if s != [] && IsSpace(s[0]) {
      var rest := TrimStartSplits(s[1..]);
      head := [s[0]] + rest;
      assert s == [s[0]] + s[1..];
    }
  }

  lemma {:induction false} StopsSplit(s: string) returns (tail: string)
    ensures s == WithoutStops(s) + tail && Stops(tail)
    decreases |s|
  {
    tail := [];
    if s != [] && IsStop(s[|s| - 1]) {
      var rest := StopsSplit(s[..|s| - 1]);
      tail := rest + [s[|s| - 1]];
      assert s == s[..|s| - 1] + [s[|s| - 1]];
    }
  }

  lemma {:induction false} TrimEndDrops(s: string, tail: string)
    requires Blank(tail) && (s == [] || !IsSpace(s[|s| - 1]))
    ensures TrimEnd(s + tail) == s
    decreases |tail|
  {
    hide IsSpace;
    if tail == [] {
      assert s + tail == s;
    } else {
      var n := |tail| - 1;
      assert (s + tail)[..|s + tail| - 1] == s + tail[..n] && (s + tail)[|s + tail| - 1] == tail[n];
      TrimEndDrops(s, tail[..n]);
    }
  }

  lemma {:induction false} TrimStartDrops(head: string, s: string)
    requires Blank(head) && (s == [] || !IsSpace(s[0]))
    ensures TrimStart(head + s) == s
    decreases |head|
  {
    hide IsSpace;
    if head == [] {
      assert head + s == s;
    } else {
      assert (head + s)[1..] == head[1..] + s && (head + s)[0] == head[0];
      TrimStartDrops(head[1..], s);
    }
  }

  lemma {:induction false} StopsDrop(s: string, tail: string)
    requires Stops(tail) && (s == [] || !IsStop(s[|s| - 1]))
    ensures WithoutStops(s + tail) == s
    decreases |tail|
  {
    if tail == [] {
      assert s + tail == s;
    } else {
      var n := |tail| - 1;
      assert (s + tail)[..|s + tail| - 1] == s + tail[..n] && (s + tail)[|s + tail| - 1] == tail[n];
      StopsDrop(s, tail[..n]);
    }
  }

  // ----- the word read is the word said

  function WordOf(text: string): string {
    TrimEnd(WithoutStops(Lower(TrimStart(TrimEnd(text)))))
  }

  lemma SaidIsRead(text: string, before: string, said: string, gap: string, stops: string, after: string)
    requires SaysIn(text, before, said, gap, stops, after) && Bounded(Lower(said))
    ensures WordOf(text) == Lower(said)
  {
    LowerKeeps(said);
    LowerKeeps(said[..1]);
    assert said[..1][0] == said[0];
    assert !IsSpace(said[0]) && !IsSpace(said[|said| - 1]) && !IsStop(said[|said| - 1]);
    if stops == [] {
      assert text == before + said + (gap + after);
      BlankAppend(gap, after);
      Read(before, said, gap + after);
      assert said == said + [] + [];
      ReadLower(said, [], []);
    } else {
      assert text == before + (said + gap + stops) + after;
      StopNoSpace(stops);
      Read(before, said + gap + stops, after);
      ReadLower(said, gap, stops);
    }
  }

  lemma BlankAppend(a: string, b: string)
    requires Blank(a) && Blank(b)
    ensures Blank(a + b)
  {
    hide IsSpace;
  }

  lemma StopNoSpace(s: string)
    requires Stops(s) && s != []
    ensures !IsSpace(s[|s| - 1])
  {
  }

  lemma Read(before: string, core: string, after: string)
    requires Blank(before) && Blank(after) && core != [] && !IsSpace(core[0]) && !IsSpace(core[|core| - 1])
    ensures TrimStart(TrimEnd(before + core + after)) == core
  {
    hide IsSpace;
    assert (before + core)[|before + core| - 1] == core[|core| - 1];
    TrimEndDrops(before + core, after);
    TrimStartDrops(before, core);
  }

  lemma ReadLower(said: string, gap: string, stops: string)
    requires Blank(gap) && Stops(stops) && Bounded(Lower(said))
    ensures TrimEnd(WithoutStops(Lower(said + gap + stops))) == Lower(said)
  {
    LowerKeeps(gap);
    LowerKeeps(stops);
    LowerAppend(said + gap, stops);
    LowerAppend(said, gap);
    SpaceNoStop(gap);
    hide IsSpace, IsStop, Lower;
    assert gap == [] ==> Lower(said) + gap == Lower(said);
    assert gap != [] ==> (Lower(said) + gap)[|Lower(said) + gap| - 1] == gap[|gap| - 1];
    StopsDrop(Lower(said) + gap, stops);
    TrimEndDrops(Lower(said), gap);
  }

  lemma SpaceNoStop(s: string)
    requires Blank(s)
    ensures s != [] ==> !IsStop(s[|s| - 1])
  {
  }

  /** What is read was said. */
  lemma ReadIsSaid(text: string)
    ensures Says(text, WordOf(text))
  {
    var after := TrimEndSplits(text);
    var before := TrimStartSplits(TrimEnd(text));
    var core := TrimStart(TrimEnd(text));
    var ends := StopsSplit(Lower(core));
    var blanks := TrimEndSplits(WithoutStops(Lower(core)));
    var whole, stops := LowerSplits(core, WithoutStops(Lower(core)), ends);
    var said, gap := LowerSplits(whole, WordOf(text), blanks);
    LowerBlank(gap);
    LowerStops(stops);
    hide *;
    Assembled(text, before, said, gap, stops, after);
  }

  lemma Assembled(text: string, before: string, said: string, gap: string, stops: string, after: string)
    requires text == before + (said + gap + stops) + after
    requires Blank(before) && Blank(gap) && Blank(after) && Stops(stops) && Lower(said) == WordOf(text)
    ensures Says(text, WordOf(text))
  {
    hide WordOf, Lower, IsSpace;
    assert SaysIn(text, before, said, gap, stops, after);
  }

  lemma LowerSplits(s: string, a: string, b: string) returns (first: string, rest: string)
    requires Lower(s) == a + b
    ensures s == first + rest && Lower(first) == a && Lower(rest) == b
  {
    hide LowerChar;
    assert |s| == |a + b|;
    first, rest := s[..|a|], s[|a|..];
    forall i | 0 <= i < |a| ensures Lower(first)[i] == a[i] {
      assert Lower(s)[i] == (a + b)[i];
    }
    forall i | 0 <= i < |b| ensures Lower(rest)[i] == b[i] {
      assert Lower(s)[|a| + i] == (a + b)[|a| + i];
    }
  }

  lemma LowerBlank(s: string)
    ensures Blank(Lower(s)) ==> Blank(s)
  {
    forall i | 0 <= i < |s| && Blank(Lower(s)) ensures IsSpace(s[i]) {
      assert Lower(s)[i] == LowerChar(s[i]);
    }
  }

  lemma LowerStops(s: string)
    ensures Stops(Lower(s)) ==> Stops(s)
  {
    forall i | 0 <= i < |s| && Stops(Lower(s)) ensures IsStop(s[i]) {
      assert Lower(s)[i] == LowerChar(s[i]);
    }
  }

  /** A text answers yes if and only if it says one of the words for yes, and no if and only if one for no. */
  lemma AnswerSays(text: string)
    ensures AnswerIn(text) == Some(true) <==> exists word :: MeansYes(word) && Says(text, word)
    ensures AnswerIn(text) == Some(false) <==> exists word :: MeansNo(word) && Says(text, word)
  {
    ReadIsSaid(text);
    hide WordOf, Says;
    forall word | (MeansYes(word) || MeansNo(word)) && Says(text, word) ensures word == WordOf(text) {
      WordsBounded(word);
      SaysIsRead(text, word);
    }
    AnswerIs(text);
  }

  lemma SaysIsRead(text: string, word: string)
    requires Says(text, word) && Bounded(word)
    ensures WordOf(text) == word
  {
    hide WordOf, Lower, Bounded;
    var before, said, gap, stops, after :| SaysIn(text, before, said, gap, stops, after) && Lower(said) == word;
    SaidIsRead(text, before, said, gap, stops, after);
  }

  lemma AnswerIs(text: string)
    ensures AnswerIn(text) == if MeansYes(WordOf(text)) then Some(true) else if MeansNo(WordOf(text)) then Some(false) else None
    ensures !(MeansYes(WordOf(text)) && MeansNo(WordOf(text)))
  {
    hide TrimEnd, WithoutStops, Lower, TrimStart;
  }
}

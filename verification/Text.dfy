/** Text with a byte length, as the source's `str`: a sequence of characters, each one to four bytes
    wide in UTF-8. Byte offsets are meaningful only on character boundaries. */
module Text {

  function Width(c: char): (w: nat)
    ensures 1 <= w <= 4
  {
    if c as int < 0x80 then 1 else if c as int < 0x800 then 2 else if c as int < 0x1_0000 then 3 else 4
  }

  /** The length in bytes. */
  function Bytes(s: string): (n: nat)
    ensures n >= |s| && (s == [] ==> n == 0)
  {
    if s == [] then 0 else Width(s[0]) + Bytes(s[1..])
  }

  /** How many whole characters fit in the first `bytes` bytes. */
  function Fitting(s: string, bytes: nat): (k: nat)
    ensures k <= |s|
  {
    if s == [] || Width(s[0]) > bytes then 0 else 1 + Fitting(s[1..], bytes - Width(s[0]))
  }

  predicate IsCharBoundary(s: string, bytes: nat) {
    Bytes(s[..Fitting(s, bytes)]) == bytes
  }

  function Concat(parts: seq<string>): string {
    if parts == [] then [] else parts[0] + Concat(parts[1..])
  }

  /** White space as Unicode defines it. */
  predicate IsSpace(c: char) {
    var n := c as int;
    || 9 <= n <= 13 || n == 0x20 || n == 0x85 || n == 0xA0 || n == 0x1680 || 0x2000 <= n <= 0x200A
    || n == 0x2028 || n == 0x2029 || n == 0x202F || n == 0x205F || n == 0x3000
  }

  /** Only white space. */
  predicate Blank(s: string) {
    forall i :: 0 <= i < |s| ==> IsSpace(s[i])
  }

  // ----- byte lengths

  lemma NoBytes()
    ensures Bytes([]) == 0
  {
  }

  lemma BytesAppend(a: string, b: string)
    ensures Bytes(a + b) == Bytes(a) + Bytes(b)
  {
    if a == [] {
      assert a + b == b;
    } else {
      BytesAppend(a[1..], b);
      assert (a + b)[1..] == a[1..] + b;
    }
  }

  lemma {:induction false} AsciiBytes(s: string)
    requires forall i :: 0 <= i < |s| ==> Width(s[i]) == 1
    ensures Bytes(s) == |s|
    decreases |s|
  {
    if s != [] {
      AsciiBytes(s[1..]);
    }
  }

  lemma BytesSplit(s: string, k: nat)
    requires k <= |s|
    ensures Bytes(s) == Bytes(s[..k]) + Bytes(s[k..])
  {
    hide *;
    var a, b := s[..k], s[k..];
    assert a + b == s;
    BytesAppend(a, b);
  }

  /** `Fitting` is the longest prefix within the bound: it fits, and one character more does not. */
  lemma {:induction false} FittingIsLongest(s: string, bytes: nat)
    ensures Bytes(s[..Fitting(s, bytes)]) <= bytes
    ensures Fitting(s, bytes) < |s| ==> bytes < Bytes(s[..Fitting(s, bytes)]) + Width(s[Fitting(s, bytes)])
    ensures Bytes(s) <= bytes <==> Fitting(s, bytes) == |s|
    decreases |s|
  {
    if s != [] && Width(s[0]) <= bytes {
      var k := Fitting(s[1..], bytes - Width(s[0]));
      FittingIsLongest(s[1..], bytes - Width(s[0]));
      assert s[..k + 1] == [s[0]] + s[1..][..k];
    }
  }

  /** Only the prefix decides, once it fills the bound exactly. */
  lemma {:induction false} FittingExact(a: string, b: string)
    ensures Fitting(a + b, Bytes(a)) == |a|
    decreases |a|
  {
    if a == [] {
      assert a + b == b;
    } else {
      FittingExact(a[1..], b);
      assert (a + b)[1..] == a[1..] + b;
    }
  }

  lemma ConcatAppend(a: seq<string>, b: seq<string>)
    ensures Concat(a + b) == Concat(a) + Concat(b)
  {
    if a == [] {
      assert a + b == b;
    } else {
      ConcatAppend(a[1..], b);
      assert (a + b)[1..] == a[1..] + b;
    }
  }

  lemma ConcatOne(part: string)
    ensures Concat([part]) == part
  {
    assert [part][1..] == [];
  }

  // ----- byte-bounded prefixes

  /** The byte offset of the last character boundary at or before `max`. */
  method FloorBoundary(s: string, max: nat) returns (end: nat)
    requires max <= Bytes(s)
    ensures end == Bytes(s[..Fitting(s, max)]) && Fitting(s, end) == Fitting(s, max)
  {
    end := max;
    FittingIsLongest(s, max);
    while end > 0 && !IsCharBoundary(s, end)
      invariant Bytes(s[..Fitting(s, max)]) <= end <= max
      invariant Fitting(s, end) == Fitting(s, max)
    {
      BoundaryBelow(s, end);
      end := end - 1;
    }
    if end == 0 {
      FittingIsLongest(s, 0);
    }
  }

  /** Inside a character, one byte less reaches no fewer characters. */
  lemma {:induction false} BoundaryBelow(s: string, bytes: nat)
    requires bytes > 0 && !IsCharBoundary(s, bytes)
    ensures Fitting(s, bytes - 1) == Fitting(s, bytes)
    ensures Bytes(s[..Fitting(s, bytes)]) < bytes
    decreases |s|
  {
    FittingIsLongest(s, bytes);
    if s != [] && Width(s[0]) <= bytes {
      var k := Fitting(s[1..], bytes - Width(s[0]));
      assert s[..k + 1] == [s[0]] + s[1..][..k];
      BoundaryBelow(s[1..], bytes - Width(s[0]));
    }
  }

  /** The longest prefix of `s` of at most `max` bytes. */
  function Prefix(s: string, max: nat): (p: string)
    ensures p <= s && Bytes(p) <= max
    ensures forall q :: q <= s && Bytes(q) <= max ==> |q| <= |p|
  {
    FittingIsLongest(s, max);
    PrefixesShorter(s, max);
    s[..Fitting(s, max)]
  }

  lemma PrefixesShorter(s: string, max: nat)
    ensures forall q :: q <= s && Bytes(q) <= max ==> |q| <= Fitting(s, max)
  {
    var k := Fitting(s, max);
    FittingIsLongest(s, max);
    forall q | q <= s && |q| > k ensures Bytes(q) > max {
      BytesSplit(q, k + 1);
      BytesSplit(q[..k + 1], k);
      assert q[..k + 1][..k] == s[..k] && q[..k + 1][k..] == [s[k]];
      assert Bytes([s[k]]) == Width(s[k]);
    }
  }

  // ----- splitting into parts

  /** Characters of the first part: as many as fit in `max` bytes, and at least one. */
  function Cut(s: string, max: nat): (k: nat)
    ensures k <= |s| && (s != [] ==> k > 0)
    ensures Bytes(s[..k]) <= max || k <= 1
    ensures Bytes(s) <= max ==> k == |s|
  {
    FittingIsLongest(s, if max < 1 then 1 else max);
    var k := Fitting(s, if max < 1 then 1 else max);
    if k == 0 && s != [] then 1 else k
  }

  /** Parts within `max` bytes; a character wider than `max` is its own part. */
  function Split(s: string, max: nat): (parts: seq<string>)
    ensures parts != []
    decreases |s|
  {
    var k := Cut(s, max);
    if k == |s| then [s] else [s[..k]] + Split(s[k..], max)
  }

  method SplitUtf8(value: string, max: nat) returns (out: seq<string>)
    ensures out == Split(value, max)
  {
    hide Bytes, Fitting, Split, Cut;
    out := [];
    var rest := value;
    var limit := if max < 1 then 1 else max;
    while Bytes(rest) > limit
      invariant if rest == [] && value != [] then out == Split(value, max)
                else out + Split(rest, max) == Split(value, max)
      invariant value == [] ==> out == []
      decreases |rest|
    {
      var end := FloorBoundary(rest, limit);
      var k := Fitting(rest, end);
      if end == 0 {
        k := 1;
      }
      CutIs(rest, max);
      SplitFirst(rest, max);
      assert k < |rest| ==> out + ([rest[..k]] + Split(rest[k..], max)) == out + [rest[..k]] + Split(rest[k..], max);
      out := out + [rest[..k]];
      rest := rest[k..];
    }
    SplitFirst(rest, max);
    SplitFirst(value, max);
    if rest != [] {
      out := out + [rest];
    }
    if out == [] {
      out := [[]];
    }
  }

  lemma SplitFirst(s: string, max: nat)
    ensures var k := Cut(s, max);
            if k == |s| then Split(s, max) == [s] && s[..k] == s
            else Split(s, max) == [s[..k]] + Split(s[k..], max)
    ensures Bytes(s) <= (if max < 1 then 1 else max) ==> Split(s, max) == [s]
  {
  }

  lemma CutIs(s: string, max: nat)
    requires s != []
    ensures var k := Fitting(s, if max < 1 then 1 else max);
            Cut(s, max) == if Bytes(s[..k]) == 0 then 1 else k
  {
  }

  ghost predicate GoodPart(p: string, max: nat) {
    p != [] && (Bytes(p) <= max || |p| == 1)
  }

  /** What the source promises of the parts. */
  lemma {:induction false} SplitParts(s: string, max: nat)
    ensures Concat(Split(s, max)) == s
    ensures s != [] ==> forall i :: 0 <= i < |Split(s, max)| ==> GoodPart(Split(s, max)[i], max)
    decreases |s|
  {
    hide Cut, Bytes;
    var k := Cut(s, max);
    if k < |s| {
      SplitParts(s[k..], max);
      assert s == s[..k] + s[k..];
    } else {
      ConcatOne(s);
      assert s[..k] == s;
    }
  }

  /** The first character of the next part would go over the limit. */
  predicate LongestAt(parts: seq<string>, i: nat, max: nat)
    requires i + 1 < |parts|
  {
    parts[i + 1] != [] && Bytes(parts[i]) + Width(parts[i + 1][0]) > max
  }

  /** Each part but the last is as long as fits. */
  lemma {:induction false} SplitLongest(s: string, max: nat)
    ensures forall i :: 0 <= i < |Split(s, max)| - 1 ==> LongestAt(Split(s, max), i, max)
    decreases |s|
  {
    var k := Cut(s, max);
    CutLongest(s, max);
    if k < |s| {
      SplitStarts(s[k..], max);
      SplitLongest(s[k..], max);
      hide Cut, Bytes, Width;
      OneMoreLongest(s[..k], Split(s[k..], max), max);
    }
  }

  lemma OneMoreLongest(first: string, rest: seq<string>, max: nat)
    requires rest != [] && rest[0] != [] && Bytes(first) + Width(rest[0][0]) > max
    requires forall i :: 0 <= i < |rest| - 1 ==> LongestAt(rest, i, max)
    ensures forall i :: 0 <= i < |[first] + rest| - 1 ==> LongestAt([first] + rest, i, max)
  {
    hide Bytes, Width;
    var parts := [first] + rest;
    forall i | 0 <= i < |parts| - 1 ensures LongestAt(parts, i, max) {
      if i > 0 {
        assert LongestAt(rest, i - 1, max);
      }
    }
  }

  lemma CutLongest(s: string, max: nat)
    ensures var k := Cut(s, max); k < |s| ==> Bytes(s[..k]) + Width(s[k]) > max
  {
    FittingIsLongest(s, if max < 1 then 1 else max);
  }

  lemma SplitStarts(s: string, max: nat)
    requires s != []
    ensures Split(s, max)[0] != [] && Split(s, max)[0][0] == s[0]
  {
    hide Bytes, Width;
  }

  lemma CutExact(first: string, rest: string)
    requires first != []
    ensures Cut(first + rest, Bytes(first)) == |first|
  {
    FittingExact(first, rest);
  }

  /** Parts that fill the bound exactly, but for the last, are what the splitter cuts. */
  lemma {:induction false} SplitExactParts(parts: seq<string>, max: nat)
    requires parts != [] && max >= 1
    requires forall i :: 0 <= i < |parts| - 1 ==> Bytes(parts[i]) == max
    requires 0 < Bytes(parts[|parts| - 1]) <= max
    ensures Split(Concat(parts), max) == parts
    ensures Concat(parts) != []
    decreases |parts|
  {
    var first, rest := parts[0], Concat(parts[1..]);
    assert first != [];
    if |parts| == 1 {
      ConcatOne(first);
    } else {
      SplitExactParts(parts[1..], max);
      CutExact(first, rest);
      hide Cut, Bytes;
      assert (first + rest)[..|first|] == first && (first + rest)[|first|..] == rest;
      assert parts == [first] + parts[1..];
    }
  }
}

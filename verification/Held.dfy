/** Replies a platform refused (`compose_pending`, `hold_refused`, `prune_held`, `truncate_held`,
    crates/scv-channels/src/lib.rs).

    A refused reply waits in the held list until the conversation's next reply carries it. */
module Held {
  import opened Ids
  import opened Text

  datatype HeldReply = HeldReply(key: Id, to: Id, reply: string, heldAt: nat)

  const MAX_REPLY := 16 * 1024
  const MAX_HELD_REPLY := MAX_REPLY / 2
  const MAX_AGE := 7 * 24 * 60 * 60
  const MAX_PER_CONVERSATION := 4
  const MAX_BYTES_PER_CONVERSATION := 4 * MAX_HELD_REPLY
  const MAX_TOTAL := 128

  // ----- pruning

  predicate Fresh(held: HeldReply, now: nat) {
    now < held.heldAt + MAX_AGE
  }

  function OnlyFresh(held: seq<HeldReply>, now: nat): seq<HeldReply> {
    if held == [] then []
    else if Fresh(held[0], now) then [held[0]] + OnlyFresh(held[1..], now)
    else OnlyFresh(held[1..], now)
  }

  function Count(held: seq<HeldReply>, key: Id): nat {
    if held == [] then 0 else (if held[0].key == key then 1 else 0) + Count(held[1..], key)
  }

  function Size(held: seq<HeldReply>, key: Id): nat {
    if held == [] then 0 else (if held[0].key == key then Bytes(held[0].reply) else 0) + Size(held[1..], key)
  }

  /** Whether one more reply fits beside the newer ones already kept. */
  predicate Room(newer: seq<HeldReply>, reply: HeldReply) {
    && |newer| < MAX_TOTAL
    && Count(newer, reply.key) < MAX_PER_CONVERSATION
    && Size(newer, reply.key) + Bytes(reply.reply) <= MAX_BYTES_PER_CONVERSATION
  }

  /** Newest first, keep each reply that fits beside the newer ones kept. */
  function Keep(held: seq<HeldReply>): seq<HeldReply> {
    if held == [] then []
    else
      var newer := Keep(held[1..]);
      if Room(newer, held[0]) then [held[0]] + newer else newer
  }

  function Prune(held: seq<HeldReply>, now: nat): seq<HeldReply> {
    Keep(OnlyFresh(held, now))
  }

  /** `part` is `whole` with some entries left out. */
  predicate Subsequence(part: seq<HeldReply>, whole: seq<HeldReply>) {
    if part == [] then true
    else if whole == [] then false
    else if part[0] == whole[0] then Subsequence(part[1..], whole[1..])
    else Subsequence(part, whole[1..])
  }

  ghost predicate WithinLimits(held: seq<HeldReply>) {
    && |held| <= MAX_TOTAL
    && forall key :: Count(held, key) <= MAX_PER_CONVERSATION && Size(held, key) <= MAX_BYTES_PER_CONVERSATION
  }

  ghost predicate AllFresh(held: seq<HeldReply>, now: nat) {
    forall i :: 0 <= i < |held| ==> Fresh(held[i], now)
  }

  lemma {:induction false} SubsequenceSkip(part: seq<HeldReply>, whole: seq<HeldReply>)
    requires whole != [] && Subsequence(part, whole[1..])
    ensures Subsequence(part, whole)
    decreases |whole|, |part|
  {
    if part != [] && part[0] == whole[0] {
      SubsequenceDrop(part, whole[1..]);
    }
  }

  lemma {:induction false} SubsequenceDrop(part: seq<HeldReply>, whole: seq<HeldReply>)
    requires part != [] && Subsequence(part, whole)
    ensures Subsequence(part[1..], whole)
    decreases |whole|, |part|
  {
    if part[0] == whole[0] {
      SubsequenceSkip(part[1..], whole);
    } else {
      SubsequenceDrop(part, whole[1..]);
      SubsequenceSkip(part[1..], whole);
    }
  }

  lemma {:induction false} SubsequenceTwice(a: seq<HeldReply>, b: seq<HeldReply>, c: seq<HeldReply>)
    requires Subsequence(a, b) && Subsequence(b, c)
    ensures Subsequence(a, c)
    decreases |c|
  {
    if a != [] {
      if b[0] == c[0] {
        if a[0] == b[0] {
          SubsequenceTwice(a[1..], b[1..], c[1..]);
        } else {
          SubsequenceTwice(a, b[1..], c[1..]);
        }
      } else {
        SubsequenceTwice(a, b, c[1..]);
        SubsequenceSkip(a, c);
      }
    }
  }

  lemma {:induction false} FreshIsSubsequence(held: seq<HeldReply>, now: nat)
    ensures Subsequence(OnlyFresh(held, now), held) && AllFresh(OnlyFresh(held, now), now)
    decreases |held|
  {
    if held != [] {
      FreshIsSubsequence(held[1..], now);
      if !Fresh(held[0], now) {
        SubsequenceSkip(OnlyFresh(held[1..], now), held);
      }
    }
  }

  lemma {:induction false} KeepIsSubsequence(held: seq<HeldReply>)
    ensures Subsequence(Keep(held), held)
    decreases |held|
  {
    hide Room;
    if held != [] {
      KeepIsSubsequence(held[1..]);
      if !Room(Keep(held[1..]), held[0]) {
        SubsequenceSkip(Keep(held[1..]), held);
      }
    }
  }

  lemma {:induction false} KeepWithinLimits(held: seq<HeldReply>)
    ensures WithinLimits(Keep(held))
    decreases |held|
  {
    if held != [] {
      KeepWithinLimits(held[1..]);
      var newer := Keep(held[1..]);
      assert ([held[0]] + newer)[1..] == newer;
    }
  }

  /** What is within the limits is kept whole. */
  lemma {:induction false} KeepAll(held: seq<HeldReply>)
    requires WithinLimits(held)
    ensures Keep(held) == held
    decreases |held|
  {
    if held != [] {
      forall key ensures Count(held[1..], key) <= Count(held, key) && Size(held[1..], key) <= Size(held, key) {
      }
      KeepAll(held[1..]);
      assert Count(held, held[0].key) <= MAX_PER_CONVERSATION;
    }
  }

  lemma {:induction false} FreshAll(held: seq<HeldReply>, now: nat)
    requires AllFresh(held, now)
    ensures OnlyFresh(held, now) == held
    decreases |held|
  {
    if held != [] {
      FreshAll(held[1..], now);
    }
  }

  lemma {:induction false} SubsequenceMembers(part: seq<HeldReply>, whole: seq<HeldReply>)
    requires Subsequence(part, whole)
    ensures forall x :: x in part ==> x in whole
    ensures multiset(part) <= multiset(whole)
    decreases |whole|
  {
    if part != [] {
      assert whole == [whole[0]] + whole[1..];
      if part[0] == whole[0] {
        SubsequenceMembers(part[1..], whole[1..]);
        assert part == [part[0]] + part[1..];
      } else {
        SubsequenceMembers(part, whole[1..]);
      }
    }
  }

  /** Pruning leaves out entries and nothing else, stays within every limit, changes nothing the second
      time, and changes nothing at all exactly when everything is fresh and within the limits. */
  lemma PruneIs(held: seq<HeldReply>, now: nat)
    ensures Subsequence(Prune(held, now), held)
    ensures WithinLimits(Prune(held, now)) && AllFresh(Prune(held, now), now)
    ensures Prune(Prune(held, now), now) == Prune(held, now)
    ensures Prune(held, now) == held <==> WithinLimits(held) && AllFresh(held, now)
  {
    hide Keep, OnlyFresh, WithinLimits, Subsequence;
    var young := OnlyFresh(held, now);
    var kept := Keep(young);
    FreshIsSubsequence(held, now);
    KeepIsSubsequence(young);
    SubsequenceTwice(kept, young, held);
    KeepWithinLimits(young);
    SubsequenceMembers(kept, young);
    assert forall i :: 0 <= i < |kept| ==> kept[i] in kept;
    FreshAll(kept, now);
    KeepAll(kept);
    if WithinLimits(held) && AllFresh(held, now) {
      FreshAll(held, now);
      KeepAll(held);
    }
  }

  // ----- what pruning leaves out

  /** The entries of `held` whose flag is set. */
  ghost function Flagged(held: seq<HeldReply>, keep: seq<bool>): seq<HeldReply>
    requires |keep| == |held|
  {
    if held == [] then []
    else if keep[0] then [held[0]] + Flagged(held[1..], keep[1..])
    else Flagged(held[1..], keep[1..])
  }

  /** The replies held for one conversation. */
  function OwnOf(held: seq<HeldReply>, key: Id): seq<HeldReply> {
    if held == [] then []
    else if held[0].key == key then [held[0]] + OwnOf(held[1..], key)
    else OwnOf(held[1..], key)
  }

  function Replies(held: seq<HeldReply>): seq<string> {
    seq(|held|, i requires 0 <= i < |held| => held[i].reply)
  }

  /** Whether `x` finds room behind what is kept of the newer replies: 128 in all, and 4 and 32768 bytes for its
      conversation. */
  ghost predicate Fits(newer: seq<HeldReply>, x: HeldReply) {
    var own := OwnOf(newer, x.key);
    |newer| < 128 && |own| < 4 && Bytes(Concat(Replies(own))) + Bytes(x.reply) <= 32768
  }

  /** `keep` flags what is younger than a week and finds room beside the newer replies flagged. */
  ghost predicate KeepsRoom(held: seq<HeldReply>, now: nat, keep: seq<bool>) {
    && |keep| == |held|
    && forall i :: 0 <= i < |held| ==>
         (keep[i] <==> now < held[i].heldAt + 604800 && Fits(Flagged(held[i + 1..], keep[i + 1..]), held[i]))
  }

  lemma {:induction false} OwnIs(held: seq<HeldReply>, key: Id)
    ensures |OwnOf(held, key)| == Count(held, key) && Bytes(Concat(Replies(OwnOf(held, key)))) == Size(held, key)
    decreases |held|
  {
    if held != [] {
      var rest := OwnOf(held[1..], key);
      OwnIs(held[1..], key);
      if held[0].key == key {
        assert Replies([held[0]] + rest)[1..] == Replies(rest);
        hide Bytes;
        BytesAppend(held[0].reply, Concat(Replies(rest)));
      }
    }
  }

  lemma RoomFits(newer: seq<HeldReply>, x: HeldReply)
    ensures Room(newer, x) <==> Fits(newer, x)
  {
    OwnIs(newer, x.key);
    hide OwnOf, Bytes, Count, Size, Replies, Concat;
  }

  lemma KeepsRoomFront(held: seq<HeldReply>, now: nat, keep: seq<bool>, first: bool)
    requires held != [] && KeepsRoom(held[1..], now, keep)
    requires first <==> now < held[0].heldAt + 604800 && Fits(Flagged(held[1..], keep), held[0])
    ensures KeepsRoom(held, now, [first] + keep)
    ensures Flagged(held, [first] + keep) == (if first then [held[0]] else []) + Flagged(held[1..], keep)
  {
    hide Fits;
    var all := [first] + keep;
    assert all[1..] == keep;
    forall i | 0 <= i < |held|
      ensures all[i] <==> now < held[i].heldAt + 604800 && Fits(Flagged(held[i + 1..], all[i + 1..]), held[i])
    {
      if i > 0 {
        assert held[1..][i - 1 + 1..] == held[i + 1..] && keep[i - 1 + 1..] == all[i + 1..];
        assert keep[i - 1] <==> now < held[1..][i - 1].heldAt + 604800
                                && Fits(Flagged(held[1..][i - 1 + 1..], keep[i - 1 + 1..]), held[1..][i - 1]);
      }
    }
  }

  /** Pruning keeps exactly the fresh replies that find room beside the newer ones kept. */
  lemma {:induction false} PruneKeeps(held: seq<HeldReply>, now: nat) returns (keep: seq<bool>)
    ensures KeepsRoom(held, now, keep) && Prune(held, now) == Flagged(held, keep)
    decreases |held|
  {
    if held == [] {
      keep := [];
    } else {
      var rest := PruneKeeps(held[1..], now);
      var newer := Flagged(held[1..], rest);
      RoomFits(newer, held[0]);
      var first := Fresh(held[0], now) && Room(newer, held[0]);
      hide Room, Fits, KeepsRoom;
      KeepsRoomFront(held, now, rest, first);
      keep := [first] + rest;
      PruneFront(held, now);
    }
  }

  lemma PruneFront(held: seq<HeldReply>, now: nat)
    requires held != []
    ensures var newer := Prune(held[1..], now);
            Prune(held, now) == if Fresh(held[0], now) && Room(newer, held[0]) then [held[0]] + newer else newer
  {
    hide Room;
    if Fresh(held[0], now) {
      assert ([held[0]] + OnlyFresh(held[1..], now))[1..] == OnlyFresh(held[1..], now);
    }
  }

  /** There is only one way to keep so. */
  lemma {:induction false} KeepsRoomOnce(held: seq<HeldReply>, now: nat, a: seq<bool>, b: seq<bool>)
    requires KeepsRoom(held, now, a) && KeepsRoom(held, now, b)
    ensures a == b
    decreases |held|
  {
    hide Fits;
    if held != [] {
      KeepsRoomRest(held, now, a);
      KeepsRoomRest(held, now, b);
      KeepsRoomOnce(held[1..], now, a[1..], b[1..]);
      assert a == [a[0]] + a[1..] && b == [b[0]] + b[1..];
      assert held[0 + 1..] == held[1..];
    }
  }

  lemma KeepsRoomRest(held: seq<HeldReply>, now: nat, keep: seq<bool>)
    requires held != [] && KeepsRoom(held, now, keep)
    ensures KeepsRoom(held[1..], now, keep[1..])
  {
    hide Fits;
    forall i | 0 <= i < |held[1..]|
      ensures keep[1..][i] <==> now < held[1..][i].heldAt + 604800
                                && Fits(Flagged(held[1..][i + 1..], keep[1..][i + 1..]), held[1..][i])
    {
      assert held[1..][i + 1..] == held[i + 1 + 1..] && keep[1..][i + 1..] == keep[i + 1 + 1..];
    }
  }

  /** The newest fresh reply is kept if it is within the bytes of a conversation. */
  lemma NewestKept(held: seq<HeldReply>, now: nat, i: nat)
    requires i < |held| && now < held[i].heldAt + 604800 && Bytes(held[i].reply) <= 32768
    requires forall j :: i < j < |held| ==> now >= held[j].heldAt + 604800
    ensures held[i] in Prune(held, now)
  {
    var keep := PruneKeeps(held, now);
    NoneFlagged(held[i + 1..], keep[i + 1..]);
    assert Fits([], held[i]) by {
      assert Replies([]) == [];
    }
    FlaggedMember(held, keep, i);
  }

  lemma {:induction false} NoneFlagged(held: seq<HeldReply>, keep: seq<bool>)
    requires |keep| == |held| && forall i :: 0 <= i < |keep| ==> !keep[i]
    ensures Flagged(held, keep) == []
    decreases |held|
  {
    if held != [] {
      NoneFlagged(held[1..], keep[1..]);
    }
  }

  lemma {:induction false} FlaggedMember(held: seq<HeldReply>, keep: seq<bool>, i: nat)
    requires |keep| == |held| && i < |held| && keep[i]
    ensures held[i] in Flagged(held, keep)
    decreases i
  {
    if i > 0 {
      FlaggedMember(held[1..], keep[1..], i - 1);
    }
  }

  /** `x` is an entry of `held` that is stale or has no room beside the newer ones kept. */
  ghost predicate LeftOut(held: seq<HeldReply>, now: nat, x: HeldReply) {
    exists keep, i :: KeepsRoom(held, now, keep) && 0 <= i < |held| && held[i] == x && !keep[i]
  }

  /** Pruning drops only such entries. */
  lemma PrunedAwayIs(held: seq<HeldReply>, now: nat, x: HeldReply)
    requires x in PrunedAway(held, now)
    ensures LeftOut(held, now, x)
  {
    hide Prune, KeepsRoom;
    var keep := PruneKeeps(held, now);
    assert |keep| == |held| by { FlagEach(held, now, keep); }
    if forall i :: 0 <= i < |held| && held[i] == x ==> keep[i] {
      FlaggedAll(held, keep, x);
    }
  }

  lemma FlagEach(held: seq<HeldReply>, now: nat, keep: seq<bool>)
    requires KeepsRoom(held, now, keep)
    ensures |keep| == |held|
  {
  }

  lemma {:induction false} FlaggedAll(held: seq<HeldReply>, keep: seq<bool>, x: HeldReply)
    requires |keep| == |held| && forall i :: 0 <= i < |held| && held[i] == x ==> keep[i]
    ensures multiset(Flagged(held, keep))[x] == multiset(held)[x]
    decreases |held|
  {
    if held != [] {
      var rest := Flagged(held[1..], keep[1..]);
      forall i | 0 <= i < |held[1..]| && held[1..][i] == x ensures keep[1..][i] {
        assert held[i + 1] == x;
      }
      FlaggedAll(held[1..], keep[1..], x);
      assert held == [held[0]] + held[1..];
      assert Flagged(held, keep) == (if keep[0] then [held[0]] else []) + rest;
      hide Flagged;
      assert multiset(if keep[0] then [held[0]] else [])[x] == if held[0] == x then 1 else 0;
    }
  }

  // ----- truncation

  function TruncatedMark(): string { "\n[truncated]" }

  lemma TruncatedMarkBytes()
    ensures Bytes(TruncatedMark()) == 12
  {
    AsciiBytes(TruncatedMark());
  }

  /** Cut to half a message, so that it can ride ahead of another reply. */
  function Truncate(reply: string): (r: string)
    ensures Bytes(r) <= MAX_HELD_REPLY
    ensures Bytes(reply) <= MAX_HELD_REPLY ==> r == reply
    ensures Bytes(reply) > MAX_HELD_REPLY ==>
              r == Prefix(reply, MAX_HELD_REPLY - 12) + TruncatedMark()
  {
    if Bytes(reply) <= MAX_HELD_REPLY then reply
    else
      var kept := Prefix(reply, MAX_HELD_REPLY - 12);
      TruncatedMarkBytes(); BytesAppend(kept, TruncatedMark());
      kept + TruncatedMark()
  }

  // ----- carrying held replies

  function HeldHeader(): string { "[Earlier reply that could not be delivered at the time]\n" }
  function LatestHeader(): string { "[Reply to your latest message]\n" }

  /** A held reply as a later one carries it. */
  function Quote(held: HeldReply): string {
    HeldHeader() + (held.reply + "\n\n")
  }

  function QuoteBytes(held: HeldReply): nat {
    Bytes(HeldHeader()) + Bytes(held.reply) + 2
  }

  function Quotes(carried: seq<HeldReply>): string {
    if carried == [] then [] else Quote(carried[0]) + Quotes(carried[1..])
  }

  datatype Taken = Taken(carried: seq<HeldReply>, left: seq<HeldReply>)

  /** The conversation's held replies, oldest first, while they fit in `room` bytes; the first that does
      not fit ends it. */
  function Take(held: seq<HeldReply>, key: Id, room: int): Taken {
    if held == [] then Taken([], [])
    else if held[0].key != key then
      var rest := Take(held[1..], key, room);
      Taken(rest.carried, [held[0]] + rest.left)
    else if QuoteBytes(held[0]) > room then Taken([], held)
    else
      var rest := Take(held[1..], key, room - QuoteBytes(held[0]));
      Taken([held[0]] + rest.carried, rest.left)
  }

  /** Taking loses and repeats nothing. */
  lemma {:induction false} TakeParts(held: seq<HeldReply>, key: Id, room: int)
    ensures var t := Take(held, key, room);
            && multiset(held) == multiset(t.carried) + multiset(t.left)
            && (forall i :: 0 <= i < |t.carried| ==> t.carried[i].key == key)
    decreases |held|
  {
    hide QuoteBytes;
    if held != [] {
      assert held == [held[0]] + held[1..];
      TakeParts(held[1..], key, if held[0].key == key then room - QuoteBytes(held[0]) else room);
    }
  }

  /** What is taken and what is left keep their order. */
  lemma {:induction false} TakeOrders(held: seq<HeldReply>, key: Id, room: int)
    ensures Subsequence(Take(held, key, room).carried, held)
    ensures Subsequence(Take(held, key, room).left, held)
    decreases |held|
  {
    hide QuoteBytes;
    if held != [] {
      if held[0].key != key {
        TakeOrders(held[1..], key, room);
        SubsequenceSkip(Take(held[1..], key, room).carried, held);
      } else if QuoteBytes(held[0]) <= room {
        TakeOrders(held[1..], key, room - QuoteBytes(held[0]));
        SubsequenceSkip(Take(held[1..], key, room - QuoteBytes(held[0])).left, held);
      } else {
        SubsequenceSelf(held);
      }
    }
  }

  /** What is held for other conversations. */
  function OthersOf(held: seq<HeldReply>, key: Id): seq<HeldReply> {
    if held == [] then []
    else if held[0].key != key then [held[0]] + OthersOf(held[1..], key)
    else OthersOf(held[1..], key)
  }

  /** The bytes quoting `own` takes. */
  function Cost(own: seq<HeldReply>): nat {
    if own == [] then 0 else QuoteBytes(own[0]) + Cost(own[1..])
  }

  /** The first `n` of `own` fit in `room` and one more does not. */
  ghost predicate MostFit(own: seq<HeldReply>, n: nat, room: int) {
    n <= |own| && (n > 0 ==> Cost(own[..n]) <= room) && (n < |own| ==> Cost(own[..n + 1]) > room)
  }

  /** What is taken is as many of the conversation's oldest held replies as fit; the rest and what other
      conversations hold stay. */
  lemma {:induction false} TakeLongest(held: seq<HeldReply>, key: Id, room: int)
    ensures var t, own := Take(held, key, room), OwnOf(held, key);
            var n := |t.carried|;
            && n <= |own| && MostFit(own, n, room) && t.carried == own[..n] && OwnOf(t.left, key) == own[n..]
            && OthersOf(t.left, key) == OthersOf(held, key)
    decreases |held|
  {
    hide QuoteBytes, MostFit;
    var own := OwnOf(held, key);
    if held == [] {
      NoneFits([], room);
    } else if held[0].key != key {
      TakeLongest(held[1..], key, room);
    } else if QuoteBytes(held[0]) <= room {
      var left := room - QuoteBytes(held[0]);
      TakeLongest(held[1..], key, left);
      var n := |Take(held[1..], key, left).carried|;
      OneMoreFits(held[0], OwnOf(held[1..], key), n, room);
      assert own == [held[0]] + OwnOf(held[1..], key);
    } else {
      NoneFits(own, room);
    }
  }

  lemma NoneFits(own: seq<HeldReply>, room: int)
    requires own != [] ==> QuoteBytes(own[0]) > room
    ensures MostFit(own, 0, room)
  {
    hide QuoteBytes;
    assert own != [] ==> own[..1] == [own[0]];
  }

  lemma CostFirst(first: HeldReply, rest: seq<HeldReply>)
    ensures Cost([first] + rest) == QuoteBytes(first) + Cost(rest)
  {
    hide QuoteBytes;
    assert ([first] + rest)[1..] == rest;
  }

  lemma NothingCosts()
    ensures Cost([]) == 0
  {
  }

  lemma OneMoreFits(first: HeldReply, rest: seq<HeldReply>, n: nat, room: int)
    requires MostFit(rest, n, room - QuoteBytes(first)) && QuoteBytes(first) <= room
    ensures MostFit([first] + rest, n + 1, room)
    ensures n <= |rest| && ([first] + rest)[..n + 1] == [first] + rest[..n]
  {
    hide QuoteBytes;
    var own := [first] + rest;
    assert own[..n + 1] == [first] + rest[..n];
    CostFirst(first, rest[..n]);
    if n < |rest| {
      assert own[..n + 1 + 1] == [first] + rest[..n + 1];
      CostFirst(first, rest[..n + 1]);
    }
    assert n == 0 ==> rest[..0] == [];
    NothingCosts();
    hide Cost;
  }

  lemma {:induction false} SubsequenceSelf(held: seq<HeldReply>)
    ensures Subsequence(held, held)
    decreases |held|
  {
    if held != [] {
      SubsequenceSelf(held[1..]);
    }
  }

  lemma QuoteIs(held: HeldReply)
    ensures Bytes(Quote(held)) == QuoteBytes(held)
  {
    assert Bytes("\n\n") == 2;
    hide Bytes, HeldHeader;
    BytesAppend(held.reply, "\n\n");
    BytesAppend(HeldHeader(), held.reply + "\n\n");
  }

  lemma {:induction false} TakeFits(held: seq<HeldReply>, key: Id, room: nat)
    ensures Bytes(Quotes(Take(held, key, room).carried)) <= room
    decreases |held|
  {
    hide Bytes, QuoteBytes, Quote;
    if held == [] {
    } else if held[0].key != key {
      TakeFits(held[1..], key, room);
    } else if QuoteBytes(held[0]) <= room {
      var left := room - QuoteBytes(held[0]);
      TakeFits(held[1..], key, left);
      var carried := Take(held[1..], key, left).carried;
      QuoteIs(held[0]);
      BytesAppend(Quote(held[0]), Quotes(carried));
      assert ([held[0]] + carried)[1..] == carried;
    }
  }

  /** Room for held replies beside `own`. */
  function RoomBeside(own: string): int {
    MAX_REPLY - (Bytes(LatestHeader()) + Bytes(own))
  }

  function Composed(carried: seq<HeldReply>, own: string): string {
    if carried == [] then own else Quotes(carried) + (LatestHeader() + own)
  }

  /** `reply` is `own` alone, or behind what it carries, each under its header. */
  ghost predicate Says(reply: string, carried: seq<HeldReply>, own: string) {
    if carried == [] then reply == own
    else exists pieces: seq<string> :: SaysIn(pieces, carried, own) && reply == Concat(pieces)
  }

  ghost predicate SaysIn(pieces: seq<string>, carried: seq<HeldReply>, own: string) {
    && |pieces| == |carried| + 1 && pieces[|carried|] == "[Reply to your latest message]\n" + own
    && forall i :: 0 <= i < |carried| ==>
         pieces[i] == "[Earlier reply that could not be delivered at the time]\n" + carried[i].reply + "\n\n"
  }

  function QuotesOf(carried: seq<HeldReply>): seq<string> {
    seq(|carried|, i requires 0 <= i < |carried| => Quote(carried[i]))
  }

  lemma {:induction false} QuotesJoin(carried: seq<HeldReply>)
    ensures Concat(QuotesOf(carried)) == Quotes(carried)
    decreases |carried|
  {
    hide Quote;
    if carried != [] {
      QuotesJoin(carried[1..]);
      assert QuotesOf(carried)[1..] == QuotesOf(carried[1..]);
    }
  }

  lemma ComposedSays(carried: seq<HeldReply>, own: string)
    ensures Says(Composed(carried, own), carried, own)
  {
    if carried != [] {
      var pieces := QuotesOf(carried) + [LatestHeader() + own];
      QuotesJoin(carried);
      ConcatAppend(QuotesOf(carried), [LatestHeader() + own]);
      ConcatOne(LatestHeader() + own);
      assert SaysIn(pieces, carried, own);
    }
  }

  /** What a reply beside `own` carries: as many of the conversation's oldest held replies as one message has
      room for beside it. */
  lemma CarriesLongest(held: seq<HeldReply>, key: Id, own: string)
    ensures var carried, all := Take(held, key, RoomBeside(own)).carried, OwnOf(held, key);
            && |carried| <= |all| && carried == all[..|carried|]
            && (carried != [] ==> Bytes(Composed(carried, own)) <= 16384)
            && (|carried| < |all| ==> Bytes(Composed(all[..|carried| + 1], own)) > 16384)
  {
    var room, all := RoomBeside(own), OwnOf(held, key);
    TakeLongest(held, key, room);
    var n := |Take(held, key, room).carried|;
    hide Take, OwnOf, Bytes, LatestHeader, Quotes, Cost;
    if n > 0 {
      ComposedCosts(all[..n], own);
    }
    if n < |all| {
      ComposedCosts(all[..n + 1], own);
    }
  }

  lemma ComposedCosts(carried: seq<HeldReply>, own: string)
    requires carried != []
    ensures Bytes(Composed(carried, own)) == Cost(carried) + Bytes(LatestHeader()) + Bytes(own)
  {
    hide Bytes, LatestHeader, Quotes, Cost;
    BytesAppend(LatestHeader(), own);
    BytesAppend(Quotes(carried), LatestHeader() + own);
    QuotesCost(carried);
  }

  lemma {:induction false} QuotesCost(carried: seq<HeldReply>)
    ensures Bytes(Quotes(carried)) == Cost(carried)
    decreases |carried|
  {
    hide Bytes, Quote, QuoteBytes;
    if carried != [] {
      QuotesCost(carried[1..]);
      QuoteIs(carried[0]);
      BytesAppend(Quote(carried[0]), Quotes(carried[1..]));
    } else {
      NoBytes();
    }
  }

  /** A reply that carries anything fits one part. */
  lemma CarryingFitsOnePart(held: seq<HeldReply>, key: Id, own: string)
    ensures var carried := Take(held, key, RoomBeside(own)).carried;
            carried != [] ==>
              Bytes(Composed(carried, own)) <= MAX_REPLY && Split(Composed(carried, own), MAX_REPLY) == [Composed(carried, own)]
  {
    hide Bytes, LatestHeader, Split, Quotes;
    var room := RoomBeside(own);
    if room < 0 {
      NoRoom(held, key, room);
    } else {
      var carried := Take(held, key, room).carried;
      TakeFits(held, key, room);
      BytesAppend(LatestHeader(), own);
      BytesAppend(Quotes(carried), LatestHeader() + own);
      SplitFirst(Composed(carried, own), MAX_REPLY);
    }
  }

  lemma {:induction false} NoRoom(held: seq<HeldReply>, key: Id, room: int)
    requires room < 0
    ensures Take(held, key, room).carried == []
    decreases |held|
  {
    if held != [] {
      NoRoom(held[1..], key, room);
    }
  }

  // ----- a stable order by age

  function Insert(held: seq<HeldReply>, x: HeldReply): seq<HeldReply> {
    if held == [] || held[|held| - 1].heldAt <= x.heldAt then held + [x]
    else Insert(held[..|held| - 1], x) + [held[|held| - 1]]
  }

  /** Sorted by age; equal ages keep their order. */
  function Sort(held: seq<HeldReply>): seq<HeldReply> {
    if held == [] then [] else Insert(Sort(held[..|held| - 1]), held[|held| - 1])
  }

  predicate Sorted(held: seq<HeldReply>) {
    forall i, j :: 0 <= i < j < |held| ==> held[i].heldAt <= held[j].heldAt
  }

  lemma {:induction false} InsertAdds(held: seq<HeldReply>, x: HeldReply)
    ensures multiset(Insert(held, x)) == multiset(held) + multiset{x}
    decreases |held|
  {
    if held != [] {
      var last := |held| - 1;
      assert held == held[..last] + [held[last]];
      InsertAdds(held[..last], x);
    }
  }

  lemma {:induction false} InsertSorts(held: seq<HeldReply>, x: HeldReply)
    requires Sorted(held)
    ensures Sorted(Insert(held, x))
    decreases |held|
  {
    if held != [] && held[|held| - 1].heldAt > x.heldAt {
      var last := |held| - 1;
      InsertSorts(held[..last], x);
      InsertAdds(held[..last], x);
      var before := Insert(held[..last], x);
      hide Insert;
      forall i | 0 <= i < |before| ensures before[i].heldAt <= held[last].heldAt {
        assert before[i] in multiset(before);
      }
    }
  }

  lemma {:induction false} SortIs(held: seq<HeldReply>)
    ensures Sorted(Sort(held)) && multiset(Sort(held)) == multiset(held)
    decreases |held|
  {
    if held != [] {
      var last := |held| - 1;
      SortIs(held[..last]);
      InsertAdds(Sort(held[..last]), held[last]);
      InsertSorts(Sort(held[..last]), held[last]);
      assert held == held[..last] + [held[last]];
    }
  }

  /** The replies held since `t`, in order. */
  function HeldSince(held: seq<HeldReply>, t: nat): seq<HeldReply> {
    if held == [] then []
    else
      var last := held[|held| - 1];
      HeldSince(held[..|held| - 1], t) + if last.heldAt == t then [last] else []
  }

  lemma HeldSincePush(held: seq<HeldReply>, x: HeldReply, t: nat)
    ensures HeldSince(held + [x], t) == HeldSince(held, t) + if x.heldAt == t then [x] else []
  {
    assert (held + [x])[..|held|] == held;
  }

  lemma {:induction false} InsertStable(held: seq<HeldReply>, x: HeldReply, t: nat)
    ensures HeldSince(Insert(held, x), t) == HeldSince(held, t) + if x.heldAt == t then [x] else []
    decreases |held|
  {
    hide HeldSince;
    if held == [] || held[|held| - 1].heldAt <= x.heldAt {
      HeldSincePush(held, x, t);
    } else {
      var last := held[|held| - 1];
      var before := held[..|held| - 1];
      assert held == before + [last];
      InsertStable(before, x, t);
      HeldSincePush(before, last, t);
      HeldSincePush(Insert(before, x), last, t);
    }
  }

  /** Replies of the same age keep their order: restored ones stay ahead of the newer one. */
  lemma {:induction false} SortStable(held: seq<HeldReply>, t: nat)
    ensures HeldSince(Sort(held), t) == HeldSince(held, t)
    decreases |held|
  {
    if held != [] {
      var last := |held| - 1;
      SortStable(held[..last], t);
      InsertStable(Sort(held[..last]), held[last], t);
    }
  }

  /** What pruning leaves out. */
  function PrunedAway(held: seq<HeldReply>, now: nat): multiset<HeldReply> {
    multiset(held) - multiset(Prune(held, now))
  }

  lemma PrunedIs(held: seq<HeldReply>, now: nat)
    ensures multiset(held) == multiset(Prune(held, now)) + PrunedAway(held, now)
  {
    hide Prune;
    PruneIs(held, now);
    SubsequenceMembers(Prune(held, now), held);
  }

  /** What is left out of a list within the limits leaves it within them. */
  lemma {:induction false} SubsequenceWithin(part: seq<HeldReply>, whole: seq<HeldReply>, key: Id)
    requires Subsequence(part, whole)
    ensures |part| <= |whole| && Count(part, key) <= Count(whole, key) && Size(part, key) <= Size(whole, key)
    decreases |whole|
  {
    hide Bytes;
    if part != [] {
      SubsequenceWithin(if part[0] == whole[0] then part[1..] else part, whole[1..], key);
    }
  }

  /** Pruning drops nothing of what is left of a pruned list. */
  lemma PrunedOnce(held: seq<HeldReply>, now: nat, left: seq<HeldReply>)
    requires Subsequence(left, Prune(held, now))
    ensures PrunedAway(left, now) == multiset{}
  {
    hide Prune, Subsequence, Count, Size, Fresh;
    var pruned := Prune(held, now);
    PruneIs(held, now);
    SubsequenceMembers(left, pruned);
    assert forall i :: 0 <= i < |left| ==> left[i] in pruned;
    SubsequenceWithin(left, pruned, Id(""));
    forall key ensures Count(left, key) <= MAX_PER_CONVERSATION && Size(left, key) <= MAX_BYTES_PER_CONVERSATION {
      SubsequenceWithin(left, pruned, key);
    }
    PruneIs(left, now);
  }

  /** A refused reply behind the held ones and the ones it carried, by age. */
  function PutBack(held: seq<HeldReply>, carried: seq<HeldReply>, refused: HeldReply): seq<HeldReply> {
    Sort(held + carried + [refused])
  }

  /** What waits once a refused reply and the replies it carried are put back. */
  function Restored(held: seq<HeldReply>, carried: seq<HeldReply>, refused: HeldReply, now: nat): seq<HeldReply> {
    Prune(PutBack(held, carried, refused), now)
  }

  /** Putting back loses and repeats nothing; pruning only leaves out. */
  lemma RestoredIs(held: seq<HeldReply>, carried: seq<HeldReply>, refused: HeldReply, now: nat)
    ensures var all := PutBack(held, carried, refused);
            && multiset(all) == multiset(held) + multiset(carried) + multiset{refused}
            && Subsequence(Restored(held, carried, refused, now), all)
            && multiset(all) == multiset(Restored(held, carried, refused, now)) + PrunedAway(all, now)
  {
    hide Sort, Prune, PrunedAway;
    var all := PutBack(held, carried, refused);
    SortIs(held + carried + [refused]);
    PruneIs(all, now);
    PrunedIs(all, now);
  }
}

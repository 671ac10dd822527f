/** Choosing the history that fits the model's context window (crates/scv-core/src/context.rs).

    `Select` is stated without groups: among the suffixes of history that start at a user message, it
    keeps the longest one that fits together with the note for what is left out. The note's text is a
    parameter, so the result holds for every summary. */
module Contexts {
  import opened Wrappers
  import opened Text
  import opened Messages

  datatype Config = Config(
    maxTokens: nat, reserveTokens: nat, marginTokens: nat, bytesPerToken: nat)

  datatype Selection = Selection(messages: seq<Message>, before: nat, after: nat, removed: nat)

  datatype ContextError = StaticTooLarge | NewestTooLarge | NoteTooLarge

  /** A configuration the policy accepts. */
  predicate Usable(config: Config) {
    config.bytesPerToken > 0 && config.reserveTokens + config.marginTokens < config.maxTokens
  }

  // ----- costs

  function Cost(messages: seq<Message>, bytesPerToken: nat): nat
    requires bytesPerToken > 0
  {
    if messages == [] then 0 else Tokens(messages[0], bytesPerToken) + Cost(messages[1..], bytesPerToken)
  }

  lemma CostAppend(a: seq<Message>, b: seq<Message>, d: nat)
    requires d > 0
    ensures Cost(a + b, d) == Cost(a, d) + Cost(b, d)
  {
    if a == [] {
      assert a + b == b;
    } else {
      CostAppend(a[1..], b, d);
      assert (a + b)[1..] == a[1..] + b;
    }
  }

  lemma SuffixCosts(h: seq<Message>, i: nat, j: nat, d: nat)
    requires d > 0 && i <= j <= |h|
    ensures Cost(h[i..], d) == Cost(h[i..j], d) + Cost(h[j..], d)
  {
    CostAppend(h[i..j], h[j..], d);
    assert h[i..] == h[i..j] + h[j..];
  }

  // ----- turn groups

  /** Where a turn group of `h` may start. */
  predicate Boundary(h: seq<Message>, i: nat) {
    i < |h| && (i == 0 || h[i].User?)
  }

  function Flatten(groups: seq<seq<Message>>): seq<Message> {
    if groups == [] then [] else groups[0] + Flatten(groups[1..])
  }

  /** One group: only its first message may be the user's. */
  predicate Group(g: seq<Message>) {
    g != [] && forall i :: 1 <= i < |g| ==> !g[i].User?
  }

  ghost predicate Grouping(h: seq<Message>, groups: seq<seq<Message>>) {
    && Flatten(groups) == h
    && (forall k :: 0 <= k < |groups| ==> Group(groups[k]))
    && (forall k :: 1 <= k < |groups| ==> groups[k][0].User?)
  }

  lemma FlattenAppend(a: seq<seq<Message>>, b: seq<seq<Message>>)
    ensures Flatten(a + b) == Flatten(a) + Flatten(b)
  {
    if a == [] {
      assert a + b == b;
    } else {
      FlattenAppend(a[1..], b);
      assert (a + b)[1..] == a[1..] + b;
    }
  }

  lemma FlattenOne(g: seq<Message>)
    ensures Flatten([g]) == g
  {
    assert [g][1..] == [];
  }

  /** Where group `k` starts. */
  function Offset(groups: seq<seq<Message>>, k: nat): nat
    requires k <= |groups|
  {
    |Flatten(groups[..k])|
  }

  lemma GroupAt(h: seq<Message>, groups: seq<seq<Message>>, k: nat)
    requires Grouping(h, groups) && k < |groups|
    ensures Offset(groups, k) < Offset(groups, k + 1) <= |h|
    ensures h[Offset(groups, k)..Offset(groups, k + 1)] == groups[k]
    ensures Flatten(groups[k..]) == h[Offset(groups, k)..]
    ensures Flatten(groups[k + 1..]) == h[Offset(groups, k + 1)..]
    ensures Boundary(h, Offset(groups, k))
  {
    hide Flatten;
    var i := Offset(groups, k);
    FlattenAppend(groups[..k], groups[k..]);
    assert groups == groups[..k] + groups[k..];
    FlattenAppend([groups[k]], groups[k + 1..]);
    assert groups[k..] == [groups[k]] + groups[k + 1..];
    FlattenOne(groups[k]);
    FlattenAppend(groups[..k], [groups[k]]);
    assert groups[..k + 1] == groups[..k] + [groups[k]];
    assert h[i] == groups[k][0];
    if k == 0 {
      FlattenNothing(groups);
    }
  }

  lemma FlattenNothing(groups: seq<seq<Message>>)
    ensures Flatten(groups[..0]) == [] && Flatten([]) == []
  {
  }

  /** No group starts strictly inside another. */
  lemma NoBoundaryInside(h: seq<Message>, groups: seq<seq<Message>>, k: nat, j: nat)
    requires Grouping(h, groups) && k < |groups| && j < Offset(groups, k + 1) && Boundary(h, j)
    ensures j <= Offset(groups, k)
  {
    hide Flatten;
    GroupAt(h, groups, k);
    var i, end := Offset(groups, k), Offset(groups, k + 1);
    assert forall x :: i < x < end ==> h[x] == h[i..end][x - i];
  }

  /** Cut a history in front of each user message. */
  method GroupMessages(history: seq<Message>) returns (groups: seq<seq<Message>>)
    ensures Grouping(history, groups)
    ensures history != [] ==> groups != []
  {
    hide Flatten;
    groups := [];
    var start := 0;
    FlattenNothing(groups);
    for index := 0 to |history|
      invariant start <= index && (index == 0 ==> start == 0) && (start > 0 ==> groups != [])
      invariant start == 0 <==> groups == []
      invariant Grouping(history[..start], groups)
      invariant forall i :: start < i < index ==> !history[i].User?
      invariant start > 0 ==> start < |history| && history[start].User?
    {
      if index > start && history[index].User? {
        var group := history[start..index];
        FlattenOne(group);
        FlattenAppend(groups, [group]);
        assert history[..index] == history[..start] + group;
        groups := groups + [group];
        start := index;
      }
    }
    if start < |history| {
      var group := history[start..];
      FlattenOne(group);
      FlattenAppend(groups, [group]);
      assert history == history[..start] + group;
      groups := groups + [group];
    }
  }

  // ----- the note

  /** The longest prefix of `content` that fits, found by trying every length from `upTo` down. */
  function LongestFittingPrefix(content: string, available: nat, d: nat, upTo: nat): (r: Option<nat>)
    requires d > 0 && upTo <= |content|
    ensures r.Some? ==> r.value <= upTo && Tokens(HistoryNote(content[..r.value]), d) <= available
  {
    if Tokens(HistoryNote(content[..upTo]), d) <= available then Some(upTo)
    else if upTo == 0 then None
    else LongestFittingPrefix(content, available, d, upTo - 1)
  }

  predicate PrefixFits(content: string, k: nat, available: nat, d: nat)
    requires d > 0 && k <= |content|
  {
    Tokens(HistoryNote(content[..k]), d) <= available
  }

  lemma {:induction false} LongestIs(content: string, available: nat, d: nat, upTo: nat, r: Option<nat>)
    requires d > 0 && upTo <= |content|
    requires r.None? ==> !PrefixFits(content, 0, available, d)
    requires r.Some? ==> r.value <= upTo && PrefixFits(content, r.value, available, d)
    requires r.Some? && r.value < upTo ==> !PrefixFits(content, r.value + 1, available, d)
    ensures LongestFittingPrefix(content, available, d, upTo) == r
    decreases upTo
  {
    var low := if r.None? then 0 else if r.value < upTo then r.value + 1 else r.value;
    if !(r.Some? && r.value == upTo) {
      NoteTokensMonotone(content, low, upTo, d);
      if upTo > 0 {
        LongestIs(content, available, d, upTo - 1, r);
      }
    }
  }

  /** Binary search for the same prefix: the search refines trying every length. */
  method FitHistoryNote(content: string, available: nat, d: nat) returns (best: Option<Message>)
    requires d > 0
    ensures best == match LongestFittingPrefix(content, available, d, |content|)
                    case Some(k) => Some(HistoryNote(content[..k]))
                    case None => None
  {
    hide Tokens;
    var low, high := 0, |content|;
    best := None;
    while low <= high
      invariant 0 <= low <= high + 1 <= |content| + 1
      invariant low == 0 ==> best == None
      invariant low > 0 ==> PrefixFits(content, low - 1, available, d) && best == Some(HistoryNote(content[..low - 1]))
      invariant high < |content| ==> !PrefixFits(content, high + 1, available, d)
      decreases high + 1 - low
    {
      var middle := low + (high - low) / 2;
      var candidate := HistoryNote(content[..middle]);
      if Tokens(candidate, d) <= available {
        best := Some(candidate);
        low := middle + 1;
      } else if middle == 0 {
        LongestIs(content, available, d, |content|, None);
        return;
      } else {
        high := middle - 1;
      }
    }
    LongestIs(content, available, d, |content|, if low == 0 then None else Some(low - 1));
  }

  // ----- selection

  /** Tokens every request spends besides history. */
  function StaticTokens(config: Config, system: string, toolsBytes: nat): nat
    requires Usable(config)
  {
    DivCeil(Bytes(system), config.bytesPerToken) + DivCeil(toolsBytes, config.bytesPerToken)
    + config.reserveTokens + config.marginTokens
  }

  /** The request that keeps `h[i..]` behind the note for `h[..i]`. */
  function Kept(h: seq<Message>, i: nat, summary: seq<Message> -> string): seq<Message>
    requires i <= |h|
  {
    (if i == 0 then [] else [HistoryNote(summary(h[..i]))]) + h[i..]
  }

  ghost predicate Fits(h: seq<Message>, i: nat, summary: seq<Message> -> string, budget: nat, d: nat)
    requires i <= |h| && d > 0
  {
    Cost(Kept(h, i, summary), d) <= budget
  }

  /** `i` starts the longest group-aligned suffix that fits with its note. */
  ghost predicate Longest(h: seq<Message>, i: nat, summary: seq<Message> -> string, budget: nat, d: nat)
    requires d > 0
  {
    && Boundary(h, i) && Fits(h, i, summary, budget, d)
    && forall j: nat :: j < i && Boundary(h, j) ==> !Fits(h, j, summary, budget, d)
  }

  ghost predicate NothingFits(h: seq<Message>, summary: seq<Message> -> string, budget: nat, d: nat)
    requires d > 0
  {
    forall j: nat :: Boundary(h, j) ==> !Fits(h, j, summary, budget, d)
  }

  /** Where the newest turn group starts. */
  function NewestStart(h: seq<Message>): (i: nat)
    requires h != []
    ensures Boundary(h, i) && forall j: nat :: Boundary(h, j) ==> j <= i
  {
    NewestFrom(h, |h| - 1)
  }

  function NewestFrom(h: seq<Message>, from: nat): (i: nat)
    requires from < |h|
    ensures i <= from && Boundary(h, i) && forall j: nat :: i < j <= from ==> !h[j].User?
  {
    if from == 0 || h[from].User? then from else NewestFrom(h, from - 1)
  }

  lemma KeptCost(h: seq<Message>, i: nat, summary: seq<Message> -> string, d: nat)
    requires 0 < i <= |h| && d > 0
    ensures Cost(Kept(h, i, summary), d) == Tokens(HistoryNote(summary(h[..i])), d) + Cost(h[i..], d)
  {
    var note := [HistoryNote(summary(h[..i]))];
    CostAppend(note, h[i..], d);
    assert note[1..] == [];
  }

  lemma FitsWhen(h: seq<Message>, i: nat, summary: seq<Message> -> string, budget: nat, d: nat)
    requires 0 < i <= |h| && d > 0
    ensures var note := HistoryNote(summary(h[..i]));
            && Kept(h, i, summary) == [note] + h[i..]
            && Cost(Kept(h, i, summary), d) == Cost(h[i..], d) + Tokens(note, d)
            && (Fits(h, i, summary, budget, d) <==> Cost(h[i..], d) + Tokens(note, d) <= budget)
  {
    KeptCost(h, i, summary, d);
    hide Cost, Tokens;
  }

  /** A suffix over budget fits with no note either, and neither does a longer one. */
  lemma OverBudget(h: seq<Message>, j: nat, i: nat, summary: seq<Message> -> string, budget: nat, d: nat)
    requires j <= i <= |h| && d > 0 && Cost(h[i..], d) > budget
    ensures !Fits(h, j, summary, budget, d)
  {
    hide Tokens;
    SuffixCosts(h, j, i, d);
    if j > 0 {
      KeptCost(h, j, summary, d);
    } else {
      assert Kept(h, j, summary) == h[0..];
    }
  }

  /** What is kept once the newest group is known to fit. */
  ghost predicate RightKept(
    h: seq<Message>, summary: seq<Message> -> string, budget: nat, d: nat, fixed: nat,
    r: Result<Selection, ContextError>)
    requires h != [] && d > 0 && Cost(h[NewestStart(h)..], d) <= budget
  {
    var newest := NewestStart(h);
    if NothingFits(h, summary, budget, d) then
      var text, room := summary(h[..newest]), budget - Cost(h[newest..], d);
      match LongestFittingPrefix(text, room, d, |text|)
      case None => r == Err(NoteTooLarge)
      case Some(k) =>
        var messages := [HistoryNote(text[..k])] + h[newest..];
        r == Ok(Selection(messages, fixed + Cost(h, d), fixed + Cost(messages, d), newest))
    else
      && r.Ok?
      && Longest(h, r.value.removed, summary, budget, d)
      && r.value.messages == Kept(h, r.value.removed, summary)
      && r.value.before == fixed + Cost(h, d)
      && r.value.after == fixed + Cost(r.value.messages, d)
  }

  /** What a selection must be, for each way `select` can end. */
  ghost predicate Right(
    config: Config, h: seq<Message>, system: string, toolsBytes: nat, summary: seq<Message> -> string,
    r: Result<Selection, ContextError>)
    requires Usable(config)
  {
    var d, fixed := config.bytesPerToken, StaticTokens(config, system, toolsBytes);
    if h == [] then r == Ok(Selection([], 0, 0, 0))
    else if fixed >= config.maxTokens then r == Err(StaticTooLarge)
    else if Cost(h[NewestStart(h)..], d) > config.maxTokens - fixed then r == Err(NewestTooLarge)
    else RightKept(h, summary, config.maxTokens - fixed, d, fixed, r)
  }

  lemma StaticIs(config: Config, system: string, toolsBytes: nat)
    requires Usable(config)
    ensures var d := config.bytesPerToken;
            StaticTokens(config, system, toolsBytes) ==
            DivCeil(Bytes(system), d) + DivCeil(toolsBytes, d) + config.reserveTokens + config.marginTokens
  {
    hide DivCeil;
  }

  /** What a selection costs is what is fixed and what it selects. */
  lemma SelectionCosts(
    config: Config, h: seq<Message>, system: string, toolsBytes: nat, summary: seq<Message> -> string,
    r: Result<Selection, ContextError>)
    requires Usable(config) && Right(config, h, system, toolsBytes, summary, r) && r.Ok? && h != []
    ensures var d, fixed := config.bytesPerToken, StaticTokens(config, system, toolsBytes);
            r.value.after == fixed + Cost(r.value.messages, d) && r.value.before == fixed + Cost(h, d)
  {
    hide Tokens, LongestFittingPrefix, NewestFrom, StaticTokens, Cost, NothingFits, Longest, Kept;
  }

  /** Whatever is selected fits the window, ends with the newest group whole, and counts exactly what
      it leaves out. */
  lemma SelectionFits(
    config: Config, h: seq<Message>, system: string, toolsBytes: nat, summary: seq<Message> -> string,
    r: Result<Selection, ContextError>)
    requires Usable(config) && Right(config, h, system, toolsBytes, summary, r) && r.Ok? && h != []
    ensures var d := config.bytesPerToken;
            var fixed := DivCeil(Bytes(system), d) + DivCeil(toolsBytes, d) + config.reserveTokens + config.marginTokens;
            && fixed + Cost(r.value.messages, d) == r.value.after <= config.maxTokens
            && fixed + Cost(h, d) == r.value.before
    ensures r.value.removed <= NewestStart(h) && Boundary(h, r.value.removed)
    ensures var kept := h[r.value.removed..];
            && |kept| == |h| - r.value.removed
            && (r.value.removed == 0 ==> r.value.messages == kept)
            && (r.value.removed > 0 ==>
                  |r.value.messages| == |kept| + 1 && r.value.messages[0].HistoryNote?
                  && r.value.messages[0].content <= summary(h[..r.value.removed])
                  && r.value.messages[1..] == kept)
  {
    StaticIs(config, system, toolsBytes);
    SelectionCosts(config, h, system, toolsBytes, summary, r);
    SelectionShape(config, h, system, toolsBytes, summary, r);
    hide *;
  }

  lemma SelectionShape(
    config: Config, h: seq<Message>, system: string, toolsBytes: nat, summary: seq<Message> -> string,
    r: Result<Selection, ContextError>)
    requires Usable(config) && Right(config, h, system, toolsBytes, summary, r) && r.Ok? && h != []
    ensures r.value.after <= config.maxTokens
    ensures r.value.removed <= NewestStart(h) && Boundary(h, r.value.removed)
    ensures var kept := h[r.value.removed..];
            && |kept| == |h| - r.value.removed
            && (r.value.removed == 0 ==> r.value.messages == kept)
            && (r.value.removed > 0 ==>
                  |r.value.messages| == |kept| + 1 && r.value.messages[0].HistoryNote?
                  && r.value.messages[0].content <= summary(h[..r.value.removed])
                  && r.value.messages[1..] == kept)
  {
    hide Tokens, LongestFittingPrefix, NewestFrom, StaticTokens, Cost;
    var d, fixed := config.bytesPerToken, StaticTokens(config, system, toolsBytes);
    var budget, newest := config.maxTokens - fixed, NewestStart(h);
    assert Kept(h, 0, summary) == h[0..];
    if NothingFits(h, summary, budget, d) {
      assert !Fits(h, newest, summary, budget, d);
      var text := summary(h[..newest]);
      var k := LongestFittingPrefix(text, budget - Cost(h[newest..], d), d, |text|).value;
      NoteCost(HistoryNote(text[..k]), h[newest..], d);
    }
  }

  /** The last group is the newest turn. */
  lemma LastGroup(h: seq<Message>, groups: seq<seq<Message>>)
    requires Grouping(h, groups) && groups != []
    ensures h != [] && Offset(groups, |groups| - 1) == NewestStart(h)
    ensures groups[|groups| - 1] == h[NewestStart(h)..]
  {
    hide Flatten, NewestFrom;
    var last := |groups| - 1;
    GroupAt(h, groups, last);
    assert groups[..|groups|] == groups;
    forall j: nat | Boundary(h, j) ensures j <= Offset(groups, last) {
      NoBoundaryInside(h, groups, last, j);
    }
  }

  lemma LongerSuffix(h: seq<Message>, groups: seq<seq<Message>>, k: nat, d: nat)
    requires Grouping(h, groups) && 0 < k < |groups| && d > 0
    ensures Offset(groups, k - 1) <= Offset(groups, k) <= |h|
    ensures |groups[k - 1]| == Offset(groups, k) - Offset(groups, k - 1)
    ensures Cost(h[Offset(groups, k - 1)..], d) == Cost(groups[k - 1], d) + Cost(h[Offset(groups, k)..], d)
  {
    GroupAt(h, groups, k - 1);
    SuffixCosts(h, Offset(groups, k - 1), Offset(groups, k), d);
  }

  /** Nothing that starts before group `k` fits. */
  ghost predicate NoneBefore(
    h: seq<Message>, groups: seq<seq<Message>>, k: nat, summary: seq<Message> -> string, budget: nat, d: nat)
    requires d > 0 && k <= |groups|
  {
    forall j: nat :: j < Offset(groups, k) && Boundary(h, j) ==> !Fits(h, j, summary, budget, d)
  }

  lemma GreedyStops(
    h: seq<Message>, groups: seq<seq<Message>>, k: nat, summary: seq<Message> -> string, budget: nat, d: nat)
    requires Grouping(h, groups) && k < |groups| && d > 0
    requires k > 0 ==> Offset(groups, k - 1) <= |h| && Cost(h[Offset(groups, k - 1)..], d) > budget
    ensures NoneBefore(h, groups, k, summary, budget, d)
  {
    hide Flatten, Cost, Fits;
    if k == 0 {
      FlattenNothing(groups);
    } else {
      GroupAt(h, groups, k - 1);
      forall j: nat | j < Offset(groups, k) && Boundary(h, j) ensures !Fits(h, j, summary, budget, d) {
        NoBoundaryInside(h, groups, k - 1, j);
        OverBudget(h, j, Offset(groups, k - 1), summary, budget, d);
      }
    }
  }

  lemma NextGroup(
    h: seq<Message>, groups: seq<seq<Message>>, k: nat, summary: seq<Message> -> string, budget: nat, d: nat)
    requires Grouping(h, groups) && k < |groups| && d > 0 && NoneBefore(h, groups, k, summary, budget, d)
    requires Offset(groups, k) <= |h| && !Fits(h, Offset(groups, k), summary, budget, d)
    ensures NoneBefore(h, groups, k + 1, summary, budget, d)
  {
    hide Flatten, Cost, Fits;
    GroupAt(h, groups, k);
    forall j: nat | j < Offset(groups, k + 1) && Boundary(h, j) ensures !Fits(h, j, summary, budget, d) {
      NoBoundaryInside(h, groups, k, j);
    }
  }

  /** The first suffix that fits, from the longest down, is the one to keep. */
  lemma KeepThis(
    h: seq<Message>, groups: seq<seq<Message>>, k: nat, summary: seq<Message> -> string, budget: nat, d: nat,
    fixed: nat)
    requires Grouping(h, groups) && k < |groups| && d > 0 && h != []
    requires Cost(h[NewestStart(h)..], d) <= budget
    requires NoneBefore(h, groups, k, summary, budget, d)
    requires Offset(groups, k) <= |h| && Fits(h, Offset(groups, k), summary, budget, d)
    ensures var kept := Kept(h, Offset(groups, k), summary);
            RightKept(h, summary, budget, d, fixed,
                      Ok(Selection(kept, fixed + Cost(h, d), fixed + Cost(kept, d), Offset(groups, k))))
  {
    hide Flatten, Cost, NewestFrom, LongestFittingPrefix;
    GroupAt(h, groups, k);
    assert Longest(h, Offset(groups, k), summary, budget, d);
  }

  lemma OnlyNewestLeft(
    h: seq<Message>, groups: seq<seq<Message>>, summary: seq<Message> -> string, budget: nat, d: nat)
    requires Grouping(h, groups) && groups != [] && d > 0 && h != []
    requires NoneBefore(h, groups, |groups| - 1, summary, budget, d)
    requires Offset(groups, |groups| - 1) <= |h| && !Fits(h, Offset(groups, |groups| - 1), summary, budget, d)
    ensures NothingFits(h, summary, budget, d)
  {
    hide Flatten, Cost, NewestFrom, Fits;
    LastGroup(h, groups);
  }

  /** Only the newest group is left, and its note does not fit: cut the note. */
  method KeepNewest(
    h: seq<Message>, groups: seq<seq<Message>>, removed: nat, cost: nat,
    summary: seq<Message> -> string, budget: nat, d: nat, fixed: nat)
    returns (r: Result<Selection, ContextError>)
    requires d > 0 && Grouping(h, groups) && groups != [] && h != [] && Cost(h[NewestStart(h)..], d) <= budget
    requires 0 < removed == Offset(groups, |groups| - 1) <= |h| && cost == Cost(h[removed..], d) <= budget
    requires NoneBefore(h, groups, |groups| - 1, summary, budget, d) && !Fits(h, removed, summary, budget, d)
    ensures RightKept(h, summary, budget, d, fixed, r)
  {
    hide Tokens, LongestFittingPrefix, NewestFrom, Flatten, Offset, Cost, Grouping, NoneBefore, NothingFits, Fits;
    LastGroup(h, groups);
    OnlyNewestLeft(h, groups, summary, budget, d);
    var text := summary(h[..removed]);
    var cut := FitHistoryNote(text, budget - cost, d);
    if cut.None? {
      return Err(NoteTooLarge);
    }
    NoteCost(cut.value, h[removed..], d);
    return Ok(Selection([cut.value] + h[removed..], fixed + Cost(h, d), fixed + (cost + Tokens(cut.value, d)), removed));
  }

  /** Add the note, giving up the oldest kept group while the note does not fit beside the rest. */
  method KeepWithNote(
    h: seq<Message>, groups: seq<seq<Message>>, start: nat, startCost: nat,
    summary: seq<Message> -> string, budget: nat, d: nat, fixed: nat)
    returns (r: Result<Selection, ContextError>)
    requires d > 0 && Grouping(h, groups) && start < |groups| && h != []
    requires Cost(h[NewestStart(h)..], d) <= budget
    requires Offset(groups, start) <= |h| && startCost == Cost(h[Offset(groups, start)..], d) <= budget
    requires NoneBefore(h, groups, start, summary, budget, d)
    ensures RightKept(h, summary, budget, d, fixed, r)
  {
    hide Tokens, LongestFittingPrefix, NewestFrom, Flatten, Offset, Cost, Grouping, NoneBefore, NothingFits, Fits;
    hide RightKept, Kept;
    LastGroup(h, groups);
    var before := fixed + Cost(h, d);
    GroupAt(h, groups, start);
    var removed := |h| - |Flatten(groups[start..])|;
    if removed == 0 {
      WholeFits(h, summary, budget, d);
      KeepThis(h, groups, start, summary, budget, d, fixed);
      return Ok(Selection(h, before, fixed + startCost, 0));
    }
    var first, cost := start, startCost;
    while true
      invariant first < |groups| && 0 < removed == Offset(groups, first) <= |h|
      invariant cost == Cost(h[removed..], d) <= budget
      invariant NoneBefore(h, groups, first, summary, budget, d)
      decreases |groups| - first
    {
      var note := HistoryNote(summary(h[..removed]));
      FitsWhen(h, removed, summary, budget, d);
      if cost + Tokens(note, d) <= budget {
        KeepThis(h, groups, first, summary, budget, d, fixed);
        return Ok(Selection([note] + h[removed..], before, fixed + (cost + Tokens(note, d)), removed));
      }
      if first == |groups| - 1 {
        r := KeepNewest(h, groups, removed, cost, summary, budget, d, fixed);
        return;
      }
      NextGroup(h, groups, first, summary, budget, d);
      LongerSuffix(h, groups, first + 1, d);
      cost := cost - Cost(groups[first], d);
      removed := removed + |groups[first]|;
      first := first + 1;
    }
  }

  lemma WholeFits(h: seq<Message>, summary: seq<Message> -> string, budget: nat, d: nat)
    requires d > 0
    ensures Kept(h, 0, summary) == h == h[0..] && (Fits(h, 0, summary, budget, d) <==> Cost(h, d) <= budget)
  {
    hide Cost;
    assert h[0..] == h;
  }

  lemma NoteCost(note: Message, rest: seq<Message>, d: nat)
    requires d > 0
    ensures Cost([note] + rest, d) == Cost(rest, d) + Tokens(note, d)
  {
    assert ([note] + rest)[1..] == rest;
  }

  method Select(
    config: Config, history: seq<Message>, system: string, toolsBytes: nat, summary: seq<Message> -> string)
    returns (r: Result<Selection, ContextError>)
    requires Usable(config)
    ensures Right(config, history, system, toolsBytes, summary, r)
  {
    hide Tokens, LongestFittingPrefix, NewestFrom, Flatten, Offset, Cost, Grouping, RightKept;
    if history == [] {
      return Ok(Selection([], 0, 0, 0));
    }
    var d, fixed := config.bytesPerToken, StaticTokens(config, system, toolsBytes);
    if fixed >= config.maxTokens {
      return Err(StaticTooLarge);
    }
    var budget := config.maxTokens - fixed;
    var groups := GroupMessages(history);
    var first := |groups| - 1;
    LastGroup(history, groups);
    var cost := Cost(groups[first], d);
    if cost > budget {
      return Err(NewestTooLarge);
    }
    while first > 0
      invariant 0 <= first < |groups|
      invariant Offset(groups, first) <= |history|
      invariant cost == Cost(history[Offset(groups, first)..], d) <= budget
    {
      LongerSuffix(history, groups, first, d);
      if cost + Cost(groups[first - 1], d) > budget {
        break;
      }
      first := first - 1;
      cost := cost + Cost(groups[first], d);
    }
    GreedyStops(history, groups, first, summary, budget, d);
    r := KeepWithNote(history, groups, first, cost, summary, budget, d, fixed);
  }
}

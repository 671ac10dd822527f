/** Keeping the canonical session history within its limits (crates/scv-core/src/history.rs).

    `Enforce` follows the trimming loop; the text of the trim note is a parameter, so the results hold
    for every note. */
module HistoryLimits {
  import opened Wrappers
  import opened Messages

  datatype Limits = Limits(maxBytes: nat, maxMessages: nat)

  datatype LimitError = ActiveTurnTooLarge | CannotReduce

  // ----- sizes

  /** Bytes of the messages with a comma after each. */
  function ListBytes(h: seq<Message>): nat {
    if h == [] then 0 else MessageBytes(h[0]) + 1 + ListBytes(h[1..])
  }

  /** The JSON array: brackets, and a comma between messages. */
  function HistoryBytes(h: seq<Message>): nat {
    if h == [] then 2 else ListBytes(h) + 1
  }

  predicate Within(h: seq<Message>, limits: Limits) {
    |h| <= limits.maxMessages && HistoryBytes(h) <= limits.maxBytes
  }

  lemma {:induction false} SuffixWithin(h: seq<Message>, k: nat, limits: Limits)
    requires k <= |h|
    ensures Within(h, limits) ==> Within(h[k..], limits)
    ensures ListBytes(h[k..]) <= ListBytes(h)
    decreases k
  {
    if k > 0 {
      SuffixWithin(h[1..], k - 1, limits);
      assert h[1..][k - 1..] == h[k..];
    } else {
      assert h[0..] == h;
    }
  }

  // ----- user messages

  /** The first user message at or after `from`, or the end. */
  function NextUser(h: seq<Message>, from: nat): (i: nat)
    requires from <= |h|
    ensures from <= i <= |h| && (i < |h| ==> h[i].User?)
    ensures forall j :: from <= j < i ==> !h[j].User?
    decreases |h| - from
  {
    if from == |h| || h[from].User? then from else NextUser(h, from + 1)
  }

  function FirstUser(h: seq<Message>): nat {
    NextUser(h, 0)
  }

  /** The last user message before `to`, or `to` when there is none. */
  function LastUserBefore(h: seq<Message>, to: nat): (i: nat)
    requires to <= |h|
    ensures i <= |h|
    ensures i < |h| ==> h[i].User? && forall j :: i < j < to ==> !h[j].User?
    ensures i == |h| ==> forall j :: 0 <= j < to ==> !h[j].User?
  {
    if to == 0 then |h| else if h[to - 1].User? then to - 1 else LastUserBefore(h, to - 1)
  }

  /** Where the active turn starts: the newest user message, or the front when there is none. */
  function ActiveStart(h: seq<Message>): (i: nat)
    ensures i <= |h|
    ensures i < |h| && h[i].User? ==> FirstUser(h) <= i && forall j :: i < j < |h| ==> !h[j].User?
    ensures i == |h| || !h[i].User? ==> i == 0 && FirstUser(h) == |h|
  {
    var i := LastUserBefore(h, |h|);
    if i == |h| then 0 else i
  }

  function LeadingNotes(h: seq<Message>): (n: nat)
    ensures n <= |h| && (forall i :: 0 <= i < n ==> h[i].HistoryNote?)
    ensures n < |h| ==> !h[n].HistoryNote?
  {
    if h == [] || !h[0].HistoryNote? then 0 else 1 + LeadingNotes(h[1..])
  }

  // ----- trimming

  datatype Trimmed = Trimmed(history: seq<Message>, removed: nat, trims: nat, error: Option<LimitError>)

  type NoteText = (seq<Message>, nat) -> string

  /** One round of the loop: stop, take out the note in front, or trim up to the second user message. */
  datatype Round = Stop(error: Option<LimitError>) | DropNote | TrimTo(end: nat)

  function NextRound(h: seq<Message>, limits: Limits): (round: Round)
    ensures round.DropNote? ==> h != [] && h[0].HistoryNote? && FirstUser(h) == ActiveStart(h) < |h|
    ensures round.TrimTo? ==> FirstUser(h) < ActiveStart(h) && round.end == NextUser(h, FirstUser(h) + 1)
    ensures round.Stop? ==> (round.error.None? <==> Within(h, limits))
  {
    var latest, first := ActiveStart(h), FirstUser(h);
    if Within(h, limits) then Stop(None)
    else if !Within(h[latest..], limits) then Stop(Some(ActiveTurnTooLarge))
    else if first == latest || first == |h| then
      assert h[0..] == h;
      if h != [] && h[0].HistoryNote? then DropNote else Stop(Some(CannotReduce))
    else TrimTo(NextUser(h, first + 1))
  }

  /** The trimming loop from a history with `removed` messages already counted and `trims` groups
      already replaced. After a group is drained, what follows starts with a user message, so there is
      never an older note to take out in front of it. */
  function Enforce(h: seq<Message>, limits: Limits, text: NoteText, removed: nat, trims: nat): Trimmed
    decreases |h| - FirstUser(h), |h|
  {
    match NextRound(h, limits)
    case Stop(error) => Trimmed(h, removed, trims, error)
    case DropNote =>
      NoteRemoved(h);
      Enforce(h[1..], limits, text, removed + 1, trims)
    case TrimTo(end) =>
      GroupTrimmed(h, text(h[..end], removed + end));
      Enforce([HistoryNote(text(h[..end], removed + end))] + h[end..], limits, text, removed + end, trims + 1)
  }

  lemma FirstUserIs(h: seq<Message>, i: nat)
    requires i <= |h| && (i < |h| ==> h[i].User?) && forall j :: 0 <= j < i ==> !h[j].User?
    ensures FirstUser(h) == i
  {
  }

  lemma ActiveStartIs(h: seq<Message>, i: nat)
    requires i < |h| && h[i].User? && forall j :: i < j < |h| ==> !h[j].User?
    ensures ActiveStart(h) == i
  {
  }

  lemma NoteRemoved(h: seq<Message>)
    requires h != [] && !h[0].User?
    ensures FirstUser(h[1..]) == FirstUser(h) - 1
  {
    FirstUserIs(h[1..], FirstUser(h) - 1);
  }

  /** Replacing everything before the second user message by a note. */
  lemma GroupTrimmed(h: seq<Message>, text: string)
    requires FirstUser(h) < ActiveStart(h)
    ensures FirstUser(h) < NextUser(h, FirstUser(h) + 1) <= ActiveStart(h) < |h|
    ensures var end := NextUser(h, FirstUser(h) + 1);
            var next := [HistoryNote(text)] + h[end..];
            && FirstUser(next) == 1 && h[end].User?
            && ActiveStart(next) == ActiveStart(h) - end + 1
            && next[ActiveStart(next)..] == h[ActiveStart(h)..]
  {
    var end := NextUser(h, FirstUser(h) + 1);
    var next := [HistoryNote(text)] + h[end..];
    FirstUserIs(next, 1);
    ActiveStartIs(next, ActiveStart(h) - end + 1);
  }

  /** One round of the loop, by its kind. */
  lemma EnforceUnfolds(h: seq<Message>, limits: Limits, text: NoteText, removed: nat, trims: nat)
    ensures var r, round := Enforce(h, limits, text, removed, trims), NextRound(h, limits);
            && (round.Stop? ==> r == Trimmed(h, removed, trims, round.error))
            && (round.DropNote? ==> r == Enforce(h[1..], limits, text, removed + 1, trims))
            && (round.TrimTo? ==>
                  && round.end <= |h|
                  && r == Enforce([HistoryNote(text(h[..round.end], removed + round.end))] + h[round.end..], limits, text,
                                  removed + round.end, trims + 1))
  {
    hide Within, FirstUser, ActiveStart, NextUser, LastUserBefore, NextRound;
  }

  /** Which kind of round it is. */
  lemma RoundIs(h: seq<Message>, limits: Limits)
    ensures var round, latest, first := NextRound(h, limits), ActiveStart(h), FirstUser(h);
            if Within(h, limits) then round == Stop(None)
            else if !Within(h[latest..], limits) then round == Stop(Some(ActiveTurnTooLarge))
            else if first == latest || first == |h| then
              round == if h == [] || !h[0].HistoryNote? then Stop(Some(CannotReduce)) else DropNote
            else first + 1 <= |h| && round == TrimTo(NextUser(h, first + 1))
  {
    hide Within, LastUserBefore, NextUser, FirstUser, ActiveStart;
  }

  /** The loop's next step in each of its cases. */
  lemma EnforceRound(h: seq<Message>, limits: Limits, text: NoteText, removed: nat, trims: nat)
    ensures var r, latest, first := Enforce(h, limits, text, removed, trims), ActiveStart(h), FirstUser(h);
            if Within(h, limits) then r == Trimmed(h, removed, trims, None)
            else if !Within(h[latest..], limits) then r == Trimmed(h, removed, trims, Some(ActiveTurnTooLarge))
            else if first == latest || first == |h| then
              if h == [] || !h[0].HistoryNote? then r == Trimmed(h, removed, trims, Some(CannotReduce))
              else r == Enforce(h[1..], limits, text, removed + 1, trims)
                   && |h[1..]| - FirstUser(h[1..]) == |h| - first
            else
              && first + 1 <= |h|
              && var end := NextUser(h, first + 1);
                 var next := [HistoryNote(text(h[..end], removed + end))] + h[end..];
                 r == Enforce(next, limits, text, removed + end, trims + 1)
                 && 0 <= |next| - FirstUser(next) < |h| - first
  {
    hide Within, NextUser, FirstUser, ActiveStart, NextRound, Enforce;
    RoundIs(h, limits);
    EnforceUnfolds(h, limits, text, removed, trims);
    var round := NextRound(h, limits);
    if round.DropNote? {
      NoteRemoved(h);
    } else if round.TrimTo? {
      GroupTrimmed(h, text(h[..round.end], removed + round.end));
    }
  }

  // ----- when trimming succeeds

  /** What no trimming can take away: the active turn; with one user message, also what stands before
      it behind its leading notes; with none, everything. */
  function Core(h: seq<Message>): seq<Message> {
    if FirstUser(h) == |h| then h
    else if FirstUser(h) == ActiveStart(h) then h[LeadingNotes(h)..]
    else h[ActiveStart(h)..]
  }

  lemma ActiveInCore(h: seq<Message>, limits: Limits)
    ensures Within(h, limits) ==> Within(Core(h), limits)
    ensures Within(Core(h), limits) ==> Within(h[ActiveStart(h)..], limits)
  {
    hide Within, ListBytes;
    var notes, active := LeadingNotes(h), ActiveStart(h);
    SuffixWithin(h, active, limits);
    SuffixWithin(h, notes, limits);
    if FirstUser(h) == |h| {
      assert h[0..] == h;
    } else {
      assert notes <= FirstUser(h);
      SuffixWithin(h[notes..], active - notes, limits);
      assert h[notes..][active - notes..] == h[active..];
    }
  }

  lemma StopsWithoutCore(h: seq<Message>, limits: Limits)
    requires NextRound(h, limits).Stop?
    ensures NextRound(h, limits).error.None? <==> Within(Core(h), limits)
  {
    hide Within, NextUser, LastUserBefore;
    ActiveInCore(h, limits);
    assert h[0..] == h;
  }

  /** For every history, trimming succeeds exactly when what it cannot take away is within the limits. */
  lemma {:induction false} EnforceSucceeds(h: seq<Message>, limits: Limits, text: NoteText, removed: nat, trims: nat)
    ensures Enforce(h, limits, text, removed, trims).error.None? <==> Within(Core(h), limits)
    decreases |h| - FirstUser(h), |h|
  {
    hide Within, NextRound, Core, FirstUser, ActiveStart;
    match NextRound(h, limits)
    case Stop(_) =>
      StopsWithoutCore(h, limits);
    case DropNote =>
      NoteRemoved(h);
      CoreWithoutNote(h);
      EnforceSucceeds(h[1..], limits, text, removed + 1, trims);
    case TrimTo(end) =>
      var note := text(h[..end], removed + end);
      GroupTrimmed(h, note);
      CoreAfterTrim(h, note);
      EnforceSucceeds([HistoryNote(note)] + h[end..], limits, text, removed + end, trims + 1);
  }

  lemma CoreWithoutNote(h: seq<Message>)
    requires h != [] && h[0].HistoryNote? && FirstUser(h) == ActiveStart(h) < |h|
    ensures Core(h[1..]) == Core(h)
  {
    NoteRemoved(h);
    ActiveStartIs(h[1..], ActiveStart(h) - 1);
    assert h[1..][LeadingNotes(h[1..])..] == h[LeadingNotes(h)..];
  }

  lemma CoreAfterTrim(h: seq<Message>, text: string)
    requires FirstUser(h) < ActiveStart(h)
    ensures Core([HistoryNote(text)] + h[NextUser(h, FirstUser(h) + 1)..]) == Core(h) == h[ActiveStart(h)..]
  {
    GroupTrimmed(h, text);
    var end := NextUser(h, FirstUser(h) + 1);
    var next := [HistoryNote(text)] + h[end..];
    assert next[1..] == h[end..];
    assert LeadingNotes(next) == 1;
  }

  /** The plain case the runtime meets: a history that starts with a user message, or with one note
      and then a user message, can be brought within its limits exactly when its active turn is. */
  lemma ActiveTurnDecides(h: seq<Message>, limits: Limits, text: NoteText)
    requires h != [] && (h[0].User? || (h[0].HistoryNote? && |h| > 1 && h[1].User?))
    ensures Enforce(h, limits, text, 0, 0).error.None? <==> Within(h[ActiveStart(h)..], limits)
  {
    EnforceSucceeds(h, limits, text, 0, 0);
    hide Within, Enforce;
    FirstUserIs(h, if h[0].User? then 0 else 1);
    assert LeadingNotes(h) == FirstUser(h);
  }

  // ----- what trimming leaves

  /** `next` is `was` with a prefix gone: leading notes alone, or everything before a user message,
      perhaps replaced by one note. */
  ghost predicate TrimOf(was: seq<Message>, next: seq<Message>) {
    || next == was
    || exists k: nat :: TrimAt(was, next, k)
  }

  predicate TrimAt(was: seq<Message>, next: seq<Message>, k: nat) {
    && 0 < k < |was|
    && if was[k].User? then next == was[k..] || (next != [] && next[0].HistoryNote? && next[1..] == was[k..])
       else next == was[k..] && k <= LeadingNotes(was)
  }

  /** What the loop keeps from round to round: only a prefix goes, the active turn stays, and the count
      of removed messages is off by one for each trim, which put a note in. */
  ghost predicate KeptActive(h: seq<Message>, removed: nat, trims: nat, r: Trimmed) {
    && TrimOf(h, r.history)
    && r.history[ActiveStart(r.history)..] == h[ActiveStart(h)..]
    && r.removed - r.trims == removed - trims + |h| - |r.history|
  }

  lemma {:induction false} EnforceTrims(h: seq<Message>, limits: Limits, text: NoteText, removed: nat, trims: nat)
    requires FirstUser(h) < |h|
    ensures var r := Enforce(h, limits, text, removed, trims);
            KeptActive(h, removed, trims, r) && (r.error.None? ==> Within(r.history, limits))
    decreases |h| - FirstUser(h), |h|
  {
    hide Within, NextRound, KeptActive, Enforce, FirstUser, ActiveStart, NextUser;
    EnforceUnfolds(h, limits, text, removed, trims);
    var r, round := Enforce(h, limits, text, removed, trims), NextRound(h, limits);
    if round.Stop? {
      KeptNothingTrimmed(h, removed, trims, round.error);
    } else if round.DropNote? {
      NoteRemoved(h);
      EnforceTrims(h[1..], limits, text, removed + 1, trims);
      KeptWithoutNote(h, removed, trims, r);
    } else {
      var end := round.end;
      var note := text(h[..end], removed + end);
      GroupTrimmed(h, note);
      EnforceTrims([HistoryNote(note)] + h[end..], limits, text, removed + end, trims + 1);
      KeptAfterTrim(h, note, removed, trims, r);
    }
  }

  // ----- what the note is about

  /** `x` is what stood before place `k`, with a user message in it: from the start on, or behind leading notes, or
      from a user message on behind the note an earlier round put in. */
  ghost predicate Covers(h: seq<Message>, x: seq<Message>, k: nat) {
    exists j: nat :: CoversFrom(h, x, j, k)
  }

  ghost predicate CoversFrom(h: seq<Message>, x: seq<Message>, j: nat, k: nat) {
    && j < k <= |h| && (exists i :: j <= i < k && h[i].User?)
    && if x == h[j..k] then j == 0 || h[j].User? || forall i :: 0 <= i < j ==> h[i].HistoryNote?
       else j > 0 && x != [] && x[0].HistoryNote? && x[1..] == h[j..k]
  }

  /** Nothing was trimmed, or messages were left out, or what was left out stands in a note made of it and of the
      count so far. */
  ghost predicate Noted(h: seq<Message>, text: NoteText, removed: nat, r: Trimmed) {
    || (r.history == h && r.removed == removed)
    || (exists k: nat :: 0 < k <= |h| && r.history == h[k..])
    || (exists k: nat, x :: NotedAt(h, text, r, k, x))
  }

  ghost predicate NotedAt(h: seq<Message>, text: NoteText, r: Trimmed, k: nat, x: seq<Message>) {
    0 < k <= |h| && Covers(h, x, k) && r.history == [HistoryNote(text(x, r.removed))] + h[k..]
  }

  lemma {:induction false} EnforceNotes(h: seq<Message>, limits: Limits, text: NoteText, removed: nat, trims: nat)
    ensures Noted(h, text, removed, Enforce(h, limits, text, removed, trims))
    decreases |h| - FirstUser(h), |h|
  {
    hide Within, Noted, NextUser, LastUserBefore;
    var r := Enforce(h, limits, text, removed, trims);
    match NextRound(h, limits)
    case Stop(error) => NotedNothing(h, text, removed, r);
    case DropNote =>
      NoteRemoved(h);
      EnforceNotes(h[1..], limits, text, removed + 1, trims);
      NotedBehindNote(h, text, removed, r);
    case TrimTo(end) =>
      var note := text(h[..end], removed + end);
      GroupTrimmed(h, note);
      EnforceNotes([HistoryNote(note)] + h[end..], limits, text, removed + end, trims + 1);
      NotedBehindTrim(h, text, removed, end, r);
  }

  lemma NotedNothing(h: seq<Message>, text: NoteText, removed: nat, r: Trimmed)
    requires r.history == h && r.removed == removed
    ensures Noted(h, text, removed, r)
  {
  }

  lemma NotedBehindNote(h: seq<Message>, text: NoteText, removed: nat, r: Trimmed)
    requires h != [] && h[0].HistoryNote? && Noted(h[1..], text, removed + 1, r)
    ensures Noted(h, text, removed, r)
  {
    hide Covers;
    if r.history == h[1..] {
    } else if k: nat :| 0 < k <= |h[1..]| && r.history == h[1..][k..] {
      assert h[1..][k..] == h[k + 1..];
    } else {
      var k: nat, x :| NotedAt(h[1..], text, r, k, x);
      assert h[1..][k..] == h[k + 1..];
      CoversBehindNote(h, x, k);
      assert NotedAt(h, text, r, k + 1, x);
    }
  }

  lemma CoversBehindNote(h: seq<Message>, x: seq<Message>, k: nat)
    requires h != [] && h[0].HistoryNote? && Covers(h[1..], x, k)
    ensures Covers(h, x, k + 1)
  {
    var j: nat :| CoversFrom(h[1..], x, j, k);
    assert h[1..][j..k] == h[j + 1..k + 1];
    var u :| j <= u < k && h[1..][u].User?;
    assert h[u + 1].User?;
    if x == h[j + 1..k + 1] && !h[j + 1].User? {
      forall i | 0 <= i < j + 1 ensures h[i].HistoryNote? {
        assert i > 0 ==> h[1..][i - 1] == h[i];
      }
    }
    assert CoversFrom(h, x, j + 1, k + 1);
  }

  lemma NotedBehindTrim(h: seq<Message>, text: NoteText, removed: nat, end: nat, r: Trimmed)
    requires 0 < end < |h| && h[end].User? && FirstUser(h) < end
    requires Noted([HistoryNote(text(h[..end], removed + end))] + h[end..], text, removed + end, r)
    ensures Noted(h, text, removed, r)
  {
    hide Covers;
    var note := HistoryNote(text(h[..end], removed + end));
    var next := [note] + h[end..];
    if r.history == next && r.removed == removed + end {
      CoversWhole(h, end, FirstUser(h));
      assert NotedAt(h, text, r, end, h[..end]);
    } else if k: nat :| 0 < k <= |next| && r.history == next[k..] {
      assert next[k..] == h[end + k - 1..];
    } else {
      var k: nat, x :| NotedAt(next, text, r, k, x);
      assert next[k..] == h[end + k - 1..];
      CoversBehindTrim(h, x, end, note, k);
      assert NotedAt(h, text, r, end + k - 1, x);
    }
  }

  lemma CoversWhole(h: seq<Message>, k: nat, u: nat)
    requires u < k <= |h| && h[u].User?
    ensures Covers(h, h[..k], k)
  {
    assert h[0..k] == h[..k];
    assert CoversFrom(h, h[..k], 0, k);
  }

  lemma CoversBehindTrim(h: seq<Message>, x: seq<Message>, end: nat, note: Message, k: nat)
    requires 0 < end < |h| && h[end].User? && note.HistoryNote? && Covers([note] + h[end..], x, k)
    ensures Covers(h, x, end + k - 1)
  {
    var next := [note] + h[end..];
    var j: nat :| CoversFrom(next, x, j, k);
    var u :| j <= u < k && next[u].User?;
    assert next[u] == h[end + u - 1];
    if j == 0 {
      assert next[0..k] == [note] + h[end..end + k - 1];
      assert CoversFrom(h, x, end, end + k - 1);
    } else {
      assert next[j..k] == h[end + j - 1..end + k - 1];
      assert next[j] == h[end + j - 1] && next[1] == h[end];
      assert CoversFrom(h, x, end + j - 1, end + k - 1);
    }
  }

  lemma KeptNothingTrimmed(h: seq<Message>, removed: nat, trims: nat, error: Option<LimitError>)
    ensures KeptActive(h, removed, trims, Trimmed(h, removed, trims, error))
  {
  }

  lemma KeptWithoutNote(h: seq<Message>, removed: nat, trims: nat, r: Trimmed)
    requires h != [] && h[0].HistoryNote? && FirstUser(h) == ActiveStart(h) < |h|
    requires KeptActive(h[1..], removed + 1, trims, r)
    ensures KeptActive(h, removed, trims, r)
  {
    hide TrimOf;
    NoteTrimmed(h, r.history);
  }

  lemma KeptAfterTrim(h: seq<Message>, text: string, removed: nat, trims: nat, r: Trimmed)
    requires FirstUser(h) < ActiveStart(h)
    requires var end := NextUser(h, FirstUser(h) + 1);
             KeptActive([HistoryNote(text)] + h[end..], removed + end, trims + 1, r)
    ensures KeptActive(h, removed, trims, r)
  {
    GroupTrimmed(h, text);
    hide *;
    KeptBehindNote(h, NextUser(h, FirstUser(h) + 1), HistoryNote(text), removed, trims, r);
  }

  lemma KeptBehindNote(h: seq<Message>, end: nat, note: Message, removed: nat, trims: nat, r: Trimmed)
    requires 0 < end < |h| && h[end].User? && note.HistoryNote?
    requires var next := [note] + h[end..];
             next[ActiveStart(next)..] == h[ActiveStart(h)..] && KeptActive(next, removed + end, trims + 1, r)
    ensures KeptActive(h, removed, trims, r)
  {
    hide TrimOf, FirstUser, NextUser, ActiveStart;
    GroupsTrimmed(h, end, note, r.history);
  }

  lemma NoteTrimmed(h: seq<Message>, next: seq<Message>)
    requires h != [] && h[0].HistoryNote? && FirstUser(h) == ActiveStart(h) < |h| && TrimOf(h[1..], next)
    ensures TrimOf(h, next)
    ensures h[1..][ActiveStart(h[1..])..] == h[ActiveStart(h)..]
  {
    ActiveStartIs(h[1..], ActiveStart(h) - 1);
    if next == h[1..] {
      assert TrimAt(h, next, 1);
    } else {
      var k: nat :| TrimAt(h[1..], next, k);
      assert h[1..][k..] == h[k + 1..];
      assert TrimAt(h, next, k + 1);
    }
  }

  lemma GroupsTrimmed(h: seq<Message>, end: nat, note: Message, next: seq<Message>)
    requires 0 < end < |h| && h[end].User? && note.HistoryNote? && TrimOf([note] + h[end..], next)
    ensures TrimOf(h, next)
  {
    var mid := [note] + h[end..];
    assert mid[1..] == h[end..];
    if next == mid {
      assert TrimAt(h, next, end);
    } else {
      var k: nat :| TrimAt(mid, next, k);
      assert mid[k..] == h[end + k - 1..];
      assert LeadingNotes(mid) == 1;
      assert TrimAt(h, next, end + k - 1);
    }
  }

  // ----- the count of removed messages

  /** The reported count is the number of messages that are gone from the front. */
  predicate CountExact(h: seq<Message>, r: Trimmed) {
    && r.removed <= |h|
    && (|| r.history == h[r.removed..]
        || (r.history != [] && r.history[0].HistoryNote? && r.history[1..] == h[r.removed..]))
  }

  /** The history after the oldest turn was trimmed. */
  function AfterFirstTrim(h: seq<Message>, text: NoteText): seq<Message>
    requires FirstUser(h) < ActiveStart(h)
  {
    var end := NextUser(h, FirstUser(h) + 1);
    [HistoryNote(text(h[..end], end))] + h[end..]
  }

  /** With at most one user message only notes that were there before are dropped, and counted. */
  lemma {:induction false} DropsCounted(h: seq<Message>, limits: Limits, text: NoteText, removed: nat, trims: nat) returns (k: nat)
    requires FirstUser(h) >= ActiveStart(h)
    ensures var r := Enforce(h, limits, text, removed, trims);
            k <= |h| && r.history == h[k..] && r.removed == removed + k && r.trims == trims
    decreases |h|
  {
    hide Within, LastUserBefore, NextUser, FirstUser, ActiveStart;
    match NextRound(h, limits)
    case Stop(_) =>
      k := 0;
    case DropNote =>
      NoteRemoved(h);
      ActiveStartIs(h[1..], ActiveStart(h) - 1);
      k := DropsCounted(h[1..], limits, text, removed + 1, trims);
      assert h[1..][k..] == h[k + 1..];
      k := k + 1;
  }

  lemma {:induction false} TrimsGrow(h: seq<Message>, limits: Limits, text: NoteText, removed: nat, trims: nat)
    ensures Enforce(h, limits, text, removed, trims).trims >= trims
    decreases |h| - FirstUser(h), |h|
  {
    hide Within, LastUserBefore, NextUser, FirstUser, ActiveStart;
    match NextRound(h, limits)
    case Stop(_) =>
    case DropNote =>
      NoteRemoved(h);
      TrimsGrow(h[1..], limits, text, removed + 1, trims);
    case TrimTo(end) =>
      GroupTrimmed(h, text(h[..end], removed + end));
      TrimsGrow([HistoryNote(text(h[..end], removed + end))] + h[end..], limits, text, removed + end, trims + 1);
  }

  /** When the first trim was not enough, a second one follows or its note is dropped. */
  lemma NotEnough(h: seq<Message>, limits: Limits, text: NoteText, removed: nat)
    requires |h| > 1 && h[0].HistoryNote? && h[1].User? && !Within(h, limits)
    requires Enforce(h, limits, text, removed, 1).error.None?
    ensures var r := Enforce(h, limits, text, removed, 1);
            r.trims >= 2 || (r.history != [] && r.history[0].User?)
  {
    BehindNote(h);
    hide Enforce, Within, NextUser, FirstUser, ActiveStart;
    if ActiveStart(h) == 1 {
      NoteDropped(h, limits, text, removed);
    } else {
      SecondTrim(h, limits, text, removed);
    }
  }

  lemma NoteDropped(h: seq<Message>, limits: Limits, text: NoteText, removed: nat)
    requires |h| > 1 && h[0].HistoryNote? && h[1].User? && !Within(h, limits) && ActiveStart(h) == FirstUser(h) == 1
    requires Enforce(h, limits, text, removed, 1).error.None?
    ensures Enforce(h, limits, text, removed, 1).history == h[1..]
  {
    BehindNote(h);
    hide Enforce, Within, NextUser, FirstUser, ActiveStart;
    EnforceRound(h, limits, text, removed, 1);
    OnlyUser(h[1..], limits, text, removed + 1);
  }

  lemma SecondTrim(h: seq<Message>, limits: Limits, text: NoteText, removed: nat)
    requires |h| > 1 && !Within(h, limits) && 1 == FirstUser(h) < ActiveStart(h) < |h|
    requires Enforce(h, limits, text, removed, 1).error.None?
    ensures Enforce(h, limits, text, removed, 1).trims >= 2
  {
    hide Enforce, Within, NextUser, FirstUser, ActiveStart;
    EnforceRound(h, limits, text, removed, 1);
    var end := NextUser(h, 2);
    TrimsGrow([HistoryNote(text(h[..end], removed + end))] + h[end..], limits, text, removed + end, 2);
  }

  lemma BehindNote(h: seq<Message>)
    requires |h| > 1 && h[0].HistoryNote? && h[1].User?
    ensures FirstUser(h) == 1 <= ActiveStart(h) < |h| && (ActiveStart(h) == 1 ==> ActiveStart(h[1..]) == 0)
  {
    FirstUserIs(h, 1);
    if ActiveStart(h) == 1 {
      ActiveStartIs(h[1..], 0);
    }
  }

  lemma OnlyUser(h: seq<Message>, limits: Limits, text: NoteText, removed: nat)
    requires h != [] && h[0].User? && ActiveStart(h) == 0
    ensures Enforce(h, limits, text, removed, 1).history == h
  {
    FirstUserIs(h, 0);
    hide Within, LastUserBefore, NextUser;
  }

  /** Exactly when the count of a successful trimming is right: nothing is trimmed, or there is no older turn
      to trim, or trimming the oldest one was enough. */
  lemma CountExactWhen(h: seq<Message>, limits: Limits, text: NoteText)
    requires Enforce(h, limits, text, 0, 0).error.None?
    ensures CountExact(h, Enforce(h, limits, text, 0, 0)) <==>
              || Within(h, limits) || FirstUser(h) >= ActiveStart(h) || Within(AfterFirstTrim(h, text), limits)
  {
    if Within(h, limits) {
      assert h[0..] == h;
    } else if FirstUser(h) >= ActiveStart(h) {
      var k := DropsCounted(h, limits, text, 0, 0);
    } else {
      FirstTrim(h, limits, text);
    }
  }

  lemma FirstTrim(h: seq<Message>, limits: Limits, text: NoteText)
    requires Enforce(h, limits, text, 0, 0).error.None? && !Within(h, limits) && FirstUser(h) < ActiveStart(h)
    ensures CountExact(h, Enforce(h, limits, text, 0, 0)) <==> Within(AfterFirstTrim(h, text), limits)
  {
    var end := NextUser(h, FirstUser(h) + 1);
    var next := AfterFirstTrim(h, text);
    GroupTrimmed(h, text(h[..end], end));
    assert h[end].User? && FirstUser(next) < |next|;
    hide Enforce, NextUser, FirstUser, ActiveStart, Within;
    FirstRound(h, limits, text);
    EnforceRound(next, limits, text, end, 1);
    var r := Enforce(next, limits, text, end, 1);
    if Within(next, limits) {
      assert next[1..] == h[end..];
    } else {
      NotEnough(next, limits, text, end);
      EnforceTrims(next, limits, text, end, 1);
      TrimsGrow(next, limits, text, end, 1);
      CountedTooOften(h, end, next, r);
    }
  }

  lemma FirstRound(h: seq<Message>, limits: Limits, text: NoteText)
    requires Enforce(h, limits, text, 0, 0).error.None? && !Within(h, limits) && FirstUser(h) < ActiveStart(h)
    ensures Enforce(h, limits, text, 0, 0)
         == Enforce(AfterFirstTrim(h, text), limits, text, NextUser(h, FirstUser(h) + 1), 1)
  {
    EnforceRound(h, limits, text, 0, 0);
    hide Enforce, Within, NextUser, FirstUser;
  }

  lemma CountedTooOften(h: seq<Message>, end: nat, next: seq<Message>, r: Trimmed)
    requires end <= |h| && |next| == |h| - end + 1 && KeptActive(next, end, 1, r)
    requires r.trims >= 2 || (r.trims >= 1 && r.history != [] && r.history[0].User?)
    ensures !CountExact(h, r)
  {
    hide TrimOf, ActiveStart;
    assert r.removed == |h| - |r.history| + r.trims;
  }

  /** Two turns under a limit of one message: the older goes, and so does the note that replaced it, and the
      count says two. */
  lemma CountTooHigh(a: Message, b: Message, text: NoteText)
    requires a.User? && b.User?
    ensures var limits := Limits(HistoryBytes([b]), 1);
            Enforce([a, b], limits, text, 0, 0) == Trimmed([b], 2, 1, None)
  {
    var limits, note := Limits(HistoryBytes([b]), 1), HistoryNote(text([a], 1));
    hide HistoryBytes;
    FirstUserIs([a, b], 0);
    ActiveStartIs([a, b], 1);
    FirstUserIs([note, b], 1);
    ActiveStartIs([note, b], 1);
    assert NextUser([a, b], 1) == 1;
    assert [a, b][..1] == [a] && [a, b][1..] == [b] && [note] + [b] == [note, b] && [note, b][1..] == [b];
    EnforceRound([a, b], limits, text, 0, 0);
    EnforceRound([note, b], limits, text, 1, 1);
    EnforceRound([b], limits, text, 2, 1);
    hide Enforce;
  }
}

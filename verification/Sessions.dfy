/** A channel conversation's session on the daemon (crates/scv-channels/src/session.rs): one stream of
    events carries the client's own turn, turns the server started itself and turns the client
    abandoned. Each answer is read out of the stream as if its turn had been alone on it. */
module Sessions {
  import opened Wrappers
  import opened Ids
  import opened Text

  datatype Reply = Reply(text: string, files: seq<string>)

  datatype Response = Model(reply: Reply) | System(text: string)

  /** A job a tool call started or settled, and SCV's own line for a reviewed one. `open` is a reviewed
      job whose journal is not closed yet. */
  datatype Change = Change(job: Id, started: bool, open: bool, notice: Option<string>)

  datatype Outcome = Outcome(job: Id, notice: string)

  /** The jobs a server-started turn reports. */
  datatype Origin = Origin(jobs: seq<Id>, notices: seq<string>, retried: bool)

  datatype Event =
    | Started(turn: Id, server: bool, run: Id)
    | Delta(turn: Id, text: string)
    | Answered(turn: Id, text: string)
    | Tool(turn: Id, file: Option<string>, changes: seq<Change>)
    | Approval(turn: Id, approval: Id)
    | Progress(turn: Id)
    | Completed(turn: Id, origin: Option<Origin>)
    | Failed(turn: Id, message: string, origin: Option<Origin>)
    | Cancelled(turn: Id, origin: Option<Origin>)
    | Error(request: Option<Id>, message: string)
    | Reported(text: string, jobs: seq<Id>)
    | Updated(outcomes: seq<Outcome>)
    | Unrelated

  /** How a turn of the client ended. */
  datatype Ending = Ended(reply: Reply) | Refused(message: string) | Abandoned

  datatype TurnResult = TurnResult(turn: Id, ending: Ending)

  /** An approval's answer. */
  datatype Approved = Approved(approval: Id, yes: bool)

  /** `current` is the client's turn and `started` its ID once it runs; `reports` wait and `handed` were handed
      over; `sent` and `cancels` are what the client sent; `results` is how its turns ended. */
  datatype State = State(
    tools: bool, current: Option<Id>, started: Option<Id>, max: nat, answer: string, files: seq<string>,
    serverTurns: map<Id, Reply>, stale: set<Id>, reports: seq<Response>, handed: seq<Response>,
    background: set<Id>, updated: set<Id>, sent: seq<Approved>, cancels: seq<Id>, results: seq<TurnResult>)

  function Idle(tools: bool): State {
    State(tools, None, None, 0, [], [], map[], {}, [], [], {}, {}, [], [], [])
  }

  const MAX_REPORT := 64 * 1024
  const NOTE_BYTES := 18

  function Note(): string { "\n[reply truncated]" }

  // ----- capped text

  predicate EndsWith(s: string, tail: string) {
    |s| >= |tail| && s[|s| - |tail|..] == tail
  }

  function Less(a: nat, b: nat): nat {
    if a < b then 0 else a - b
  }

  /** Append up to `max` bytes; what is cut ends with a note, once. */
  function AppendCapped(answer: string, content: string, max: nat): string {
    if EndsWith(answer, Note()) then answer
    else
      var room := Less(max, Bytes(answer));
      if Bytes(content) <= room then answer + content
      else answer + Prefix(content, Less(room, Bytes(Note()))) + Note()
  }

  lemma NoteBytes()
    ensures Bytes(Note()) == NOTE_BYTES && |Note()| == NOTE_BYTES
  {
    AsciiBytes(Note());
  }

  /** The bytes of a cut answer. */
  lemma CutBytes(answer: string, content: string, max: nat)
    requires !EndsWith(answer, Note()) && Bytes(content) > Less(max, Bytes(answer))
    ensures var kept := Prefix(content, Less(Less(max, Bytes(answer)), NOTE_BYTES));
            && Bytes(AppendCapped(answer, content, max)) == Bytes(answer) + Bytes(kept) + NOTE_BYTES
            && EndsWith(AppendCapped(answer, content, max), Note())
  {
    NoteBytes();
    hide Bytes, EndsWith, Prefix;
    var kept := Prefix(content, Less(Less(max, Bytes(answer)), NOTE_BYTES));
    BytesAppend(answer, kept);
    BytesAppend(answer + kept, Note());
    EndsWithTail(answer + kept, Note());
  }

  lemma EndsWithTail(s: string, tail: string)
    ensures EndsWith(s + tail, tail)
  {
  }

  /** The limit is exceeded exactly when something is cut and less room than the note needs is left. */
  lemma CappedExactly(answer: string, content: string, max: nat)
    requires Bytes(answer) <= max
    ensures Bytes(AppendCapped(answer, content, max)) > max <==>
              !EndsWith(answer, Note()) && Bytes(content) > max - Bytes(answer) && max - Bytes(answer) < NOTE_BYTES
    ensures Bytes(AppendCapped(answer, content, max)) <= max + NOTE_BYTES
  {
    BytesAppend(answer, content);
    hide Bytes, EndsWith;
    if !EndsWith(answer, Note()) && Bytes(content) > max - Bytes(answer) {
      CutBytes(answer, content, max);
      hide AppendCapped;
      var room := max - Bytes(answer);
      var kept := Prefix(content, Less(room, NOTE_BYTES));
    }
  }

  /** Under every limit, an answer that uses it up exactly exceeds it by the note once anything follows. */
  lemma CapExceeded(answer: string, content: string, max: nat)
    requires Bytes(answer) == max && !EndsWith(answer, Note()) && content != []
    ensures Bytes(AppendCapped(answer, content, max)) == max + NOTE_BYTES
  {
    assert Bytes(content) > 0;
    CutBytes(answer, content, max);
    NoPrefix(content);
    hide AppendCapped, EndsWith;
  }

  lemma NoPrefix(s: string)
    ensures Prefix(s, 0) == []
  {
    var p := Prefix(s, 0);
    assert Bytes(p) <= 0;
  }

  // ----- one turn on its own

  /** A turn's answer: the last complete one, and what was written since. */
  function TextOf(events: seq<Event>, max: nat): string {
    if events == [] then []
    else
      var before, e := TextOf(events[..|events| - 1], max), events[|events| - 1];
      if e.Answered? then AppendCapped([], e.text, max)
      else if e.Delta? then AppendCapped(before, e.text, max)
      else before
  }

  /** The files its tool calls attached. */
  function FilesOf(events: seq<Event>): seq<string> {
    if events == [] then []
    else
      var before, e := FilesOf(events[..|events| - 1]), events[|events| - 1];
      if e.Tool? && e.file.Some? then before + [e.file.value] else before
  }

  function ReplyOf(events: seq<Event>, max: nat): Reply {
    Reply(TextOf(events, max), FilesOf(events))
  }

  /** A turn's text is within the limit and the note. */
  lemma {:induction false} TextBounded(events: seq<Event>, max: nat)
    ensures Bytes(TextOf(events, max)) <= max || EndsWith(TextOf(events, max), Note())
    ensures Bytes(TextOf(events, max)) <= max + NOTE_BYTES
    decreases |events|
  {
    hide Bytes, EndsWith, AppendCapped;
    if events != [] {
      TextBounded(events[..|events| - 1], max);
      var e := events[|events| - 1];
      if e.Answered? {
        NoBytes();
        AppendBounded([], e.text, max);
      } else if e.Delta? {
        AppendBounded(TextOf(events[..|events| - 1], max), e.text, max);
      }
    } else {
      NoBytes();
    }
  }

  lemma AppendBounded(answer: string, content: string, max: nat)
    requires Bytes(answer) <= max || EndsWith(answer, Note())
    requires Bytes(answer) <= max + NOTE_BYTES
    ensures var r := AppendCapped(answer, content, max);
            Bytes(r) <= max + NOTE_BYTES && (Bytes(r) <= max || EndsWith(r, Note()))
  {
    if !EndsWith(answer, Note()) {
      CappedExactly(answer, content, max);
      if Bytes(content) > max - Bytes(answer) {
        CutBytes(answer, content, max);
      } else {
        BytesAppend(answer, content);
      }
    }
    hide Bytes, EndsWith, Prefix;
  }

  // ----- what an answer shows

  /** What a turn wrote since, and with, its last complete answer. */
  function Pieces(events: seq<Event>): seq<string> {
    if events == [] then []
    else
      var before, e := Pieces(events[..|events| - 1]), events[|events| - 1];
      if e.Answered? then [e.text] else if e.Delta? then before + [e.text] else before
  }

  /** The first `k` pieces joined. */
  function Raw(pieces: seq<string>, k: nat): string
    requires k <= |pieces|
  {
    Concat(pieces[..k])
  }

  /** Before the last of `k` pieces nothing was over the limit, and nothing ended like a cut answer. */
  ghost predicate OpenUntil(pieces: seq<string>, max: nat, k: nat)
    requires k <= |pieces|
  {
    forall j :: 0 <= j < k ==> Bytes(Raw(pieces, j)) <= max && !EndsWith(Raw(pieces, j), Note())
  }

  function More(a: nat, b: nat): nat {
    if a < b then b else a
  }

  /** What `k` pieces become: all of them, if they are within the limit; otherwise, where the last goes over it, the
      longest prefix that leaves the note its 18 bytes, but no less than was there before, and the note. */
  ghost predicate ShowsFirst(pieces: seq<string>, max: nat, k: nat, text: string)
    requires k <= |pieces|
  {
    if Bytes(Raw(pieces, k)) <= max then text == Raw(pieces, k)
    else k > 0 && ShowsCut(Raw(pieces, k), More(Bytes(Raw(pieces, k - 1)), Less(max, 18)), text)
  }

  /** The longest prefix of at most `bytes` bytes, and the note. */
  ghost predicate ShowsCut(raw: string, bytes: nat, text: string) {
    exists kept, rest :: CutAt(raw, bytes, kept, rest) && text == kept + Note()
  }

  /** `kept` is within `bytes`, and with one character more it is not. */
  predicate CutAt(raw: string, bytes: nat, kept: string, rest: string) {
    raw == kept + rest && Bytes(kept) <= bytes && (rest != [] ==> Bytes(kept) + Width(rest[0]) > bytes)
  }

  /** The pieces count up to the first that goes over the limit or ends like a cut answer. */
  ghost predicate ShowsUpTo(pieces: seq<string>, max: nat, k: nat, text: string)
    requires k <= |pieces|
  {
    && OpenUntil(pieces, max, k) && ShowsFirst(pieces, max, k, text)
    && (k == |pieces| || Bytes(Raw(pieces, k)) > max || EndsWith(Raw(pieces, k), Note()))
  }

  /** What the pieces become. */
  ghost predicate Shows(pieces: seq<string>, max: nat, text: string) {
    exists k: nat :: k <= |pieces| && ShowsUpTo(pieces, max, k, text)
  }

  /** The pieces appended one after another. */
  function Folded(pieces: seq<string>, max: nat): string {
    if pieces == [] then [] else AppendCapped(Folded(pieces[..|pieces| - 1], max), pieces[|pieces| - 1], max)
  }

  lemma {:induction false} TextFolded(events: seq<Event>, max: nat)
    ensures TextOf(events, max) == Folded(Pieces(events), max)
    decreases |events|
  {
    hide AppendCapped;
    if events != [] {
      TextFolded(events[..|events| - 1], max);
      var before, e := Pieces(events[..|events| - 1]), events[|events| - 1];
      if e.Delta? {
        assert (before + [e.text])[..|before|] == before;
      } else if e.Answered? {
        assert [e.text][..0] == [];
      }
    }
  }

  /** As much fits behind `answer` as fits in the room it leaves. */
  lemma CutBehind(answer: string, content: string, room: nat, kept: string, rest: string)
    requires CutAt(content, room, kept, rest)
    ensures CutAt(answer + content, Bytes(answer) + room, answer + kept, rest)
  {
    BytesAppend(answer, kept);
    hide Bytes, Width;
    assert answer + (kept + rest) == answer + kept + rest;
  }

  lemma RawMore(pieces: seq<string>)
    requires pieces != []
    ensures var n := |pieces| - 1;
            && Raw(pieces, n + 1) == Raw(pieces, n) + pieces[n] && Raw(pieces, n) == Raw(pieces[..n], n)
            && forall k :: 0 <= k <= n ==> Raw(pieces, k) == Raw(pieces[..n], k)
  {
    hide Concat;
    var n := |pieces| - 1;
    assert pieces[..n + 1] == pieces[..n] + [pieces[n]];
    ConcatAppend(pieces[..n], [pieces[n]]);
    ConcatOne(pieces[n]);
    forall k | 0 <= k <= n ensures Raw(pieces, k) == Raw(pieces[..n], k) {
      assert pieces[..n][..k] == pieces[..k];
    }
  }

  /** Once it was cut, or ends as if it were, the answer stays. */
  lemma StopShows(pieces: seq<string>, max: nat, k: nat)
    requires pieces != [] && k < |pieces|
    requires ShowsUpTo(pieces[..|pieces| - 1], max, k, Folded(pieces[..|pieces| - 1], max))
    requires Bytes(Raw(pieces[..|pieces| - 1], k)) > max || EndsWith(Raw(pieces[..|pieces| - 1], k), Note())
    ensures ShowsUpTo(pieces, max, k, Folded(pieces, max))
  {
    hide Bytes, Raw, CutAt;
    RawMore(pieces);
    var before := Folded(pieces[..|pieces| - 1], max);
    assert EndsWith(before, Note());
  }

  lemma LastShows(pieces: seq<string>, max: nat)
    requires pieces != []
    requires var n := |pieces| - 1;
             && ShowsUpTo(pieces[..n], max, n, Folded(pieces[..n], max))
             && Bytes(Raw(pieces[..n], n)) <= max && !EndsWith(Raw(pieces[..n], n), Note())
    ensures ShowsUpTo(pieces, max, |pieces|, Folded(pieces, max))
  {
    hide Bytes, Raw, EndsWith, AppendCapped, ShowsFirst, ShowsCut;
    var n := |pieces| - 1;
    RawMore(pieces);
    assert Folded(pieces[..n], max) == Raw(pieces, n) by { WholeSoFar(pieces[..n], max, Folded(pieces[..n], max)); }
    AppendShows(Raw(pieces, n), pieces[n], max);
    AppendsFirst(pieces, max, AppendCapped(Raw(pieces, n), pieces[n], max));
  }

  lemma WholeSoFar(pieces: seq<string>, max: nat, text: string)
    requires ShowsFirst(pieces, max, |pieces|, text) && Bytes(Raw(pieces, |pieces|)) <= max
    ensures text == Raw(pieces, |pieces|)
  {
  }

  lemma AppendShows(answer: string, content: string, max: nat)
    requires Bytes(answer) <= max && !EndsWith(answer, Note())
    ensures if Bytes(answer + content) <= max then AppendCapped(answer, content, max) == answer + content
            else ShowsCut(answer + content, More(Bytes(answer), Less(max, 18)), AppendCapped(answer, content, max))
  {
    hide *;
    BytesAppend(answer, content);
    var kept, rest := CapIs(answer, content, max);
    if Bytes(answer + content) > max {
      CutBehind(answer, content, Less(max - Bytes(answer), 18), kept, rest);
      CutShows(answer + content, max, Bytes(answer), answer + kept, rest);
    }
  }

  lemma CutShows(raw: string, max: nat, before: nat, kept: string, rest: string)
    requires before <= max && CutAt(raw, before + Less(max - before, 18), kept, rest)
    ensures ShowsCut(raw, More(before, Less(max, 18)), kept + Note())
  {
    hide CutAt, Note;
    assert before + Less(max - before, 18) == More(before, Less(max, 18));
  }

  lemma CapIs(answer: string, content: string, max: nat) returns (kept: string, rest: string)
    requires Bytes(answer) <= max && !EndsWith(answer, Note())
    ensures if Bytes(content) <= max - Bytes(answer) then AppendCapped(answer, content, max) == answer + content
            else CutAt(content, Less(max - Bytes(answer), 18), kept, rest)
                 && AppendCapped(answer, content, max) == answer + kept + Note()
  {
    hide *;
    CapUnfolded(answer, content, max);
    kept, rest := PrefixCut(content, Less(max - Bytes(answer), 18));
  }

  lemma CapUnfolded(answer: string, content: string, max: nat)
    requires Bytes(answer) <= max && !EndsWith(answer, Note())
    ensures AppendCapped(answer, content, max)
         == if Bytes(content) <= max - Bytes(answer) then answer + content
            else answer + Prefix(content, Less(max - Bytes(answer), 18)) + Note()
  {
    NoteBytes();
    hide Bytes, EndsWith, Note, Prefix;
  }

  lemma PrefixCut(s: string, bytes: nat) returns (kept: string, rest: string)
    ensures CutAt(s, bytes, kept, rest) && kept == Prefix(s, bytes)
  {
    kept, rest := s[..Fitting(s, bytes)], s[Fitting(s, bytes)..];
    FittingIsLongest(s, bytes);
    hide Bytes, Fitting, Width;
  }

  lemma AppendsFirst(pieces: seq<string>, max: nat, text: string)
    requires pieces != [] && Raw(pieces, |pieces|) == Raw(pieces, |pieces| - 1) + pieces[|pieces| - 1]
    requires var whole := Raw(pieces, |pieces|);
             if Bytes(whole) <= max then text == whole
             else ShowsCut(whole, More(Bytes(Raw(pieces, |pieces| - 1)), Less(max, 18)), text)
    ensures ShowsFirst(pieces, max, |pieces|, text)
  {
  }

  lemma {:induction false} FoldedShows(pieces: seq<string>, max: nat)
    ensures Shows(pieces, max, Folded(pieces, max))
    decreases |pieces|
  {
    hide ShowsUpTo, Bytes, Raw, EndsWith, AppendCapped;
    if pieces == [] {
      NoPieces(max);
    } else {
      var n := |pieces| - 1;
      FoldedShows(pieces[..n], max);
      var k: nat :| k <= n && ShowsUpTo(pieces[..n], max, k, Folded(pieces[..n], max));
      Stops(pieces[..n], max, k, Folded(pieces[..n], max));
      if Bytes(Raw(pieces[..n], k)) > max || EndsWith(Raw(pieces[..n], k), Note()) {
        StopShows(pieces, max, k);
      } else {
        LastShows(pieces, max);
      }
    }
  }

  lemma NoPieces(max: nat)
    ensures Shows([], max, Folded([], max))
  {
    assert Raw([], 0) == [];
    assert ShowsUpTo([], max, 0, []);
  }

  lemma Stops(pieces: seq<string>, max: nat, k: nat, text: string)
    requires k <= |pieces| && ShowsUpTo(pieces, max, k, text)
    ensures k == |pieces| || Bytes(Raw(pieces, k)) > max || EndsWith(Raw(pieces, k), Note())
  {
  }

  /** A turn's text is what it wrote since, and with, its last complete answer: the whole of it while it is within
      the limit, and otherwise a prefix of it and the note. */
  lemma TextShows(events: seq<Event>, max: nat)
    ensures Shows(Pieces(events), max, TextOf(events, max))
  {
    TextFolded(events, max);
    FoldedShows(Pieces(events), max);
  }

  /** So what is within the limit and never ended like a cut answer is shown whole. */
  lemma ShownWhole(pieces: seq<string>, max: nat, text: string)
    requires Shows(pieces, max, text) && Bytes(Concat(pieces)) <= max
    requires forall j :: 0 <= j < |pieces| ==> !EndsWith(Raw(pieces, j), Note())
    ensures text == Concat(pieces)
  {
    hide Bytes, EndsWith, Concat;
    var k: nat :| k <= |pieces| && ShowsUpTo(pieces, max, k, text);
    assert pieces[..|pieces|] == pieces;
    RawGrows(pieces, k);
  }

  lemma RawGrows(pieces: seq<string>, k: nat)
    requires k <= |pieces|
    ensures Bytes(Raw(pieces, k)) <= Bytes(Concat(pieces))
  {
    hide Concat, Bytes;
    assert pieces == pieces[..k] + pieces[k..];
    ConcatAppend(pieces[..k], pieces[k..]);
    BytesAppend(Concat(pieces[..k]), Concat(pieces[k..]));
  }

  /** `at` is where the events attach `files`, in order. */
  ghost predicate AttachedAt(events: seq<Event>, files: seq<string>, at: seq<nat>) {
    && |files| == |at| && (forall j, k :: 0 <= j < k < |at| ==> at[j] < at[k])
    && (forall k :: 0 <= k < |at| ==> at[k] < |events| && events[at[k]].Tool? && events[at[k]].file == Some(files[k]))
    && (forall i :: 0 <= i < |events| && events[i].Tool? && events[i].file.Some? ==> i in at)
  }

  /** The files of a turn are those its tool calls attached, in order. */
  lemma {:induction false} FilesInOrder(events: seq<Event>) returns (at: seq<nat>)
    ensures AttachedAt(events, FilesOf(events), at)
    decreases |events|
  {
    if events == [] {
      at := [];
    } else {
      var n := |events| - 1;
      at := FilesInOrder(events[..n]);
      AttachedMore(events, FilesOf(events[..n]), at);
      if events[n].Tool? && events[n].file.Some? {
        at := at + [n];
      }
    }
  }

  lemma AttachedMore(events: seq<Event>, files: seq<string>, at: seq<nat>)
    requires events != [] && AttachedAt(events[..|events| - 1], files, at)
    ensures var n := |events| - 1;
            if events[n].Tool? && events[n].file.Some? then AttachedAt(events, files + [events[n].file.value], at + [n])
            else AttachedAt(events, files, at)
  {
  }

  /** What the events of a turn say its reply is: its text as far as the limit goes, and its files. */
  ghost predicate RepliesWith(events: seq<Event>, max: nat, reply: Reply) {
    Shows(Pieces(events), max, reply.text) && exists at :: AttachedAt(events, reply.files, at)
  }

  lemma ReplyIs(events: seq<Event>, max: nat)
    ensures RepliesWith(events, max, ReplyOf(events, max))
  {
    TextShows(events, max);
    var at := FilesInOrder(events);
    hide Shows, AttachedAt, TextOf, FilesOf, Pieces;
  }

  // ----- the session

  function TurnOf(e: Event): Option<Id> {
    if e.Error? || e.Reported? || e.Updated? || e.Unrelated? then None else Some(e.turn)
  }

  predicate Ends(e: Event) {
    e.Completed? || e.Failed? || e.Cancelled?
  }

  function Notices(notices: seq<string>): seq<Response> {
    seq(|notices|, i requires 0 <= i < |notices| => System(notices[i]))
  }

  function Settled(background: set<Id>, jobs: seq<Id>): set<Id> {
    background - set job | job in jobs
  }

  /** The jobs a tool call started and settled. */
  function Changed(s: State, changes: seq<Change>): State {
    if changes == [] then s
    else
      var last := changes[|changes| - 1];
      var before := Changed(s, changes[..|changes| - 1]);
      if last.open && last.job in before.updated then before
      else
        before.(
          background := if last.started then before.background + {last.job}
                        else if !last.open then before.background - {last.job} else before.background,
          reports := before.reports + if last.notice.Some? then [System(last.notice.value)] else [])
  }

  function OutcomesHeard(s: State, outcomes: seq<Outcome>): State {
    if outcomes == [] then s
    else
      var last := outcomes[|outcomes| - 1];
      var before := OutcomesHeard(s, outcomes[..|outcomes| - 1]);
      before.(background := before.background - {last.job}, updated := before.updated + {last.job},
              reports := before.reports + [System(last.notice)])
  }

  /** A file a tool call attached goes to the turn the call belongs to. */
  function Attached(s: State, turn: Id, file: Option<string>): State {
    if file.None? then s
    else if turn in s.serverTurns then
      var r := s.serverTurns[turn];
      s.(serverTurns := s.serverTurns[turn := r.(files := r.files + [file.value])])
    else if turn !in s.stale && s.current.Some? then s.(files := s.files + [file.value])
    else s
  }

  /** What any event tells of jobs and of server-started turns. */
  function Observed(s: State, e: Event): State {
    match e
    case Tool(turn, file, changes) => Attached(Changed(s, changes), turn, file)
    case Started(turn, server, run) =>
      if server then s.(serverTurns := s.serverTurns[turn := Reply([], [])])
      else if s.current == Some(turn) then s.(started := Some(run)) else s
    case Completed(_, origin) => if origin.Some? then s.(background := Settled(s.background, origin.value.jobs)) else s
    case Cancelled(_, origin) => if origin.Some? then s.(background := Settled(s.background, origin.value.jobs)) else s
    case Failed(_, _, origin) =>
      if origin.Some? && !origin.value.retried then s.(background := Settled(s.background, origin.value.jobs)) else s
    case Reported(text, jobs) =>
      var told := s.(background := Settled(s.background, jobs));
      if jobs == [] then told else told.(reports := s.reports + [System(AppendCapped([], text, MAX_REPORT))])
    case Updated(outcomes) => OutcomesHeard(s, outcomes)
    case _ => s
  }

  /** The event belongs to a turn other than the client's current one. */
  predicate IsOther(s: State, e: Event) {
    TurnOf(e).Some? && (TurnOf(e).value in s.serverTurns || TurnOf(e).value in s.stale)
  }

  function Written(s: State, turn: Id, text: string): State
    requires turn in s.serverTurns
  {
    s.(serverTurns := s.serverTurns[turn := s.serverTurns[turn].(text := text)])
  }

  function Outcomes(origin: Option<Origin>): seq<Response> {
    if origin.Some? then Notices(origin.value.notices) else []
  }

  /** A finished report, unless it is empty. */
  function Finished(s: State, turn: Id): seq<Response> {
    if turn !in s.serverTurns then []
    else
      var r := s.serverTurns[turn];
      if Blank(r.text) && r.files == [] then [] else [Model(r)]
  }

  /** What an event of a turn that is not the client's current one does. */
  function Absorbed(s: State, e: Event): State {
    match e
    case Approval(turn, approval) => s.(sent := s.sent + [Approved(approval, s.tools && turn !in s.stale)])
    case Answered(turn, text) =>
      if turn in s.serverTurns then Written(s, turn, AppendCapped([], text, MAX_REPORT)) else s
    case Delta(turn, text) =>
      if turn in s.serverTurns then Written(s, turn, AppendCapped(s.serverTurns[turn].text, text, MAX_REPORT)) else s
    case Completed(turn, origin) =>
      s.(stale := s.stale - {turn}, serverTurns := s.serverTurns - {turn},
         reports := s.reports + Outcomes(origin) + Finished(s, turn))
    case Failed(turn, _, _) => s.(stale := s.stale - {turn}, serverTurns := s.serverTurns - {turn})
    case Cancelled(turn, origin) =>
      s.(stale := s.stale - {turn}, serverTurns := s.serverTurns - {turn},
         reports := s.reports + if turn in s.serverTurns then Outcomes(origin) else [])
    case _ => s
  }

  function End(s: State, ending: Ending): State
    requires s.current.Some?
  {
    s.(current := None, results := s.results + [TurnResult(s.current.value, ending)])
  }

  /** How an event ends the client's own turn, if it does. */
  function EndingOf(s: State, e: Event): Option<Ending> {
    if e.Completed? then Some(Ended(Reply(s.answer, s.files)))
    else if e.Failed? then Some(Refused(e.message))
    else if e.Cancelled? then Some(Refused("turn cancelled"))
    else if e.Error? && (e.request.None? || e.request == s.current) then Some(Refused(e.message))
    else None
  }

  /** Handle an event of the client's own turn. */
  function Own(s: State, e: Event): State
    requires s.current.Some?
  {
    var ending := EndingOf(s, e);
    if ending.Some? then End(s, ending.value).(files := if e.Completed? then [] else s.files)
    else if e.Answered? then s.(answer := AppendCapped([], e.text, s.max))
    else if e.Delta? then s.(answer := AppendCapped(s.answer, e.text, s.max))
    else if e.Approval? then s.(sent := s.sent + [Approved(e.approval, s.tools)])
    else s
  }

  /** One event, while a turn runs or while the client waits for reports. */
  function Heard(s: State, e: Event): State {
    var o := Observed(s, e);
    if s.current.None? then Absorbed(o, e)
    else if IsOther(o, e) then Absorbed(o, e)
    else ObservedCurrent(s, e); Own(o, e)
  }

  lemma {:induction false} ChangedKeeps(s: State, changes: seq<Change>)
    ensures var c := Changed(s, changes);
            && c == s.(background := c.background, reports := c.reports)
            && (forall r :: r in c.reports && r.Model? ==> r in s.reports)
    decreases |changes|
  {
    if changes != [] {
      ChangedKeeps(s, changes[..|changes| - 1]);
    }
  }

  lemma {:induction false} OutcomesKeep(s: State, outcomes: seq<Outcome>)
    ensures var c := OutcomesHeard(s, outcomes);
            && c == s.(background := c.background, updated := c.updated, reports := c.reports)
            && (forall r :: r in c.reports && r.Model? ==> r in s.reports)
    decreases |outcomes|
  {
    if outcomes != [] {
      OutcomesKeep(s, outcomes[..|outcomes| - 1]);
    }
  }

  /** Observing an event leaves the client's own turn alone. */
  lemma ObservedCurrent(s: State, e: Event)
    ensures var o := Observed(s, e);
            o.current == s.current && o.max == s.max && o.answer == s.answer && o.stale == s.stale && o.tools == s.tools
            && o.results == s.results && o.sent == s.sent && o.handed == s.handed && o.cancels == s.cancels
  {
    hide AppendCapped, Settled;
    if e.Tool? {
      ChangedKeeps(s, e.changes);
      hide Changed;
    } else if e.Updated? {
      OutcomesKeep(s, e.outcomes);
      hide OutcomesHeard;
    }
  }
}

/** Newline-delimited framing (crates/scv-protocol/src/frame.rs) and the read loop around it
    (crates/scv-client/src/connection.rs).

    `FrameDecoder` keeps a bounded partial line between buffers. The reference is `AllFrames`, which
    sees the whole byte stream at once. */
module Frames {
  import opened Wrappers

  newtype byte = x: int | 0 <= x < 256

  const NEWLINE: byte := 10

  datatype Overflow = Stop | Skip

  datatype Frame = Line(bytes: seq<byte>) | TooLarge | End | Truncated(read: seq<byte>)

  /** The decoder's fields that change; the limit and the overflow mode are fixed for a stream. */
  datatype Decoder = Decoder(partial: seq<byte>, discarding: bool)

  const EMPTY := Decoder([], false)

  // ----- whole-stream reference

  predicate OneLine(s: seq<byte>) {
    forall k :: 0 <= k < |s| ==> s[k] != NEWLINE
  }

  /** Index of the first newline at or after `from`, or the length when there is none. */
  function NewlineFrom(s: seq<byte>, from: nat): (i: nat)
    requires from <= |s|
    ensures from <= i <= |s|
    ensures i < |s| ==> s[i] == NEWLINE
    ensures forall k :: from <= k < i ==> s[k] != NEWLINE
    decreases |s| - from
  {
    if from == |s| || s[from] == NEWLINE then from else NewlineFrom(s, from + 1)
  }

  function FirstNewline(s: seq<byte>): (i: nat)
    ensures i <= |s|
    ensures i < |s| ==> s[i] == NEWLINE
    ensures OneLine(s[..i])
  {
    NewlineFrom(s, 0)
  }

  /** A whole line, without its newline, under `limit` counting the newline. */
  function Bounded(line: seq<byte>, limit: nat): Frame {
    if |line| < limit then Line(line) else TooLarge
  }

  /** One frame per newline of the stream. */
  function LineFrames(s: seq<byte>, limit: nat): seq<Frame>
    decreases |s|
  {
    var i := FirstNewline(s);
    if i == |s| then [] else [Bounded(s[..i], limit)] + LineFrames(s[i + 1..], limit)
  }

  /** What follows the last newline. */
  function Rest(s: seq<byte>): seq<byte>
    decreases |s|
  {
    var i := FirstNewline(s);
    if i == |s| then s else Rest(s[i + 1..])
  }

  function LastFrame(rest: seq<byte>, limit: nat): Frame {
    if |rest| > limit then TooLarge else if rest == [] then End else Truncated(rest)
  }

  /** Everything a reader of the whole stream sees, up to and including the end of input. */
  function AllFrames(s: seq<byte>, limit: nat): seq<Frame> {
    LineFrames(s, limit) + [LastFrame(Rest(s), limit)]
  }

  function UpToOverflow(frames: seq<Frame>): seq<Frame> {
    if frames == [] then []
    else if frames[0].TooLarge? then [TooLarge]
    else [frames[0]] + UpToOverflow(frames[1..])
  }

  function Concat(chunks: seq<seq<byte>>): seq<byte> {
    if chunks == [] then [] else chunks[0] + Concat(chunks[1..])
  }

  // ----- the decoder, step by step

  datatype Step = Step(decoder: Decoder, consumed: nat, frame: Option<Frame>)

  /** One `feed` of `available`. */
  function Feed(d: Decoder, limit: nat, overflow: Overflow, available: seq<byte>): Step {
    var newline := FirstNewline(available);
    var take := if newline < |available| then newline + 1 else |available|;
    var over := !d.discarding && |d.partial| + take > limit;
    if over && overflow.Stop? then Step(d, 0, Some(TooLarge))
    else
      var taken := if over then Decoder([], true)
                   else if d.discarding then d
                   else Decoder(d.partial + available[..take], false);
      if newline == |available| then Step(taken, take, None)
      else if taken.discarding then Step(taken.(discarding := false), take, Some(TooLarge))
      else if taken.partial == [] then Step(taken, take, Some(Line([])))
      else Step(EMPTY, take, Some(Line(taken.partial[..|taken.partial| - 1])))
  }

  function Finish(d: Decoder): Frame {
    if d.discarding then TooLarge else if d.partial == [] then End else Truncated(d.partial)
  }

  datatype Run = Run(decoder: Decoder, frames: seq<Frame>, stopped: bool)

  /** Feed one buffer until it is used up, or until an overflow stops the reader. */
  function FeedBuffer(d: Decoder, limit: nat, overflow: Overflow, buffer: seq<byte>): Run
    decreases |buffer|
  {
    if buffer == [] then Run(d, [], false)
    else
      var step := Feed(d, limit, overflow, buffer);
      if step.consumed == 0 then Run(step.decoder, [TooLarge], true)
      else
        var later := FeedBuffer(step.decoder, limit, overflow, buffer[step.consumed..]);
        later.(frames := (if step.frame.Some? then [step.frame.value] else []) + later.frames)
  }

  /** Feed every buffer in turn and report the end of input. */
  function DecodeFrom(d: Decoder, limit: nat, overflow: Overflow, chunks: seq<seq<byte>>): seq<Frame>
    decreases |chunks|
  {
    if chunks == [] then [Finish(d)]
    else
      var first := FeedBuffer(d, limit, overflow, chunks[0]);
      if first.stopped then first.frames
      else first.frames + DecodeFrom(first.decoder, limit, overflow, chunks[1..])
  }

  function Decode(limit: nat, overflow: Overflow, chunks: seq<seq<byte>>): seq<Frame> {
    DecodeFrom(EMPTY, limit, overflow, chunks)
  }

  // ----- the representation: what a decoder holds of an unfinished line

  /** `d` has read exactly `line` of the line in progress. */
  ghost predicate Holds(d: Decoder, line: seq<byte>, limit: nat, overflow: Overflow) {
    && OneLine(line)
    && (|line| <= limit ==> d == Decoder(line, false))
    && (|line| > limit ==> overflow.Skip? && d == Decoder([], true))
  }

  lemma EmptyHolds(limit: nat, overflow: Overflow)
    ensures Holds(EMPTY, [], limit, overflow)
  {
  }

  lemma FirstNewlineIs(s: seq<byte>, i: nat)
    requires i <= |s| && OneLine(s[..i])
    requires i < |s| ==> s[i] == NEWLINE
    ensures FirstNewline(s) == i
  {
    var j := FirstNewline(s);
    assert forall k :: 0 <= k < i ==> s[k] == s[..i][k];
    assert forall k :: 0 <= k < j ==> s[k] == s[..j][k];
  }

  lemma FirstNewlineAfter(line: seq<byte>, s: seq<byte>)
    requires OneLine(line)
    ensures FirstNewline(line + s) == |line| + FirstNewline(s)
  {
    var i := FirstNewline(s);
    assert (line + s)[..|line| + i] == line + s[..i];
    FirstNewlineIs(line + s, |line| + i);
  }

  /** The split of a stream whose first line starts with `line`. */
  lemma SplitFirst(line: seq<byte>, s: seq<byte>, limit: nat)
    requires OneLine(line)
    ensures var i := FirstNewline(s);
            if i == |s| then LineFrames(line + s, limit) == [] && Rest(line + s) == line + s && OneLine(line + s)
            else
              && LineFrames(line + s, limit) == [Bounded(line + s[..i], limit)] + LineFrames(s[i + 1..], limit)
              && Rest(line + s) == Rest(s[i + 1..])
  {
    var i, whole := FirstNewline(s), line + s;
    FirstNewlineAfter(line, s);
    if i == |s| {
      assert s[..i] == s;
    } else {
      assert whole[|line| + i + 1..] == s[i + 1..];
      assert whole[..|line| + i] == line + s[..i];
    }
  }

  /** One `feed` advances the unfinished line, or completes it exactly as the bounded split would. */
  lemma FeedAdvances(d: Decoder, line: seq<byte>, limit: nat, overflow: Overflow, buffer: seq<byte>)
    requires Holds(d, line, limit, overflow) && buffer != []
    ensures var step := Feed(d, limit, overflow, buffer);
            var i := FirstNewline(buffer);
            var take := if i < |buffer| then i + 1 else |buffer|;
            if |line| + take > limit && overflow.Stop? then step == Step(d, 0, Some(TooLarge))
            else
              && step.consumed == take > 0
              && (if i == |buffer|
                  then step.frame == None && Holds(step.decoder, line + buffer, limit, overflow)
                  else step.frame == Some(Bounded(line + buffer[..i], limit)) && step.decoder == EMPTY)
  {
    var i := FirstNewline(buffer);
    if i == |buffer| {
      assert buffer[..i] == buffer;
    } else {
      var whole := line + buffer[..i + 1];
      assert whole[..|whole| - 1] == line + buffer[..i];
    }
  }

  /** A buffer, one `feed` at a time. */
  lemma BufferStep(d: Decoder, line: seq<byte>, limit: nat, overflow: Overflow, buffer: seq<byte>)
    requires Holds(d, line, limit, overflow) && buffer != []
    ensures var run, i := FeedBuffer(d, limit, overflow, buffer), FirstNewline(buffer);
            if overflow.Stop? && |line| + (if i < |buffer| then i + 1 else i) > limit
            then run == Run(d, [TooLarge], true)
            else if i == |buffer|
            then run.frames == [] && !run.stopped && Holds(run.decoder, line + buffer, limit, overflow)
            else
              var later := FeedBuffer(EMPTY, limit, overflow, buffer[i + 1..]);
              run == later.(frames := [Bounded(line + buffer[..i], limit)] + later.frames)
  {
    FeedAdvances(d, line, limit, overflow, buffer);
    assert buffer[|buffer|..] == [];
  }

  /** A buffer in Skip mode: the frames of the line in progress followed by the buffer. */
  lemma {:induction false} BufferSkips(d: Decoder, line: seq<byte>, limit: nat, buffer: seq<byte>)
    requires Holds(d, line, limit, Skip)
    ensures var run := FeedBuffer(d, limit, Skip, buffer);
            && !run.stopped
            && run.frames == LineFrames(line + buffer, limit)
            && Holds(run.decoder, Rest(line + buffer), limit, Skip)
    decreases |buffer|
  {
    SplitFirst(line, buffer, limit);
    if buffer == [] {
      assert line + buffer == line;
    } else {
      var i := FirstNewline(buffer);
      BufferStep(d, line, limit, Skip, buffer);
      if i < |buffer| {
        BufferSkips(EMPTY, [], limit, buffer[i + 1..]);
        assert [] + buffer[i + 1..] == buffer[i + 1..];
      }
    }
  }

  /** Frames of a stream cut anywhere: the first part's, then those of its rest with the second part. */
  lemma {:induction false} SplitCut(a: seq<byte>, b: seq<byte>, limit: nat)
    ensures LineFrames(a + b, limit) == LineFrames(a, limit) + LineFrames(Rest(a) + b, limit)
    ensures Rest(a + b) == Rest(Rest(a) + b)
    decreases |a|
  {
    var i := FirstNewline(a);
    if i < |a| {
      hide NewlineFrom, Bounded;
      NewlineInFront(a, b);
      SplitCut(a[i + 1..], b, limit);
      assert LineFrames(a + b, limit) == [Bounded(a[..i], limit)] + LineFrames(a[i + 1..] + b, limit);
    }
  }

  lemma AllFramesCut(a: seq<byte>, b: seq<byte>, limit: nat)
    ensures AllFrames(a + b, limit) == LineFrames(a, limit) + AllFrames(Rest(a) + b, limit)
  {
    SplitCut(a, b, limit);
  }

  lemma FinishIs(d: Decoder, line: seq<byte>, limit: nat, overflow: Overflow)
    requires Holds(d, line, limit, overflow)
    ensures [Finish(d)] == AllFrames(line, limit)
  {
    SplitFirst(line, [], limit);
    assert line + [] == line;
  }

  /** Skip mode from the middle of a line, for every list of buffers. */
  lemma {:induction false} SkipFrom(d: Decoder, line: seq<byte>, limit: nat, chunks: seq<seq<byte>>)
    requires Holds(d, line, limit, Skip)
    ensures DecodeFrom(d, limit, Skip, chunks) == AllFrames(line + Concat(chunks), limit)
    decreases |chunks|
  {
    hide Feed, LineFrames, Rest, LastFrame, NewlineFrom, FeedBuffer, Holds, AllFrames;
    if chunks == [] {
      FinishIs(d, line, limit, Skip);
      assert line + [] == line;
    } else {
      var a, b := line + chunks[0], Concat(chunks[1..]);
      BufferSkips(d, line, limit, chunks[0]);
      var first := FeedBuffer(d, limit, Skip, chunks[0]);
      SkipFrom(first.decoder, Rest(a), limit, chunks[1..]);
      AllFramesCut(a, b, limit);
      assert line + Concat(chunks) == a + b;
    }
  }

  lemma Refront(a: seq<Frame>, rest: seq<Frame>)
    requires a != []
    ensures [a[0]] + (a[1..] + rest) == a + rest
  {
  }

  lemma {:induction false} UpToOverflowCut(a: seq<Frame>, b: seq<Frame>)
    requires TooLarge !in a
    ensures UpToOverflow(a + b) == a + UpToOverflow(b)
    decreases |a|
  {
    if a == [] {
      assert a + b == b;
    } else {
      UpToOverflowCut(a[1..], b);
      assert (a + b)[1..] == a[1..] + b && (a + b)[0] == a[0];
      assert a[0] in a && a[0] != TooLarge;
      assert UpToOverflow(a + b) == [a[0]] + UpToOverflow(a[1..] + b);
      hide UpToOverflow;
      Refront(a, UpToOverflow(b));
    }
  }

  /** A line that is already over the limit is the stream's first frame, and too large. */
  lemma OverflowingLine(line: seq<byte>, s: seq<byte>, limit: nat)
    requires OneLine(line) && |line| + FirstNewline(s) >= limit
    requires FirstNewline(s) < |s| || |line| + |s| > limit
    ensures UpToOverflow(AllFrames(line + s, limit)) == [TooLarge]
  {
    SplitFirst(line, s, limit);
  }

  /** What a buffer reports in Stop mode when `more` follows it. */
  ghost predicate StopsRight(run: Run, line: seq<byte>, buffer: seq<byte>, more: seq<byte>, limit: nat) {
    if run.stopped then run.frames == UpToOverflow(AllFrames(line + (buffer + more), limit))
    else
      && run.frames == LineFrames(line + buffer, limit)
      && TooLarge !in run.frames
      && Holds(run.decoder, Rest(line + buffer), limit, Stop)
  }

  lemma PartialStops(d: Decoder, line: seq<byte>, limit: nat, buffer: seq<byte>, more: seq<byte>)
    requires Holds(d, line, limit, Stop) && FirstNewline(buffer) == |buffer|
    ensures StopsRight(FeedBuffer(d, limit, Stop, buffer), line, buffer, more, limit)
  {
    SplitFirst(line, buffer, limit);
    if buffer == [] {
      assert line + buffer == line;
    } else {
      BufferStep(d, line, limit, Stop, buffer);
      if |line| + |buffer| > limit {
        assert buffer[..|buffer|] == buffer;
        FirstNewlineAfter(buffer, more);
        OverflowingLine(line, buffer + more, limit);
      }
    }
  }

  lemma {:induction false} BufferStops(
    d: Decoder, line: seq<byte>, limit: nat, buffer: seq<byte>, more: seq<byte>)
    requires Holds(d, line, limit, Stop)
    ensures StopsRight(FeedBuffer(d, limit, Stop, buffer), line, buffer, more, limit)
    decreases |buffer|
  {
    var i := FirstNewline(buffer);
    if i == |buffer| {
      PartialStops(d, line, limit, buffer, more);
    } else {
      BufferStep(d, line, limit, Stop, buffer);
      NewlineInFront(buffer, more);
      if |line| + i + 1 > limit {
        OverflowingLine(line, buffer + more, limit);
      } else {
        BufferStops(EMPTY, [], limit, buffer[i + 1..], more);
        StopsAfterLine(FeedBuffer(EMPTY, limit, Stop, buffer[i + 1..]), line, buffer, more, limit);
      }
    }
  }

  lemma StopsAfterLine(later: Run, line: seq<byte>, buffer: seq<byte>, more: seq<byte>, limit: nat)
    requires OneLine(line) && FirstNewline(buffer) < |buffer| && |line| + FirstNewline(buffer) < limit
    requires StopsRight(later, [], buffer[FirstNewline(buffer) + 1..], more, limit)
    ensures var first := Bounded(line + buffer[..FirstNewline(buffer)], limit);
            StopsRight(later.(frames := [first] + later.frames), line, buffer, more, limit)
  {
    hide LineFrames, Rest, UpToOverflow, NewlineFrom;
    var tail := buffer[FirstNewline(buffer) + 1..];
    assert [] + tail == tail && [] + (tail + more) == tail + more;
    NewlineInFront(buffer, more);
    SplitFirst(line, buffer, limit);
    FirstFrameFits(line, buffer + more, limit);
  }

  lemma FirstFrameFits(line: seq<byte>, s: seq<byte>, limit: nat)
    requires OneLine(line) && FirstNewline(s) < |s| && |line| + FirstNewline(s) < limit
    ensures UpToOverflow(AllFrames(line + s, limit))
         == [Line(line + s[..FirstNewline(s)])] + UpToOverflow(AllFrames(s[FirstNewline(s) + 1..], limit))
  {
    var i := FirstNewline(s);
    SplitFirst(line, s, limit);
    assert AllFrames(line + s, limit) == [Line(line + s[..i])] + AllFrames(s[i + 1..], limit);
  }

  lemma NewlineInFront(s: seq<byte>, more: seq<byte>)
    requires FirstNewline(s) < |s|
    ensures FirstNewline(s + more) == FirstNewline(s)
    ensures (s + more)[..FirstNewline(s)] == s[..FirstNewline(s)]
    ensures (s + more)[FirstNewline(s) + 1..] == s[FirstNewline(s) + 1..] + more
  {
    var i := FirstNewline(s);
    assert (s + more)[..i] == s[..i];
    FirstNewlineIs(s + more, i);
  }

  /** Stop mode from the middle of a line, for every list of buffers. */
  lemma {:induction false} StopFrom(d: Decoder, line: seq<byte>, limit: nat, chunks: seq<seq<byte>>)
    requires Holds(d, line, limit, Stop)
    ensures DecodeFrom(d, limit, Stop, chunks) == UpToOverflow(AllFrames(line + Concat(chunks), limit))
    decreases |chunks|
  {
    hide Feed, LineFrames, Rest, LastFrame, NewlineFrom, FeedBuffer, Holds, AllFrames;
    if chunks == [] {
      FinishIs(d, line, limit, Stop);
      assert line + [] == line;
    } else {
      var a, b := line + chunks[0], Concat(chunks[1..]);
      assert line + Concat(chunks) == a + b == line + (chunks[0] + b);
      BufferStops(d, line, limit, chunks[0], b);
      var first := FeedBuffer(d, limit, Stop, chunks[0]);
      if !first.stopped {
        StopFrom(first.decoder, Rest(a), limit, chunks[1..]);
        AllFramesCut(a, b, limit);
        UpToOverflowCut(LineFrames(a, limit), AllFrames(Rest(a) + b, limit));
      }
    }
  }

  // ----- main results

  /** However the stream is cut into buffers, the decoder reports what the whole-stream split reports. */
  lemma DecodeIsSplit(limit: nat, chunks: seq<seq<byte>>)
    ensures Decode(limit, Skip, chunks) == AllFrames(Concat(chunks), limit)
    ensures Decode(limit, Stop, chunks) == UpToOverflow(AllFrames(Concat(chunks), limit))
  {
    assert [] + Concat(chunks) == Concat(chunks);
    SkipFrom(EMPTY, [], limit, chunks);
    StopFrom(EMPTY, [], limit, chunks);
  }

  /** The buffer never exceeds the limit, whatever the peer sends. */
  lemma {:induction false} BufferBounded(d: Decoder, limit: nat, overflow: Overflow, buffer: seq<byte>)
    requires |d.partial| <= limit && (d.discarding ==> d.partial == [])
    ensures var run := FeedBuffer(d, limit, overflow, buffer);
            |run.decoder.partial| <= limit && (run.decoder.discarding ==> run.decoder.partial == [])
    decreases |buffer|
  {
    if buffer != [] {
      var step := Feed(d, limit, overflow, buffer);
      if step.consumed > 0 {
        BufferBounded(step.decoder, limit, overflow, buffer[step.consumed..]);
      }
    }
  }

  // ----- encoding

  function Encode(payload: seq<byte>): seq<byte> {
    payload + [NEWLINE]
  }

  function EncodeAll(payloads: seq<seq<byte>>): seq<byte> {
    if payloads == [] then [] else Encode(payloads[0]) + EncodeAll(payloads[1..])
  }

  function Lines(payloads: seq<seq<byte>>): seq<Frame> {
    seq(|payloads|, i requires 0 <= i < |payloads| => Line(payloads[i]))
  }

  /** In either mode, decoding what was encoded returns the payloads exactly when each is one line under the
      limit. */
  lemma RoundTrip(payloads: seq<seq<byte>>, limit: nat, overflow: Overflow, chunks: seq<seq<byte>>)
    requires Concat(chunks) == EncodeAll(payloads)
    ensures Decode(limit, overflow, chunks) == Lines(payloads) + [End]
       <==> forall p :: p in payloads ==> OneLine(p) && |p| < limit
  {
    hide Decode, AllFrames, UpToOverflow, EncodeAll, Concat;
    DecodeIsSplit(limit, chunks);
    var all := AllFrames(EncodeAll(payloads), limit);
    if forall p :: p in payloads ==> OneLine(p) && |p| < limit {
      EncodedFrames(payloads, limit);
    } else {
      NotAllOneLine(payloads, limit);
    }
    NoneTooLarge(all);
    NoneTooLarge(Lines(payloads) + [End]);
  }

  /** A stream that stops at no overflow is read whole. */
  lemma {:induction false} NoneTooLarge(frames: seq<Frame>)
    ensures TooLarge !in UpToOverflow(frames) ==> UpToOverflow(frames) == frames
    ensures TooLarge !in frames ==> UpToOverflow(frames) == frames
    decreases |frames|
  {
    if frames != [] {
      NoneTooLarge(frames[1..]);
    }
  }

  lemma EncodedFrames(payloads: seq<seq<byte>>, limit: nat)
    requires forall p :: p in payloads ==> OneLine(p) && |p| < limit
    ensures AllFrames(EncodeAll(payloads), limit) == Lines(payloads) + [End]
  {
    EncodedSplit(payloads, limit);
    hide LineFrames, EncodeAll, Rest;
  }

  lemma {:induction false} EncodedSplit(payloads: seq<seq<byte>>, limit: nat)
    requires forall p :: p in payloads ==> OneLine(p) && |p| < limit
    ensures LineFrames(EncodeAll(payloads), limit) == Lines(payloads)
    ensures Rest(EncodeAll(payloads)) == []
    decreases |payloads|
  {
    if payloads != [] {
      var first, later := payloads[0], EncodeAll(payloads[1..]);
      EncodedSplit(payloads[1..], limit);
      PayloadFirst(first, later, limit);
      assert EncodeAll(payloads) == Encode(first) + later;
      assert first in payloads;
      hide LineFrames, EncodeAll, Rest;
      Encoded(first, later);
      LinesFirst(payloads);
    }
  }

  lemma Encoded(p: seq<byte>, later: seq<byte>)
    ensures Encode(p) + later == p + ([NEWLINE] + later)
  {
  }

  lemma LinesFirst(payloads: seq<seq<byte>>)
    requires payloads != []
    ensures Lines(payloads) == [Line(payloads[0])] + Lines(payloads[1..])
  {
  }

  lemma PayloadFirst(p: seq<byte>, later: seq<byte>, limit: nat)
    requires OneLine(p)
    ensures var s := p + ([NEWLINE] + later);
            && LineFrames(s, limit) == [Bounded(p, limit)] + LineFrames(later, limit)
            && Rest(s) == Rest(later)
  {
    var t := [NEWLINE] + later;
    FirstNewlineIs(t, 0);
    SplitFirst(p, t, limit);
    assert t[1..] == later && p + t[..0] == p;
  }

  /** What each line of a stream is reported as, and then what follows the last newline: a line that reaches the
      limit with its newline is too large, and so is a rest over it; a rest is a line cut short; no rest is the end. */
  function Reports(lines: seq<seq<byte>>, rest: seq<byte>, limit: nat): seq<Frame> {
    seq(|lines|, i requires 0 <= i < |lines| => if |lines[i]| + 1 > limit then TooLarge else Line(lines[i]))
    + [if |rest| > limit then TooLarge else if rest == [] then End else Truncated(rest)]
  }

  lemma {:induction false} StreamSplit(lines: seq<seq<byte>>, rest: seq<byte>, limit: nat)
    requires OneLine(rest) && forall i :: 0 <= i < |lines| ==> OneLine(lines[i])
    ensures AllFrames(EncodeAll(lines) + rest, limit) == Reports(lines, rest, limit)
    decreases |lines|
  {
    hide LineFrames, Rest;
    if lines == [] {
      assert EncodeAll([]) + rest == rest;
      RestOnly(rest, limit);
    } else {
      StreamSplit(lines[1..], rest, limit);
      assert EncodeAll(lines) + rest == lines[0] + ([NEWLINE] + (EncodeAll(lines[1..]) + rest));
      PayloadFirst(lines[0], EncodeAll(lines[1..]) + rest, limit);
      assert Reports(lines, rest, limit) == [Bounded(lines[0], limit)] + Reports(lines[1..], rest, limit);
    }
  }

  lemma RestOnly(rest: seq<byte>, limit: nat)
    requires OneLine(rest)
    ensures LineFrames(rest, limit) == [] && Rest(rest) == rest
  {
    assert rest[..|rest|] == rest;
    FirstNewlineIs(rest, |rest|);
  }

  /** What the reader sees of `reports`: all of them, or in Stop mode up to the first that is too large. */
  ghost predicate Sees(frames: seq<Frame>, reports: seq<Frame>, overflow: Overflow) {
    if overflow.Skip? || TooLarge !in reports then frames == reports
    else
      && 0 < |frames| <= |reports| && frames == reports[..|frames|]
      && frames[|frames| - 1] == TooLarge && TooLarge !in frames[..|frames| - 1]
  }

  lemma {:induction false} UpToOverflowSees(frames: seq<Frame>)
    ensures Sees(UpToOverflow(frames), frames, Stop)
    decreases |frames|
  {
    NoneTooLarge(frames);
    if TooLarge in frames && !frames[0].TooLarge? {
      var rest := UpToOverflow(frames[1..]);
      UpToOverflowSees(frames[1..]);
      assert TooLarge in frames[1..];
      var all := [frames[0]] + rest;
      assert all == frames[..|all|] && all[..|all| - 1] == [frames[0]] + rest[..|rest| - 1];
    }
  }

  /** For every stream, as its lines and what follows the last newline, and every way to cut it into buffers. */
  lemma DecodeReports(lines: seq<seq<byte>>, rest: seq<byte>, limit: nat, overflow: Overflow, chunks: seq<seq<byte>>)
    requires OneLine(rest) && forall i :: 0 <= i < |lines| ==> OneLine(lines[i])
    requires Concat(chunks) == EncodeAll(lines) + rest
    ensures Sees(Decode(limit, overflow, chunks), Reports(lines, rest, limit), overflow)
  {
    hide Decode, AllFrames, UpToOverflow, Reports, EncodeAll, Concat;
    DecodeIsSplit(limit, chunks);
    StreamSplit(lines, rest, limit);
    UpToOverflowSees(Reports(lines, rest, limit));
  }

  /** Every stream is lines and what follows the last newline. */
  lemma {:induction false} EveryStream(s: seq<byte>) returns (lines: seq<seq<byte>>, rest: seq<byte>)
    ensures s == EncodeAll(lines) + rest && OneLine(rest) && forall i :: 0 <= i < |lines| ==> OneLine(lines[i])
    decreases |s|
  {
    var i := FirstNewline(s);
    hide FirstNewline;
    if i == |s| {
      lines, rest := [], s;
      assert s[..i] == s;
    } else {
      var more;
      more, rest := EveryStream(s[i + 1..]);
      lines := [s[..i]] + more;
      assert lines[1..] == more;
      assert s == s[..i] + [NEWLINE] + s[i + 1..];
    }
  }

  function Newlines(s: seq<byte>): nat {
    if s == [] then 0 else (if s[0] == NEWLINE then 1 else 0) + Newlines(s[1..])
  }

  lemma NewlinesCut(a: seq<byte>, b: seq<byte>)
    ensures Newlines(a + b) == Newlines(a) + Newlines(b)
  {
    if a == [] {
      assert a + b == b;
    } else {
      NewlinesCut(a[1..], b);
      assert (a + b)[1..] == a[1..] + b;
    }
  }

  lemma OneLineHasNone(s: seq<byte>)
    ensures OneLine(s) <==> Newlines(s) == 0
  {
    if s != [] {
      OneLineHasNone(s[1..]);
      assert OneLine(s) <==> s[0] != NEWLINE && OneLine(s[1..]) by {
        assert forall k :: 1 <= k < |s| ==> s[k] == s[1..][k - 1];
      }
    }
  }

  /** One frame per newline. */
  lemma {:induction false} FramePerNewline(s: seq<byte>, limit: nat)
    ensures |LineFrames(s, limit)| == Newlines(s)
    decreases |s|
  {
    var i := FirstNewline(s);
    OneLineHasNone(s[..i]);
    NewlinesCut(s[..i], s[i..]);
    assert s == s[..i] + s[i..];
    if i < |s| {
      FramePerNewline(s[i + 1..], limit);
      assert s[i..][1..] == s[i + 1..];
    }
  }

  lemma EncodedNewlines(payloads: seq<seq<byte>>)
    ensures Newlines(EncodeAll(payloads)) >= |payloads|
    ensures (exists p :: p in payloads && !OneLine(p)) ==> Newlines(EncodeAll(payloads)) > |payloads|
  {
    if payloads != [] {
      var p := payloads[0];
      EncodedNewlines(payloads[1..]);
      NewlinesCut(Encode(p), EncodeAll(payloads[1..]));
      NewlinesCut(p, [NEWLINE]);
      assert Newlines([NEWLINE]) == 1;
      OneLineHasNone(p);
      assert forall q :: q in payloads ==> q == p || q in payloads[1..];
    }
  }

  /** A payload that is not one line, or does not fit, does not come back as it was. */
  lemma NotAllOneLine(payloads: seq<seq<byte>>, limit: nat)
    requires exists p :: p in payloads && (!OneLine(p) || |p| >= limit)
    ensures AllFrames(EncodeAll(payloads), limit) != Lines(payloads) + [End]
  {
    var s := EncodeAll(payloads);
    FramePerNewline(s, limit);
    if exists p :: p in payloads && !OneLine(p) {
      EncodedNewlines(payloads);
      assert |AllFrames(s, limit)| > |Lines(payloads) + [End]|;
    } else {
      LinesUnderLimit(s, limit);
      var i :| 0 <= i < |payloads| && |payloads[i]| >= limit;
      assert (Lines(payloads) + [End])[i] == Line(payloads[i]);
    }
  }

  lemma {:induction false} LinesUnderLimit(s: seq<byte>, limit: nat)
    ensures forall f :: f in AllFrames(s, limit) && f.Line? ==> |f.bytes| < limit
    decreases |s|
  {
    var i := FirstNewline(s);
    if i < |s| {
      LinesUnderLimit(s[i + 1..], limit);
      assert AllFrames(s, limit) == [Bounded(s[..i], limit)] + AllFrames(s[i + 1..], limit);
    }
  }

  // ----- the decoder and the read loop as the source has them

  class FrameDecoder {
    const limit: nat
    const overflow: Overflow
    var partial: seq<byte>
    var discarding: bool

    ghost function Value(): Decoder
      reads this
    {
      Decoder(partial, discarding)
    }

    constructor (limit: nat, overflow: Overflow)
      ensures Value() == EMPTY && this.limit == limit && this.overflow == overflow
    {
      this.limit, this.overflow := limit, overflow;
      partial, discarding := [], false;
    }

    method Position(available: seq<byte>) returns (newline: nat)
      ensures newline == FirstNewline(available)
    {
      newline := 0;
      while newline < |available| && available[newline] != NEWLINE
        invariant newline <= |available|
        invariant NewlineFrom(available, newline) == FirstNewline(available)
      {
        newline := newline + 1;
      }
    }

    /** One buffer: what it adds to the line in progress, and the frame it completes, if any. */
    method Take(available: seq<byte>) returns (consumed: nat, frame: Option<Frame>)
      modifies this
      ensures Feed(old(Value()), limit, overflow, available) == Step(Value(), consumed, frame)
    {
      var newline := Position(available);
      var take := if newline < |available| then newline + 1 else |available|;
      if !discarding {
        if |partial| + take > limit {
          if overflow.Stop? {
            return 0, Some(TooLarge);
          }
          discarding, partial := true, [];
        } else {
          partial := partial + available[..take];
        }
      }
      consumed, frame := take, None;
      if newline < |available| {
        if discarding {
          discarding, frame := false, Some(TooLarge);
        } else {
          var line := partial;
          partial := [];
          if |line| > 0 {
            line := line[..|line| - 1];
          }
          frame := Some(Line(line));
        }
      }
    }

    method AtEnd() returns (frame: Frame)
      modifies this
      ensures frame == Finish(old(Value()))
      ensures !old(discarding) ==> Value() == EMPTY
      ensures old(discarding) ==> Value() == Decoder(old(partial), false)
    {
      if discarding {
        discarding, frame := false, TooLarge;
      } else if partial == [] {
        frame := End;
      } else {
        frame, partial := Truncated(partial), [];
      }
    }
  }

  /** A buffered reader with its decoder. `buffers` is what the platform will still hand over. */
  class Connection {
    const decoder: FrameDecoder
    var buffers: seq<seq<byte>>
    /** What the decoder has taken of the line in progress. */
    ghost var line: seq<byte>

    ghost predicate Valid()
      reads this, decoder
    {
      && Holds(decoder.Value(), line, decoder.limit, decoder.overflow)
      && forall k :: 0 <= k < |buffers| ==> buffers[k] != []
    }

    /** The bytes no frame has reported yet. */
    ghost function Unread(): seq<byte>
      reads this
    {
      line + Concat(buffers)
    }

    constructor (limit: nat, overflow: Overflow, buffers: seq<seq<byte>>)
      requires forall k :: 0 <= k < |buffers| ==> buffers[k] != []
      ensures Valid() && Unread() == Concat(buffers) && fresh(decoder)
      ensures decoder.limit == limit && decoder.overflow == overflow
    {
      decoder := new FrameDecoder(limit, overflow);
      this.buffers := buffers;
      line := [];
    }

    /** What a frame must be to be the next of the stream `s`, and what is unread then. */
    ghost predicate NextOf(s: seq<byte>, frame: Frame)
      reads this, decoder
    {
      var i := FirstNewline(s);
      if i < |s|
      then frame == Bounded(s[..i], decoder.limit)
           && ((decoder.overflow.Stop? && frame.TooLarge?) || (Valid() && Unread() == s[i + 1..]))
      else frame == LastFrame(s, decoder.limit)
    }

    /** Feed one buffer: it completes the next frame, or all of it joins the line in progress. */
    method ReadBuffer() returns (result: Option<Frame>)
      requires Valid() && buffers != []
      modifies this, decoder
      ensures result.Some? ==> NextOf(old(Unread()), result.value)
      ensures result.None? ==> Valid() && Unread() == old(Unread()) && |buffers| < |old(buffers)|
    {
      var available, left := buffers[0], buffers[1..];
      assert Concat(buffers) == available + Concat(left);
      UnreadStep(decoder.Value(), line, decoder.limit, decoder.overflow, available, Concat(left));
      EmptyHolds(decoder.limit, decoder.overflow);
      hide NewlineFrom, Feed, FirstNewline, Concat, Holds, Bounded, LastFrame;
      var consumed;
      consumed, result := decoder.Take(available);
      if result.None? {
        line, buffers := line + available, left;
      } else if consumed > 0 {
        line, buffers := [], Unfinished(available, consumed, left);
      }
    }

    /** The next frame of the unread stream, whatever buffers it arrives in. */
    method ReadFrame() returns (frame: Frame)
      requires Valid()
      modifies this, decoder
      ensures NextOf(old(Unread()), frame)
    {
      while buffers != []
        invariant Valid() && Unread() == old(Unread())
        decreases |buffers|
      {
        var result := ReadBuffer();
        if result.Some? {
          return result.value;
        }
      }
      assert line + [] == line && line[..|line|] == line;
      FirstNewlineIs(line, |line|);
      frame := decoder.AtEnd();
    }
  }

  /** The buffers left when `consumed` bytes of the first are used. */
  function Unfinished(available: seq<byte>, consumed: nat, left: seq<seq<byte>>): (buffers: seq<seq<byte>>)
    requires consumed <= |available|
    ensures Concat(buffers) == available[consumed..] + Concat(left)
    ensures (forall k :: 0 <= k < |left| ==> left[k] != []) ==> forall k :: 0 <= k < |buffers| ==> buffers[k] != []
  {
    if consumed < |available|
    then assert ([available[consumed..]] + left)[1..] == left; [available[consumed..]] + left
    else left
  }

  /** What one buffer makes of the line in progress, seen from the whole unread stream. */
  lemma UnreadStep(d: Decoder, line: seq<byte>, limit: nat, overflow: Overflow, buffer: seq<byte>, rest: seq<byte>)
    requires Holds(d, line, limit, overflow) && buffer != []
    ensures line + (buffer + rest) == line + buffer + rest
    ensures var s, step := line + (buffer + rest), Feed(d, limit, overflow, buffer);
            var i := FirstNewline(s);
            if step.frame.None? then Holds(step.decoder, line + buffer, limit, overflow)
            else if i == |s| then step.frame.value == LastFrame(s, limit)
            else
              && step.frame.value == Bounded(s[..i], limit)
              && (|| (overflow.Stop? && step.frame.value.TooLarge?)
                  || (&& 0 < step.consumed <= |buffer| && step.decoder == EMPTY
                      && s[i + 1..] == buffer[step.consumed..] + rest))
  {
    FeedAdvances(d, line, limit, overflow, buffer);
    StreamStep(line, buffer, rest);
    hide NewlineFrom, Feed, FirstNewline, OneLine;
  }

  /** Where the first line of `line + buffer + rest` ends, seen from the buffer alone. */
  lemma StreamStep(line: seq<byte>, buffer: seq<byte>, rest: seq<byte>)
    requires OneLine(line)
    ensures line + (buffer + rest) == line + buffer + rest
    ensures var s, i := line + (buffer + rest), FirstNewline(buffer);
            if i < |buffer|
            then FirstNewline(s) == |line| + i && s[..|line| + i] == line + buffer[..i]
                 && s[|line| + i + 1..] == buffer[i + 1..] + rest
            else FirstNewline(s) >= |line| + |buffer| && OneLine(line + buffer)
  {
    var i := FirstNewline(buffer);
    if i < |buffer| {
      NewlineInFront(buffer, rest);
      FirstNewlineAfter(line, buffer + rest);
      SplitFirst(line, buffer + rest, 0);
    } else {
      assert buffer[..i] == buffer;
      FirstNewlineAfter(line + buffer, rest);
    }
  }
}

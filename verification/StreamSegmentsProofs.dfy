/** What a client can rely on for every sequence of progress callbacks. */
module StreamSegmentsProofs {
  import opened JsText
  import opened Options
  import opened StreamSegmentsSpec

  /** No frame of the same segment comes earlier. */
  ghost predicate FirstOfSegment(frames: seq<Frame>, i: nat)
    requires i < |frames|
  {
    forall j | 0 <= j < i :: frames[j].segment != frames[i].segment
  }

  /** Segments are numbered from zero without gaps, each opens with its only start frame, and is
      left only after an end frame. */
  ghost predicate TraceOk(frames: seq<Frame>) {
    && (forall i: nat | i < |frames| :: frames[i].Start? <==> FirstOfSegment(frames, i))
    && (frames != [] ==> frames[0].segment == 0)
    && (forall i: nat | i + 1 < |frames| ::
          || frames[i + 1].segment == frames[i].segment
          || (frames[i + 1].segment == frames[i].segment + 1 && frames[i].End?))
  }

  function ReasoningOf(f: Frame): Option<Reasoning> {
    if f.Start? then None else f.reasoning
  }

  /** Inside a segment the reasoning clock never restarts, and no duration is negative. */
  ghost predicate ClockOk(frames: seq<Frame>) {
    && (forall i: nat, j: nat | i < |frames| && j < |frames| && frames[i].segment == frames[j].segment
          && ReasoningOf(frames[i]).Some? && ReasoningOf(frames[j]).Some? ::
            ReasoningOf(frames[i]).value.startedAt == ReasoningOf(frames[j]).value.startedAt)
    && (forall i: nat | i < |frames| && ReasoningOf(frames[i]).Some? && ReasoningOf(frames[i]).value.durationMs.Some? ::
          ReasoningOf(frames[i]).value.durationMs.value >= 0)
  }

  /** A live reasoning record carries the clock of the segment. */
  ghost predicate LiveClock(s: Stream) {
    && (s.reasoning.Some? ==>
          forall i: nat | i < |s.frames| && s.frames[i].segment == s.segment && ReasoningOf(s.frames[i]).Some? ::
          ReasoningOf(s.frames[i]).value.startedAt == s.reasoning.value.startedAt)
    && (s.reasoning.Some? && s.reasoning.value.durationMs.Some? ==> s.reasoning.value.durationMs.value >= 0)
    && (s.reasoning.None? ==> forall i: nat | i < |s.frames| && s.frames[i].segment == s.segment ::
        ReasoningOf(s.frames[i]).None?)
  }

  /** The current segment shows in the trace exactly when it was started; otherwise the one before it has ended. */
  ghost predicate CurrentOk(s: Stream) {
    && (s.started ==> s.frames != [] && s.frames[|s.frames| - 1].segment == s.segment)
    && (!s.started ==> forall i: nat | i < |s.frames| :: s.frames[i].segment < s.segment)
    && (!s.started && s.frames != [] ==>
          s.frames[|s.frames| - 1].segment + 1 == s.segment && s.frames[|s.frames| - 1].End?)
    && (s.frames == [] ==> s.segment == 0 && !s.started)
  }

  ghost predicate FieldsOk(s: Stream) {
    && (s.reasoning.Some? ==> s.started)
    && (s.lastText != "" ==> s.started && Visible(s.lastText))
    && (s.streamed ==> exists i: nat :: i < |s.frames| && s.frames[i].End? && Visible(s.frames[i].text))
  }

  ghost predicate Inv(s: Stream) {
    TraceOk(s.frames) && ClockOk(s.frames) && CurrentOk(s) && LiveClock(s) && FieldsOk(s)
  }

  /** The text the client holds for the current segment: that of the last frame, nothing after a start. */
  function ShownText(s: Stream): string {
    if !s.started || s.frames == [] || s.frames[|s.frames| - 1].Start? then "" else s.frames[|s.frames| - 1].text
  }

  lemma {:induction false} NeverDecreases(frames: seq<Frame>, i: nat, j: nat)
    requires TraceOk(frames) && i <= j < |frames|
    ensures frames[i].segment <= frames[j].segment
    decreases j - i
  {
    if i < j {
      NeverDecreases(frames, i, j - 1);
    }
  }

  /** A frame of the segment the trace is in, or the start of the next one. */
  lemma FrameKeepsTrace(frames: seq<Frame>, f: Frame)
    requires TraceOk(frames)
    requires f.Start? <==> forall j: nat | j < |frames| :: frames[j].segment != f.segment
    requires frames == [] ==> f.segment == 0
    requires frames != [] ==>
      var last := frames[|frames| - 1];
      f.segment == last.segment || (f.segment == last.segment + 1 && last.End?)
    ensures TraceOk(frames + [f])
  {
    hide FirstOfSegment;
    var r := frames + [f];
    FirstInPrefix(frames, f, |frames|);
    forall i: nat | i < |r|
      ensures r[i].Start? <==> FirstOfSegment(r, i)
    {
      FirstInPrefix(frames, f, i);
    }
  }

  lemma FirstInPrefix(frames: seq<Frame>, f: Frame, i: nat)
    requires i <= |frames|
    ensures i < |frames| ==> (FirstOfSegment(frames + [f], i) <==> FirstOfSegment(frames, i))
    ensures FirstOfSegment(frames + [f], |frames|) <==> forall j: nat | j < |frames| :: frames[j].segment != f.segment
  {
    var r := frames + [f];
    assert forall j: nat | j < |frames| :: r[j] == frames[j];
    if FirstOfSegment(r, |frames|) {
      forall j: nat | j < |frames|
        ensures frames[j].segment != f.segment
      {
        assert r[j].segment != r[|frames|].segment;
      }
    }
    if i < |frames| && FirstOfSegment(frames, i) {
      forall j | 0 <= j < i
        ensures r[j].segment != r[i].segment
      {
        assert frames[j].segment != frames[i].segment;
      }
    }
    if i < |frames| && FirstOfSegment(r, i) {
      forall j | 0 <= j < i
        ensures frames[j].segment != frames[i].segment
      {
        assert r[j].segment != r[i].segment;
      }
    }
  }

  lemma FrameKeepsClock(s: Stream, f: Frame)
    requires ClockOk(s.frames) && LiveClock(s) && f.segment == s.segment
    requires ReasoningOf(f).Some? ==> s.reasoning.Some? && ReasoningOf(f) == s.reasoning
    ensures ClockOk(Emit(s, f).frames) && LiveClock(Emit(s, f))
  {
  }

  lemma EnsureStartedKeepsInv(s: Stream)
    requires TraceOk(s.frames) && ClockOk(s.frames) && CurrentOk(s) && LiveClock(s)
    ensures var s' := EnsureStarted(s);
      TraceOk(s'.frames) && ClockOk(s'.frames) && CurrentOk(s') && LiveClock(s')
      && s'.started && s'.frames[..|s.frames|] == s.frames && s' == s.(started := true, frames := s'.frames)
  {
    hide TraceOk, ClockOk;
    if !s.started {
      FrameKeepsTrace(s.frames, Start(s.segment));
      FrameKeepsClock(s.(started := true), Start(s.segment));
    }
  }

  /** A chunk or end frame of a started segment. */
  lemma FrameKeepsInv(s: Stream, f: Frame)
    requires TraceOk(s.frames) && ClockOk(s.frames) && CurrentOk(s) && LiveClock(s)
    requires s.started && f.segment == s.segment && !f.Start? && (f.reasoning.Some? ==> f.reasoning == s.reasoning)
    ensures var s' := Emit(s, f);
      TraceOk(s'.frames) && ClockOk(s'.frames) && CurrentOk(s') && LiveClock(s')
  {
    FrameKeepsTrace(s.frames, f);
    FrameKeepsClock(s, f);
  }

  lemma StreamedStays(s: Stream, frames: seq<Frame>)
    requires FieldsOk(s) && s.frames <= frames && s.streamed
    ensures exists i: nat :: i < |frames| && frames[i].End? && Visible(frames[i].text)
  {
    var i: nat :| i < |s.frames| && s.frames[i].End? && Visible(s.frames[i].text);
    assert frames[i] == s.frames[i];
  }

  /** Leaving a segment that has just got an end frame. */
  lemma AdvanceKeepsInv(s: Stream, text: string, reasoning: Option<Reasoning>)
    requires Inv(s) && s.started && (reasoning.Some? ==> reasoning == s.reasoning)
    ensures Inv(Advance(Emit(s, End(s.segment, text, reasoning))))
  {
    hide TraceOk, ClockOk, Visible;
    var s1 := Emit(s, End(s.segment, text, reasoning));
    FrameKeepsInv(s, End(s.segment, text, reasoning));
    EarlierSegments(s1.frames);
    if s.streamed {
      StreamedStays(s, s1.frames);
    }
  }

  lemma EarlierSegments(frames: seq<Frame>)
    requires TraceOk(frames) && frames != []
    ensures forall i: nat | i < |frames| :: frames[i].segment <= frames[|frames| - 1].segment
  {
    hide TraceOk;
    forall i: nat | i < |frames|
      ensures frames[i].segment <= frames[|frames| - 1].segment
    {
      NeverDecreases(frames, i, |frames| - 1);
    }
  }

  lemma StartKeepsInv(s: Stream)
    requires Inv(s)
    ensures Inv(EnsureStarted(s)) && EnsureStarted(s).started
  {
    EnsureStartedKeepsInv(s);
    if s.streamed {
      StreamedStays(s, EnsureStarted(s).frames);
    }
  }

  lemma StepKeepsInv(s: Stream, c: Callback)
    requires Inv(s)
    ensures Inv(Step(s, c))
  {
    hide TraceOk, ClockOk, Visible;
    match c
    case OnProcessingStart => StartKeepsInv(s);
    case OnReasoningChunk(report, now) => ReasoningChunkKeepsInv(s, report, now);
    case OnReasoningEnd(report, now) => ReasoningEndKeepsInv(s, report, now);
    case OnStreamChunk(accumulated) => StreamChunkKeepsInv(s, accumulated);
    case OnStreamEnd(fullText) =>
      if !Visible(fullText) {
        if s.started { AdvanceKeepsInv(s, s.lastText, s.reasoning); }
      } else if !Dropped(s, fullText) {
        VisibleEndKeepsInv(s, fullText);
      }
    case OnStreamReset =>
      if s.started { AdvanceKeepsInv(s, "", None); }
  }

  lemma ReasoningChunkKeepsInv(s: Stream, report: Report, now: int)
    requires Inv(s)
    ensures Inv(ReasoningChunk(s, report, now))
  {
    hide TraceOk, ClockOk, Visible;
    var startedAt := if s.reasoning.Some? then s.reasoning.value.startedAt else now;
    var s0 := s.(reasoning := Some(Reasoning(report.provider, Summary(report), report.raw, true, startedAt, None,
      None)));
    EnsureStartedKeepsInv(s0);
    var s1 := EnsureStarted(s0);
    FrameKeepsInv(s1, Chunk(s1.segment, s1.lastText, s1.reasoning));
    if s.streamed {
      StreamedStays(s, ReasoningChunk(s, report, now).frames);
    }
  }

  lemma ReasoningEndKeepsInv(s: Stream, report: Report, now: int)
    requires Inv(s)
    ensures Inv(ReasoningEnd(s, report, now))
  {
    hide TraceOk, ClockOk, Visible;
    if s.reasoning.Some? {
      var startedAt := s.reasoning.value.startedAt;
      var r := Reasoning(report.provider, Summary(report), report.raw, false, startedAt, Some(now),
        Some(Max(0, now - startedAt)));
      var s0 := s.(reasoning := Some(r));
      FrameKeepsInv(s0, Chunk(s.segment, s.lastText, Some(r)));
      if s.streamed {
        StreamedStays(s, ReasoningEnd(s, report, now).frames);
      }
    }
  }

  lemma StreamChunkKeepsInv(s: Stream, accumulated: string)
    requires Inv(s)
    ensures Inv(StreamChunk(s, accumulated))
  {
    hide TraceOk, ClockOk, Visible;
    if Visible(accumulated) {
      var s0 := s.(lastText := accumulated);
      EnsureStartedKeepsInv(s0);
      var s1 := EnsureStarted(s0);
      FrameKeepsInv(s1, Chunk(s1.segment, accumulated, s1.reasoning));
      if s.streamed {
        StreamedStays(s, StreamChunk(s, accumulated).frames);
      }
    }
  }

  lemma VisibleEndKeepsInv(s: Stream, fullText: string)
    requires Inv(s) && Visible(fullText) && !Dropped(s, fullText)
    ensures Inv(StreamEnd(s, fullText))
    ensures Closed(StreamEnd(s, fullText), fullText)
  {
    hide TraceOk, ClockOk, Visible;
    var s0 := s.(lastText := fullText);
    EnsureStartedKeepsInv(s0);
    var s1 := EnsureStarted(s0);
    FrameKeepsInv(s1, End(s1.segment, fullText, s1.reasoning));
    var s' := StreamEnd(s, fullText);
    assert s'.frames[|s'.frames| - 1] == End(s1.segment, fullText, s1.reasoning);
  }

  lemma {:induction false} RunKeepsInv(calls: seq<Callback>)
    ensures Inv(Run(calls))
    decreases |calls|
  {
    if calls != [] {
      hide Step, Inv;
      RunKeepsInv(calls[..|calls| - 1]);
      StepKeepsInv(Run(calls[..|calls| - 1]), calls[|calls| - 1]);
    }
  }

  // ---------- the promises ----------

  lemma StartsComeFirst(s: Stream)
    requires Inv(s)
    ensures forall i: nat | i < |s.frames| :: s.frames[i].Start? <==> FirstOfSegment(s.frames, i)
  {
    hide FirstOfSegment, ClockOk, LiveClock, FieldsOk;
  }

  lemma SegmentsGrow(s: Stream)
    requires Inv(s)
    ensures forall i: nat, j: nat | i <= j < |s.frames| :: s.frames[i].segment <= s.frames[j].segment <= s.segment
  {
    hide TraceOk, ClockOk, LiveClock, FieldsOk;
    forall i: nat, j: nat | i <= j < |s.frames|
      ensures s.frames[i].segment <= s.frames[j].segment <= s.segment
    {
      NeverDecreases(s.frames, i, j);
      NeverDecreases(s.frames, j, |s.frames| - 1);
    }
  }

  lemma EndsComeLast(s: Stream)
    requires Inv(s)
    ensures forall i: nat | i + 1 < |s.frames| && s.frames[i].segment != s.frames[i + 1].segment :: s.frames[i].End?
  {
    hide FirstOfSegment, ClockOk, LiveClock, FieldsOk, CurrentOk;
  }

  lemma StartedShows(s: Stream)
    requires Inv(s)
    ensures s.reasoning.Some? ==> s.started
    ensures s.started <==> exists i: nat :: i < |s.frames| && s.frames[i].segment == s.segment
  {
    hide TraceOk, ClockOk, LiveClock, Visible;
    if s.started {
      assert s.frames[|s.frames| - 1].segment == s.segment;
    }
  }

  lemma ClocksRun(s: Stream)
    requires Inv(s)
    ensures ClockOk(s.frames)
  {
    hide TraceOk, ClockOk, LiveClock, FieldsOk, CurrentOk;
  }

  /** For every sequence of callbacks: a frame is a start frame exactly when it is the first of its
      segment, segment numbers never decrease, a segment is left only after an end frame, live
      reasoning belongs to a started segment, and its clock never restarts. */
  lemma EveryTraceIsWellFormed(calls: seq<Callback>)
    ensures var s := Run(calls);
      && (forall i: nat | i < |s.frames| :: s.frames[i].Start? <==> FirstOfSegment(s.frames, i))
      && (forall i: nat, j: nat | i <= j < |s.frames| :: s.frames[i].segment <= s.frames[j].segment <= s.segment)
      && (forall i: nat | i + 1 < |s.frames| && s.frames[i].segment != s.frames[i + 1].segment :: s.frames[i].End?)
      && (s.reasoning.Some? ==> s.started)
      && (s.started <==> exists i: nat :: i < |s.frames| && s.frames[i].segment == s.segment)
      && ClockOk(s.frames)
  {
    hide Run, Inv, FirstOfSegment, ClockOk;
    RunKeepsInv(calls);
    var s := Run(calls);
    StartsComeFirst(s);
    SegmentsGrow(s);
    EndsComeLast(s);
    StartedShows(s);
    ClocksRun(s);
  }

  predicate OnlyStart(frames: seq<Frame>, segment: nat, i: nat) {
    i < |frames| && frames[i] == Start(segment) && forall j: nat | j < |frames| && frames[j] == Start(segment) :: j == i
  }

  /** Each segment before the current one was opened, and opened once. */
  lemma {:induction false} EverySegmentIsOpenedOnce(calls: seq<Callback>, segment: nat)
    requires segment < Run(calls).segment
    ensures exists i: nat :: OnlyStart(Run(calls).frames, segment, i)
  {
    hide ClockOk, LiveClock, Visible, Run;
    RunKeepsInv(calls);
    var s := Run(calls);
    OpenedOnce(s.frames, segment);
  }

  lemma OpenedOnce(frames: seq<Frame>, segment: nat)
    requires TraceOk(frames) && frames != [] && segment <= frames[|frames| - 1].segment
    ensures exists i: nat :: OnlyStart(frames, segment, i)
  {
    var k := FrameOf(frames, segment, |frames| - 1);
    var i := 0;
    while frames[i].segment != segment
      invariant i <= k && forall j: nat | j < i :: frames[j].segment != segment
      decreases k - i
    {
      i := i + 1;
    }
    assert FirstOfSegment(frames, i);
    forall j: nat | j < |frames| && frames[j] == Start(segment)
      ensures j == i
    {
      assert FirstOfSegment(frames, j);
    }
    assert OnlyStart(frames, segment, i);
  }

  /** Segment numbers have no gaps. */
  lemma {:induction false} FrameOf(frames: seq<Frame>, segment: nat, last: nat) returns (k: nat)
    requires TraceOk(frames) && last < |frames| && segment <= frames[last].segment
    ensures k <= last && frames[k].segment == segment
  {
    if frames[last].segment == segment {
      k := last;
    } else {
      k := FrameOf(frames, segment, last - 1);
    }
  }

  /** If the handler keeps silent because the answer was streamed, the client got an end frame with
      visible text. */
  lemma StreamedMeansShown(calls: seq<Callback>)
    requires Run(calls).streamed
    ensures var s := Run(calls);
      exists i: nat :: i < |s.frames| && s.frames[i].End? && Visible(s.frames[i].text)
  {
    RunKeepsInv(calls);
  }

  /** The last thing the client saw of the current segment is the end frame of this text. */
  predicate Closed(s: Stream, text: string) {
    s.frames != [] && var f := s.frames[|s.frames| - 1]; f.End? && f.segment == s.segment && f.text == text
  }

  // ---------- what the client shows ----------

  ghost predicate TextOk(s: Stream) {
    ShownText(s) == s.lastText && (s.started ==> s.frames != [])
  }

  lemma StepKeepsText(s: Stream, c: Callback)
    requires TextOk(s)
    ensures TextOk(Step(s, c))
  {
    hide Visible;
    var s' := Step(s, c);
    assert s'.frames == s.frames || |s'.frames| > |s.frames|;
  }

  /** The client always shows the last text of the current segment: reasoning updates and repeated
      ends never change it, and a new segment starts empty. */
  lemma {:induction false} ClientShowsLastText(calls: seq<Callback>)
    ensures TextOk(Run(calls))
    decreases |calls|
  {
    if calls != [] {
      hide Step, TextOk;
      ClientShowsLastText(calls[..|calls| - 1]);
      StepKeepsText(Run(calls[..|calls| - 1]), calls[|calls| - 1]);
    }
  }

  /** An end without text, as before a tool call, closes the segment with the text the client shows,
      and the next segment starts empty; a reset closes it with no text. */
  lemma PrefaceIsKept(calls: seq<Callback>, fullText: string)
    requires Run(calls).started && !Visible(fullText)
    ensures var s := Run(calls);
      var ended, dropped := StreamEnd(s, fullText), StreamReset(s);
      && ended.frames == s.frames + [End(s.segment, ShownText(s), s.reasoning)]
      && dropped.frames == s.frames + [End(s.segment, "", None)]
      && ended.segment == dropped.segment == s.segment + 1
      && ShownText(ended) == ShownText(dropped) == "" && !ended.started && !dropped.started
  {
    hide Visible, Run;
    ClientShowsLastText(calls);
  }

  // ---------- which ends reach the client ----------

  predicate Closes(c: Callback) { c.OnStreamReset? || (c.OnStreamEnd? && !Visible(c.fullText)) }

  predicate Answers(c: Callback) { c.OnStreamEnd? && Visible(c.fullText) }

  /** The number of calls up to the last one that closes a segment. */
  function SegmentStart(calls: seq<Callback>): (n: nat)
    ensures n <= |calls|
  {
    if calls == [] then 0
    else if Closes(calls[|calls| - 1]) then |calls|
    else SegmentStart(calls[..|calls| - 1])
  }

  /** The text of a segment after one more call. */
  function TextAfter(text: string, c: Callback): string {
    if Closes(c) then ""
    else if c.OnStreamChunk? && Visible(c.accumulated) then c.accumulated
    else if Answers(c) then c.fullText
    else text
  }

  /** The last visible text given since a segment was closed. */
  function TextSoFar(calls: seq<Callback>): string {
    if calls == [] then ""
    else TextAfter(TextSoFar(calls[..|calls| - 1]), calls[|calls| - 1])
  }

  ghost predicate Answered(calls: seq<Callback>) {
    exists i: nat :: i < |calls| && Answers(calls[i])
  }

  /** The call ends an answer, and it is the first one to do so or brings a new text. */
  ghost predicate Concludes(calls: seq<Callback>, i: nat)
    requires i < |calls|
  {
    Answers(calls[i]) && (Answered(calls[..i]) ==> calls[i].fullText != TextSoFar(calls[..i]))
  }

  lemma StepFlagAndText(s: Stream, c: Callback)
    requires s.lastText != "" ==> s.started
    ensures Step(s, c).streamed <==> s.streamed || Answers(c)
    ensures Step(s, c).lastText == TextAfter(s.lastText, c)
  {
    hide Visible;
  }

  /** The flag and the text of the stream, by the calls alone. */
  lemma {:induction false} FlagAndText(calls: seq<Callback>)
    ensures Run(calls).streamed <==> Answered(calls)
    ensures Run(calls).lastText == TextSoFar(calls)
    decreases |calls|
  {
    hide Visible, TraceOk, ClockOk, LiveClock, CurrentOk, Step, Answered, TextAfter;
    if calls == [] {
      NoneAnswered();
    } else {
      var front, last := calls[..|calls| - 1], calls[|calls| - 1];
      FlagAndText(front);
      RunKeepsInv(front);
      LastAnswers(calls);
      StepFlagAndText(Run(front), last);
    }
  }

  lemma NoneAnswered()
    ensures !Answered([])
  {
  }

  lemma LastAnswers(calls: seq<Callback>)
    requires calls != []
    ensures Answered(calls) <==> Answered(calls[..|calls| - 1]) || Answers(calls[|calls| - 1])
  {
    var front := calls[..|calls| - 1];
    assert forall i: nat | i < |front| :: front[i] == calls[i];
    hide Answers;
  }

  predicate EndsInChunk(frames: seq<Frame>) { frames != [] && frames[|frames| - 1].Chunk? }

  /** A visible end leaves the client with the end frame of its text, unless an answer was ended before, the
      text repeats the last one of the segment, and the last frame sent is a chunk. */
  lemma VisibleEndClosesIff(calls: seq<Callback>, fullText: string)
    requires Visible(fullText)
    ensures var s := Run(calls);
      Closed(StreamEnd(s, fullText), fullText) <==>
        !(Answered(calls) && fullText == TextSoFar(calls) && EndsInChunk(s.frames))
  {
    hide Run, Answered, TextSoFar;
    RunKeepsInv(calls);
    ClientShowsLastText(calls);
    FlagAndText(calls);
    var s := Run(calls);
    if !Dropped(s, fullText) {
      VisibleEndKeepsInv(s, fullText);
    }
  }

  ghost predicate HasEnd(s: Stream) {
    exists i: nat :: i < |s.frames| && s.frames[i].End? && s.frames[i].segment == s.segment
  }

  lemma StepEnds(s: Stream, c: Callback)
    requires Inv(s)
    ensures HasEnd(Step(s, c)) <==> !Closes(c) && (HasEnd(s) || (Answers(c) && !Dropped(s, c.fullText)))
  {
    hide TraceOk, ClockOk, LiveClock, Visible;
    StepKeepsInv(s, c);
    if Closes(c) {
      assert !Step(s, c).started;
    } else {
      OpenStepEnds(s, c);
    }
  }

  lemma OpenStepEnds(s: Stream, c: Callback)
    requires !Closes(c)
    ensures HasEnd(Step(s, c)) <==> HasEnd(s) || (Answers(c) && !Dropped(s, c.fullText))
  {
    hide Visible;
    var s' := Step(s, c);
    assert s.frames <= s'.frames && s'.segment == s.segment;
    assert forall i: nat | i < |s.frames| :: s'.frames[i] == s.frames[i];
    if Answers(c) && !Dropped(s, c.fullText) { assert s'.frames[|s'.frames| - 1].End?; }
  }

  /** Some call since the segment began ends an answer, and is the first one ever to do so or differs from the
      text before it. */
  ghost predicate Concluded(calls: seq<Callback>) {
    exists i: nat :: SegmentStart(calls) <= i < |calls| && Concludes(calls, i)
  }

  lemma LastConcludes(calls: seq<Callback>)
    requires calls != []
    ensures var front, last := calls[..|calls| - 1], calls[|calls| - 1];
      Concluded(calls) <==> !Closes(last) && (Concluded(front) || Concludes(calls, |front|))
  {
    hide Concludes, Closes;
    SameConclusions(calls);
    var front := calls[..|calls| - 1];
    assert SegmentStart(front) <= |front|;
  }

  /** For exactly which calls the client gets an end frame of the current segment. */
  lemma {:induction false} SegmentIsEndedIff(calls: seq<Callback>)
    ensures HasEnd(Run(calls)) <==> Concluded(calls)
    decreases |calls|
  {
    hide Step, Inv, Visible, Answers, Closes, HasEnd, Answered, TextSoFar, Concludes, Dropped, Concluded;
    if calls == [] {
      NothingEnded();
    } else {
      var front, last := calls[..|calls| - 1], calls[|calls| - 1];
      SegmentIsEndedIff(front);
      RunKeepsInv(front);
      StepEnds(Run(front), last);
      FlagAndText(front);
      AnswerDrops(Run(front), calls, |front|);
      LastConcludes(calls);
    }
  }

  lemma NothingEnded()
    ensures !HasEnd(Run([])) && !Concluded([])
  {
  }

  lemma SameConclusions(calls: seq<Callback>)
    requires calls != []
    ensures var front := calls[..|calls| - 1];
      forall i: nat | i < |front| :: Concludes(calls, i) <==> Concludes(front, i)
  {
    hide Answers, Answered, TextSoFar;
    var front := calls[..|calls| - 1];
    forall i: nat | i < |front|
      ensures calls[..i] == front[..i] && calls[i] == front[i]
    {
    }
  }

  lemma AnswerDrops(s: Stream, calls: seq<Callback>, i: nat)
    requires i < |calls| && (s.streamed <==> Answered(calls[..i])) && s.lastText == TextSoFar(calls[..i])
    ensures Concludes(calls, i) <==> Answers(calls[i]) && !Dropped(s, calls[i].fullText)
  {
    hide Visible, Answered, TextSoFar;
  }

  lemma RunLast(calls: seq<Callback>, c: Callback)
    ensures Run(calls + [c]) == Step(Run(calls), c)
  {
    assert (calls + [c])[..|calls|] == calls;
  }

  lemma {:induction false} SameAfter(one: seq<Callback>, two: seq<Callback>, after: seq<Callback>)
    requires Run(one) == Run(two)
    ensures Run(one + after) == Run(two + after)
  {
    hide Step, Run;
    if after == [] {
      assert one + after == one && two + after == two;
    } else {
      var front, last := after[..|after| - 1], after[|after| - 1];
      SameAfter(one, two, front);
      RunLast(one + front, last);
      RunLast(two + front, last);
      assert one + after == (one + front) + [last] && two + after == (two + front) + [last];
    }
  }

  /** An end that is repeated at once changes nothing, wherever in the turn it falls and whatever follows. */
  lemma RepeatedEndIsIdle(before: seq<Callback>, fullText: string, after: seq<Callback>)
    ensures Run(before + [OnStreamEnd(fullText)] + [OnStreamEnd(fullText)] + after) ==
            Run(before + [OnStreamEnd(fullText)] + after)
  {
    hide Visible, Run;
    var once := before + [OnStreamEnd(fullText)];
    RunLast(before, OnStreamEnd(fullText));
    RunLast(once, OnStreamEnd(fullText));
    SameAfter(once + [OnStreamEnd(fullText)], once, after);
  }

  /** The open case happens: after a first answer, the end of a second streamed answer is lost. */
  lemma SecondAnswerStaysOpen()
    ensures var calls := [OnStreamEnd("a"), OnStreamEnd(""), OnStreamChunk("b")];
      var s := StreamEnd(Run(calls), "b");
      && s.frames[|s.frames| - 1] == Chunk(1, "b", None)
      && forall i: nat | i < |s.frames| :: !(s.frames[i].End? && s.frames[i].segment == 1)
  {
    var calls := [OnStreamEnd("a"), OnStreamEnd(""), OnStreamChunk("b")];
    assert calls[..2] == [OnStreamEnd("a"), OnStreamEnd("")] && calls[..2][..1] == [OnStreamEnd("a")]
      && calls[..2][..1][..0] == [];
    assert Visible("a") && Visible("b") && !Visible("");
    assert Run([]) == INITIAL;
    assert Run(calls[..2][..1]) == StreamEnd(INITIAL, "a");
    assert Run(calls[..2]) == StreamEnd(StreamEnd(INITIAL, "a"), "");
    assert Run(calls) == StreamChunk(StreamEnd(StreamEnd(INITIAL, "a"), ""), "b");
  }
}

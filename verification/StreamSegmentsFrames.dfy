/** The frames of a turn, told from its calls alone: what has been said and thought since the segment began. */
module StreamSegmentsFrames {
  import opened JsText
  import opened Options
  import opened StreamSegmentsSpec
  import opened StreamSegmentsProofs

  /** The call shows the client something even in a segment not begun. */
  predicate Opens(c: Callback) {
    match c
    case OnProcessingStart => true
    case OnReasoningChunk(_, _) => true
    case OnReasoningEnd(_, _) => false
    case OnStreamChunk(accumulated) => Visible(accumulated)
    case OnStreamEnd(fullText) => Visible(fullText)
    case OnStreamReset => false
  }

  /** Some call opened the segment since the last one that closes. */
  ghost predicate Begun(calls: seq<Callback>) {
    exists i: nat :: SegmentStart(calls) <= i < |calls| && Opens(calls[i])
  }

  /** How many segments were begun and closed. */
  ghost function Segments(calls: seq<Callback>): nat {
    if calls == [] then 0
    else
      var front := calls[..|calls| - 1];
      Segments(front) + if Closes(calls[|calls| - 1]) && Begun(front) then 1 else 0
  }

  /** When the first thought of the segment was reported. */
  function FirstThought(calls: seq<Callback>): Option<int> {
    if calls == [] || Closes(calls[|calls| - 1]) then None
    else
      var before, last := FirstThought(calls[..|calls| - 1]), calls[|calls| - 1];
      if before.None? && last.OnReasoningChunk? then Some(last.now) else before
  }

  /** The last report of a thought in the segment; the end of none does not count. */
  function LastThought(calls: seq<Callback>): Option<Callback> {
    if calls == [] || Closes(calls[|calls| - 1]) then None
    else
      var front, last := calls[..|calls| - 1], calls[|calls| - 1];
      if last.OnReasoningChunk? || (last.OnReasoningEnd? && FirstThought(front).Some?) then Some(last)
      else LastThought(front)
  }

  /** The record tells of this report: who thinks, what of it is shown, since when, and, once it has ended, how long
      it took, a clock set back counting for nothing. */
  predicate Tells(r: Reasoning, c: Callback, first: int) {
    && (c.OnReasoningChunk? || c.OnReasoningEnd?)
    && r.provider == c.report.provider && r.hasPrivateReasoning == c.report.raw
    && (r.summary.Some? <==> c.report.summary != "") && (r.summary.Some? ==> r.summary.value == c.report.summary)
    && r.startedAt == first
    && (r.streaming <==> c.OnReasoningChunk?)
    && (c.OnReasoningChunk? ==> r.completedAt == None && r.durationMs == None)
    && (c.OnReasoningEnd? ==> r.completedAt == Some(c.now) && r.durationMs.Some? && 0 <= r.durationMs.value)
    && (c.OnReasoningEnd? && first <= c.now ==> r.durationMs.value == c.now - first)
    && (c.OnReasoningEnd? && c.now <= first ==> r.durationMs.value == 0)
  }

  ghost predicate ThoughtIs(reasoning: Option<Reasoning>, calls: seq<Callback>) {
    && (reasoning.Some? <==> FirstThought(calls).Some?)
    && (reasoning.Some? <==> LastThought(calls).Some?)
    && (reasoning.Some? && FirstThought(calls).Some? && LastThought(calls).Some? ==>
          Tells(reasoning.value, LastThought(calls).value, FirstThought(calls).value))
  }

  /** A visible end of a text the client already has, after an answer: taken for a repetition. */
  ghost predicate Repeats(calls: seq<Callback>, c: Callback) {
    Answers(c) && Answered(calls) && c.fullText == TextSoFar(calls)
  }

  /** Whether a frame with content follows the call. */
  ghost predicate Shows(calls: seq<Callback>, c: Callback) {
    match c
    case OnProcessingStart => false
    case OnReasoningChunk(_, _) => true
    case OnReasoningEnd(_, _) => FirstThought(calls).Some?
    case OnStreamChunk(accumulated) => Visible(accumulated)
    case OnStreamEnd(_) => if Answers(c) then !Repeats(calls, c) else Begun(calls)
    case OnStreamReset => Begun(calls)
  }

  /** The frame shown by the call: an end after an end or a reset and a chunk otherwise, with the text and the thought
      of the segment; a reset takes both back. */
  ghost predicate ShownBy(f: Frame, calls: seq<Callback>, c: Callback) {
    && f.segment == Segments(calls)
    && (c.OnStreamEnd? || c.OnStreamReset? ==> f.End?)
    && (c.OnReasoningChunk? || c.OnReasoningEnd? || c.OnStreamChunk? ==> f.Chunk?)
    && (c.OnStreamReset? ==> f == End(f.segment, "", None))
    && (!f.Start? && c.OnStreamEnd? && !Visible(c.fullText) ==>
          f.text == TextSoFar(calls) && ThoughtIs(f.reasoning, calls))
    && (!f.Start? && !Closes(c) ==> f.text == TextSoFar(calls + [c]) && ThoughtIs(f.reasoning, calls + [c]))
  }

  /** What is sent after the call: the start of a segment not begun that the call opens, and the frame it shows. */
  ghost predicate SentBy(sent: seq<Frame>, calls: seq<Callback>, c: Callback) {
    var opening := if Opens(c) && !Begun(calls) then [Start(Segments(calls))] else [];
    if Shows(calls, c) then
      && |sent| == |opening| + 1 && sent[..|opening|] == opening && ShownBy(sent[|opening|], calls, c)
    else sent == opening
  }

  /** The stream is what its calls say. */
  ghost predicate Told(s: Stream, calls: seq<Callback>) {
    && (s.started <==> Begun(calls))
    && s.lastText == TextSoFar(calls)
    && ThoughtIs(s.reasoning, calls)
    && s.segment == Segments(calls)
    && (s.streamed <==> Answered(calls))
  }

  lemma Latest(calls: seq<Callback>, c: Callback)
    ensures (calls + [c])[..|calls|] == calls && (calls + [c])[|calls|] == c
  {
  }

  lemma BegunAfter(calls: seq<Callback>, c: Callback)
    ensures Begun(calls + [c]) <==> !Closes(c) && (Begun(calls) || Opens(c))
  {
    hide Opens, Closes;
    Latest(calls, c);
    if !Closes(c) && Begun(calls) {
      var i: nat :| SegmentStart(calls) <= i < |calls| && Opens(calls[i]);
      assert (calls + [c])[i] == calls[i];
    }
    if !Closes(c) && Opens(c) {
      assert Opens((calls + [c])[|calls|]);
    }
  }

  lemma ThoughtAfter(calls: seq<Callback>, c: Callback)
    ensures var before := FirstThought(calls);
      && FirstThought(calls + [c]) == (if Closes(c) then None
                                       else if before.None? && c.OnReasoningChunk? then Some(c.now) else before)
      && LastThought(calls + [c]) == (if Closes(c) then None
                                      else if c.OnReasoningChunk? || (c.OnReasoningEnd? && before.Some?) then Some(c)
                                      else LastThought(calls))
  {
    hide Closes;
    Latest(calls, c);
  }

  lemma CountsAfter(calls: seq<Callback>, c: Callback)
    ensures TextSoFar(calls + [c]) == TextAfter(TextSoFar(calls), c)
    ensures Segments(calls + [c]) == Segments(calls) + if Closes(c) && Begun(calls) then 1 else 0
    ensures Answered(calls + [c]) <==> Answered(calls) || Answers(c)
  {
    hide Closes, Begun, TextAfter, Answers, Answered;
    Latest(calls, c);
    LastAnswers(calls + [c]);
  }

  /** The part of the history a call changes. */
  lemma HistoryAfter(calls: seq<Callback>, c: Callback)
    ensures Begun(calls + [c]) <==> !Closes(c) && (Begun(calls) || Opens(c))
    ensures TextSoFar(calls + [c]) == TextAfter(TextSoFar(calls), c)
    ensures Segments(calls + [c]) == Segments(calls) + if Closes(c) && Begun(calls) then 1 else 0
    ensures Answered(calls + [c]) <==> Answered(calls) || Answers(c)
  {
    hide *;
    BegunAfter(calls, c);
    CountsAfter(calls, c);
  }

  /** No thought and no text without a beginning. */
  lemma {:induction false} NothingBefore(calls: seq<Callback>)
    ensures !Begun(calls) ==> FirstThought(calls).None? && TextSoFar(calls) == ""
    decreases |calls|
  {
    if calls == [] {
    } else {
      hide Begun, TextSoFar, FirstThought, LastThought, Segments, Answered, Visible;
      var front, c := calls[..|calls| - 1], calls[|calls| - 1];
      assert calls == front + [c];
      NothingBefore(front);
      HistoryAfter(front, c);
      ThoughtAfter(front, c);
    }
  }

  lemma NothingIsInvisible()
    ensures !Visible("")
  {
  }

  lemma StepKeepsTold(s: Stream, calls: seq<Callback>, c: Callback)
    requires Told(s, calls) && (s.lastText != "" || s.reasoning.Some? ==> s.started)
    ensures Told(Step(s, c), calls + [c])
  {
    hide Begun, TextSoFar, FirstThought, LastThought, Segments, Answered, Visible;
    HistoryAfter(calls, c);
    ThoughtAfter(calls, c);
    match c {
      case OnProcessingStart =>
      case OnReasoningChunk(_, _) =>
      case OnReasoningEnd(_, _) =>
      case OnStreamChunk(_) =>
      case OnStreamEnd(_) => NothingIsInvisible();
      case OnStreamReset =>
    }
  }

  lemma StepSends(s: Stream, calls: seq<Callback>, c: Callback)
    requires Told(s, calls) && (s.lastText != "" || s.reasoning.Some? ==> s.started)
    ensures s.frames <= Step(s, c).frames && SentBy(Step(s, c).frames[|s.frames|..], calls, c)
  {
    hide Begun, TextSoFar, FirstThought, LastThought, Segments, Answered, Visible, Told, SentBy, StreamEnd;
    match c {
      case OnStreamEnd(fullText) => EndSends(s, calls, fullText);
      case OnReasoningChunk(report, now) => ThoughtSends(s, calls, report, now);
      case _ => OtherSends(s, calls, c);
    }
  }

  /** A visible text ends the segment it is in or begins, another one ends the segment that was begun. */
  lemma EndSends(s: Stream, calls: seq<Callback>, fullText: string)
    requires Told(s, calls) && (s.lastText != "" || s.reasoning.Some? ==> s.started)
    ensures var c := OnStreamEnd(fullText);
      s.frames <= Step(s, c).frames && SentBy(Step(s, c).frames[|s.frames|..], calls, c)
  {
    hide Begun, TextSoFar, FirstThought, LastThought, Segments, Answered, Visible;
    var c := OnStreamEnd(fullText);
    HistoryAfter(calls, c);
    ThoughtAfter(calls, c);
    NothingIsInvisible();
    var s' := Step(s, c);
    if Dropped(s, fullText) {
      assert s'.frames[|s.frames|..] == [];
    } else if !Visible(fullText) {
      assert s.started ==> s'.frames[|s.frames|..] == [End(s.segment, s.lastText, s.reasoning)];
    } else if s.started {
      assert s'.frames[|s.frames|..] == [End(s.segment, fullText, s.reasoning)];
    } else {
      assert s'.frames[|s.frames|..] == [Start(s.segment), End(s.segment, fullText, s.reasoning)];
    }
  }

  /** A thought begins the segment if need be, and shows at once. */
  lemma ThoughtSends(s: Stream, calls: seq<Callback>, report: Report, now: int)
    requires Told(s, calls) && (s.lastText != "" || s.reasoning.Some? ==> s.started)
    ensures var c := OnReasoningChunk(report, now);
      s.frames <= Step(s, c).frames && SentBy(Step(s, c).frames[|s.frames|..], calls, c)
  {
    hide Begun, TextSoFar, FirstThought, LastThought, Segments, Answered, Visible;
    var c := OnReasoningChunk(report, now);
    HistoryAfter(calls, c);
    ThoughtAfter(calls, c);
    var s' := Step(s, c);
    var shown := Chunk(s.segment, s.lastText, s'.reasoning);
    assert ShownBy(shown, calls, c);
    hide ShownBy, ThoughtIs;
    if s.started {
      assert s'.frames[|s.frames|..] == [shown];
    } else {
      assert s'.frames[|s.frames|..] == [Start(s.segment), shown];
    }
  }

  lemma OtherSends(s: Stream, calls: seq<Callback>, c: Callback)
    requires Told(s, calls) && (s.lastText != "" || s.reasoning.Some? ==> s.started)
    requires !c.OnStreamEnd? && !c.OnReasoningChunk?
    ensures s.frames <= Step(s, c).frames && SentBy(Step(s, c).frames[|s.frames|..], calls, c)
  {
    hide Begun, TextSoFar, FirstThought, LastThought, Segments, Answered, Visible;
    HistoryAfter(calls, c);
    ThoughtAfter(calls, c);
    match c {
      case OnProcessingStart =>
      case OnReasoningEnd(_, _) =>
      case OnStreamChunk(_) =>
      case OnStreamReset =>
    }
  }

  /** In every turn the stream is what its calls say. */
  lemma {:induction false} EveryStreamIsTold(calls: seq<Callback>)
    ensures Told(Run(calls), calls)
    decreases |calls|
  {
    if calls == [] {
      hide Visible;
      assert !Begun(calls) && !Answered(calls);
    } else {
      hide Told, Step, Begun, TextSoFar, FirstThought, LastThought, Segments, Answered, Visible;
      var front, c := calls[..|calls| - 1], calls[|calls| - 1];
      EveryStreamIsTold(front);
      NothingBefore(front);
      ToldBegins(Run(front), front);
      StepKeepsTold(Run(front), front, c);
      assert calls == front + [c];
    }
  }

  lemma ToldBegins(s: Stream, calls: seq<Callback>)
    requires Told(s, calls) && (!Begun(calls) ==> FirstThought(calls).None? && TextSoFar(calls) == "")
    ensures s.lastText != "" || s.reasoning.Some? ==> s.started
  {
    hide Begun, TextSoFar, FirstThought, LastThought, Segments, Answered, Visible;
  }

  /** In every turn each call sends the frames its history calls for and takes none back. */
  lemma EveryCallSends(calls: seq<Callback>, c: Callback)
    ensures var before, after := Run(calls).frames, Run(calls + [c]).frames;
      before <= after && SentBy(after[|before|..], calls, c)
  {
    hide *;
    EveryStreamIsTold(calls);
    NothingBefore(calls);
    ToldBegins(Run(calls), calls);
    RunLast(calls, c);
    StepSends(Run(calls), calls, c);
  }
}

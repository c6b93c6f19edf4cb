/** The stream callbacks of one Web turn, on the variables they share. */
module StreamSegments {
  import opened JsText
  import opened Options
  import opened StreamSegmentsProofs
  import opened StreamSegmentsSpec

  class WebStream {
    var streamStarted: bool
    var lastStreamText: string
    var reasoning: Option<Reasoning>
    var streamSegment: nat
    var streamed: bool
    var broadcast: seq<Frame>

    ghost function Model(): Stream
      reads this
    {
      Stream(streamStarted, lastStreamText, reasoning, streamSegment, streamed, broadcast)
    }

    ghost predicate Valid()
      reads this
    {
      Inv(Model())
    }

    constructor ()
      ensures Valid() && Model() == INITIAL
    {
      streamStarted, lastStreamText, reasoning, streamSegment, streamed, broadcast := false, "", None, 0, false, [];
    }

    method AdvanceStreamSegment()
      modifies this`streamSegment, this`lastStreamText, this`reasoning
      ensures Model().(started := false) == Advance(old(Model()))
    {
      streamSegment := streamSegment + 1;
      lastStreamText := "";
      reasoning := None;
    }

    method StartIfNeeded()
      modifies this`streamStarted, this`broadcast
      ensures Model() == EnsureStarted(old(Model()))
    {
      if !streamStarted {
        streamStarted := true;
        broadcast := broadcast + [Start(streamSegment)];
      }
    }

    method ProcessingStart()
      requires Valid()
      modifies this
      ensures Valid() && Model() == Step(old(Model()), OnProcessingStart)
    {
      hide Inv;
      StepKeepsInv(Model(), OnProcessingStart);
      StartIfNeeded();
    }

    method ReportReasoning(report: Report, now: int)
      requires Valid()
      modifies this
      ensures Valid() && Model() == Step(old(Model()), OnReasoningChunk(report, now))
    {
      hide Inv;
      StepKeepsInv(Model(), OnReasoningChunk(report, now));
      var startedAt := if reasoning.Some? then reasoning.value.startedAt else now;
      reasoning := Some(Reasoning(report.provider, Summary(report), report.raw, true, startedAt, None, None));
      StartIfNeeded();
      broadcast := broadcast + [Chunk(streamSegment, lastStreamText, reasoning)];
    }

    method EndReasoning(report: Report, now: int)
      requires Valid()
      modifies this
      ensures Valid() && Model() == Step(old(Model()), OnReasoningEnd(report, now))
    {
      hide Inv;
      StepKeepsInv(Model(), OnReasoningEnd(report, now));
      if reasoning.None? {
        return;
      }
      var startedAt := reasoning.value.startedAt;
      reasoning := Some(Reasoning(report.provider, Summary(report), report.raw, false, startedAt, Some(now),
        Some(Max(0, now - startedAt))));
      broadcast := broadcast + [Chunk(streamSegment, lastStreamText, reasoning)];
    }

    method ShowText(accumulated: string)
      requires Valid()
      modifies this
      ensures Valid() && Model() == Step(old(Model()), OnStreamChunk(accumulated))
    {
      hide Inv;
      StepKeepsInv(Model(), OnStreamChunk(accumulated));
      if !Visible(accumulated) {
        return;
      }
      lastStreamText := accumulated;
      StartIfNeeded();
      broadcast := broadcast + [Chunk(streamSegment, accumulated, reasoning)];
    }

    method EndStream(fullText: string)
      requires Valid()
      modifies this
      ensures Valid() && Model() == Step(old(Model()), OnStreamEnd(fullText))
    {
      hide Inv;
      StepKeepsInv(Model(), OnStreamEnd(fullText));
      var hasVisibleText := Visible(fullText);
      if hasVisibleText && streamed && fullText == lastStreamText {
        return;
      }
      if !hasVisibleText {
        if streamStarted {
          broadcast := broadcast + [End(streamSegment, lastStreamText, reasoning)];
          streamStarted := false;
          AdvanceStreamSegment();
        }
        return;
      }
      lastStreamText := fullText;
      StartIfNeeded();
      streamed := true;
      broadcast := broadcast + [End(streamSegment, fullText, reasoning)];
    }

    method ResetStream()
      requires Valid()
      modifies this
      ensures Valid() && Model() == Step(old(Model()), OnStreamReset)
    {
      hide Inv;
      StepKeepsInv(Model(), OnStreamReset);
      if !streamStarted {
        return;
      }
      broadcast := broadcast + [End(streamSegment, "", None)];
      streamStarted := false;
      AdvanceStreamSegment();
    }
  }
}

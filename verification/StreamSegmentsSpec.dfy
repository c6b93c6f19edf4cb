/** The stream of one turn as the Web client sees it: numbered segments of start, chunk and end frames.

    The callbacks are functions on the state they share; `StreamSegments.dfy` runs them on fields that
    are updated in place. The clock is a parameter, and `frames` is everything broadcast so far. */
module StreamSegmentsSpec {
  import opened JsText
  import opened Options

  /** What the model reports about its reasoning. */
  datatype Report = Report(provider: string, summary: string, raw: bool)

  datatype Reasoning = Reasoning(
    provider: string, summary: Option<string>, hasPrivateReasoning: bool, streaming: bool, startedAt: int,
    completedAt: Option<int>, durationMs: Option<int>)

  datatype Frame =
    | Start(segment: nat)
    | Chunk(segment: nat, text: string, reasoning: Option<Reasoning>)
    | End(segment: nat, text: string, reasoning: Option<Reasoning>)

  datatype Stream = Stream(
    started: bool, lastText: string, reasoning: Option<Reasoning>, segment: nat, streamed: bool, frames: seq<Frame>)

  const INITIAL := Stream(false, "", None, 0, false, [])

  datatype Callback =
    | OnProcessingStart
    | OnReasoningChunk(report: Report, now: int)
    | OnReasoningEnd(report: Report, now: int)
    | OnStreamChunk(accumulated: string)
    | OnStreamEnd(fullText: string)
    | OnStreamReset

  function Emit(s: Stream, f: Frame): Stream { s.(frames := s.frames + [f]) }

  /** The start frame is sent by whichever callback comes first. */
  function EnsureStarted(s: Stream): Stream {
    if s.started then s else Emit(s.(started := true), Start(s.segment))
  }

  function Advance(s: Stream): Stream {
    s.(started := false, segment := s.segment + 1, lastText := "", reasoning := None)
  }

  function Summary(report: Report): Option<string> {
    if report.summary == "" then None else Some(report.summary)
  }

  function Max(a: int, b: int): int { if a < b then b else a }

  function ReasoningChunk(s: Stream, report: Report, now: int): Stream {
    var startedAt := if s.reasoning.Some? then s.reasoning.value.startedAt else now;
    var r := Reasoning(report.provider, Summary(report), report.raw, true, startedAt, None, None);
    var s1 := EnsureStarted(s.(reasoning := Some(r)));
    Emit(s1, Chunk(s1.segment, s1.lastText, s1.reasoning))
  }

  function ReasoningEnd(s: Stream, report: Report, now: int): Stream {
    if s.reasoning.None? then s
    else
      var startedAt := s.reasoning.value.startedAt;
      var r := Reasoning(report.provider, Summary(report), report.raw, false, startedAt, Some(now),
        Some(Max(0, now - startedAt)));
      Emit(s.(reasoning := Some(r)), Chunk(s.segment, s.lastText, Some(r)))
  }

  function StreamChunk(s: Stream, accumulated: string): Stream {
    if !Visible(accumulated) then s
    else
      var s1 := EnsureStarted(s.(lastText := accumulated));
      Emit(s1, Chunk(s1.segment, accumulated, s1.reasoning))
  }

  /** The safety net of the end callback: a visible text equal to the last one is taken for a repetition. */
  predicate Dropped(s: Stream, fullText: string) {
    Visible(fullText) && s.streamed && fullText == s.lastText
  }

  function StreamEnd(s: Stream, fullText: string): Stream {
    if Dropped(s, fullText) then s
    else if !Visible(fullText) then
      if s.started then Advance(Emit(s, End(s.segment, s.lastText, s.reasoning))) else s
    else
      var s1 := EnsureStarted(s.(lastText := fullText));
      Emit(s1.(streamed := true), End(s1.segment, fullText, s1.reasoning))
  }

  function StreamReset(s: Stream): Stream {
    if !s.started then s else Advance(Emit(s, End(s.segment, "", None)))
  }

  function Step(s: Stream, c: Callback): Stream {
    match c
    case OnProcessingStart => EnsureStarted(s)
    case OnReasoningChunk(report, now) => ReasoningChunk(s, report, now)
    case OnReasoningEnd(report, now) => ReasoningEnd(s, report, now)
    case OnStreamChunk(accumulated) => StreamChunk(s, accumulated)
    case OnStreamEnd(fullText) => StreamEnd(s, fullText)
    case OnStreamReset => StreamReset(s)
  }

  function Run(calls: seq<Callback>): Stream {
    if calls == [] then INITIAL else Step(Run(calls[..|calls| - 1]), calls[|calls| - 1])
  }
}

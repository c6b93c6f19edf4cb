/** Framing does not depend on the chunks, and every request is settled once. */
module SubagentRpcProofs {
  import opened JsText
  import opened SubagentRpcSpec

  // ---------- framing ----------

  lemma PartsOfOneMore(c: char, text: string)
    ensures c == '\n' ==> Parts([c] + text) == [""] + Parts(text)
    ensures c != '\n' ==> Parts([c] + text) == [[c] + Parts(text)[0]] + Parts(text)[1..]
  {
    assert ([c] + text)[1..] == text;
  }

  lemma {:induction false} PartsOfConcat(a: string, b: string)
    ensures Parts(a + b) == Front(Parts(a)) + Parts(Last(Parts(a)) + b)
  {
    if a == "" {
      assert a + b == b && Last(Parts(a)) + b == b;
      assert Front(Parts(a)) == [];
    } else {
      hide Parts;
      PartsOfConcat(a[1..], b);
      assert a == [a[0]] + a[1..];
      PartsOfOneMoreConcat(a[0], a[1..], b);
    }
  }

  lemma PartsOfOneMoreConcat(c: char, a: string, b: string)
    requires Parts(a + b) == Front(Parts(a)) + Parts(Last(Parts(a)) + b)
    ensures Parts([c] + a + b) == Front(Parts([c] + a)) + Parts(Last(Parts([c] + a)) + b)
  {
    hide Parts;
    var p := Parts(a);
    assert [c] + a + b == [c] + (a + b);
    PartsOfOneMore(c, a);
    PartsOfOneMore(c, a + b);
    if c == '\n' {
      FrontOfMore("", p);
    } else if |p| == 1 {
      PartsOfOneLine(c, a, b);
    } else {
      FrontOfHead(p, [c] + p[0], Parts(Last(p) + b));
    }
  }

  lemma FrontOfMore(first: string, p: seq<string>)
    requires p != []
    ensures Front([first] + p) == [first] + Front(p) && Last([first] + p) == Last(p)
  {
  }

  lemma PartsOfOneLine(c: char, a: string, b: string)
    requires c != '\n' && |Parts(a)| == 1 && Parts(a + b) == Front(Parts(a)) + Parts(Last(Parts(a)) + b)
    ensures Parts([c] + (a + b)) == Front(Parts([c] + a)) + Parts(Last(Parts([c] + a)) + b)
  {
    hide Parts;
    var p := Parts(a);
    assert Front(p) == [] && Parts(a + b) == Parts(p[0] + b);
    PartsOfOneMore(c, a);
    PartsOfOneMore(c, a + b);
    PartsOfOneMore(c, p[0] + b);
    assert Front(Parts([c] + a)) == [];
    assert Last(Parts([c] + a)) + b == [c] + (p[0] + b);
  }

  /** Changing the head of a list that has a longer front. */
  lemma FrontOfHead(p: seq<string>, head: string, more: seq<string>)
    requires |p| > 1
    ensures Last([head] + p[1..]) == Last(p)
    ensures Front([head] + p[1..]) + more == [head] + (Front(p) + more)[1..]
    ensures (Front(p) + more)[0] == p[0]
  {
  }

  predicate NoLineFeed(s: string) { '\n' !in s }

  /** The text after the last line feed; there is only one such tail. */
  ghost predicate IsTail(text: string, tail: string) {
    && |tail| <= |text| && text[|text| - |tail|..] == tail && NoLineFeed(tail)
    && (|tail| < |text| ==> text[|text| - |tail| - 1] == '\n')
  }

  lemma LongerSuffixHasLineFeed(text: string, a: string, b: string)
    requires |a| < |b| <= |text| && text[|text| - |b|..] == b && text[|text| - |a| - 1] == '\n'
    ensures !NoLineFeed(b)
  {
    assert b[|b| - |a| - 1] == '\n';
  }

  lemma TailIsUnique(text: string, a: string, b: string)
    requires IsTail(text, a) && IsTail(text, b) && |a| <= |b|
    ensures a == b
  {
    hide NoLineFeed;
    if |a| < |b| {
      LongerSuffixHasLineFeed(text, a, b);
    }
  }

  lemma LongerTail(c: char, text: string, tail: string)
    requires IsTail(text, tail) && (c == '\n' || |tail| < |text|)
    ensures IsTail([c] + text, tail)
  {
    assert ([c] + text)[|text| + 1 - |tail|..] == text[|text| - |tail|..];
  }

  lemma {:induction false} LastPartIsATail(text: string)
    ensures IsTail(text, Last(Parts(text)))
    ensures |Parts(text)| == 1 <==> NoLineFeed(text)
    ensures |Parts(text)| == 1 ==> Parts(text) == [text]
  {
    if text != "" {
      hide IsTail;
      var c, more := text[0], text[1..];
      LastPartIsATail(more);
      assert text == [c] + more;
      var rest := Parts(more);
      if c == '\n' || |rest| > 1 {
        assert Last(Parts(text)) == Last(rest);
        if c != '\n' { TailIsShorter(more, Last(rest)); }
        LongerTail(c, more, Last(rest));
      } else {
        assert Parts(text) == [[c] + rest[0]];
        WholeTail(text);
      }
    } else {
      WholeTail(text);
    }
  }

  lemma TailHasNoLineFeed(text: string, tail: string)
    requires IsTail(text, tail)
    ensures NoLineFeed(tail)
  {
  }

  lemma WholeTail(text: string)
    requires NoLineFeed(text)
    ensures IsTail(text, text)
  {
    assert text[0..] == text;
  }

  lemma TailIsShorter(text: string, tail: string)
    requires IsTail(text, tail) && !NoLineFeed(text)
    ensures |tail| < |text|
  {
    assert text[0..] == text;
  }

  /** The parts with a line feed between any two. */
  function Joined(parts: seq<string>): string
    requires parts != []
  {
    if |parts| == 1 then parts[0] else parts[0] + "\n" + Joined(parts[1..])
  }

  /** The parts are the lines of the text: no line feed is inside one and none is lost between two. */
  lemma {:induction false} PartsAreTheLines(text: string)
    ensures Joined(Parts(text)) == text
    ensures forall i | 0 <= i < |Parts(text)| :: NoLineFeed(Parts(text)[i])
  {
    if text == "" {
      assert Parts(text) == [""];
    } else {
      PartsAreTheLines(text[1..]);
      var rest := Parts(text[1..]);
      if text[0] == '\n' {
        assert Parts(text)[1..] == rest;
      } else {
        assert Parts(text)[1..] == rest[1..];
      }
      assert text == [text[0]] + text[1..];
    }
  }

  function Concat(chunks: seq<string>): string {
    if chunks == [] then "" else Concat(chunks[..|chunks| - 1]) + chunks[|chunks| - 1]
  }

  function FeedAll(parse: Parser, p: Proc, chunks: seq<string>): Proc {
    if chunks == [] then p else Feed(parse, FeedAll(parse, p, chunks[..|chunks| - 1]), chunks[|chunks| - 1])
  }

  lemma {:induction false} HandleLinesConcat(parse: Parser, p: Proc, xs: seq<string>, ys: seq<string>)
    ensures HandleLines(parse, p, xs + ys) == HandleLines(parse, HandleLines(parse, p, xs), ys)
    decreases |ys|
  {
    if ys == [] {
      assert xs + ys == xs;
    } else {
      var n := |ys| - 1;
      assert (xs + ys)[..|xs + ys| - 1] == xs + ys[..n];
      HandleLinesConcat(parse, p, xs, ys[..n]);
    }
  }

  lemma HandleMessageIgnoresBuffer(p: Proc, b: string, m: Message)
    ensures HandleMessage(p.(lineBuffer := b), m) == HandleMessage(p, m).(lineBuffer := b)
    ensures HandleMessage(p, m).lineBuffer == p.lineBuffer
  {
  }

  lemma HandleLineIgnoresBuffer(parse: Parser, p: Proc, b: string, line: string)
    ensures HandleLine(parse, p.(lineBuffer := b), line) == HandleLine(parse, p, line).(lineBuffer := b)
    ensures HandleLine(parse, p, line).lineBuffer == p.lineBuffer
  {
    hide HandleMessage, Trim;
    var trimmed := Trim(line);
    match parse(trimmed)
    case NotJson =>
    case Parsed(m) => HandleMessageIgnoresBuffer(p.(heard := p.heard + [trimmed]), b, m);
  }

  lemma {:induction false} HandleLinesIgnoreBuffer(parse: Parser, p: Proc, b: string, lines: seq<string>)
    ensures HandleLines(parse, p.(lineBuffer := b), lines) == HandleLines(parse, p, lines).(lineBuffer := b)
    ensures HandleLines(parse, p, lines).lineBuffer == p.lineBuffer
    decreases |lines|
  {
    hide HandleLine;
    if lines != [] {
      HandleLinesIgnoreBuffer(parse, p, b, lines[..|lines| - 1]);
      HandleLineIgnoresBuffer(parse, HandleLines(parse, p, lines[..|lines| - 1]), b, lines[|lines| - 1]);
    }
  }

  lemma FeedShape(parse: Parser, p: Proc, chunk: string)
    ensures Feed(parse, p, chunk) ==
      HandleLines(parse, p, Front(Parts(p.lineBuffer + chunk))).(lineBuffer := Last(Parts(p.lineBuffer + chunk)))
  {
    HandleLinesIgnoreBuffer(parse, p, Last(Parts(p.lineBuffer + chunk)), Front(Parts(p.lineBuffer + chunk)));
  }

  /** Two chunks do what their concatenation does. */
  lemma FeedConcat(parse: Parser, p: Proc, a: string, b: string)
    ensures Feed(parse, Feed(parse, p, a), b) == Feed(parse, p, a + b)
  {
    hide HandleLines, Parts, Feed;
    var text := p.lineBuffer + a;
    var tail := Last(Parts(text));
    FeedShape(parse, p, a);
    var q := HandleLines(parse, p, Front(Parts(text)));
    FeedShape(parse, q.(lineBuffer := tail), b);
    FeedShape(parse, p, a + b);
    assert p.lineBuffer + (a + b) == text + b;
    PartsOfConcat(text, b);
    var more := Parts(tail + b);
    assert Front(Front(Parts(text)) + more) == Front(Parts(text)) + Front(more);
    HandleLinesConcat(parse, p, Front(Parts(text)), Front(more));
    HandleLinesIgnoreBuffer(parse, q, tail, Front(more));
  }

  /** Chunk invariance: however the output is cut into chunks, the process ends in the same state,
      with the same lines handled and the same requests settled in the same order. */
  lemma {:induction false} ChunksDoNotMatter(parse: Parser, p: Proc, chunks: seq<string>)
    requires NoLineFeed(p.lineBuffer)
    ensures FeedAll(parse, p, chunks) == Feed(parse, p, Concat(chunks))
    decreases |chunks|
  {
    hide Feed;
    if chunks == [] {
      FeedShape(parse, p, "");
      assert p.lineBuffer + "" == p.lineBuffer;
      LastPartIsATail(p.lineBuffer);
    } else {
      var n := |chunks| - 1;
      ChunksDoNotMatter(parse, p, chunks[..n]);
      FeedConcat(parse, p, Concat(chunks[..n]), chunks[n]);
    }
  }

  /** Everything the process has written so far. */
  function Received(events: seq<Event>): string {
    if events == [] then ""
    else
      var last := events[|events| - 1];
      Received(events[..|events| - 1]) + if last.Data? then last.chunk else ""
  }

  lemma StepBuffers(parse: Parser, p: Proc, e: Event)
    ensures Step(parse, p, e).lineBuffer == if e.Data? then Last(Parts(p.lineBuffer + e.chunk)) else p.lineBuffer
  {
    hide HandleLines, Parts, Feed;
    if e.Data? { FeedShape(parse, p, e.chunk); }
  }

  lemma {:induction false} BufferIsLastPart(parse: Parser, counter: nat, events: seq<Event>)
    ensures Run(parse, Spawned(counter), events).lineBuffer == Last(Parts(Received(events)))
    decreases |events|
  {
    if events == [] {
      assert Parts("") == [""];
    } else {
      hide Step, Parts;
      var front, last := events[..|events| - 1], events[|events| - 1];
      BufferIsLastPart(parse, counter, front);
      StepBuffers(parse, Run(parse, Spawned(counter), front), last);
      if last.Data? {
        PartsOfConcat(Received(front), last.chunk);
      } else {
        assert Received(front) + "" == Received(front);
      }
    }
  }

  /** After any events the buffer holds the one piece of the output that is free of line feeds and is all of it
      or comes right behind a line feed. */
  lemma BufferIsTheTail(parse: Parser, counter: nat, events: seq<Event>, tail: string)
    ensures IsTail(Received(events), tail) <==> tail == Run(parse, Spawned(counter), events).lineBuffer
  {
    hide Run, Received, Parts, IsTail;
    var text := Received(events);
    BufferIsLastPart(parse, counter, events);
    LastPartIsATail(text);
    if IsTail(text, tail) {
      if |tail| <= |Last(Parts(text))| {
        TailIsUnique(text, tail, Last(Parts(text)));
      } else {
        TailIsUnique(text, Last(Parts(text)), tail);
      }
    }
  }

  /** The non-empty trimmed lines of a text. */
  function TrimmedLines(lines: seq<string>): seq<string> {
    if lines == [] then []
    else
      var front := TrimmedLines(lines[..|lines| - 1]);
      if Trim(lines[|lines| - 1]) == "" then front else front + [Trim(lines[|lines| - 1])]
  }

  lemma {:induction false} HeardLines(parse: Parser, p: Proc, lines: seq<string>)
    ensures HandleLines(parse, p, lines).heard == p.heard + TrimmedLines(lines)
    decreases |lines|
  {
    hide Trim;
    if lines != [] {
      HeardLines(parse, p, lines[..|lines| - 1]);
    }
  }

  /** What is handled is exactly the finished lines of the whole output, trimmed, blank ones skipped;
      what stays in the buffer is the text after the last line feed. */
  lemma OutputIsFramed(parse: Parser, counter: nat, chunks: seq<string>)
    ensures var end := FeedAll(parse, Spawned(counter), chunks);
      end.heard == TrimmedLines(Front(Parts(Concat(chunks)))) && end.lineBuffer == Last(Parts(Concat(chunks)))
  {
    hide HandleLines, Parts, TrimmedLines;
    var text := Concat(chunks);
    ChunksDoNotMatter(parse, Spawned(counter), chunks);
    FeedShape(parse, Spawned(counter), text);
    assert "" + text == text;
    HeardLines(parse, Spawned(counter), Front(Parts(text)));
  }

  // ---------- the table of pending requests ----------

  function SettlementsOf(settled: seq<Settlement>, id: nat): seq<Outcome> {
    if settled == [] then []
    else
      var front := SettlementsOf(settled[..|settled| - 1], id);
      if settled[|settled| - 1].id == id then front + [settled[|settled| - 1].outcome] else front
  }

  lemma SettleOne(settled: seq<Settlement>, x: Settlement, id: nat)
    ensures SettlementsOf(settled + [x], id) == SettlementsOf(settled, id) + if x.id == id then [x.outcome] else []
  {
    assert (settled + [x])[..|settled|] == settled;
  }

  ghost predicate Distinct(ids: seq<nat>) {
    forall i, j | 0 <= i < j < |ids| :: ids[i] != ids[j]
  }

  /** What the writer had reported before the request was settled. */
  function Early(p: Proc, id: nat): seq<Outcome> {
    if id in p.thrown then [Thrown] else []
  }

  /** A pending request has not been settled by anyone but its own writer; any other sent request
      has been settled once more, and for good. */
  ghost predicate RequestOk(p: Proc, id: nat) {
    var calls := SettlementsOf(p.settled, id);
    if id !in p.sent then calls == []
    else if id in p.pending then calls == Early(p, id)
    else |calls| == |Early(p, id)| + 1 && calls[..|calls| - 1] == Early(p, id) && calls[|calls| - 1] != Thrown
  }

  ghost predicate TableOk(p: Proc) {
    && Distinct(p.pending)
    && p.timers == (set id | id in p.pending)
    && (forall id | id in p.pending :: id in p.sent)
    && (forall id | id in p.sent :: id <= p.counter)
    && p.thrown <= p.sent
    && (p.exited ==> !p.alive && p.pending == [])
  }

  ghost predicate Inv(p: Proc) {
    TableOk(p) && (forall id :: RequestOk(p, id)) && NoLineFeed(p.lineBuffer)
  }

  lemma {:induction false} Removed(ids: seq<nat>, id: nat)
    ensures forall k :: k in Remove(ids, id) <==> k in ids && k != id
    ensures Distinct(ids) ==> Distinct(Remove(ids, id))
  {
    if ids != [] {
      Removed(ids[1..], id);
      if Distinct(ids) {
        var r, tail := Remove(ids, id), Remove(ids[1..], id);
        assert Distinct(ids[1..]);
        if ids[0] != id {
          assert r == [ids[0]] + tail;
          forall j | 0 <= j < |tail|
            ensures tail[j] != ids[0]
          {
            assert tail[j] in tail;
          }
        }
      }
    }
  }

  lemma SettleKeepsInv(p: Proc, id: nat, outcome: Outcome)
    requires Inv(p) && id in p.pending && outcome != Thrown
    ensures Inv(Settle(p, id, outcome))
  {
    var p' := Settle(p, id, outcome);
    Removed(p.pending, id);
    forall k
      ensures RequestOk(p', k)
    {
      assert RequestOk(p, k);
      SettleOne(p.settled, Settlement(id, outcome), k);
    }
  }

  lemma HandleLineKeepsInv(parse: Parser, p: Proc, line: string)
    requires Inv(p)
    ensures Inv(HandleLine(parse, p, line))
  {
    hide Settle, Trim;
    var p1 := p.(heard := p.heard + [Trim(line)]);
    forall k
      ensures RequestOk(p1, k)
    {
      assert RequestOk(p, k);
    }
    match parse(Trim(line))
    case NotJson =>
    case Parsed(m) =>
      if m.id.Number? && m.id.n >= 0 && m.id.n in p1.pending {
        SettleKeepsInv(p1, m.id.n, if m.hasError then Rejected else Resolved);
      }
  }

  lemma {:induction false} HandleLinesKeepInv(parse: Parser, p: Proc, lines: seq<string>)
    requires Inv(p)
    ensures Inv(HandleLines(parse, p, lines))
    decreases |lines|
  {
    hide Inv, HandleLine;
    if lines != [] {
      HandleLinesKeepInv(parse, p, lines[..|lines| - 1]);
      HandleLineKeepsInv(parse, HandleLines(parse, p, lines[..|lines| - 1]), lines[|lines| - 1]);
    }
  }

  lemma FeedKeepsInv(parse: Parser, p: Proc, chunk: string)
    requires Inv(p)
    ensures Inv(Feed(parse, p, chunk))
  {
    hide Parts, IsTail, NoLineFeed, HandleLines, SettlementsOf;
    var parts := Parts(p.lineBuffer + chunk);
    LastPartIsATail(p.lineBuffer + chunk);
    TailHasNoLineFeed(p.lineBuffer + chunk, Last(parts));
    var p1 := p.(lineBuffer := Last(parts));
    forall k
      ensures RequestOk(p1, k)
    {
      assert RequestOk(p, k);
    }
    HandleLinesKeepInv(parse, p1, Front(parts));
  }

  lemma SendKeepsInv(p: Proc, writable: bool)
    requires Inv(p)
    ensures Inv(Send(p, writable))
  {
    var p' := Send(p, writable);
    var id := p.counter + 1;
    if p.listed && p.alive {
      assert id !in p.sent && id !in p.pending;
      forall k
        ensures RequestOk(p', k)
      {
        assert RequestOk(p, k);
        SettleOne(p.settled, Settlement(id, Thrown), k);
      }
    }
  }

  lemma {:induction false} ExitSettlesEach(settled: seq<Settlement>, ids: seq<nat>, id: nat)
    requires Distinct(ids)
    ensures SettlementsOf(settled + ExitSettlements(ids), id) ==
      SettlementsOf(settled, id) + if id in ids then [Exited] else []
    decreases |ids|
  {
    if ids == [] {
      assert settled + ExitSettlements(ids) == settled;
    } else {
      hide SettlementsOf, ExitSettlements, Distinct;
      var front, last := ids[..|ids| - 1], ids[|ids| - 1];
      DistinctFront(ids);
      ExitSettlesEach(settled, front, id);
      ExitSettlementsFront(ids);
      assert settled + ExitSettlements(ids) == settled + ExitSettlements(front) + [Settlement(last, Exited)];
      SettleOne(settled + ExitSettlements(front), Settlement(last, Exited), id);
      assert id in ids <==> id in front || id == last;
    }
  }

  lemma ExitSettlementsFront(ids: seq<nat>)
    requires ids != []
    ensures ExitSettlements(ids) == ExitSettlements(ids[..|ids| - 1]) + [Settlement(ids[|ids| - 1], Exited)]
  {
  }

  lemma DistinctFront(ids: seq<nat>)
    requires Distinct(ids) && ids != []
    ensures Distinct(ids[..|ids| - 1]) && ids[|ids| - 1] !in ids[..|ids| - 1]
  {
  }

  lemma ExitKeepsInv(p: Proc)
    requires Inv(p)
    ensures Inv(Exit(p))
  {
    var p' := Exit(p);
    forall k
      ensures RequestOk(p', k)
    {
      assert RequestOk(p, k);
      ExitSettlesEach(p.settled, p.pending, k);
    }
  }

  lemma StepKeepsInv(parse: Parser, p: Proc, e: Event)
    requires Inv(p)
    ensures Inv(Step(parse, p, e))
  {
    match e
    case Sends(writable) => SendKeepsInv(p, writable);
    case Data(chunk) => FeedKeepsInv(parse, p, chunk);
    case TimerFires(id) =>
      if id in p.timers { SettleKeepsInv(p, id, TimedOut); }
    case Exits => ExitKeepsInv(p);
    case _ =>
      forall k
        ensures RequestOk(Step(parse, p, e), k)
      {
        assert RequestOk(p, k);
      }
  }

  lemma {:induction false} RunKeepsInv(parse: Parser, counter: nat, events: seq<Event>)
    ensures Inv(Run(parse, Spawned(counter), events))
    decreases |events|
  {
    hide Step, Inv;
    if events == [] {
      SpawnedInv(counter);
    } else {
      RunKeepsInv(parse, counter, events[..|events| - 1]);
      StepKeepsInv(parse, Run(parse, Spawned(counter), events[..|events| - 1]), events[|events| - 1]);
    }
  }

  lemma SpawnedInv(counter: nat)
    ensures Inv(Spawned(counter))
  {
  }

  // ---------- the promises over every run ----------

  ghost predicate PendingMeansUnsettled(p: Proc) {
    forall id | id in p.sent :: id in p.pending <==> SettlementsOf(p.settled, id) == []
  }

  /** In every run: each request has at most one settlement besides the error of its own writer, it
      is pending exactly while its timer is live, and whatever is not pending has been settled.
      The table lists exactly the unsettled requests if and only if no pending request failed to be
      written. */
  lemma SettledOnce(parse: Parser, counter: nat, events: seq<Event>)
    ensures var p := Run(parse, Spawned(counter), events);
      && (forall id :: id in p.pending <==> id in p.timers)
      && (forall id :: CountsOf(p, id))
      && (PendingMeansUnsettled(p) <==> forall id | id in p.pending :: id !in p.thrown)
  {
    hide SettlementsOf, RequestOk, CountsOf, Run;
    RunKeepsInv(parse, counter, events);
    var p := Run(parse, Spawned(counter), events);
    forall id
      ensures CountsOf(p, id)
    {
      RequestCounts(p, id);
    }
    PendingIff(p);
  }

  lemma PendingIff(p: Proc)
    requires TableOk(p) && forall id :: CountsOf(p, id)
    ensures PendingMeansUnsettled(p) <==> forall id | id in p.pending :: id !in p.thrown
  {
    hide SettlementsOf, CountsOf;
    forall id | id in p.sent
      ensures (id in p.pending <==> SettlementsOf(p.settled, id) == []) <==> (id in p.pending ==> id !in p.thrown)
    {
      CountsShow(p, id);
    }
  }

  lemma CountsShow(p: Proc, id: nat)
    requires id in p.sent && CountsOf(p, id)
    ensures (id in p.pending <==> SettlementsOf(p.settled, id) == []) <==> (id in p.pending ==> id !in p.thrown)
  {
  }

  ghost predicate CountsOf(p: Proc, id: nat) {
    var calls := SettlementsOf(p.settled, id);
    && (id in p.sent && id !in p.thrown ==> |calls| == if id in p.pending then 0 else 1)
    && (id in p.thrown ==> |calls| == (if id in p.pending then 1 else 2) && calls[0] == Thrown)
    && (id !in p.sent ==> calls == [])
  }

  lemma RequestCounts(p: Proc, id: nat)
    requires Inv(p)
    ensures CountsOf(p, id)
  {
    assert RequestOk(p, id);
    var calls := SettlementsOf(p.settled, id);
    if id in p.thrown && id !in p.pending {
      assert calls[0] == calls[..|calls| - 1][0];
    }
  }

  /** An unwritable request is such a case: it is settled at once and stays in the table. */
  lemma UnwritableStaysPending(parse: Parser, counter: nat)
    ensures var p := Run(parse, Spawned(counter), [Sends(false)]);
      && p.pending == [counter + 1] && SettlementsOf(p.settled, counter + 1) == [Thrown]
      && !PendingMeansUnsettled(p)
  {
    var events := [Sends(false)];
    assert events[..|events| - 1] == [];
    assert Run(parse, Spawned(counter), []) == Spawned(counter);
    var p := Run(parse, Spawned(counter), events);
    assert p == Step(parse, Spawned(counter), Sends(false)) == Send(Spawned(counter), false);
    SettleOne([], Settlement(counter + 1, Thrown), counter + 1);
    assert [] + [Settlement(counter + 1, Thrown)] == [Settlement(counter + 1, Thrown)];
    assert counter + 1 in p.sent && counter + 1 in p.pending;
  }

  lemma StepAfterExit(parse: Parser, p: Proc, e: Event)
    requires Inv(p) && p.exited
    ensures Step(parse, p, e).exited && Step(parse, p, e).settled == p.settled
  {
    if e.Data? {
      var parts := Parts(p.lineBuffer + e.chunk);
      LinesAfterExit(parse, p.(lineBuffer := Last(parts)), Front(parts));
    } else if e.Exits? {
      assert p.settled + [] == p.settled;
    }
  }

  lemma {:induction false} LinesAfterExit(parse: Parser, p: Proc, lines: seq<string>)
    requires p.exited && p.pending == []
    ensures var p' := HandleLines(parse, p, lines);
      p'.exited && p'.pending == [] && p'.settled == p.settled
    decreases |lines|
  {
    hide Trim;
    if lines != [] {
      LinesAfterExit(parse, p, lines[..|lines| - 1]);
    }
  }

  /** After the process exited the table is empty and nothing is ever settled again, whatever still
      arrives: output, timers, kills or new requests. */
  lemma {:induction false} EmptyAfterExit(parse: Parser, counter: nat, before: seq<Event>, after: seq<Event>)
    ensures var p := Run(parse, Spawned(counter), before + [Exits]);
      var end := Run(parse, Spawned(counter), before + [Exits] + after);
      p.pending == [] && end.pending == [] && end.timers == {} && end.settled == p.settled
    decreases |after|
  {
    var all := before + [Exits] + after;
    RunKeepsInv(parse, counter, all);
    RunKeepsInv(parse, counter, before + [Exits]);
    assert (before + [Exits])[..|before|] == before;
    ExitedStays(parse, counter, before, after);
    if after == [] {
      assert all == before + [Exits];
    } else {
      var n := |after| - 1;
      assert all[..|all| - 1] == before + [Exits] + after[..n];
      EmptyAfterExit(parse, counter, before, after[..n]);
      RunKeepsInv(parse, counter, before + [Exits] + after[..n]);
      ExitedStays(parse, counter, before, after[..n]);
      StepAfterExit(parse, Run(parse, Spawned(counter), before + [Exits] + after[..n]), after[n]);
    }
  }

  lemma {:induction false} ExitedStays(parse: Parser, counter: nat, before: seq<Event>, after: seq<Event>)
    ensures Run(parse, Spawned(counter), before + [Exits] + after).exited
    decreases |after|
  {
    var all := before + [Exits] + after;
    if after == [] {
      assert all[..|all| - 1] == before && all[|all| - 1] == Exits;
    } else {
      var n := |after| - 1;
      assert all[..|all| - 1] == before + [Exits] + after[..n] && all[|all| - 1] == after[n];
      ExitedStays(parse, counter, before, after[..n]);
      RunKeepsInv(parse, counter, before + [Exits] + after[..n]);
      StepAfterExit(parse, Run(parse, Spawned(counter), before + [Exits] + after[..n]), after[n]);
    }
  }

  // ---------- why a request was settled ----------

  /** A handled line that answers the request, with or without an error. */
  predicate Answers(parse: Parser, line: string, id: nat, hasError: bool) {
    match parse(line)
    case NotJson => false
    case Parsed(m) => m.name != "heartbeat" && m.id == Number(id) && m.hasError == hasError
  }

  predicate Heard(parse: Parser, heard: seq<string>, id: nat, hasError: bool) {
    exists i: nat :: i < |heard| && Answers(parse, heard[i], id, hasError)
  }

  predicate Happened(events: seq<Event>, e: Event) { e in events }

  /** The cause each kind of settlement has. */
  ghost predicate Caused(parse: Parser, p: Proc, events: seq<Event>, x: Settlement) {
    match x.outcome
    case Resolved => Heard(parse, p.heard, x.id, false)
    case Rejected => Heard(parse, p.heard, x.id, true)
    case TimedOut => Happened(events, TimerFires(x.id))
    case Exited => Happened(events, Exits)
    case Thrown => Happened(events, Sends(false)) && x.id in p.thrown
  }

  ghost predicate AllCaused(parse: Parser, p: Proc, events: seq<Event>) {
    forall x | x in p.settled :: Caused(parse, p, events, x)
  }

  lemma CausesLast(parse: Parser, p: Proc, p': Proc, events: seq<Event>, events': seq<Event>, x: Settlement)
    requires Caused(parse, p, events, x) && p.heard <= p'.heard && p.thrown <= p'.thrown
    requires forall e | e in events :: e in events'
    ensures Caused(parse, p', events', x)
  {
    forall hasError | Heard(parse, p.heard, x.id, hasError)
      ensures Heard(parse, p'.heard, x.id, hasError)
    {
      var i: nat :| i < |p.heard| && Answers(parse, p.heard[i], x.id, hasError);
      assert p'.heard[i] == p.heard[i];
    }
  }

  /** Nothing forgotten, and whatever settled anew has its cause. */
  lemma CausesGrow(parse: Parser, p: Proc, p': Proc, events: seq<Event>, events': seq<Event>)
    requires AllCaused(parse, p, events) && p.heard <= p'.heard && p.thrown <= p'.thrown
    requires forall e | e in events :: e in events'
    requires forall x | x in p'.settled && x !in p.settled :: Caused(parse, p', events', x)
    ensures AllCaused(parse, p', events')
  {
    hide Caused;
    forall x | x in p'.settled
      ensures Caused(parse, p', events', x)
    {
      if x in p.settled { CausesLast(parse, p, p', events, events', x); }
    }
  }

  lemma LineCauses(parse: Parser, p: Proc, events: seq<Event>, line: string)
    requires AllCaused(parse, p, events)
    ensures AllCaused(parse, HandleLine(parse, p, line), events)
  {
    hide Trim, Remove;
    var p' := HandleLine(parse, p, line);
    var trimmed := Trim(line);
    if trimmed != "" {
      forall x | x in p'.settled && x !in p.settled
        ensures Caused(parse, p', events, x)
      {
        assert p'.heard[|p.heard|] == trimmed;
        assert Answers(parse, p'.heard[|p.heard|], x.id, x.outcome.Rejected?);
      }
      CausesGrow(parse, p, p', events, events);
    }
  }

  lemma {:induction false} LinesCause(parse: Parser, p: Proc, events: seq<Event>, lines: seq<string>)
    requires AllCaused(parse, p, events)
    ensures AllCaused(parse, HandleLines(parse, p, lines), events)
    decreases |lines|
  {
    hide AllCaused, HandleLine;
    if lines != [] {
      LinesCause(parse, p, events, lines[..|lines| - 1]);
      LineCauses(parse, HandleLines(parse, p, lines[..|lines| - 1]), events, lines[|lines| - 1]);
    }
  }

  lemma StepCauses(parse: Parser, p: Proc, events: seq<Event>, e: Event)
    requires AllCaused(parse, p, events)
    ensures AllCaused(parse, Step(parse, p, e), events + [e])
  {
    var p', events' := Step(parse, p, e), events + [e];
    assert e == events'[|events|];
    if e.Data? {
      var parts := Parts(p.lineBuffer + e.chunk);
      var p1 := p.(lineBuffer := Last(parts));
      CausesGrow(parse, p, p1, events, events');
      LinesCause(parse, p1, events', Front(parts));
    } else {
      CausesGrow(parse, p, p', events, events');
    }
  }

  /** In every run each settlement has its cause: a promise resolves only if a line was heard that
      answers its id without an error, is rejected by an answer only if the answer carries one, times
      out only if its timer fired, and fails by exit only after the exit. */
  lemma {:induction false} SettlementsHaveCauses(parse: Parser, counter: nat, events: seq<Event>)
    ensures AllCaused(parse, Run(parse, Spawned(counter), events), events)
    decreases |events|
  {
    if events == [] {
      assert Run(parse, Spawned(counter), events) == Spawned(counter);
    } else {
      hide Step, AllCaused;
      var n := |events| - 1;
      SettlementsHaveCauses(parse, counter, events[..n]);
      StepCauses(parse, Run(parse, Spawned(counter), events[..n]), events[..n], events[n]);
      assert events[..n] + [events[n]] == events;
    }
  }
}

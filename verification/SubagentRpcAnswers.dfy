/** What settles a request, and when a process takes one. */
module SubagentRpcAnswers {
  import opened JsText
  import opened Options
  import opened SubagentRpcProofs
  import opened SubagentRpcSpec

  // ---------- answers ----------

  /** Whether the first of the lines that answers the request carries an error. */
  function FirstAnswer(parse: Parser, lines: seq<string>, id: nat): Option<bool> {
    if lines == [] then None
    else
      var earlier, line := FirstAnswer(parse, lines[..|lines| - 1], id), lines[|lines| - 1];
      if earlier.Some? then earlier
      else if Answers(parse, line, id, true) then Some(true)
      else if Answers(parse, line, id, false) then Some(false)
      else None
  }

  lemma {:induction false} NoAnswer(parse: Parser, lines: seq<string>, id: nat)
    ensures FirstAnswer(parse, lines, id).None? <==>
      forall j: nat, e | j < |lines| :: !Answers(parse, lines[j], id, e)
    decreases |lines|
  {
    hide Answers;
    if lines != [] {
      var n := |lines| - 1;
      NoAnswer(parse, lines[..n], id);
      assert forall j: nat | j < n :: lines[..n][j] == lines[j];
    }
  }

  /** The answer that counts: no earlier line answers the request. */
  lemma {:induction false} FirstAnswerIs(parse: Parser, lines: seq<string>, id: nat, hasError: bool) returns (i: nat)
    requires FirstAnswer(parse, lines, id) == Some(hasError)
    ensures i < |lines| && Answers(parse, lines[i], id, hasError)
    ensures forall j: nat, e | j < i :: !Answers(parse, lines[j], id, e)
    decreases |lines|
  {
    hide Answers;
    var n := |lines| - 1;
    if FirstAnswer(parse, lines[..n], id).Some? {
      i := FirstAnswerIs(parse, lines[..n], id, hasError);
      assert forall j: nat | j < n :: lines[..n][j] == lines[j];
    } else {
      NoAnswer(parse, lines[..n], id);
      i := n;
      assert forall j: nat | j < n :: lines[..n][j] == lines[j];
    }
  }

  lemma FirstAnswerMore(parse: Parser, lines: seq<string>, line: string, id: nat)
    ensures FirstAnswer(parse, lines + [line], id) ==
      if FirstAnswer(parse, lines, id).Some? then FirstAnswer(parse, lines, id)
      else if Answers(parse, line, id, true) then Some(true)
      else if Answers(parse, line, id, false) then Some(false)
      else None
  {
    assert (lines + [line])[..|lines|] == lines;
  }

  /** Nothing has happened to the request: it is listed, and settled as often as before. */
  ghost predicate StillWaits(p: Proc, p': Proc, id: nat) {
    id in p'.pending && id in p'.timers && SettlementsOf(p'.settled, id) == SettlementsOf(p.settled, id)
  }

  /** The request is settled once more, and neither listed nor timed. */
  ghost predicate SettledAs(p: Proc, p': Proc, id: nat, outcome: Outcome) {
    && id !in p'.pending && id !in p'.timers
    && SettlementsOf(p'.settled, id) == SettlementsOf(p.settled, id) + [outcome]
  }

  ghost predicate SettledBy(p: Proc, p': Proc, id: nat, answer: Option<bool>) {
    match answer
    case None => StillWaits(p, p', id)
    case Some(hasError) => SettledAs(p, p', id, if hasError then Rejected else Resolved)
  }

  /** What the lines heard since make of a request that was waiting. */
  ghost predicate Answered(parse: Parser, p: Proc, p': Proc, id: nat) {
    p.heard <= p'.heard && SettledBy(p, p', id, FirstAnswer(parse, p'.heard[|p.heard|..], id))
  }

  lemma SettleSettles(p: Proc, id: nat, outcome: Outcome, k: nat)
    requires Inv(p)
    ensures Inv(p) && SettlementsOf(Settle(p, id, outcome).settled, k) ==
      SettlementsOf(p.settled, k) + if k == id then [outcome] else []
    ensures k in Settle(p, id, outcome).pending <==> k in p.pending && k != id
    ensures k in Settle(p, id, outcome).timers <==> k in p.timers && k != id
  {
    hide SettlementsOf, RequestOk;
    Removed(p.pending, id);
    SettleOne(p.settled, Settlement(id, outcome), k);
  }

  /** A line settles the request it answers, as the line says, and no other. */
  lemma LineSettles(parse: Parser, p: Proc, line: string, id: nat)
    requires Inv(p) && id in p.pending
    ensures var p', t := HandleLine(parse, p, line), Trim(line);
      if t != "" && Answers(parse, t, id, true) then SettledAs(p, p', id, Rejected)
      else if t != "" && Answers(parse, t, id, false) then SettledAs(p, p', id, Resolved)
      else StillWaits(p, p', id)
    ensures HandleLine(parse, p, line).heard == p.heard + if Trim(line) == "" then [] else [Trim(line)]
  {
    hide SettlementsOf, Trim, Settle, RequestOk;
    var t := Trim(line);
    var p1 := p.(heard := p.heard + [t]);
    HeardKeepsInv(p, t);
    match parse(t)
    case NotJson =>
    case Parsed(m) =>
      if m.id.Number? && m.id.n >= 0 {
        SettleKeepsHeard(p1, m.id.n, if m.hasError then Rejected else Resolved);
        SettleSettles(p1, m.id.n, if m.hasError then Rejected else Resolved, id);
      }
  }

  lemma SettleKeepsHeard(p: Proc, id: nat, outcome: Outcome)
    ensures Settle(p, id, outcome).heard == p.heard
  {
  }

  lemma HeardKeepsInv(p: Proc, line: string)
    requires Inv(p)
    ensures Inv(p.(heard := p.heard + [line]))
  {
    var p1 := p.(heard := p.heard + [line]);
    forall k
      ensures RequestOk(p1, k)
    {
      assert RequestOk(p, k);
    }
  }

  /** A line changes nothing for a request that is not listed. */
  lemma LineSpares(parse: Parser, p: Proc, line: string, id: nat)
    requires Inv(p) && id !in p.pending
    ensures var p' := HandleLine(parse, p, line);
      && id !in p'.pending && id !in p'.timers && SettlementsOf(p'.settled, id) == SettlementsOf(p.settled, id)
      && p'.heard == p.heard + if Trim(line) == "" then [] else [Trim(line)]
  {
    hide SettlementsOf, Trim, Settle, RequestOk;
    var t := Trim(line);
    var p1 := p.(heard := p.heard + [t]);
    HeardKeepsInv(p, t);
    match parse(t)
    case NotJson =>
    case Parsed(m) =>
      if m.id.Number? && m.id.n >= 0 {
        SettleKeepsHeard(p1, m.id.n, if m.hasError then Rejected else Resolved);
        SettleSettles(p1, m.id.n, if m.hasError then Rejected else Resolved, id);
      }
  }

  lemma LineSettlesBy(parse: Parser, p: Proc, q: Proc, line: string, id: nat, answer: Option<bool>)
    requires Inv(q) && id in p.pending && SettledBy(p, q, id, answer)
    ensures var t := Trim(line);
      SettledBy(p, HandleLine(parse, q, line), id,
                if answer.Some? || t == "" then answer
                else if Answers(parse, t, id, true) then Some(true)
                else if Answers(parse, t, id, false) then Some(false)
                else None)
    ensures HandleLine(parse, q, line).heard == q.heard + if Trim(line) == "" then [] else [Trim(line)]
  {
    hide SettlementsOf, Trim, HandleLine, Inv, Answers;
    if id in q.pending { LineSettles(parse, q, line, id); } else { LineSpares(parse, q, line, id); }
  }

  lemma LineAnswers(parse: Parser, p: Proc, q: Proc, line: string, id: nat)
    requires Inv(q) && id in p.pending && Answered(parse, p, q, id)
    ensures Answered(parse, p, HandleLine(parse, q, line), id)
  {
    hide FirstAnswer, SettledBy, Trim, HandleLine, Inv, Answers;
    var q', heard, t := HandleLine(parse, q, line), q.heard[|p.heard|..], Trim(line);
    LineSettlesBy(parse, p, q, line, id, FirstAnswer(parse, heard, id));
    if t == "" {
      assert q'.heard == q.heard;
    } else {
      FirstAnswerMore(parse, heard, t, id);
      assert q'.heard[|p.heard|..] == heard + [t];
    }
  }

  lemma {:induction false} LinesAnswer(parse: Parser, p: Proc, q: Proc, lines: seq<string>, id: nat)
    requires Inv(q) && id in p.pending && Answered(parse, p, q, id)
    ensures Answered(parse, p, HandleLines(parse, q, lines), id)
    decreases |lines|
  {
    hide Answered, HandleLine, Inv;
    if lines != [] {
      LinesAnswer(parse, p, q, lines[..|lines| - 1], id);
      HandleLinesKeepInv(parse, q, lines[..|lines| - 1]);
      LineAnswers(parse, p, HandleLines(parse, q, lines[..|lines| - 1]), lines[|lines| - 1], id);
    }
  }

  // ---------- every cause ----------

  lemma DataAnswers(parse: Parser, p: Proc, q: Proc, chunk: string, id: nat)
    requires Inv(q) && id in p.pending && Answered(parse, p, q, id)
    ensures Answered(parse, p, Feed(parse, q, chunk), id)
  {
    hide HandleLines, Parts, Answered, Inv;
    var parts := Parts(q.lineBuffer + chunk);
    FeedShape(parse, q, chunk);
    LinesAnswer(parse, p, q, Front(parts), id);
    BufferIsNoAnswer(parse, p, HandleLines(parse, q, Front(parts)), Last(parts), id);
  }

  lemma BufferIsNoAnswer(parse: Parser, p: Proc, q: Proc, b: string, id: nat)
    requires Answered(parse, p, q, id)
    ensures Answered(parse, p, q.(lineBuffer := b), id)
  {
  }

  lemma SendSpares(parse: Parser, p: Proc, q: Proc, writable: bool, id: nat)
    requires Inv(q) && id in p.pending && id in q.sent && Answered(parse, p, q, id)
    ensures Answered(parse, p, Send(q, writable), id)
  {
    hide SettlementsOf, FirstAnswer, RequestOk;
    SettleOne(q.settled, Settlement(q.counter + 1, Thrown), id);
  }

  lemma TimerSpares(parse: Parser, p: Proc, q: Proc, other: nat, id: nat)
    requires Inv(q) && id in p.pending && other != id && Answered(parse, p, q, id)
    ensures Answered(parse, p, Timeout(q, other), id)
  {
    hide SettlementsOf, FirstAnswer, RequestOk, Settle;
    SettleKeepsHeard(q, other, TimedOut);
    SettleSettles(q, other, TimedOut, id);
  }

  /** Whatever is neither its timer nor the exit leaves a request to the lines that answer it. */
  lemma StepAnswers(parse: Parser, p: Proc, q: Proc, e: Event, id: nat)
    requires Inv(q) && id in p.pending && id in q.sent && Answered(parse, p, q, id)
    requires e != TimerFires(id) && e != Exits
    ensures Answered(parse, p, Step(parse, q, e), id)
  {
    hide Answered, Inv, Feed, Send, Timeout;
    match e
    case Sends(writable) => SendSpares(parse, p, q, writable, id);
    case Data(chunk) => DataAnswers(parse, p, q, chunk, id);
    case TimerFires(other) => TimerSpares(parse, p, q, other, id);
    case _ => RestSpares(parse, p, q, e, id);
  }

  lemma RestSpares(parse: Parser, p: Proc, q: Proc, e: Event, id: nat)
    requires Answered(parse, p, q, id) && (e.OtherSends? || e.Killed? || e.CleansUp?)
    ensures Answered(parse, p, Step(parse, q, e), id)
  {
    hide SettlementsOf, FirstAnswer;
  }

  lemma SentStays(parse: Parser, p: Proc, e: Event, id: nat)
    requires id in p.sent
    ensures id in Step(parse, p, e).sent
  {
    hide HandleLines, Parts;
    if e.Data? {
      FeedShape(parse, p, e.chunk);
      LinesSendNothing(parse, p, Front(Parts(p.lineBuffer + e.chunk)));
    }
  }

  lemma LineSendsNothing(parse: Parser, p: Proc, line: string)
    ensures var p' := HandleLine(parse, p, line);
      p'.sent == p.sent && p'.counter == p.counter && p'.alive == p.alive && p'.listed == p.listed
      && p'.killed == p.killed
  {
    hide Trim, Remove;
  }

  lemma {:induction false} LinesSendNothing(parse: Parser, p: Proc, lines: seq<string>)
    ensures var p' := HandleLines(parse, p, lines);
      p'.sent == p.sent && p'.counter == p.counter && p'.alive == p.alive && p'.listed == p.listed
      && p'.killed == p.killed
    decreases |lines|
  {
    hide HandleLine;
    if lines != [] {
      LinesSendNothing(parse, p, lines[..|lines| - 1]);
      LineSendsNothing(parse, HandleLines(parse, p, lines[..|lines| - 1]), lines[|lines| - 1]);
    }
  }

  lemma NothingHeardYet(parse: Parser, p: Proc, id: nat)
    requires Inv(p) && id in p.pending
    ensures Answered(parse, p, p, id) && id in p.sent
  {
    hide SettlementsOf, RequestOk;
    assert p.heard[|p.heard|..] == [];
  }

  /** In every run a waiting request is settled by the first line heard that answers it, rejected if and only if that
      line carries an error and resolved otherwise; as long as no line does, and neither its timer fires nor the
      process exits, it goes on waiting. */
  lemma {:induction false} AnswerSettles(
      parse: Parser, counter: nat, before: seq<Event>, after: seq<Event>, id: nat)
    requires id in Run(parse, Spawned(counter), before).pending
    requires TimerFires(id) !in after && Exits !in after
    ensures Answered(parse, Run(parse, Spawned(counter), before),
                     Run(parse, Run(parse, Spawned(counter), before), after), id)
    ensures id in Run(parse, Run(parse, Spawned(counter), before), after).sent
    ensures Inv(Run(parse, Run(parse, Spawned(counter), before), after))
    decreases |after|
  {
    hide Step, Answered, Inv;
    var p := Run(parse, Spawned(counter), before);
    if after == [] {
      RunKeepsInv(parse, counter, before);
      NothingHeardYet(parse, p, id);
    } else {
      var front, e := after[..|after| - 1], after[|after| - 1];
      AnswerSettles(parse, counter, before, front, id);
      StepAnswers(parse, p, Run(parse, p, front), e, id);
      SentStays(parse, Run(parse, p, front), e, id);
      StepKeepsInv(parse, Run(parse, p, front), e);
    }
  }

  /** The timer of a waiting request settles it as timed out, and the exit of the process as exited. */
  lemma TimerAndExitSettle(parse: Parser, counter: nat, events: seq<Event>, id: nat)
    requires id in Run(parse, Spawned(counter), events).pending
    ensures var p := Run(parse, Spawned(counter), events);
      && SettledAs(p, Step(parse, p, TimerFires(id)), id, Outcome.TimedOut)
      && SettledAs(p, Step(parse, p, Exits), id, Exited)
  {
    hide Run, SettlementsOf, RequestOk, Settle;
    RunKeepsInv(parse, counter, events);
    var p := Run(parse, Spawned(counter), events);
    SettleSettles(p, id, Outcome.TimedOut, id);
    ExitSettlesEach(p.settled, p.pending, id);
  }

  // ---------- when a request is taken ----------

  /** What a request needs: the process is in the table and has neither exited nor been killed. */
  ghost predicate Alive(events: seq<Event>) { Exits !in events && Killed !in events }

  /** The kill was followed by the exit or the clean-up. */
  ghost predicate Dropped(events: seq<Event>) {
    exists i: nat, j: nat :: i < j < |events| && events[i] == Killed && (events[j] == Exits || events[j] == CleansUp)
  }

  lemma DroppedMore(events: seq<Event>, e: Event)
    ensures Dropped(events + [e]) <==> Dropped(events) || (Killed in events && (e == Exits || e == CleansUp))
  {
    var all := events + [e];
    if Dropped(events) {
      var i: nat, j: nat :| i < j < |events| && events[i] == Killed && (events[j] == Exits || events[j] == CleansUp);
      assert all[i] == Killed && all[j] == events[j];
    }
    if Killed in events && (e == Exits || e == CleansUp) {
      var i: nat :| i < |events| && events[i] == Killed;
      assert all[i] == Killed && all[|events|] == e;
    }
    if Dropped(all) && !Dropped(events) {
      var i: nat, j: nat :| i < j < |all| && all[i] == Killed && (all[j] == Exits || all[j] == CleansUp);
      assert j == |events| && events[i] == Killed;
    }
  }

  /** In every run the process is alive if and only if it has neither exited nor been killed, and leaves the table if
      and only if the exit or the clean-up came after the kill. */
  lemma {:induction false} AliveIff(parse: Parser, counter: nat, events: seq<Event>)
    ensures var p := Run(parse, Spawned(counter), events);
      && (p.alive <==> Alive(events)) && (p.listed <==> !Dropped(events)) && (p.killed <==> Killed in events)
    decreases |events|
  {
    hide Dropped, Feed;
    if events == [] {
      NothingDropped();
    } else {
      var front, e := events[..|events| - 1], events[|events| - 1];
      AliveIff(parse, counter, front);
      assert events == front + [e];
      assert forall x :: x in events <==> x in front || x == e;
      DroppedMore(front, e);
      DroppedWasKilled(front);
      if e.Data? { DataKeepsAlive(parse, Run(parse, Spawned(counter), front), e.chunk); }
    }
  }

  lemma NothingDropped()
    ensures !Dropped([])
  {
  }

  lemma DataKeepsAlive(parse: Parser, p: Proc, chunk: string)
    ensures var p' := Feed(parse, p, chunk);
      p'.alive == p.alive && p'.listed == p.listed && p'.killed == p.killed && p'.sent == p.sent
      && p'.counter == p.counter
  {
    hide HandleLines, Parts;
    FeedShape(parse, p, chunk);
    LinesSendNothing(parse, p, Front(Parts(p.lineBuffer + chunk)));
  }

  /** A request is taken if and only if the process is alive: under the next number, listed last and timed; otherwise
      nothing happens at all. */
  lemma SendIsTakenIff(parse: Parser, counter: nat, events: seq<Event>, writable: bool)
    ensures var p := Run(parse, Spawned(counter), events);
      var p' := Step(parse, p, Sends(writable));
      if Alive(events) then
        && p'.pending == p.pending + [p.counter + 1] && p'.timers == p.timers + {p.counter + 1}
        && p.counter + 1 !in p.pending && p'.counter == p.counter + 1
        && (p'.settled == if writable then p.settled else p.settled + [Settlement(p.counter + 1, Thrown)])
      else p' == p
  {
    hide Run, Dropped, SettlementsOf, RequestOk;
    AliveIff(parse, counter, events);
    RunKeepsInv(parse, counter, events);
    DroppedWasKilled(events);
  }

  /** How many numbers were drawn: one for each request taken here, and one for each of the other processes. */
  ghost function Drawn(events: seq<Event>): nat {
    if events == [] then 0
    else
      var front, e := events[..|events| - 1], events[|events| - 1];
      Drawn(front) + if e.OtherSends? || (e.Sends? && Alive(front)) then 1 else 0
  }

  /** The processes share one count of requests. */
  lemma {:induction false} NumbersAreShared(parse: Parser, counter: nat, events: seq<Event>)
    ensures Run(parse, Spawned(counter), events).counter == counter + Drawn(events)
    decreases |events|
  {
    hide Feed, Alive;
    if events != [] {
      var front, e := events[..|events| - 1], events[|events| - 1];
      NumbersAreShared(parse, counter, front);
      if e.Sends? { SendIsTakenIff(parse, counter, front, e.writable); }
      if e.Data? { DataKeepsAlive(parse, Run(parse, Spawned(counter), front), e.chunk); }
    }
  }

  lemma DroppedWasKilled(events: seq<Event>)
    ensures Dropped(events) ==> Killed in events
  {
  }

  ghost predicate Ascending(ids: seq<nat>) { forall i, j | 0 <= i < j < |ids| :: ids[i] < ids[j] }

  lemma {:induction false} RemoveKeepsOrder(ids: seq<nat>, id: nat)
    requires Ascending(ids)
    ensures Ascending(Remove(ids, id))
    decreases |ids|
  {
    if ids != [] {
      RemoveKeepsOrder(ids[1..], id);
      Removed(ids[1..], id);
      var tail := Remove(ids[1..], id);
      forall k | 0 <= k < |tail|
        ensures ids[0] < tail[k]
      {
        assert tail[k] in ids[1..];
      }
    }
  }

  lemma {:induction false} LinesKeepOrder(parse: Parser, p: Proc, lines: seq<string>)
    requires Ascending(p.pending)
    ensures Ascending(HandleLines(parse, p, lines).pending)
    decreases |lines|
  {
    hide Trim, Ascending, Remove;
    if lines != [] {
      LinesKeepOrder(parse, p, lines[..|lines| - 1]);
      var q := HandleLines(parse, p, lines[..|lines| - 1]);
      forall id
        ensures Ascending(Remove(q.pending, id))
      {
        RemoveKeepsOrder(q.pending, id);
      }
    }
  }

  lemma StepKeepsOrder(parse: Parser, p: Proc, e: Event)
    requires Inv(p) && Ascending(p.pending)
    ensures Ascending(Step(parse, p, e).pending)
  {
    hide HandleLines, Parts, RequestOk, SettlementsOf;
    match e
    case Data(chunk) =>
      FeedShape(parse, p, chunk);
      LinesKeepOrder(parse, p, Front(Parts(p.lineBuffer + chunk)));
    case TimerFires(id) => RemoveKeepsOrder(p.pending, id);
    case Sends(_) =>
      forall i | 0 <= i < |p.pending|
        ensures p.pending[i] <= p.counter
      {
        assert p.pending[i] in p.sent;
      }
    case _ =>
  }

  /** The table lists the waiting requests in the order in which they were sent. */
  lemma {:induction false} PendingInOrder(parse: Parser, counter: nat, events: seq<Event>)
    ensures Ascending(Run(parse, Spawned(counter), events).pending)
    decreases |events|
  {
    hide Step, Inv;
    if events != [] {
      PendingInOrder(parse, counter, events[..|events| - 1]);
      RunKeepsInv(parse, counter, events[..|events| - 1]);
      StepKeepsOrder(parse, Run(parse, Spawned(counter), events[..|events| - 1]), events[|events| - 1]);
    }
  }
}

/** The promises of the turn scheduler over whole runs: safety, exact map contents, progress. */
module TurnSchedulerTheorems {
  import opened Options
  import opened TurnSchedulerProofs
  import opened TurnSchedulerSpec

  // ---------- safety ----------

  /** At most one task per session, at most `max` slots per user, no lost wakeup, FIFO on both levels. */
  lemma SafetyOfEveryRun(max: nat, steps: seq<Step>)
    requires ValidRun(INITIAL, max, steps)
    ensures var s := Run(INITIAL, max, steps);
      && (forall u :: Get(s.running, u, 0) == |Holders(s.tickets, u)| <= max)
      && (forall u :: Get(s.queues, u, []) != [] ==> Get(s.running, u, 0) == max)
      && (forall a: nat, b: nat | a < |s.tickets| && b < |s.tickets| && s.tickets[a].session == s.tickets[b].session
            && InSession(s.tickets[a].phase) && InSession(s.tickets[b].phase) :: a == b)
      && (forall a: nat, b: nat | a < b < |s.tickets| && s.tickets[a].session == s.tickets[b].session
            && (InSession(s.tickets[b].phase) || s.tickets[b].phase.Done?) :: s.tickets[a].phase.Done?)
      && NoOvertaking(s.tickets)
  {
    InitialInv(max);
    RunKeepsInv(INITIAL, max, steps);
    var s := Run(INITIAL, max, steps);
    forall u
      ensures Get(s.running, u, 0) == |Holders(s.tickets, u)| <= max
      ensures Get(s.queues, u, []) != [] ==> Get(s.running, u, 0) == max
    {
      assert RunningOk(s, max, u);
    }
    forall a: nat, b: nat | a < b < |s.tickets| && s.tickets[a].session == s.tickets[b].session
      && (InSession(s.tickets[b].phase) || s.tickets[b].phase.Done?)
      ensures s.tickets[a].phase.Done?
    {
      assert AllEarlierDone(s.tickets, b);
    }
  }

  ghost predicate Unfinished(s: State, k: string, t: nat) {
    t < |s.tickets| && s.tickets[t].session == k && !s.tickets[t].phase.Done?
  }

  /** What the four maps mean in every reachable state. */
  lemma MapsConserveTheirMeaning(max: nat, steps: seq<Step>)
    requires ValidRun(INITIAL, max, steps)
    ensures var s := Run(INITIAL, max, steps);
      && (forall k :: k in s.tail <==> exists t: nat :: Unfinished(s, k, t))
      && (forall k :: Get(s.depth, k, 0) == |Behind(s.tickets, k)|)
      && (forall k :: k in s.depth <==> Behind(s.tickets, k) != {})
      && (forall u :: u in s.running <==> Holders(s.tickets, u) != {})
      && (forall u :: u in s.queues <==> SomeoneInLine(s.tickets, u))
  {
    InitialInv(max);
    RunKeepsInv(INITIAL, max, steps);
    var s := Run(INITIAL, max, steps);
    forall k
      ensures k in s.tail <==> exists t: nat :: Unfinished(s, k, t)
      ensures Get(s.depth, k, 0) == |Behind(s.tickets, k)|
      ensures k in s.depth <==> Behind(s.tickets, k) != {}
    {
      assert TailOk(s, k) && DepthOk(s, k);
      if k in s.tail {
        assert Unfinished(s, k, s.tail[k]);
      }
    }
    forall u
      ensures u in s.running <==> Holders(s.tickets, u) != {}
      ensures u in s.queues <==> SomeoneInLine(s.tickets, u)
    {
      assert RunningOk(s, max, u) && QueueOk(s, u);
      if u in s.queues {
        HeadIsQueued(s, u);
      }
    }
  }

  /** What becomes of the ticket that takes the step. A notice that throws rejects it exactly when it has to wait: on
      arrival behind unfinished work of its session, and once admitted for a slot, of which one is free exactly when
      fewer than the maximum are held and nobody is in line. */
  lemma TicketMoves(s: State, max: int, step: Step)
    requires Inv(s, max) && Enabled(s, step)
    ensures var ts, ts' := s.tickets, Apply(s, max, step).tickets;
      match step
      case Arrive(session, user, throws) =>
        && |ts'| == |ts| + 1 && ts'[..|ts|] == ts && ts'[|ts|].session == session && ts'[|ts|].user == user
        && (ts'[|ts|].phase.LostAtArrival? <==> throws && exists t: nat :: Unfinished(s, session, t))
        && (ts'[|ts|].phase.LostAtArrival? || ts'[|ts|].phase.WaitSession?)
      case Admit(t, throws) =>
        && |ts'| == |ts|
        && (ts'[t].phase.Granted? <==> |Holders(ts, ts[t].user)| < max && !SomeoneInLine(ts, ts[t].user))
        && (ts'[t].phase.Granted? || (if throws then ts'[t].phase.LostInQueue? else ts'[t].phase.WaitSlot?))
      case Resume(t) => ts' == ts[t := ts[t].(phase := Running)]
      case Finish(t) => |ts'| == |ts| && ts'[t].phase.Done?
  {
    match step
    case Arrive(session, user, _) =>
      assert TailOk(s, session);
      if session in s.tail { assert Unfinished(s, session, s.tail[session]); }
    case Admit(t, _) =>
      var user := s.tickets[t].user;
      assert RunningOk(s, max, user) && QueueOk(s, user);
      if user in s.queues { HeadIsQueued(s, user); }
    case Resume(_) =>
    case Finish(_) =>
  }

  ghost predicate SomeoneInLine(ts: seq<Ticket>, user: string) {
    exists t: nat :: t < |ts| && ts[t].user == user && Queued(ts[t].phase)
  }

  /** Neither clamp at zero ever changes a value: the counters are exact when they are decremented. */
  lemma ClampsNeverBite(s: State, max: int, t: nat)
    requires Inv(s, max) && t < |s.tickets|
    ensures s.tickets[t].phase.Running? ==> Get(s.running, s.tickets[t].user, 0) - 1 >= 0
    ensures s.tickets[t].phase.WaitSession? && s.tickets[t].pred.Some? ==>
      s.tickets[t].session in s.depth && s.depth[s.tickets[t].session] - 1 >= 0
  {
    var ticket := s.tickets[t];
    assert RunningOk(s, max, ticket.user) && DepthOk(s, ticket.session);
    if ticket.phase.Running? {
      assert t in Holders(s.tickets, ticket.user);
    }
    if WaitsBehind(ticket) {
      assert t in Behind(s.tickets, ticket.session);
    }
  }

  // ---------- progress ----------

  ghost predicate NoneLost(s: State) {
    forall t: nat | t < |s.tickets| :: !Lost(s.tickets[t].phase)
  }

  ghost predicate AllDone(s: State) {
    forall t: nat | t < |s.tickets| :: s.tickets[t].phase.Done?
  }

  ghost predicate CanMove(s: State, t: nat) {
    Enabled(s, Admit(t, false)) || Enabled(s, Resume(t)) || Enabled(s, Finish(t))
  }

  /** Nothing but a new arrival can happen. */
  ghost predicate Quiescent(s: State) {
    forall t: nat :: !CanMove(s, t)
  }

  ghost predicate MapsEmpty(s: State) {
    s.tail == map[] && s.depth == map[] && s.running == map[] && s.queues == map[]
  }

  lemma FirstUnfinished(s: State) returns (t: nat)
    requires !AllDone(s)
    ensures t < |s.tickets| && !s.tickets[t].phase.Done?
    ensures forall e: nat | e < t :: s.tickets[e].phase.Done?
  {
    t := 0;
    while s.tickets[t].phase.Done?
      invariant t < |s.tickets| && exists e: nat :: t <= e < |s.tickets| && !s.tickets[e].phase.Done?
      invariant forall e: nat | e < t :: s.tickets[e].phase.Done?
      decreases |s.tickets| - t
    {
      t := t + 1;
    }
  }

  /** With at least one slot and no rejected call, unfinished work always has a next step, also when
      every unfinished ticket holds its session while waiting for a user slot. */
  lemma NeverStuck(s: State, max: nat) returns (t: nat)
    requires Inv(s, max) && max >= 1 && NoneLost(s) && !AllDone(s)
    ensures CanMove(s, t)
  {
    t := FirstUnfinished(s);
    if s.tickets[t].phase.WaitSession? {
      assert PredOk(s.tickets, t);
    } else if s.tickets[t].phase.WaitSlot? {
      var user := s.tickets[t].user;
      assert QueueOk(s, user) && RunningOk(s, max, user);
      assert t in Get(s.queues, user, []);
      var h :| h in Holders(s.tickets, user);
      t := h;
    }
  }

  function Rank(p: Phase): nat {
    match p
    case WaitSession => 4
    case WaitSlot | LostInQueue => 3
    case Granted | Leaked => 2
    case Running => 1
    case Done | LostAtArrival => 0
  }

  /** Work left: how many more steps the tickets present can still take at most. */
  function Work(ts: seq<Ticket>): nat {
    if ts == [] then 0 else Work(ts[..|ts| - 1]) + Rank(ts[|ts| - 1].phase)
  }

  lemma {:induction false} WorkUpdate(ts: seq<Ticket>, t: nat, x: Ticket)
    requires t < |ts|
    ensures Work(ts[t := x]) == Work(ts) - Rank(ts[t].phase) + Rank(x.phase)
  {
    var n := |ts| - 1;
    if t < n {
      assert ts[t := x][..n] == ts[..n][t := x];
      WorkUpdate(ts[..n], t, x);
    } else {
      assert ts[t := x][..n] == ts[..n];
    }
  }

  lemma {:induction false} WorkBound(ts: seq<Ticket>)
    ensures Work(ts) <= 4 * |ts|
  {
    if ts != [] {
      WorkBound(ts[..|ts| - 1]);
    }
  }

  /** A hand-over moves the woken ticket one rank down as well. */
  lemma FinishDecreasesWork(s: State, s': State, t: nat)
    requires Finished(s, s', t)
    ensures Work(s'.tickets) < Work(s.tickets) && |s'.tickets| == |s.tickets|
  {
    hide Work;
    var mid := s.tickets[t := s'.tickets[t]];
    WorkUpdate(s.tickets, t, s'.tickets[t]);
    var queue := Get(s.queues, s.tickets[t].user, []);
    if queue == [] {
      assert s'.tickets == mid;
    } else {
      WorkUpdate(mid, queue[0], s'.tickets[queue[0]]);
      assert s'.tickets == mid[queue[0] := s'.tickets[queue[0]]];
    }
  }

  lemma StepDecreasesWork(s: State, max: int, step: Step)
    requires Inv(s, max) && Enabled(s, step) && !step.Arrive?
    ensures Work(Apply(s, max, step).tickets) < Work(s.tickets)
    ensures |Apply(s, max, step).tickets| == |s.tickets|
  {
    hide AdmitStep, FinishStep, SessionInv, Work, Finished;
    match step
    case Admit(t, throws) =>
      AdmitShape(s, max, t, throws);
      AdmitDecreasesWork(s, AdmitStep(s, max, t, throws), max, t);
    case Resume(t) =>
      WorkUpdate(s.tickets, t, s.tickets[t].(phase := Running));
    case Finish(t) =>
      OwnQueueOk(s, max, s.tickets[t].user);
      FinishShape(s, t);
      FinishDecreasesWork(s, FinishStep(s, t), t);
  }

  lemma OwnQueueOk(s: State, max: int, user: string)
    requires Inv(s, max)
    ensures QueueOk(s, user)
  {
  }

  lemma AdmitDecreasesWork(s: State, s': State, max: int, t: nat)
    requires Admitted(s, s', max, t)
    ensures Work(s'.tickets) < Work(s.tickets) && |s'.tickets| == |s.tickets|
  {
    hide Work;
    WorkUpdate(s.tickets, t, s'.tickets[t]);
    assert s'.tickets == s.tickets[t := s'.tickets[t]];
  }

  ghost predicate NoArrivals(steps: seq<Step>) {
    forall i | 0 <= i < |steps| :: !steps[i].Arrive?
  }

  /** Every queue notice of the run returns normally. */
  ghost predicate NoticesReturn(steps: seq<Step>) {
    forall i | 0 <= i < |steps| ::
      (steps[i].Admit? ==> !steps[i].noticeThrows) && (steps[i].Arrive? ==> !steps[i].noticeThrows)
  }

  lemma StepLosesNone(s: State, max: int, step: Step)
    requires Inv(s, max) && Enabled(s, step) && NoticesReturn([step]) && NoneLost(s)
    ensures NoneLost(Apply(s, max, step))
  {
    hide Inv, FinishStep;
    assert [step][0] == step;
    if step.Finish? {
      OwnQueueOk(s, max, s.tickets[step.ticket].user);
      FinishShape(s, step.ticket);
    }
  }

  lemma {:induction false} DrainBound(s: State, max: int, steps: seq<Step>)
    requires Inv(s, max) && ValidRun(s, max, steps) && NoArrivals(steps)
    ensures |steps| + Work(Run(s, max, steps).tickets) <= Work(s.tickets)
    ensures |Run(s, max, steps).tickets| == |s.tickets|
    decreases |steps|
  {
    hide Inv, Enabled, Apply, Work;
    if steps != [] {
      StepDecreasesWork(s, max, steps[0]);
      StepKeepsInv(s, max, steps[0]);
      DrainBound(Apply(s, max, steps[0]), max, steps[1..]);
    }
  }

  lemma {:induction false} RunLosesNone(s: State, max: int, steps: seq<Step>)
    requires Inv(s, max) && ValidRun(s, max, steps) && NoticesReturn(steps) && NoneLost(s)
    ensures NoneLost(Run(s, max, steps))
    decreases |steps|
  {
    if steps != [] {
      assert [steps[0]][0] == steps[0];
      StepLosesNone(s, max, steps[0]);
      StepKeepsInv(s, max, steps[0]);
      RunLosesNone(Apply(s, max, steps[0]), max, steps[1..]);
    }
  }

  lemma HeadIsQueued(s: State, u: string)
    requires QueueOk(s, u) && u in s.queues
    ensures s.queues[u] != [] && s.queues[u][0] < |s.tickets| && Queued(s.tickets[s.queues[u][0]].phase)
  {
    var q := Get(s.queues, u, []);
    assert q[0] < |s.tickets|;
  }

  lemma DoneMeansEmptyMaps(s: State, max: int)
    requires Inv(s, max) && AllDone(s)
    ensures MapsEmpty(s)
  {
    forall k
      ensures k !in s.tail && k !in s.depth && k !in s.running && k !in s.queues
    {
      assert TailOk(s, k) && DepthOk(s, k) && RunningOk(s, max, k) && QueueOk(s, k);
      assert Behind(s.tickets, k) == {} && Holders(s.tickets, k) == {};
      if k in s.queues {
        HeadIsQueued(s, k);
      }
    }
  }

  /** When the event loop has nothing left to do, the maps are clean exactly if no queue notice
      had rejected a call on the way. */
  lemma QuiescentMapsEmptyIffNoneLost(s: State, max: nat)
    requires Inv(s, max) && max >= 1 && Quiescent(s)
    ensures MapsEmpty(s) <==> NoneLost(s)
    ensures AllDone(s) <==> NoneLost(s)
  {
    if NoneLost(s) {
      if !AllDone(s) {
        var t := NeverStuck(s, max);
        assert false;
      }
      DoneMeansEmptyMaps(s, max);
    } else {
      var t: nat :| t < |s.tickets| && Lost(s.tickets[t].phase);
      assert TailOk(s, s.tickets[t].session);
    }
  }

  lemma DrainCompletes(s: State, max: nat, drain: seq<Step>)
    requires max >= 1 && Inv(s, max) && NoneLost(s)
    requires ValidRun(s, max, drain) && NoArrivals(drain) && NoticesReturn(drain)
    ensures var end := Run(s, max, drain);
      && |drain| <= 4 * |s.tickets|
      && (Quiescent(end) <==> AllDone(end))
      && (AllDone(end) ==> MapsEmpty(end))
  {
    RunKeepsInv(s, max, drain);
    RunLosesNone(s, max, drain);
    DrainBound(s, max, drain);
    WorkBound(s.tickets);
    var end := Run(s, max, drain);
    if Quiescent(end) {
      QuiescentMapsEmptyIffNoneLost(end, max);
    }
    if AllDone(end) {
      DoneMeansEmptyMaps(end, max);
    }
  }

  /** Once arrivals stop, every schedule finishes every ticket after at most four steps a ticket,
      whatever the interleaving, and leaves the four maps empty. */
  lemma EveryTicketCompletes(max: nat, arrived: seq<Step>, drain: seq<Step>)
    requires max >= 1 && ValidRun(INITIAL, max, arrived) && NoticesReturn(arrived)
    requires ValidRun(Run(INITIAL, max, arrived), max, drain) && NoArrivals(drain) && NoticesReturn(drain)
    ensures var s := Run(INITIAL, max, arrived);
      var end := Run(s, max, drain);
      && |drain| <= 4 * |s.tickets|
      && (Quiescent(end) <==> AllDone(end))
      && (AllDone(end) ==> MapsEmpty(end))
  {
    InitialInv(max);
    RunKeepsInv(INITIAL, max, arrived);
    RunLosesNone(INITIAL, max, arrived);
    DrainCompletes(Run(INITIAL, max, arrived), max, drain);
  }

  // ---------- what a throwing notice costs ----------

  lemma LostStaysLost(s: State, max: int, step: Step, t: nat)
    requires Inv(s, max) && Enabled(s, step) && t < |s.tickets| && Lost(s.tickets[t].phase)
    ensures var s' := Apply(s, max, step);
      t < |s'.tickets| && Lost(s'.tickets[t].phase) && s'.tickets[t].session == s.tickets[t].session
      && (s.tickets[t].phase.Leaked? ==> s'.tickets[t].phase.Leaked?)
  {
    hide Inv, AdmitStep, FinishStep;
    match step
    case Admit(own, throws) => AdmitShape(s, max, own, throws);
    case Finish(own) =>
      OwnQueueOk(s, max, s.tickets[own].user);
      FinishShape(s, own);
    case _ =>
  }

  lemma {:induction false} LostForever(s: State, max: int, steps: seq<Step>, t: nat)
    requires Inv(s, max) && ValidRun(s, max, steps) && t < |s.tickets| && Lost(s.tickets[t].phase)
    ensures var end := Run(s, max, steps);
      && t < |end.tickets| && Lost(end.tickets[t].phase) && end.tickets[t].session == s.tickets[t].session
      && (s.tickets[t].phase.Leaked? ==> end.tickets[t].phase.Leaked?)
    decreases |steps|
  {
    if steps != [] {
      LostStaysLost(s, max, steps[0], t);
      StepKeepsInv(s, max, steps[0]);
      LostForever(Apply(s, max, steps[0]), max, steps[1..], t);
    }
  }

  /** A rejected call wedges its session for good: no later ticket of it is ever served, and a
      slot handed to a rejected call is never given back. */
  lemma RejectedCallWedgesItsSession(s: State, max: int, steps: seq<Step>, lost: nat)
    requires Inv(s, max) && ValidRun(s, max, steps) && lost < |s.tickets| && Lost(s.tickets[lost].phase)
    ensures var end := Run(s, max, steps);
      && s.tickets[lost].session in end.tail
      && (forall t: nat | lost < t < |end.tickets| && end.tickets[t].session == s.tickets[lost].session ::
            !Served(end.tickets[t].phase))
      && (s.tickets[lost].phase.Leaked? ==>
            lost < |end.tickets| && lost in Holders(end.tickets, end.tickets[lost].user))
  {
    LostForever(s, max, steps, lost);
    RunKeepsInv(s, max, steps);
    var end := Run(s, max, steps);
    assert TailOk(end, s.tickets[lost].session);
    forall t: nat | lost < t < |end.tickets| && end.tickets[t].session == s.tickets[lost].session
      ensures !Served(end.tickets[t].phase)
    {
      assert Served(end.tickets[t].phase) ==> AllEarlierDone(end.tickets, t);
    }
  }

  /** The two calls of the session after the notice of the second one threw and the first one got its slot. */
  lemma NoticeThrew(session: string, user: string, max: nat)
    requires max >= 1
    ensures AdmitStep(ArriveStep(ArriveStep(INITIAL, session, user, false), session, user, true), max, 0, false) ==
      State([Ticket(session, user, None, Granted, 0), Ticket(session, user, Some(0), LostAtArrival, 0)],
            map[session := 1], map[session := 1], map[user := 1], map[], 1)
  {
    var s2 := ArriveStep(ArriveStep(INITIAL, session, user, false), session, user, true);
    assert s2.tickets ==
      [Ticket(session, user, None, WaitSession, 0), Ticket(session, user, Some(0), LostAtArrival, 0)];
    assert s2.tail == map[session := 1] && s2.depth == map[session := 1];
  }

  lemma FirstCallFinishes(s: State, session: string, user: string, max: nat)
    requires s == State([Ticket(session, user, None, Granted, 0), Ticket(session, user, Some(0), LostAtArrival, 0)],
                        map[session := 1], map[session := 1], map[user := 1], map[], 1)
    ensures Enabled(s, Resume(0)) && Enabled(Apply(s, max, Resume(0)), Finish(0))
    ensures var end := FinishStep(Apply(s, max, Resume(0)), 0);
      Quiescent(end) && !AllDone(end) && end.tail == map[session := 1]
  {
    var end := FinishStep(Apply(s, max, Resume(0)), 0);
    assert |end.tickets| == 2 && end.tickets[0].phase.Done? && end.tickets[1].phase.LostAtArrival?;
  }

  /** The smallest such run: the notice of the second message throws, the first message completes,
      and nothing can move although the second call never released its session. */
  lemma ThrowingNoticeExample(session: string, user: string, max: nat)
    requires max >= 1
    ensures var steps := [Arrive(session, user, false), Arrive(session, user, true), Admit(0, false), Resume(0),
      Finish(0)];
      && ValidRun(INITIAL, max, steps)
      && var end := Run(INITIAL, max, steps);
      Quiescent(end) && !AllDone(end) && end.tail == map[session := 1]
  {
    var s1 := ArriveStep(INITIAL, session, user, false);
    var s2 := ArriveStep(s1, session, user, true);
    var s3 := AdmitStep(s2, max, 0, false);
    var s4 := Apply(s3, max, Resume(0));
    var s5 := FinishStep(s4, 0);
    NoticeThrew(session, user, max);
    FirstCallFinishes(s3, session, user, max);
    hide AdmitStep, FinishStep, Quiescent;
    RunOneMore(s4, max, Finish(0), []);
    RunOneMore(s3, max, Resume(0), [Finish(0)]);
    RunOneMore(s2, max, Admit(0, false), [Resume(0), Finish(0)]);
    RunOneMore(s1, max, Arrive(session, user, true), [Admit(0, false), Resume(0), Finish(0)]);
    RunOneMore(INITIAL, max, Arrive(session, user, false),
               [Arrive(session, user, true), Admit(0, false), Resume(0), Finish(0)]);
  }

  /** A run that begins with one more step. */
  lemma RunOneMore(s: State, max: int, step: Step, rest: seq<Step>)
    requires Enabled(s, step) && ValidRun(Apply(s, max, step), max, rest)
    ensures ValidRun(s, max, [step] + rest) && Run(s, max, [step] + rest) == Run(Apply(s, max, step), max, rest)
  {
    hide Enabled, Apply;
    assert ([step] + rest)[1..] == rest;
  }
}

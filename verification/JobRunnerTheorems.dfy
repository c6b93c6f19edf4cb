/** When a task has one handler call at a time, and when a terminal status is final. */
module JobRunnerTheorems {
  import opened JobRunnerSpec
  import opened JobRunnerProofs

  predicate Outstanding(s: State, i: nat, id: nat) {
    i < |s.invocations| && !s.invocations[i].settled && s.invocations[i].task == id
  }

  // ---------- one call at a time ----------

  /** No two unsettled calls of one task, and none of a task that could be claimed. */
  ghost predicate OneAtATime(s: State) {
    && (forall i: nat, id | Outstanding(s, i, id) :: id in s.tasks && !Claimable(s.tasks[id].status))
    && (forall i: nat, j: nat, id | Outstanding(s, i, id) && Outstanding(s, j, id) :: i == j)
  }

  /** No handler call of a running task is still unsettled. */
  ghost predicate Calm(s: State) {
    forall i: nat, id | Outstanding(s, i, id) && id in s.tasks :: !s.tasks[id].status.Running?
  }

  ghost predicate CalmRestarts(steps: seq<Step>) {
    forall k: nat | k < |steps| && steps[k].Starts? ::
      Run(INITIAL, steps[..k]).polling || Calm(Run(INITIAL, steps[..k]))
  }

  /** Statuses may change but not become claimable; calls may get signals or settle. */
  ghost predicate Quieter(s: State, s': State) {
    && s.tasks.Keys <= s'.tasks.Keys
    && (forall id | id in s.tasks && Claimable(s'.tasks[id].status) :: Claimable(s.tasks[id].status))
    && (forall i: nat, id | Outstanding(s', i, id) :: Outstanding(s, i, id))
  }

  lemma QuieterKeeps(s: State, s': State)
    requires OneAtATime(s) && Quieter(s, s')
    ensures OneAtATime(s')
  {
    hide Outstanding;
  }

  lemma QuieterTransitive(a: State, b: State, c: State)
    requires Quieter(a, b) && Quieter(b, c)
    ensures Quieter(a, c)
  {
    hide Outstanding;
  }

  lemma {:induction false} LoopsAreQuieter(s: State, ids: seq<nat>)
    ensures Quieter(s, ForceFailAll(s, ids)) && Quieter(s, CancelAll(s, ids))
    decreases |ids|
  {
    if ids != [] {
      var front, id := ids[..|ids| - 1], ids[|ids| - 1];
      LoopsAreQuieter(s, front);
      ForceFailIsQuieter(ForceFailAll(s, front), id);
      CancelIsQuieter(CancelAll(s, front), id);
      hide Quieter, ForceFail, CancelOne;
      QuieterTransitive(s, ForceFailAll(s, front), ForceFailAll(s, ids));
      QuieterTransitive(s, CancelAll(s, front), CancelAll(s, ids));
    }
  }

  lemma ForceFailIsQuieter(s: State, id: nat)
    ensures Quieter(s, ForceFail(s, id))
  {
  }

  lemma CancelIsQuieter(s: State, id: nat)
    ensures Quieter(s, CancelOne(s, id))
  {
  }

  lemma StartKeepsOne(s: State, id: nat, due: set<nat>)
    requires OneAtATime(s)
    ensures OneAtATime(StartTask(s, id, due))
  {
    var s' := StartTask(s, id, due);
    var n := |s.invocations|;
    if s'.invocations != s.invocations {
      forall i: nat, k | Outstanding(s', i, k)
        ensures (i == n && k == id) || (Outstanding(s, i, k) && k != id)
      {
        if i < n { assert Outstanding(s, i, k); }
      }
    } else {
      QuieterKeeps(s, s');
    }
  }

  lemma {:induction false} StartAllKeepsOne(s: State, ids: seq<nat>, due: set<nat>)
    requires OneAtATime(s)
    ensures OneAtATime(StartAll(s, ids, due))
    decreases |ids|
  {
    hide StartTask, OneAtATime;
    if ids != [] {
      StartAllKeepsOne(s, ids[..|ids| - 1], due);
      StartKeepsOne(StartAll(s, ids[..|ids| - 1], due), ids[|ids| - 1], due);
    }
  }

  lemma SettleKeepsOne(s: State, i: nat, outcome: Outcome)
    requires OneAtATime(s)
    ensures OneAtATime(Settle(s, i, outcome))
  {
    var s' := Settle(s, i, outcome);
    if i < |s.invocations| && !s.invocations[i].settled {
      var id := s.invocations[i].task;
      assert Outstanding(s, i, id);
      forall j: nat, k | Outstanding(s', j, k)
        ensures Outstanding(s, j, k) && k != id
      {
        assert Outstanding(s, j, k);
      }
    }
  }

  lemma AddKeepsOne(s: State, id: nat, maxRetries: nat, hasHandler: bool)
    requires OneAtATime(s)
    ensures OneAtATime(AddTask(s, id, maxRetries, hasHandler))
  {
    var s' := AddTask(s, id, maxRetries, hasHandler);
    forall i: nat, k | Outstanding(s', i, k)
      ensures Outstanding(s, i, k)
    {
    }
  }

  lemma RestartKeepsOne(s: State)
    requires OneAtATime(s) && (s.polling || Calm(s))
    ensures OneAtATime(Start(s))
  {
    forall i: nat, k | Outstanding(Start(s), i, k)
      ensures Outstanding(s, i, k)
    {
    }
  }

  predicate IsQuiet(step: Step) {
    step.AbandonsTick? || step.TimesOut? || step.Stops? || step.ClaimsDelivery? || step.EndsDelivery?
  }

  lemma QuietStep(s: State, step: Step)
    requires IsQuiet(step)
    ensures Quieter(s, Apply(s, step))
  {
    hide Timeout, Stop;
    match step
    case TimesOut(i) => QuietTimeout(s, i);
    case Stops => QuietStop(s);
    case _ =>
  }

  lemma QuietTimeout(s: State, i: nat)
    ensures Quieter(s, Timeout(s, i))
  {
  }

  lemma QuietStop(s: State)
    ensures Quieter(s, Stop(s))
  {
  }

  lemma BeginKeepsOne(s: State, stale: seq<nat>, pending: seq<nat>)
    requires OneAtATime(s)
    ensures OneAtATime(TickBegin(s, stale, pending))
  {
    hide ForceFailAll;
    LoopsAreQuieter(s, stale);
    hide OneAtATime;
    QuieterKeeps(s, s);
    if !s.stopped && !s.ticking { QuieterKeeps(s, TickBegin(s, stale, pending)); }
  }

  lemma EndKeepsOne(s: State, due: set<nat>)
    requires OneAtATime(s)
    ensures OneAtATime(TickEnd(s, due))
  {
    hide StartAll, OneAtATime;
    var slots := MAX_CONCURRENT - |s.running|;
    if s.ticking && slots > 0 {
      StartAllKeepsOne(s, s.snapshot[..Min(slots, |s.snapshot|)], due);
      QuieterKeeps(StartAll(s, s.snapshot[..Min(slots, |s.snapshot|)], due), TickEnd(s, due));
    } else {
      QuieterKeeps(s, TickEnd(s, due));
    }
  }

  lemma StepKeepsOne(s: State, step: Step)
    requires OneAtATime(s) && (step.Starts? ==> s.polling || Calm(s))
    ensures OneAtATime(Apply(s, step))
  {
    hide OneAtATime, Calm, Quieter, TickBegin, TickEnd, CancelAll, Settle, Start, AddTask;
    match step
    case BeginsTick(stale, pending) => BeginKeepsOne(s, stale, pending);
    case EndsTick(due) => EndKeepsOne(s, due);
    case Settles(i, outcome) => SettleKeepsOne(s, i, outcome);
    case Cancels(ids) =>
      LoopsAreQuieter(s, ids);
      QuieterKeeps(s, CancelAll(s, ids));
    case Adds(id, maxRetries, hasHandler) => AddKeepsOne(s, id, maxRetries, hasHandler);
    case Starts => RestartKeepsOne(s);
    case _ =>
      hide Apply;
      QuietStep(s, step);
      QuieterKeeps(s, Apply(s, step));
  }

  /** As long as every restart waits for the handlers of running tasks to settle, no task ever has
      two handler calls at work, and none is claimed while a call of it is unsettled. */
  lemma {:induction false} OneCallAtATime(steps: seq<Step>)
    requires CalmRestarts(steps)
    ensures OneAtATime(Run(INITIAL, steps))
    decreases |steps|
  {
    hide Apply, Calm;
    if steps == [] {
      assert Run(INITIAL, steps) == INITIAL;
      assert forall i: nat, id :: !Outstanding(INITIAL, i, id);
    } else {
      var n := |steps| - 1;
      assert CalmRestarts(steps[..n]) by {
        forall k: nat | k < n && steps[..n][k].Starts?
          ensures Run(INITIAL, steps[..n][..k]).polling || Calm(Run(INITIAL, steps[..n][..k]))
        {
          assert steps[..n][..k] == steps[..k];
        }
      }
      OneCallAtATime(steps[..n]);
      StepKeepsOne(Run(INITIAL, steps[..n]), steps[n]);
    }
  }

  // ---------- when a terminal status is final ----------

  /** Every unsettled call of the task carries the cancellation signal. */
  ghost predicate Silenced(s: State, id: nat) {
    forall i: nat | Outstanding(s, i, id) :: s.invocations[i].signal.CancelledByUser?
  }

  predicate HasStatus(s: State, id: nat, status: Status) { id in s.tasks && s.tasks[id].status == status }

  /** The row keeps its status and gets no outcome, no call of the task is added, and silence lasts. */
  ghost predicate StaysAsItIs(s: State, s': State, id: nat) {
    && id in s.tasks && HasStatus(s', id, s.tasks[id].status) && s'.tasks[id].outcomes == s.tasks[id].outcomes
    && Silenced(s', id) && CountOf(s'.invocations, id) == CountOf(s.invocations, id)
  }

  lemma SignalsKeepSilence(s: State, s': State, id: nat)
    requires id in s.tasks && Silenced(s, id) && SignalsStay(s, s', id)
    ensures StaysAsItIs(s, s', id)
  {
    CountSame(s.invocations, s'.invocations, id);
    forall i: nat | Outstanding(s', i, id)
      ensures s'.invocations[i].signal.CancelledByUser?
    {
      assert Outstanding(s, i, id);
    }
  }

  /** The row keeps its status and its outcomes, and no call is added, reopened or reprieved. */
  ghost predicate SignalsStay(s: State, s': State, id: nat) {
    && id in s.tasks && HasStatus(s', id, s.tasks[id].status) && s'.tasks[id].outcomes == s.tasks[id].outcomes
    && SameTasks(s.invocations, s'.invocations)
    && (forall i | 0 <= i < |s.invocations| :: s.invocations[i].settled ==> s'.invocations[i].settled)
    && (forall i | 0 <= i < |s.invocations| && s.invocations[i].signal.CancelledByUser? ::
          s'.invocations[i].signal.CancelledByUser?)
  }

  lemma ForceFailSignals(s: State, k: nat, id: nat)
    requires id in s.tasks && Terminal(s.tasks[id].status)
    ensures SignalsStay(s, ForceFail(s, k), id)
  {
  }

  lemma CancelSignals(s: State, k: nat, id: nat)
    requires id in s.tasks && Terminal(s.tasks[id].status)
    ensures SignalsStay(s, CancelOne(s, k), id)
  {
  }

  lemma {:induction false} LoopsLeaveTerminal(s: State, ids: seq<nat>, id: nat)
    requires id in s.tasks && Terminal(s.tasks[id].status) && Silenced(s, id)
    ensures StaysAsItIs(s, ForceFailAll(s, ids), id) && StaysAsItIs(s, CancelAll(s, ids), id)
    decreases |ids|
  {
    hide ForceFail, CancelOne, Silenced, CountOf, SignalsStay;
    if ids != [] {
      var front, k := ids[..|ids| - 1], ids[|ids| - 1];
      LoopsLeaveTerminal(s, front, id);
      ForceFailSignals(ForceFailAll(s, front), k, id);
      SignalsKeepSilence(ForceFailAll(s, front), ForceFail(ForceFailAll(s, front), k), id);
      CancelSignals(CancelAll(s, front), k, id);
      SignalsKeepSilence(CancelAll(s, front), CancelOne(CancelAll(s, front), k), id);
    }
  }

  lemma StartLeavesTerminal(s: State, k: nat, due: set<nat>, id: nat)
    requires id in s.tasks && Terminal(s.tasks[id].status) && Silenced(s, id)
    ensures StaysAsItIs(s, StartTask(s, k, due), id)
  {
    var s' := StartTask(s, k, due);
    if s'.invocations != s.invocations {
      CallLeavesTerminal(s, s', k, id);
    } else {
      SignalsKeepSilence(s, s', id);
    }
  }

  /** A call of another task. */
  lemma CallLeavesTerminal(s: State, s': State, k: nat, id: nat)
    requires id in s.tasks && Silenced(s, id) && id in s'.tasks && s'.tasks[id] == s.tasks[id]
    requires k != id && s'.invocations == s.invocations + [Invocation(k, Live, false)]
    ensures StaysAsItIs(s, s', id)
  {
    CountOneMore(s.invocations, Invocation(k, Live, false), id);
    forall i: nat | Outstanding(s', i, id)
      ensures s'.invocations[i].signal.CancelledByUser?
    {
      assert Outstanding(s, i, id);
    }
  }

  lemma {:induction false} StartAllLeavesTerminal(s: State, ids: seq<nat>, due: set<nat>, id: nat)
    requires id in s.tasks && Terminal(s.tasks[id].status) && Silenced(s, id)
    ensures StaysAsItIs(s, StartAll(s, ids, due), id)
    decreases |ids|
  {
    hide StartTask, Silenced, CountOf;
    if ids != [] {
      StartAllLeavesTerminal(s, ids[..|ids| - 1], due, id);
      StartLeavesTerminal(StartAll(s, ids[..|ids| - 1], due), ids[|ids| - 1], due, id);
    }
  }

  lemma SettleLeavesTerminal(s: State, i: nat, outcome: Outcome, id: nat)
    requires id in s.tasks && Terminal(s.tasks[id].status) && Silenced(s, id)
    ensures StaysAsItIs(s, Settle(s, i, outcome), id)
  {
    hide AfterSettling, StaysAsItIs;
    if i < |s.invocations| && !s.invocations[i].settled {
      assert s.invocations[i].task == id ==> Outstanding(s, i, id);
    }
    SignalsKeepSilence(s, Settle(s, i, outcome), id);
  }

  lemma BeginLeavesTerminal(s: State, stale: seq<nat>, pending: seq<nat>, id: nat)
    requires id in s.tasks && Terminal(s.tasks[id].status) && Silenced(s, id)
    ensures StaysAsItIs(s, TickBegin(s, stale, pending), id)
  {
    hide CountOf, ForceFailAll;
    LoopsLeaveTerminal(s, stale, id);
  }

  lemma EndLeavesTerminal(s: State, due: set<nat>, id: nat)
    requires id in s.tasks && Terminal(s.tasks[id].status) && Silenced(s, id)
    ensures StaysAsItIs(s, TickEnd(s, due), id)
  {
    hide CountOf, StartAll;
    var slots := MAX_CONCURRENT - |s.running|;
    if slots > 0 { StartAllLeavesTerminal(s, s.snapshot[..Min(slots, |s.snapshot|)], due, id); }
  }

  predicate IsOther(step: Step) {
    IsQuiet(step) || step.Adds? || step.Starts?
  }

  lemma OtherLeavesTerminal(s: State, step: Step, id: nat)
    requires IsOther(step) && id in s.tasks && Terminal(s.tasks[id].status) && Silenced(s, id)
    ensures StaysAsItIs(s, Apply(s, step), id)
  {
    hide Apply, Silenced, StaysAsItIs, SignalsStay;
    OtherKeepsSignals(s, step, id);
    SignalsKeepSilence(s, Apply(s, step), id);
  }

  lemma OtherKeepsSignals(s: State, step: Step, id: nat)
    requires IsOther(step) && id in s.tasks && Terminal(s.tasks[id].status)
    ensures SignalsStay(s, Apply(s, step), id)
  {
    hide SignalsStay, Timeout, Stop, Start, AddTask, ClaimDelivery, EndDelivery;
    match step
    case TimesOut(i) => TimeoutSignals(s, i, id);
    case Stops => StopSignals(s, id);
    case Starts => StartSignals(s, id);
    case _ => RowSignals(s, step, id);
  }

  lemma RowSignals(s: State, step: Step, id: nat)
    requires step.Adds? || step.AbandonsTick? || step.ClaimsDelivery? || step.EndsDelivery?
    requires id in s.tasks && Terminal(s.tasks[id].status)
    ensures SignalsStay(s, Apply(s, step), id)
  {
    hide SignalsStay;
    SameCallsSignals(s, Apply(s, step), id);
  }

  lemma TimeoutSignals(s: State, i: nat, id: nat)
    requires id in s.tasks
    ensures SignalsStay(s, Timeout(s, i), id)
  {
  }

  lemma StopSignals(s: State, id: nat)
    requires id in s.tasks
    ensures SignalsStay(s, Stop(s), id)
  {
  }

  lemma StartSignals(s: State, id: nat)
    requires id in s.tasks && Terminal(s.tasks[id].status)
    ensures SignalsStay(s, Start(s), id)
  {
  }

  lemma SameCallsSignals(s: State, s': State, id: nat)
    requires id in s.tasks && HasStatus(s', id, s.tasks[id].status) && s'.tasks[id].outcomes == s.tasks[id].outcomes
    requires s'.invocations == s.invocations
    ensures SignalsStay(s, s', id)
  {
  }

  lemma StepLeavesTerminal(s: State, step: Step, id: nat)
    requires id in s.tasks && Terminal(s.tasks[id].status) && Silenced(s, id)
    ensures StaysAsItIs(s, Apply(s, step), id)
  {
    hide Silenced, StaysAsItIs, TickBegin, TickEnd, Settle, CancelAll;
    match step
    case BeginsTick(stale, pending) => BeginLeavesTerminal(s, stale, pending, id);
    case EndsTick(due) => EndLeavesTerminal(s, due, id);
    case Settles(i, outcome) => SettleLeavesTerminal(s, i, outcome, id);
    case Cancels(ids) => LoopsLeaveTerminal(s, ids, id);
    case _ =>
      hide Apply;
      OtherLeavesTerminal(s, step, id);
  }

  /** A silenced terminal task keeps its status and is never run again, whatever happens: failing
      deliveries, ticks and restarts included. */
  lemma {:induction false} SilencedTerminalIsFinal(s: State, steps: seq<Step>, id: nat)
    requires id in s.tasks && Terminal(s.tasks[id].status) && Silenced(s, id)
    ensures StaysAsItIs(s, Run(s, steps), id)
    decreases |steps|
  {
    hide Apply, Silenced, CountOf;
    if steps != [] {
      SilencedTerminalIsFinal(s, steps[..|steps| - 1], id);
      StepLeavesTerminal(Run(s, steps[..|steps| - 1]), steps[|steps| - 1], id);
    }
  }

  ghost predicate FinalStatus(s: State, id: nat) {
    id in s.tasks && forall steps: seq<Step> :: HasStatus(Run(s, steps), id, s.tasks[id].status)
  }

  lemma OneStepRun(s: State, step: Step)
    ensures Run(s, [step]) == Apply(s, step)
  {
    assert [step][..0] == [];
    assert Run(s, []) == s;
  }

  /** A terminal status is final if and only if every unsettled call of the task was cancelled by the
      user: any other call still writes its own result when it settles. */
  lemma TerminalIsFinalIff(s: State, id: nat)
    requires id in s.tasks && Terminal(s.tasks[id].status)
    ensures FinalStatus(s, id) <==> Silenced(s, id)
  {
    if Silenced(s, id) {
      forall steps: seq<Step>
        ensures HasStatus(Run(s, steps), id, s.tasks[id].status)
      {
        SilencedTerminalIsFinal(s, steps, id);
      }
    } else {
      var i: nat :| Outstanding(s, i, id) && !s.invocations[i].signal.CancelledByUser?;
      var outcome := if s.tasks[id].status.Completed? then ThrewPermanent else Returned;
      OneStepRun(s, Settles(i, outcome));
      assert !HasStatus(Run(s, [Settles(i, outcome)]), id, s.tasks[id].status);
    }
  }

  /** The call the cancellation can reach: the registered one, not aborted before. */
  predicate Reachable(s: State, i: nat, id: nat)
    requires i < |s.invocations|
  {
    s.invocations[i].signal.CancelledByUser? || (id in s.active && s.active[id] == i && s.invocations[i].signal.Live?)
  }

  /** Cancelling a live task is final if and only if every unsettled call of it can be reached. */
  lemma CancellationIsFinalIff(s: State, id: nat)
    requires Inv(s) && id in s.tasks && !Terminal(s.tasks[id].status)
    ensures HasStatus(CancelOne(s, id), id, Cancelled)
    ensures FinalStatus(CancelOne(s, id), id) <==> forall i: nat | Outstanding(s, i, id) :: Reachable(s, i, id)
  {
    var s' := CancelOne(s, id);
    TerminalIsFinalIff(s', id);
    forall i: nat
      ensures Outstanding(s', i, id) <==> Outstanding(s, i, id)
      ensures Outstanding(s, i, id) ==> (s'.invocations[i].signal.CancelledByUser? <==> Reachable(s, i, id))
    {
    }
  }

  // ---------- what a status tells ----------

  /** Some step of the run was the return of a handler call of the task that the user had not cancelled. */
  ghost predicate ReturnedIn(steps: seq<Step>, id: nat) {
    exists k: nat :: k < |steps| && IsReturn(Run(INITIAL, steps[..k]), steps[k], id)
  }

  predicate IsReturn(s: State, step: Step, id: nat) {
    step.Settles? && step.outcome.Returned? && Outstanding(s, step.invocation, id)
      && !s.invocations[step.invocation].signal.CancelledByUser?
  }

  predicate IsCompleted(s: State, id: nat) { id in s.tasks && s.tasks[id].status.Completed? }

  lemma OneCompletesNothing(s: State, k: nat, due: set<nat>, id: nat)
    requires !IsCompleted(s, id)
    ensures !IsCompleted(ForceFail(s, k), id) && !IsCompleted(StartTask(s, k, due), id)
    ensures !IsCompleted(CancelOne(s, k), id)
  {
  }

  lemma {:induction false} LoopsCompleteNothing(s: State, ids: seq<nat>, due: set<nat>, id: nat)
    requires !IsCompleted(s, id)
    ensures !IsCompleted(ForceFailAll(s, ids), id) && !IsCompleted(StartAll(s, ids, due), id)
    ensures !IsCompleted(CancelAll(s, ids), id)
    decreases |ids|
  {
    if ids != [] {
      hide ForceFail, StartTask, CancelOne, IsCompleted;
      var front, k := ids[..|ids| - 1], ids[|ids| - 1];
      LoopsCompleteNothing(s, front, due, id);
      OneCompletesNothing(ForceFailAll(s, front), k, due, id);
      OneCompletesNothing(StartAll(s, front, due), k, due, id);
      OneCompletesNothing(CancelAll(s, front), k, due, id);
    }
  }

  lemma StepCompletesByReturn(s: State, step: Step, id: nat)
    requires !IsCompleted(s, id) && IsCompleted(Apply(s, step), id)
    ensures IsReturn(s, step, id)
  {
    match step
    case BeginsTick(stale, pending) => LoopsCompleteNothing(s, stale, {}, id);
    case EndsTick(due) =>
      var slots := MAX_CONCURRENT - |s.running|;
      if slots > 0 { LoopsCompleteNothing(s, s.snapshot[..Min(slots, |s.snapshot|)], due, id); }
    case Cancels(ids) => LoopsCompleteNothing(s, ids, {}, id);
    case _ =>
  }

  /** A task is completed only if some call of its handler returned without having been cancelled:
      no tick, timeout, restart or delivery completes it. */
  lemma {:induction false} CompletedOnlyByReturn(steps: seq<Step>, id: nat)
    requires IsCompleted(Run(INITIAL, steps), id)
    ensures ReturnedIn(steps, id)
    decreases |steps|
  {
    hide Apply;
    if steps != [] {
      var n := |steps| - 1;
      if IsCompleted(Run(INITIAL, steps[..n]), id) {
        CompletedOnlyByReturn(steps[..n], id);
        var k: nat :| k < n && IsReturn(Run(INITIAL, steps[..n][..k]), steps[..n][k], id);
        assert steps[..n][..k] == steps[..k];
        assert IsReturn(Run(INITIAL, steps[..k]), steps[k], id);
      } else {
        StepCompletesByReturn(Run(INITIAL, steps[..n]), steps[n], id);
      }
    }
  }

  // ---------- after a stop ----------

  lemma {:induction false} LoopsCallNothing(s: State, ids: seq<nat>)
    ensures |ForceFailAll(s, ids).invocations| == |s.invocations| == |CancelAll(s, ids).invocations|
    ensures CancelAll(s, ids).stopped == s.stopped && CancelAll(s, ids).ticking == s.ticking
    decreases |ids|
  {
    if ids != [] {
      LoopsCallNothing(s, ids[..|ids| - 1]);
    }
  }

  ghost predicate NoStarts(steps: seq<Step>) {
    forall i | 0 <= i < |steps| :: !steps[i].Starts?
  }

  lemma StepStaysQuiet(s: State, step: Step)
    requires s.stopped && !s.ticking && !step.Starts?
    ensures var s' := Apply(s, step);
      s'.stopped && !s'.ticking && |s'.invocations| == |s.invocations|
  {
    hide CancelAll;
    if step.Cancels? { LoopsCallNothing(s, step.ids); }
  }

  /** A stopped runner with no tick under way calls no handler until it is started again. */
  lemma {:induction false} StoppedIsQuiet(s: State, steps: seq<Step>)
    requires s.stopped && !s.ticking && NoStarts(steps)
    ensures var s' := Run(s, steps);
      s'.stopped && !s'.ticking && |s'.invocations| == |s.invocations|
    decreases |steps|
  {
    hide Apply;
    if steps != [] {
      var n := |steps| - 1;
      assert forall i | 0 <= i < n :: steps[..n][i] == steps[i];
      StoppedIsQuiet(s, steps[..n]);
      StepStaysQuiet(Run(s, steps[..n]), steps[n]);
    }
  }

  /** The task can be claimed now, has a handler, and is not running here. */
  predicate Startable(s: State, id: nat, due: set<nat>) {
    id in s.tasks && Claimable(s.tasks[id].status) && (s.tasks[id].status.Retrying? ==> id in due)
      && s.tasks[id].hasHandler && id !in s.running
  }

  lemma {:induction false} StartAllCallsIff(s: State, ids: seq<nat>, due: set<nat>)
    ensures var s' := StartAll(s, ids, due);
      && |s'.invocations| >= |s.invocations|
      && (|s'.invocations| > |s.invocations| <==> exists i :: 0 <= i < |ids| && Startable(s, ids[i], due))
      && (|s'.invocations| == |s.invocations| ==> s'.running == s.running && forall id :: Startable(s', id, due) <==>
          Startable(s, id, due))
    decreases |ids|
  {
    if ids != [] {
      var n := |ids| - 1;
      var front, id := ids[..n], ids[n];
      StartAllCallsIff(s, front, due);
      var s1 := StartAll(s, front, due);
      if exists i :: 0 <= i < n && Startable(s, front[i], due) {
        var i :| 0 <= i < n && Startable(s, front[i], due);
        assert Startable(s, ids[i], due);
      } else {
        assert forall i | 0 <= i < n :: front[i] == ids[i];
        assert Startable(s1, id, due) <==> Startable(s, id, due);
      }
    }
  }

  /** A tick that was under way at the stop still calls a handler if and only if one of the tasks it
      had picked can be started: the flag is not looked at again. */
  lemma StoppedTickCallsIff(s: State, due: set<nat>)
    requires s.ticking
    ensures var stopped := Stop(s);
      |TickEnd(stopped, due).invocations| > |stopped.invocations| <==>
        exists i :: 0 <= i < Min(MAX_CONCURRENT, |s.snapshot|) && Startable(stopped, s.snapshot[i], due)
  {
    hide StartAll, Startable;
    var stopped := Stop(s);
    var ids := s.snapshot[..Min(MAX_CONCURRENT, |s.snapshot|)];
    StartAllCallsIff(stopped, ids, due);
    assert forall i | 0 <= i < |ids| :: ids[i] == s.snapshot[i];
  }

  // ---------- the cases exist ----------

  lemma RunAppend(s: State, steps: seq<Step>, step: Step)
    ensures Run(s, steps + [step]) == Apply(Run(s, steps), step)
  {
    assert (steps + [step])[..|steps|] == steps;
  }

  const QUEUED := State(
    map[1 := Task(Pending, 0, 1, true, NoDelivery, 0, 0, 0, 0)], [], map[], map[], true, false, false, [])

  const CALLED := State(
    map[1 := Task(Running, 0, 1, true, NoDelivery, 0, 0, 0, 0)], [Invocation(1, Live, false)], map[1 := 0],
    map[1 := 0], true, false, false, [])

  const FIRST_PICK: seq<Step> := [Starts] + [Adds(1, 1, true)] + [BeginsTick([], [1])]

  const FIRST_CALL: seq<Step> := FIRST_PICK + [EndsTick({})]

  /** A tick that picked one task, with all slots free. */
  lemma PicksOne(s: State, id: nat, due: set<nat>)
    requires s.ticking && s.snapshot == [id] && s.running == map[]
    ensures Apply(s, EndsTick(due)) == StartTask(s, id, due).(ticking := false, snapshot := [])
  {
    hide StartTask;
    assert [id][..0] == [] && [id][..1] == [id];
    assert StartAll(s, [id], due) == StartTask(StartAll(s, [], due), id, due);
  }

  lemma FirstPick()
    ensures Run(INITIAL, FIRST_PICK) == QUEUED.(ticking := true, snapshot := [1])
  {
    RunAppend(INITIAL, [], Starts);
    assert [] + [Starts] == [Starts];
    RunAppend(INITIAL, [Starts], Adds(1, 1, true));
    RunAppend(INITIAL, [Starts] + [Adds(1, 1, true)], BeginsTick([], [1]));
  }

  /** After the first tick the handler of the only task is running. */
  lemma FirstCall()
    ensures Run(INITIAL, FIRST_CALL) == CALLED
  {
    hide Run;
    FirstPick();
    RunAppend(INITIAL, FIRST_PICK, EndsTick({}));
    PicksOne(QUEUED.(ticking := true, snapshot := [1]), 1, {});
  }

  lemma CancelsOne(s: State, id: nat)
    ensures Apply(s, Cancels([id])) == CancelOne(s, id)
  {
    assert [id][..0] == [];
    assert CancelAll(s, [id]) == CancelOne(CancelAll(s, []), id);
  }

  lemma FailsOne(s: State, id: nat)
    requires !s.stopped && !s.ticking
    ensures Apply(s, BeginsTick([id], [])) == ForceFail(s, id).(ticking := true, snapshot := [])
  {
    assert [id][..0] == [];
    assert ForceFailAll(s, [id]) == ForceFail(ForceFailAll(s, []), id);
  }

  /** A task cancelled after its timeout has fired comes back: the handler's error requeues it. */
  lemma CancelledTaskComesBack()
    ensures var s := Run(INITIAL, FIRST_CALL + [TimesOut(0)] + [Cancels([1])]);
      && HasStatus(s, 1, Cancelled)
      && HasStatus(Apply(s, Settles(0, Threw)), 1, Retrying)
  {
    hide Run, CancelAll;
    FirstCall();
    RunAppend(INITIAL, FIRST_CALL, TimesOut(0));
    RunAppend(INITIAL, FIRST_CALL + [TimesOut(0)], Cancels([1]));
    CancelsOne(Apply(CALLED, TimesOut(0)), 1);
  }

  /** So does a task that was failed as stale: its handler's error, when it comes, requeues it. */
  lemma FailedTaskComesBack()
    ensures var s := Run(INITIAL, FIRST_CALL + [BeginsTick([1], [])]);
      && HasStatus(s, 1, Failed)
      && HasStatus(Apply(s, Settles(0, Threw)), 1, Retrying)
  {
    hide Run, ForceFailAll;
    FirstCall();
    RunAppend(INITIAL, FIRST_CALL, BeginsTick([1], []));
    FailsOne(CALLED, 1);
  }

  lemma Restarted()
    ensures Run(INITIAL, FIRST_CALL + [Stops] + [Starts]) ==
      CALLED.(tasks := map[1 := Task(Retrying, 0, 1, true, NoDelivery, 0, 1, 0, 0)],
              invocations := [Invocation(1, TimedOut, false)], running := map[], active := map[])
  {
    hide Run;
    FirstCall();
    RunAppend(INITIAL, FIRST_CALL, Stops);
    RunAppend(INITIAL, FIRST_CALL + [Stops], Starts);
    var s := Apply(CALLED, Stops);
    assert s.active == map[];
    assert 0 in CALLED.running.Values by { assert CALLED.running[1] == 0; }
    assert s.invocations == [Invocation(1, TimedOut, false)];
  }

  /** A restart that does not wait for the aborted handler runs the task twice at a time. */
  lemma HastyRestartOverlaps()
    ensures var s := Run(INITIAL, FIRST_CALL + [Stops] + [Starts] + [BeginsTick([], [1])] + [EndsTick({1})]);
      Outstanding(s, 0, 1) && Outstanding(s, 1, 1)
  {
    hide Run, StartAll;
    var steps := FIRST_CALL + [Stops] + [Starts];
    Restarted();
    RunAppend(INITIAL, steps, BeginsTick([], [1]));
    RunAppend(INITIAL, steps + [BeginsTick([], [1])], EndsTick({1}));
    PicksOne(Apply(Run(INITIAL, steps), BeginsTick([], [1])), 1, {1});
  }

  /** A runner that is stopped while a tick is under way calls a handler all the same. */
  lemma StoppedRunnerCalls()
    ensures var s := Run(INITIAL, FIRST_PICK + [Stops]);
      && s.stopped && s.invocations == []
      && Apply(s, EndsTick({})).invocations == [Invocation(1, Live, false)]
  {
    hide Run, StartAll;
    FirstPick();
    RunAppend(INITIAL, FIRST_PICK, Stops);
    PicksOne(Run(INITIAL, FIRST_PICK + [Stops]), 1, {});
  }
}

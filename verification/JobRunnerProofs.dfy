/** Bounds and absorption for every interleaving of ticks, settlements, timeouts, cancellations,
    stops, restarts and deliveries. */
module JobRunnerProofs {
  import opened JobRunnerSpec

  // ---------- counting invocations ----------

  function CountOf(invocations: seq<Invocation>, id: nat): nat {
    if invocations == [] then 0
    else CountOf(invocations[..|invocations| - 1], id) + if invocations[|invocations| - 1].task == id then 1 else 0
  }

  /** Signals and settlements do not matter for the count. */
  ghost predicate SameTasks(a: seq<Invocation>, b: seq<Invocation>) {
    |a| == |b| && forall i | 0 <= i < |a| :: a[i].task == b[i].task
  }

  lemma {:induction false} CountSame(a: seq<Invocation>, b: seq<Invocation>, id: nat)
    requires SameTasks(a, b)
    ensures CountOf(a, id) == CountOf(b, id)
    decreases |a|
  {
    if a != [] {
      var n := |a| - 1;
      assert forall i | 0 <= i < n :: a[..n][i] == a[i] && b[..n][i] == b[i];
      CountSame(a[..n], b[..n], id);
    }
  }

  lemma CountOneMore(a: seq<Invocation>, x: Invocation, id: nat)
    ensures CountOf(a + [x], id) == CountOf(a, id) + if x.task == id then 1 else 0
  {
    assert (a + [x])[..|a|] == a;
  }

  // ---------- the invariant ----------

  /** The map of this runner and the shared map hold the same entries, each an unsettled call of its task. */
  ghost predicate EntriesOk(s: State) {
    && s.active == s.running
    && forall id | id in s.running ::
         s.running[id] < |s.invocations| && s.invocations[s.running[id]].task == id
           && !s.invocations[s.running[id]].settled
  }

  /** Every call used up a claim, and a claim comes from the first queueing, a retry or a recovery. */
  ghost predicate CreditOk(s: State, id: nat) {
    if id !in s.tasks then CountOf(s.invocations, id) == 0
    else
      var t := s.tasks[id];
      && t.retryCount <= t.maxRetries
      && CountOf(s.invocations, id) + (if Claimable(t.status) then 1 else 0) <= 1 + t.retryCount + t.recovered
  }

  ghost predicate Inv(s: State) {
    |s.running| <= MAX_CONCURRENT && EntriesOk(s) && forall id :: CreditOk(s, id)
  }

  /** A change of one row and of signals that gives nothing away. */
  ghost predicate Thrifty(a: Task, b: Task) {
    && b.maxRetries == a.maxRetries && b.retryCount == a.retryCount && b.recovered == a.recovered
    && (Claimable(b.status) ==> Claimable(a.status))
  }

  lemma ThriftyKeepsCredit(s: State, s': State)
    requires forall id :: CreditOk(s, id)
    requires s'.tasks.Keys == s.tasks.Keys && forall id | id in s.tasks :: Thrifty(s.tasks[id], s'.tasks[id])
    requires SameTasks(s.invocations, s'.invocations)
    ensures forall id :: CreditOk(s', id)
  {
    forall id
      ensures CreditOk(s', id)
    {
      assert CreditOk(s, id);
      CountSame(s.invocations, s'.invocations, id);
    }
  }

  lemma Shrinks(m: map<nat, nat>, id: nat)
    ensures |m - {id}| <= |m|
  {
    if id in m {
      assert m == (m - {id})[id := m[id]];
    } else {
      assert m - {id} == m;
    }
  }

  /** Dropping the entry of one task and touching signals only. */
  lemma DropEntryKeepsEntries(s: State, s': State, id: nat)
    requires EntriesOk(s) && s'.running == s'.active == s.running - {id}
    requires |s'.invocations| == |s.invocations|
    requires forall i | 0 <= i < |s.invocations| && s.invocations[i].task != id :: s'.invocations[i] == s.invocations[i]
    ensures EntriesOk(s') && |s'.running| <= |s.running|
  {
    Shrinks(s.running, id);
  }

  /** A force-failed running task: its entry is gone, its call at most aborted. */
  ghost predicate ForceFailed(s: State, s': State, id: nat) {
    && id in s.tasks && s'.tasks == s.tasks[id := FailTask(s.tasks[id])]
    && s'.running == s.running - {id} && s'.active == s'.running
    && SameTasks(s.invocations, s'.invocations)
    && forall i | 0 <= i < |s.invocations| && s.invocations[i].task != id :: s'.invocations[i] == s.invocations[i]
  }

  lemma ForceFailShape(s: State, id: nat)
    requires EntriesOk(s) && id in s.tasks && s.tasks[id].status.Running?
    ensures ForceFailed(s, ForceFail(s, id), id)
  {
    if id !in s.running {
      assert s.running - {id} == s.running;
    }
  }

  lemma ForceFailKeepsInv(s: State, id: nat)
    requires Inv(s)
    ensures Inv(ForceFail(s, id))
  {
    hide CreditOk, EntriesOk, ForceFail;
    if id in s.tasks && s.tasks[id].status.Running? {
      ForceFailShape(s, id);
      DropEntryKeepsEntries(s, ForceFail(s, id), id);
      ThriftyKeepsCredit(s, ForceFail(s, id));
    } else {
      NotForceFailed(s, id);
    }
  }

  lemma NotForceFailed(s: State, id: nat)
    requires !(id in s.tasks && s.tasks[id].status.Running?)
    ensures ForceFail(s, id) == s
  {
  }

  lemma {:induction false} ForceFailAllKeepsInv(s: State, ids: seq<nat>)
    requires Inv(s)
    ensures Inv(ForceFailAll(s, ids))
    decreases |ids|
  {
    hide ForceFail, Inv;
    if ids != [] {
      ForceFailAllKeepsInv(s, ids[..|ids| - 1]);
      ForceFailKeepsInv(ForceFailAll(s, ids[..|ids| - 1]), ids[|ids| - 1]);
    }
  }

  lemma Grows(m: map<nat, nat>, id: nat, n: nat)
    ensures |m[id := n]| <= |m| + 1
  {
    Shrinks(m, id);
    assert m[id := n] == (m - {id})[id := n];
  }

  lemma CallKeepsEntries(s: State, s': State, id: nat)
    requires EntriesOk(s)
    requires s'.running == s'.active == s.running[id := |s.invocations|]
    requires s'.invocations == s.invocations + [Invocation(id, Live, false)]
    ensures EntriesOk(s') && |s'.running| <= |s.running| + 1
  {
    Grows(s.running, id, |s.invocations|);
    forall k | k in s'.running
      ensures s'.running[k] < |s'.invocations|
      ensures s'.invocations[s'.running[k]].task == k && !s'.invocations[s'.running[k]].settled
    {
      if k != id { assert s'.invocations[s.running[k]] == s.invocations[s.running[k]]; }
    }
  }

  lemma CallKeepsCredit(s: State, s': State, id: nat)
    requires (forall k :: CreditOk(s, k)) && id in s.tasks && Claimable(s.tasks[id].status)
    requires s'.tasks == s.tasks[id := s.tasks[id].(status := Running)]
    requires s'.invocations == s.invocations + [Invocation(id, Live, false)]
    ensures forall k :: CreditOk(s', k)
  {
    hide CountOf;
    forall k
      ensures CreditOk(s', k)
    {
      assert CreditOk(s, k) && CreditOk(s, id);
      CountOneMore(s.invocations, Invocation(id, Live, false), k);
    }
  }

  lemma StartTaskKeeps(s: State, id: nat, due: set<nat>)
    requires EntriesOk(s) && forall k :: CreditOk(s, k)
    ensures var s' := StartTask(s, id, due);
      EntriesOk(s') && (forall k :: CreditOk(s', k)) && |s'.running| <= |s.running| + 1
  {
    hide CreditOk, EntriesOk;
    var s' := StartTask(s, id, due);
    if s'.invocations != s.invocations {
      ActiveIsRunning(s);
      CallKeepsEntries(s, s', id);
      CallKeepsCredit(s, s', id);
    } else {
      ThriftyKeepsCredit(s, s');
      SameEntries(s, s');
    }
  }

  lemma ActiveIsRunning(s: State)
    requires EntriesOk(s)
    ensures s.active == s.running
  {
  }

  lemma SameEntries(s: State, s': State)
    requires EntriesOk(s) && s'.running == s.running && s'.active == s.active && s'.invocations == s.invocations
    ensures EntriesOk(s')
  {
  }

  lemma {:induction false} StartAllKeeps(s: State, ids: seq<nat>, due: set<nat>)
    requires EntriesOk(s) && forall k :: CreditOk(s, k)
    ensures var s' := StartAll(s, ids, due);
      EntriesOk(s') && (forall k :: CreditOk(s', k)) && |s'.running| <= |s.running| + |ids|
    decreases |ids|
  {
    hide StartTask, EntriesOk, CreditOk;
    if ids != [] {
      var front := ids[..|ids| - 1];
      StartAllKeeps(s, front, due);
      StartTaskKeeps(StartAll(s, front, due), ids[|ids| - 1], due);
    }
  }

  lemma TickEndKeepsInv(s: State, due: set<nat>)
    requires Inv(s)
    ensures Inv(TickEnd(s, due))
  {
    hide StartAll, CreditOk;
    var slots := MAX_CONCURRENT - |s.running|;
    if s.ticking && slots > 0 {
      StartAllKeeps(s, s.snapshot[..Min(slots, |s.snapshot|)], due);
      SameCredits(StartAll(s, s.snapshot[..Min(slots, |s.snapshot|)], due), TickEnd(s, due));
    } else {
      SameCredits(s, TickEnd(s, due));
    }
  }

  lemma SameCredits(s: State, s': State)
    requires s'.tasks == s.tasks && s'.invocations == s.invocations && forall id :: CreditOk(s, id)
    ensures forall id :: CreditOk(s', id)
  {
    forall id
      ensures CreditOk(s', id)
    {
      assert CreditOk(s, id);
    }
  }

  lemma SettleKeepsCredit(s: State, i: nat, outcome: Outcome)
    requires forall id :: CreditOk(s, id)
    ensures forall id :: CreditOk(Settle(s, i, outcome), id)
  {
    hide CountOf;
    var s' := Settle(s, i, outcome);
    forall id
      ensures CreditOk(s', id)
    {
      assert CreditOk(s, id);
      CountSame(s.invocations, s'.invocations, id);
    }
  }

  lemma SettledEntries(s: State, i: nat, outcome: Outcome)
    requires i < |s.invocations| && !s.invocations[i].settled
    ensures var s', id := Settle(s, i, outcome), s.invocations[i].task;
      && s'.running == s.running - {id} && s'.active == s.active - {id}
      && s'.invocations == s.invocations[i := s.invocations[i].(settled := true)]
  {
    hide AfterSettling;
  }

  lemma SettleKeepsEntries(s: State, i: nat, outcome: Outcome)
    requires EntriesOk(s)
    ensures EntriesOk(Settle(s, i, outcome)) && |Settle(s, i, outcome).running| <= |s.running|
  {
    if i < |s.invocations| && !s.invocations[i].settled {
      SettledEntries(s, i, outcome);
      ActiveIsRunning(s);
      hide Settle, EntriesOk;
      DropEntryKeepsEntries(s, Settle(s, i, outcome), s.invocations[i].task);
    }
  }

  lemma SettleKeepsInv(s: State, i: nat, outcome: Outcome)
    requires Inv(s)
    ensures Inv(Settle(s, i, outcome))
  {
    hide CreditOk, EntriesOk, Settle;
    SettleKeepsCredit(s, i, outcome);
    SettleKeepsEntries(s, i, outcome);
  }

  lemma CancelKeepsEntries(s: State, id: nat)
    requires EntriesOk(s)
    ensures EntriesOk(CancelOne(s, id)) && CancelOne(s, id).running == s.running
  {
  }

  lemma CancelOneKeepsInv(s: State, id: nat)
    requires Inv(s)
    ensures Inv(CancelOne(s, id))
  {
    hide CreditOk, EntriesOk;
    CancelKeepsEntries(s, id);
    CancelIsThrifty(s, id);
    hide CancelOne;
    ThriftyKeepsCredit(s, CancelOne(s, id));
  }

  lemma CancelIsThrifty(s: State, id: nat)
    ensures var s' := CancelOne(s, id);
      && s'.tasks.Keys == s.tasks.Keys && SameTasks(s.invocations, s'.invocations)
      && forall k | k in s.tasks :: Thrifty(s.tasks[k], s'.tasks[k])
  {
  }

  lemma {:induction false} CancelAllKeepsInv(s: State, ids: seq<nat>)
    requires Inv(s)
    ensures Inv(CancelAll(s, ids))
    decreases |ids|
  {
    hide CancelOne, Inv;
    if ids != [] {
      CancelAllKeepsInv(s, ids[..|ids| - 1]);
      CancelOneKeepsInv(CancelAll(s, ids[..|ids| - 1]), ids[|ids| - 1]);
    }
  }

  lemma StopKeepsInv(s: State)
    requires Inv(s)
    ensures Inv(Stop(s))
  {
    ThriftyKeepsCredit(s, Stop(s));
  }

  lemma StartKeepsInv(s: State)
    requires Inv(s)
    ensures Inv(Start(s))
  {
    forall id
      ensures CreditOk(Start(s), id)
    {
      assert CreditOk(s, id);
    }
  }

  lemma AddKeepsInv(s: State, id: nat, maxRetries: nat, hasHandler: bool)
    requires Inv(s)
    ensures Inv(AddTask(s, id, maxRetries, hasHandler))
  {
    forall k
      ensures CreditOk(AddTask(s, id, maxRetries, hasHandler), k)
    {
      assert CreditOk(s, k);
    }
  }

  predicate OnlyRows(step: Step) {
    step.AbandonsTick? || step.TimesOut? || step.ClaimsDelivery? || step.EndsDelivery?
  }

  lemma TimeoutIsThrifty(s: State, i: nat)
    ensures Timeout(s, i).tasks == s.tasks && SameTasks(s.invocations, Timeout(s, i).invocations)
  {
  }

  lemma OneRowThrifty(s: State, s': State, id: nat, t: Task)
    requires id in s.tasks && Thrifty(s.tasks[id], t) && s' == s.(tasks := s.tasks[id := t])
    ensures s'.tasks.Keys == s.tasks.Keys && SameTasks(s.invocations, s'.invocations)
    ensures forall k | k in s.tasks :: Thrifty(s.tasks[k], s'.tasks[k])
  {
  }

  lemma NoRowThrifty(s: State)
    ensures SameTasks(s.invocations, s.invocations) && forall k | k in s.tasks :: Thrifty(s.tasks[k], s.tasks[k])
  {
  }

  lemma RowsAreThrifty(s: State, step: Step)
    requires OnlyRows(step)
    ensures var s' := Apply(s, step);
      && s'.tasks.Keys == s.tasks.Keys && SameTasks(s.invocations, s'.invocations)
      && forall k | k in s.tasks :: Thrifty(s.tasks[k], s'.tasks[k])
  {
    hide Timeout, Thrifty, SameTasks, Claimed, Ended;
    NoRowThrifty(s);
    match step
    case TimesOut(i) => TimeoutIsThrifty(s, i);
    case ClaimsDelivery(id) =>
      if id in s.tasks && Deliverable(s.tasks[id]) {
        DeliveryIsThrifty(s.tasks[id], true);
        OneRowThrifty(s, ClaimDelivery(s, id), id, Claimed(s.tasks[id]));
      }
    case EndsDelivery(id, sent) =>
      if id in s.tasks && s.tasks[id].sending > 0 {
        DeliveryIsThrifty(s.tasks[id], sent);
        OneRowThrifty(s, EndDelivery(s, id, sent), id, Ended(s.tasks[id], sent));
      }
    case _ =>
  }

  lemma DeliveryIsThrifty(t: Task, sent: bool)
    ensures Thrifty(t, Claimed(t))
    ensures t.sending > 0 ==> Thrifty(t, Ended(t, sent))
  {
  }

  lemma RowsKeepEntries(s: State, step: Step)
    requires OnlyRows(step) && EntriesOk(s)
    ensures EntriesOk(Apply(s, step)) && Apply(s, step).running == s.running
  {
  }

  lemma BeginKeepsInv(s: State, stale: seq<nat>, pending: seq<nat>)
    requires Inv(s)
    ensures Inv(TickBegin(s, stale, pending))
  {
    hide CreditOk, ForceFailAll;
    ForceFailAllKeepsInv(s, stale);
    SameCredits(ForceFailAll(s, stale), ForceFailAll(s, stale).(ticking := true, snapshot := pending));
  }

  lemma StepKeepsInv(s: State, step: Step)
    requires Inv(s)
    ensures Inv(Apply(s, step))
  {
    hide CreditOk, EntriesOk, TickBegin, TickEnd, Settle, CancelAll, Stop, Start, AddTask;
    match step
    case Adds(id, maxRetries, hasHandler) => AddKeepsInv(s, id, maxRetries, hasHandler);
    case BeginsTick(stale, pending) => BeginKeepsInv(s, stale, pending);
    case EndsTick(due) => TickEndKeepsInv(s, due);
    case Settles(i, outcome) => SettleKeepsInv(s, i, outcome);
    case Cancels(ids) => CancelAllKeepsInv(s, ids);
    case Stops => StopKeepsInv(s);
    case Starts => StartKeepsInv(s);
    case _ =>
      hide Apply;
      RowsAreThrifty(s, step);
      RowsKeepEntries(s, step);
      ThriftyKeepsCredit(s, Apply(s, step));
  }

  lemma {:induction false} RunKeepsInv(steps: seq<Step>)
    ensures Inv(Run(INITIAL, steps))
    decreases |steps|
  {
    if steps != [] {
      hide Apply, Inv;
      RunKeepsInv(steps[..|steps| - 1]);
      StepKeepsInv(Run(INITIAL, steps[..|steps| - 1]), steps[|steps| - 1]);
    } else {
      hide Apply;
    }
  }

  // ---------- bounds over every run ----------

  /** At most three running entries, always; and no task's handler is called more often than its
      retries and the restarts that found it running allow. */
  lemma BoundsOfEveryRun(steps: seq<Step>)
    ensures var s := Run(INITIAL, steps);
      && |s.running| <= MAX_CONCURRENT
      && s.active == s.running
      && (forall id | id in s.tasks ::
            CountOf(s.invocations, id) <= 1 + s.tasks[id].retryCount + s.tasks[id].recovered
            <= 1 + s.tasks[id].maxRetries + s.tasks[id].recovered)
  {
    RunKeepsInv(steps);
    var s := Run(INITIAL, steps);
    forall id | id in s.tasks
      ensures CountOf(s.invocations, id) <= 1 + s.tasks[id].retryCount + s.tasks[id].recovered
      ensures s.tasks[id].retryCount <= s.tasks[id].maxRetries
    {
      assert CreditOk(s, id);
    }
  }

  /** Each start but one at the very beginning finds the runner polling. */
  ghost predicate NoRestarts(steps: seq<Step>) {
    forall i: nat | i < |steps| && steps[i].Starts? :: i == 0 || Run(INITIAL, steps[..i]).polling
  }

  ghost predicate NeverRecovered(s: State) {
    forall id | id in s.tasks :: s.tasks[id].recovered == 0
  }

  lemma {:induction false} LoopsRecoverNothing(s: State, ids: seq<nat>, due: set<nat>)
    requires NeverRecovered(s)
    ensures NeverRecovered(ForceFailAll(s, ids)) && NeverRecovered(StartAll(s, ids, due))
    ensures NeverRecovered(CancelAll(s, ids))
    decreases |ids|
  {
    if ids != [] {
      var front, id := ids[..|ids| - 1], ids[|ids| - 1];
      LoopsRecoverNothing(s, front, due);
      OneRecoversNothing(ForceFailAll(s, front), id, due);
      OneRecoversNothing(StartAll(s, front, due), id, due);
      OneRecoversNothing(CancelAll(s, front), id, due);
      hide ForceFail, StartTask, CancelOne, NeverRecovered;
    }
  }

  lemma OneRecoversNothing(s: State, id: nat, due: set<nat>)
    requires NeverRecovered(s)
    ensures NeverRecovered(ForceFail(s, id)) && NeverRecovered(StartTask(s, id, due))
    ensures NeverRecovered(CancelOne(s, id))
  {
  }

  lemma StepRecoversNothing(s: State, step: Step)
    requires NeverRecovered(s) && (step.Starts? ==> s.polling || s.tasks == map[])
    ensures NeverRecovered(Apply(s, step))
  {
    hide ForceFailAll, StartAll, CancelAll;
    match step
    case BeginsTick(stale, pending) => LoopsRecoverNothing(s, stale, {});
    case EndsTick(due) =>
      LoopsRecoverNothing(s, s.snapshot[..Min(Max0(MAX_CONCURRENT - |s.running|), |s.snapshot|)], due);
    case Cancels(ids) => LoopsRecoverNothing(s, ids, {});
    case _ =>
  }

  lemma FrontNotRestarted(steps: seq<Step>)
    requires NoRestarts(steps) && steps != []
    ensures NoRestarts(steps[..|steps| - 1])
    ensures steps[|steps| - 1].Starts? ==> |steps| == 1 || Run(INITIAL, steps[..|steps| - 1]).polling
  {
    hide Run;
    var front := steps[..|steps| - 1];
    forall i: nat | i < |front| && front[i].Starts?
      ensures i == 0 || Run(INITIAL, front[..i]).polling
    {
      assert front[i] == steps[i] && front[..i] == steps[..i];
    }
  }

  lemma {:induction false} NoRestartsNoRecovery(steps: seq<Step>)
    requires NoRestarts(steps)
    ensures NeverRecovered(Run(INITIAL, steps))
    decreases |steps|
  {
    hide Apply, NoRestarts;
    if steps != [] {
      FrontNotRestarted(steps);
      NoRestartsNoRecovery(steps[..|steps| - 1]);
      StepRecoversNothing(Run(INITIAL, steps[..|steps| - 1]), steps[|steps| - 1]);
    }
  }

  function Max0(n: int): nat { if n < 0 then 0 else n }

  /** While the runner is not restarted a handler is called at most `max_retries + 1` times, however
      often deliveries fail, tasks time out or are force-failed. */
  lemma CallsAreBounded(steps: seq<Step>, id: nat)
    requires NoRestarts(steps) && id in Run(INITIAL, steps).tasks
    ensures CountOf(Run(INITIAL, steps).invocations, id) <= Run(INITIAL, steps).tasks[id].maxRetries + 1
  {
    BoundsOfEveryRun(steps);
    NoRestartsNoRecovery(steps);
  }
}

/** How often a result is handed to its channel, and when that is over. */
module JobRunnerDelivery {
  import opened JobRunnerProofs
  import opened JobRunnerSpec
  import opened JobRunnerTheorems

  // ---------- one row ----------

  function One(b: bool): nat { if b then 1 else 0 }

  /** Each outcome allows one claim beyond those that the attempts limit leaves open. */
  predicate AttemptsOk(t: Task) {
    && t.sending <= t.attempts
    && (t.outcomes == 0 ==> t.attempts == 0 && t.delivery.NoDelivery?)
    && (t.outcomes > 0 ==> t.attempts + One(t.delivery.Due?) < MAX_ATTEMPTS + t.outcomes)
    && (t.delivery.Redelivering? ==> t.attempts < MAX_ATTEMPTS)
  }

  /** All attempts are used up, and no claim is open. */
  predicate GivenUp(t: Task) { t.attempts >= MAX_ATTEMPTS && !Deliverable(t) }

  /** What a step may do to a row as far as its delivery goes. */
  ghost predicate RowStep(t: Task, t': Task) {
    && t'.outcomes >= t.outcomes
    && (AttemptsOk(t) ==> AttemptsOk(t'))
    && (GivenUp(t) && t'.outcomes == t.outcomes ==> GivenUp(t') && t'.attempts == t.attempts)
  }

  lemma RowSteps(t: Task, sent: bool)
    ensures RowStep(t, t) && RowStep(t, t.(status := Running)) && RowStep(t, RecoverTask(t))
    ensures RowStep(t, CompleteTask(t)) && RowStep(t, FailTask(t)) && RowStep(t, MarkRetrying(t))
    ensures RowStep(t, CancelTask(t))
    ensures Deliverable(t) ==> RowStep(t, Claimed(t))
    ensures t.sending > 0 && AttemptsOk(t) ==> RowStep(t, Ended(t, sent))
  {
  }

  lemma RowStepTwice(a: Task, b: Task, c: Task)
    requires RowStep(a, b) && RowStep(b, c)
    ensures RowStep(a, c)
  {
  }

  // ---------- one step ----------

  ghost predicate AttemptsInv(s: State) {
    forall id | id in s.tasks :: AttemptsOk(s.tasks[id])
  }

  /** All rows make a row step; rows that are added are as new. */
  ghost predicate RowsStep(s: State, s': State) {
    && (forall id | id in s.tasks :: id in s'.tasks && RowStep(s.tasks[id], s'.tasks[id]))
    && (forall id | id in s'.tasks && id !in s.tasks :: AttemptsOk(s'.tasks[id]))
  }

  lemma RowsStay(s: State, s': State)
    requires s'.tasks == s.tasks
    ensures RowsStep(s, s')
  {
    hide RowStep;
    forall id | id in s.tasks
      ensures RowStep(s.tasks[id], s'.tasks[id])
    {
      RowSteps(s.tasks[id], true);
    }
  }

  lemma OneRowStep(s: State, s': State, id: nat, t: Task)
    requires id in s.tasks && s'.tasks == s.tasks[id := t] && RowStep(s.tasks[id], t)
    ensures RowsStep(s, s')
  {
    hide RowStep;
    forall k | k in s.tasks
      ensures RowStep(s.tasks[k], s'.tasks[k])
    {
      RowSteps(s.tasks[k], true);
    }
  }

  lemma RowsStepTwice(a: State, b: State, c: State)
    requires RowsStep(a, b) && RowsStep(b, c)
    ensures RowsStep(a, c)
  {
    hide RowStep, AttemptsOk;
    forall id | id in a.tasks
      ensures RowStep(a.tasks[id], c.tasks[id])
    {
      RowStepTwice(a.tasks[id], b.tasks[id], c.tasks[id]);
    }
    forall id | id in c.tasks && id !in a.tasks
      ensures AttemptsOk(c.tasks[id])
    {
      if id in b.tasks { RowStepOk(b.tasks[id], c.tasks[id]); }
    }
  }

  lemma RowStepOk(t: Task, t': Task)
    requires RowStep(t, t') && AttemptsOk(t)
    ensures AttemptsOk(t')
  {
  }

  lemma ForceFailRows(s: State, id: nat)
    ensures RowsStep(s, ForceFail(s, id))
  {
    hide RowStep, FailTask;
    RowsStay(s, s);
    if id in s.tasks && s.tasks[id].status.Running? {
      RowSteps(s.tasks[id], true);
      OneRowStep(s, ForceFail(s, id), id, FailTask(s.tasks[id]));
    }
  }

  lemma CancelRows(s: State, id: nat)
    ensures RowsStep(s, CancelOne(s, id))
  {
    hide RowStep, CancelTask;
    RowsStay(s, s);
    if id in s.tasks && !Terminal(s.tasks[id].status) {
      RowSteps(s.tasks[id], true);
      OneRowStep(s, CancelOne(s, id), id, CancelTask(s.tasks[id]));
    }
  }

  lemma StartTaskRows(s: State, id: nat, due: set<nat>)
    ensures RowsStep(s, StartTask(s, id, due))
  {
    hide RowStep, FailTask;
    RowsStay(s, s);
    if id in s.tasks {
      RowSteps(s.tasks[id], true);
      var s' := StartTask(s, id, due);
      if s' != s { OneRowStep(s, s', id, s'.tasks[id]); }
    }
  }

  lemma {:induction false} LoopRows(s: State, ids: seq<nat>, due: set<nat>)
    ensures RowsStep(s, ForceFailAll(s, ids)) && RowsStep(s, CancelAll(s, ids)) && RowsStep(s, StartAll(s, ids, due))
    decreases |ids|
  {
    hide RowsStep, ForceFail, CancelOne, StartTask;
    if ids == [] {
      RowsStay(s, s);
    } else {
      var front, id := ids[..|ids| - 1], ids[|ids| - 1];
      LoopRows(s, front, due);
      ForceFailRows(ForceFailAll(s, front), id);
      CancelRows(CancelAll(s, front), id);
      StartTaskRows(StartAll(s, front, due), id, due);
      RowsStepTwice(s, ForceFailAll(s, front), ForceFailAll(s, ids));
      RowsStepTwice(s, CancelAll(s, front), CancelAll(s, ids));
      RowsStepTwice(s, StartAll(s, front, due), StartTask(StartAll(s, front, due), id, due));
    }
  }

  lemma BeginRows(s: State, stale: seq<nat>, pending: seq<nat>)
    ensures RowsStep(s, TickBegin(s, stale, pending))
  {
    hide RowsStep, ForceFailAll;
    RowsStay(s, s);
    LoopRows(s, stale, {});
    RowsStay(ForceFailAll(s, stale), TickBegin(s, stale, pending).(tasks := ForceFailAll(s, stale).tasks));
    if !s.stopped && !s.ticking { RowsStepTwice(s, ForceFailAll(s, stale), TickBegin(s, stale, pending)); }
  }

  lemma EndRows(s: State, due: set<nat>)
    ensures RowsStep(s, TickEnd(s, due))
  {
    hide RowsStep, StartAll;
    var s' := TickEnd(s, due);
    if s'.tasks == s.tasks {
      RowsStay(s, s');
    } else {
      var started := StartAll(s, s.snapshot[..Min(MAX_CONCURRENT - |s.running|, |s.snapshot|)], due);
      LoopRows(s, s.snapshot[..Min(MAX_CONCURRENT - |s.running|, |s.snapshot|)], due);
      RowsStay(started, s');
      RowsStepTwice(s, started, s');
    }
  }

  lemma SettleRows(s: State, i: nat, outcome: Outcome)
    ensures RowsStep(s, Settle(s, i, outcome))
  {
    hide RowsStep, CompleteTask, FailTask, MarkRetrying;
    var s' := Settle(s, i, outcome);
    if s'.tasks == s.tasks {
      RowsStay(s, s');
    } else {
      var id := s.invocations[i].task;
      RowSteps(s.tasks[id], true);
      OneRowStep(s, s', id, AfterSettling(s.tasks[id], outcome));
    }
  }

  lemma StartRows(s: State)
    ensures RowsStep(s, Start(s))
  {
    hide RowStep, RecoverTask;
    RowsStay(s, s);
    forall id | id in s.tasks
      ensures RowStep(s.tasks[id], RecoverTask(s.tasks[id]))
    {
      RowSteps(s.tasks[id], true);
    }
  }

  lemma DeliveryRows(s: State, id: nat, sent: bool)
    requires AttemptsInv(s)
    ensures RowsStep(s, ClaimDelivery(s, id)) && RowsStep(s, EndDelivery(s, id, sent))
  {
    hide RowsStep, RowStep, AttemptsOk, Claimed, Ended;
    RowsStay(s, s);
    if id in s.tasks {
      RowSteps(s.tasks[id], sent);
      if Deliverable(s.tasks[id]) { OneRowStep(s, ClaimDelivery(s, id), id, Claimed(s.tasks[id])); }
      if s.tasks[id].sending > 0 { OneRowStep(s, EndDelivery(s, id, sent), id, Ended(s.tasks[id], sent)); }
    }
  }

  lemma AddRows(s: State, id: nat, maxRetries: nat, hasHandler: bool)
    ensures RowsStep(s, AddTask(s, id, maxRetries, hasHandler))
  {
    hide RowStep;
    RowsStay(s, s);
    var s' := AddTask(s, id, maxRetries, hasHandler);
    forall k | k in s.tasks
      ensures RowStep(s.tasks[k], s'.tasks[k])
    {
      RowSteps(s.tasks[k], true);
    }
  }

  lemma StepRows(s: State, step: Step)
    requires AttemptsInv(s)
    ensures RowsStep(s, Apply(s, step))
  {
    hide RowsStep, AttemptsInv, TickBegin, TickEnd, Settle, CancelAll, Start, AddTask, ClaimDelivery, EndDelivery;
    match step
    case Adds(id, maxRetries, hasHandler) => AddRows(s, id, maxRetries, hasHandler);
    case BeginsTick(stale, pending) => BeginRows(s, stale, pending);
    case EndsTick(due) => EndRows(s, due);
    case AbandonsTick => RowsStay(s, Apply(s, step));
    case Settles(i, outcome) => SettleRows(s, i, outcome);
    case TimesOut(i) => RowsStay(s, Timeout(s, i));
    case Cancels(ids) => LoopRows(s, ids, {});
    case Stops => RowsStay(s, Stop(s));
    case Starts => StartRows(s);
    case ClaimsDelivery(id) => DeliveryRows(s, id, true);
    case EndsDelivery(id, sent) => DeliveryRows(s, id, sent);
  }

  lemma RowsKeepAttempts(s: State, s': State)
    requires AttemptsInv(s) && RowsStep(s, s')
    ensures AttemptsInv(s')
  {
    hide RowStep, AttemptsOk;
    forall id | id in s'.tasks
      ensures AttemptsOk(s'.tasks[id])
    {
      if id in s.tasks { RowStepOk(s.tasks[id], s'.tasks[id]); }
    }
  }

  lemma {:induction false} RunRows(s: State, steps: seq<Step>)
    requires AttemptsInv(s)
    ensures RowsStep(s, Run(s, steps)) && AttemptsInv(Run(s, steps))
    decreases |steps|
  {
    hide Apply, RowsStep, AttemptsInv;
    if steps == [] {
      RowsStay(s, s);
    } else {
      var before := Run(s, steps[..|steps| - 1]);
      RunRows(s, steps[..|steps| - 1]);
      StepRows(before, steps[|steps| - 1]);
      RowsStepTwice(s, before, Run(s, steps));
      RowsKeepAttempts(before, Run(s, steps));
    }
  }

  // ---------- how many outcomes there can be ----------

  function UnsettledOf(invocations: seq<Invocation>, id: nat): nat {
    if invocations == [] then 0
    else
      var last := invocations[|invocations| - 1];
      UnsettledOf(invocations[..|invocations| - 1], id) + One(last.task == id && !last.settled)
  }

  lemma UnsettledOneMore(a: seq<Invocation>, x: Invocation, id: nat)
    ensures UnsettledOf(a + [x], id) == UnsettledOf(a, id) + One(x.task == id && !x.settled)
  {
    assert (a + [x])[..|a|] == a;
  }

  /** Signals do not matter for the count. */
  ghost predicate SameButSignals(a: seq<Invocation>, b: seq<Invocation>) {
    |a| == |b| && forall i | 0 <= i < |a| :: a[i].task == b[i].task && a[i].settled == b[i].settled
  }

  lemma {:induction false} UnsettledSame(a: seq<Invocation>, b: seq<Invocation>, id: nat)
    requires SameButSignals(a, b)
    ensures UnsettledOf(a, id) == UnsettledOf(b, id)
    decreases |a|
  {
    if a != [] {
      var n := |a| - 1;
      assert forall i | 0 <= i < n :: a[..n][i] == a[i] && b[..n][i] == b[i];
      UnsettledSame(a[..n], b[..n], id);
    }
  }

  lemma {:induction false} UnsettledWithout(a: seq<Invocation>, i: nat, id: nat)
    requires i < |a| && !a[i].settled
    ensures UnsettledOf(a[i := a[i].(settled := true)], id) + One(a[i].task == id) == UnsettledOf(a, id)
    decreases |a|
  {
    var n := |a| - 1;
    var b := a[i := a[i].(settled := true)];
    if i == n {
      assert b[..n] == a[..n];
    } else {
      assert b[..n] == a[..n][i := a[..n][i].(settled := true)];
      UnsettledWithout(a[..n], i, id);
    }
  }

  /** A call can bring two outcomes, one when it is failed as stale and one when it settles; a claim of a task
      without a handler brings one. */
  ghost predicate OutcomesOk(s: State, id: nat) {
    if id !in s.tasks then UnsettledOf(s.invocations, id) == 0
    else
      var t := s.tasks[id];
      t.outcomes + UnsettledOf(s.invocations, id) + One(t.status.Running?) + 2 * One(Claimable(t.status))
        <= 2 * (1 + t.retryCount + t.recovered)
  }

  ghost predicate OutcomesInv(s: State) {
    forall id :: OutcomesOk(s, id)
  }

  /** A change of one row that writes no outcome and opens no way to one. */
  ghost predicate Frugal(t: Task, t': Task) {
    && t'.outcomes <= t.outcomes + One(t.status.Running? && !t'.status.Running?)
    && t'.retryCount == t.retryCount && t'.recovered == t.recovered
    && (Claimable(t'.status) ==> Claimable(t.status))
    && (t'.status.Running? ==> t.status.Running?)
  }

  lemma FrugalRows(t: Task, sent: bool)
    ensures Frugal(t, t) && Frugal(t, CancelTask(t)) && (t.status.Running? ==> Frugal(t, FailTask(t)))
    ensures Frugal(t, Claimed(t)) && (t.sending > 0 ==> Frugal(t, Ended(t, sent)))
  {
  }

  lemma FrugalKeeps(s: State, s': State)
    requires OutcomesInv(s) && SameButSignals(s.invocations, s'.invocations)
    requires s'.tasks.Keys == s.tasks.Keys && forall id | id in s.tasks :: Frugal(s.tasks[id], s'.tasks[id])
    ensures OutcomesInv(s')
  {
    forall id
      ensures OutcomesOk(s', id)
    {
      assert OutcomesOk(s, id);
      UnsettledSame(s.invocations, s'.invocations, id);
    }
  }

  lemma OneRowFrugal(s: State, s': State, id: nat, t: Task)
    requires OutcomesInv(s) && SameButSignals(s.invocations, s'.invocations)
    requires id in s.tasks && s'.tasks == s.tasks[id := t] && Frugal(s.tasks[id], t)
    ensures OutcomesInv(s')
  {
    hide OutcomesInv, Frugal;
    forall k | k in s.tasks
      ensures Frugal(s.tasks[k], s'.tasks[k])
    {
      FrugalRows(s.tasks[k], true);
    }
    FrugalKeeps(s, s');
  }

  lemma SameRowsFrugal(s: State, s': State)
    requires OutcomesInv(s) && SameButSignals(s.invocations, s'.invocations) && s'.tasks == s.tasks
    ensures OutcomesInv(s')
  {
    hide OutcomesInv, Frugal;
    forall k | k in s.tasks
      ensures Frugal(s.tasks[k], s'.tasks[k])
    {
      FrugalRows(s.tasks[k], true);
    }
    FrugalKeeps(s, s');
  }

  lemma ForceFailFrugal(s: State, id: nat)
    requires OutcomesInv(s)
    ensures OutcomesInv(ForceFail(s, id))
  {
    hide OutcomesInv, Frugal, FailTask;
    if id in s.tasks && s.tasks[id].status.Running? {
      FrugalRows(s.tasks[id], true);
      OneRowFrugal(s, ForceFail(s, id), id, FailTask(s.tasks[id]));
    }
  }

  lemma CancelFrugal(s: State, id: nat)
    requires OutcomesInv(s)
    ensures OutcomesInv(CancelOne(s, id))
  {
    hide OutcomesInv, Frugal, CancelTask;
    if id in s.tasks && !Terminal(s.tasks[id].status) {
      FrugalRows(s.tasks[id], true);
      OneRowFrugal(s, CancelOne(s, id), id, CancelTask(s.tasks[id]));
    }
  }

  lemma StartTaskOutcome(s: State, id: nat, due: set<nat>, k: nat)
    requires OutcomesOk(s, k)
    ensures OutcomesOk(StartTask(s, id, due), k)
  {
    hide UnsettledOf;
    UnsettledOneMore(s.invocations, Invocation(id, Live, false), k);
  }

  lemma StartTaskOutcomes(s: State, id: nat, due: set<nat>)
    requires OutcomesInv(s)
    ensures OutcomesInv(StartTask(s, id, due))
  {
    hide OutcomesOk, StartTask;
    forall k
      ensures OutcomesOk(StartTask(s, id, due), k)
    {
      assert OutcomesOk(s, k);
      StartTaskOutcome(s, id, due, k);
    }
  }

  lemma {:induction false} LoopOutcomes(s: State, ids: seq<nat>, due: set<nat>)
    requires OutcomesInv(s)
    ensures OutcomesInv(ForceFailAll(s, ids)) && OutcomesInv(CancelAll(s, ids)) && OutcomesInv(StartAll(s, ids, due))
    decreases |ids|
  {
    hide OutcomesInv, ForceFail, CancelOne, StartTask;
    if ids != [] {
      var front, id := ids[..|ids| - 1], ids[|ids| - 1];
      LoopOutcomes(s, front, due);
      ForceFailFrugal(ForceFailAll(s, front), id);
      CancelFrugal(CancelAll(s, front), id);
      StartTaskOutcomes(StartAll(s, front, due), id, due);
    }
  }

  lemma SameSignals(a: seq<Invocation>)
    ensures SameButSignals(a, a)
  {
  }

  lemma BeginOutcomes(s: State, stale: seq<nat>, pending: seq<nat>)
    requires OutcomesInv(s)
    ensures OutcomesInv(TickBegin(s, stale, pending))
  {
    hide OutcomesInv, ForceFailAll, SameButSignals;
    LoopOutcomes(s, stale, {});
    var failed := ForceFailAll(s, stale);
    SameSignals(failed.invocations);
    SameRowsFrugal(failed, failed.(ticking := true, snapshot := pending));
  }

  lemma EndOutcomes(s: State, due: set<nat>)
    requires OutcomesInv(s)
    ensures OutcomesInv(TickEnd(s, due))
  {
    hide OutcomesInv, StartAll, SameButSignals;
    if s.ticking {
      var slots := MAX_CONCURRENT - |s.running|;
      var ids := if slots <= 0 then [] else s.snapshot[..Min(slots, |s.snapshot|)];
      LoopOutcomes(s, ids, due);
      var started := if slots <= 0 then s else StartAll(s, ids, due);
      SameSignals(started.invocations);
      SameRowsFrugal(started, started.(ticking := false, snapshot := []));
    }
  }

  lemma SettledRow(t: Task, outcome: Outcome)
    ensures var t' := AfterSettling(t, outcome);
      t'.outcomes + One(t'.status.Running?) + 2 * One(Claimable(t'.status)) + 2 * (t.retryCount + t.recovered)
        <= t.outcomes + 1 + One(t.status.Running?) + 2 * One(Claimable(t.status)) + 2 * (t'.retryCount + t'.recovered)
  {
  }

  lemma SettleOutcome(s: State, i: nat, outcome: Outcome, id: nat)
    requires OutcomesOk(s, id) && i < |s.invocations| && !s.invocations[i].settled
    ensures OutcomesOk(Settle(s, i, outcome), id)
  {
    hide UnsettledOf, Settle, AfterSettling, Claimable;
    UnsettledWithout(s.invocations, i, id);
    SettleShape(s, i, outcome);
    if id in s.tasks { SettledRow(s.tasks[id], outcome); }
  }

  lemma SettleShape(s: State, i: nat, outcome: Outcome)
    requires i < |s.invocations| && !s.invocations[i].settled
    ensures var inv, s' := s.invocations[i], Settle(s, i, outcome);
      && s'.invocations == s.invocations[i := inv.(settled := true)]
      && s'.tasks == if inv.signal.CancelledByUser? || inv.task !in s.tasks then s.tasks
                     else s.tasks[inv.task := AfterSettling(s.tasks[inv.task], outcome)]
  {
  }

  lemma SettleOutcomes(s: State, i: nat, outcome: Outcome)
    requires OutcomesInv(s)
    ensures OutcomesInv(Settle(s, i, outcome))
  {
    hide OutcomesOk;
    if i < |s.invocations| && !s.invocations[i].settled {
      forall id
        ensures OutcomesOk(Settle(s, i, outcome), id)
      {
        assert OutcomesOk(s, id);
        SettleOutcome(s, i, outcome, id);
      }
    }
  }

  lemma StopOutcomes(s: State)
    requires OutcomesInv(s)
    ensures OutcomesInv(Stop(s)) && OutcomesInv(Start(s))
  {
    SameRowsFrugal(s, Stop(s));
    forall id
      ensures OutcomesOk(Start(s), id)
    {
      assert OutcomesOk(s, id);
    }
  }

  lemma AddOutcomes(s: State, id: nat, maxRetries: nat, hasHandler: bool)
    requires OutcomesInv(s)
    ensures OutcomesInv(AddTask(s, id, maxRetries, hasHandler))
  {
    forall k
      ensures OutcomesOk(AddTask(s, id, maxRetries, hasHandler), k)
    {
      assert OutcomesOk(s, k);
    }
  }

  lemma TimeoutSignals(s: State, i: nat)
    ensures Timeout(s, i).tasks == s.tasks && SameButSignals(s.invocations, Timeout(s, i).invocations)
  {
  }

  lemma DeliveryOutcomes(s: State, id: nat, sent: bool)
    requires OutcomesInv(s)
    ensures OutcomesInv(ClaimDelivery(s, id)) && OutcomesInv(EndDelivery(s, id, sent))
  {
    hide OutcomesInv, Frugal, Claimed, Ended, SameButSignals;
    SameSignals(s.invocations);
    if id in s.tasks {
      FrugalRows(s.tasks[id], sent);
      if Deliverable(s.tasks[id]) { OneRowFrugal(s, ClaimDelivery(s, id), id, Claimed(s.tasks[id])); }
      if s.tasks[id].sending > 0 { OneRowFrugal(s, EndDelivery(s, id, sent), id, Ended(s.tasks[id], sent)); }
    }
  }

  lemma StepOutcomes(s: State, step: Step)
    requires OutcomesInv(s)
    ensures OutcomesInv(Apply(s, step))
  {
    hide OutcomesInv, SameButSignals, TickBegin, TickEnd, Settle, CancelAll, Stop, Start, AddTask, Timeout;
    hide ClaimDelivery, EndDelivery;
    match step
    case Adds(id, maxRetries, hasHandler) => AddOutcomes(s, id, maxRetries, hasHandler);
    case BeginsTick(stale, pending) => BeginOutcomes(s, stale, pending);
    case EndsTick(due) => EndOutcomes(s, due);
    case AbandonsTick =>
      SameSignals(s.invocations);
      SameRowsFrugal(s, Apply(s, step));
    case Settles(i, outcome) => SettleOutcomes(s, i, outcome);
    case TimesOut(i) =>
      TimeoutSignals(s, i);
      SameRowsFrugal(s, Timeout(s, i));
    case Cancels(ids) => LoopOutcomes(s, ids, {});
    case Stops => StopOutcomes(s);
    case Starts => StopOutcomes(s);
    case ClaimsDelivery(id) => DeliveryOutcomes(s, id, true);
    case EndsDelivery(id, sent) => DeliveryOutcomes(s, id, sent);
  }

  lemma {:induction false} RunOutcomes(steps: seq<Step>)
    ensures OutcomesInv(Run(INITIAL, steps))
    decreases |steps|
  {
    hide Apply, OutcomesInv;
    if steps == [] {
      NoOutcomes();
    } else {
      RunOutcomes(steps[..|steps| - 1]);
      StepOutcomes(Run(INITIAL, steps[..|steps| - 1]), steps[|steps| - 1]);
    }
  }

  lemma NoOutcomes()
    ensures OutcomesInv(INITIAL)
  {
  }

  // ---------- the promises ----------

  /** In every run a result is handed to its channel at most five times for the first outcome of its task and
      once more for each further one, and two outcomes a call are all there can be. */
  lemma DeliveriesOfEveryRun(steps: seq<Step>, id: nat)
    requires id in Run(INITIAL, steps).tasks
    ensures var t := Run(INITIAL, steps).tasks[id];
      && (t.outcomes == 0 ==> t.attempts == 0)
      && (t.outcomes > 0 ==> t.attempts < MAX_ATTEMPTS + t.outcomes)
      && t.outcomes <= 2 * (1 + t.retryCount + t.recovered) <= 2 * (1 + t.maxRetries + t.recovered)
  {
    hide Run, Apply, UnsettledOf, CountOf;
    assert AttemptsInv(INITIAL);
    RunRows(INITIAL, steps);
    RunOutcomes(steps);
    BoundsOfEveryRun(steps);
    assert OutcomesOk(Run(INITIAL, steps), id);
  }

  /** A task whose attempts are used up is not handed over again unless another outcome is written. */
  lemma GivenUpUntilOutcome(before: seq<Step>, steps: seq<Step>, id: nat)
    requires id in Run(INITIAL, before).tasks && GivenUp(Run(INITIAL, before).tasks[id])
    ensures var s := Run(INITIAL, before);
      var s' := Run(s, steps);
      && id in s'.tasks && s'.tasks[id].outcomes >= s.tasks[id].outcomes
      && (s'.tasks[id].outcomes == s.tasks[id].outcomes ==>
            GivenUp(s'.tasks[id]) && s'.tasks[id].attempts == s.tasks[id].attempts)
  {
    hide Run, Apply;
    assert AttemptsInv(INITIAL);
    RunRows(INITIAL, before);
    RunRows(Run(INITIAL, before), steps);
    assert RowStep(Run(INITIAL, before).tasks[id], Run(Run(INITIAL, before), steps).tasks[id]);
  }

  ghost predicate NeverHandedOver(s: State, id: nat) {
    id in s.tasks && forall steps: seq<Step> ::
      id in Run(s, steps).tasks && Run(s, steps).tasks[id].attempts == s.tasks[id].attempts
  }

  /** For an ended task giving up is final if and only if every unsettled call of it was cancelled by the user:
      the result of any other call is handed over once it comes. */
  lemma GivingUpIsFinalIff(before: seq<Step>, id: nat)
    requires var s := Run(INITIAL, before); id in s.tasks && Terminal(s.tasks[id].status) && GivenUp(s.tasks[id])
    ensures NeverHandedOver(Run(INITIAL, before), id) <==> Silenced(Run(INITIAL, before), id)
  {
    hide Run, Apply;
    var s := Run(INITIAL, before);
    if Silenced(s, id) {
      forall steps: seq<Step>
        ensures id in Run(s, steps).tasks && Run(s, steps).tasks[id].attempts == s.tasks[id].attempts
      {
        SilencedTerminalIsFinal(s, steps, id);
        GivenUpUntilOutcome(before, steps, id);
      }
    } else {
      var i: nat :| Outstanding(s, i, id) && !s.invocations[i].signal.CancelledByUser?;
      LateResult(s, i, id);
    }
  }

  lemma LateResult(s: State, i: nat, id: nat)
    requires id in s.tasks && Outstanding(s, i, id) && !s.invocations[i].signal.CancelledByUser?
    ensures var s' := Run(s, [Settles(i, Returned), ClaimsDelivery(id)]);
      id in s'.tasks && s'.tasks[id].attempts == s.tasks[id].attempts + 1
  {
    hide Run;
    var steps := [Settles(i, Returned), ClaimsDelivery(id)];
    assert steps == [Settles(i, Returned)] + [ClaimsDelivery(id)];
    RunAppend(s, [Settles(i, Returned)], ClaimsDelivery(id));
    OneStepRun(s, Settles(i, Returned));
    assert Settle(s, i, Returned).tasks[id] == CompleteTask(s.tasks[id]);
  }

  /** A task that is failed as stale and then returns is handed over for both outcomes. */
  lemma BothOutcomesAreDelivered()
    ensures var s := Run(INITIAL, FIRST_CALL + [BeginsTick([1], [])] + [ClaimsDelivery(1)]);
      && HasStatus(s, 1, Failed) && s.tasks[1].attempts == 1
      && var s' := Run(s, [Settles(0, Returned), ClaimsDelivery(1)]);
      HasStatus(s', 1, Completed) && s'.tasks[1].attempts == 2
  {
    hide Run, ForceFailAll;
    FirstCall();
    RunAppend(INITIAL, FIRST_CALL, BeginsTick([1], []));
    RunAppend(INITIAL, FIRST_CALL + [BeginsTick([1], [])], ClaimsDelivery(1));
    FailsOne(CALLED, 1);
    var s := Apply(Apply(CALLED, BeginsTick([1], [])), ClaimsDelivery(1));
    var steps := [Settles(0, Returned), ClaimsDelivery(1)];
    assert steps == [Settles(0, Returned)] + [ClaimsDelivery(1)];
    RunAppend(s, [Settles(0, Returned)], ClaimsDelivery(1));
    OneStepRun(s, Settles(0, Returned));
  }
}

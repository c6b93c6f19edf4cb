/** What each step does to every row, call and entry, told from the outside. */
module JobRunnerEffects {
  import opened JobRunnerProofs
  import opened JobRunnerSpec
  import opened JobRunnerTheorems

  // ---------- the end of a call ----------

  /** The end of a call the user did not cancel: the task is completed if and only if it returned, queued again with
      one more retry counted if and only if it threw an ordinary error with retries left, and failed otherwise. What
      ends the task makes its result due; the entries of the task go, and no other row or call is touched. */
  lemma CallEnds(s: State, i: nat, outcome: Outcome)
    requires i < |s.invocations| && !s.invocations[i].settled && s.invocations[i].task in s.tasks
    requires !s.invocations[i].signal.CancelledByUser?
    ensures var s', id := Settle(s, i, outcome), s.invocations[i].task;
      && s'.tasks.Keys == s.tasks.Keys && (forall k | k in s.tasks && k != id :: s'.tasks[k] == s.tasks[k])
      && var t, t' := s.tasks[id], s'.tasks[id];
      && (t'.status.Completed? <==> outcome.Returned?)
      && (t'.status.Retrying? <==> outcome.Threw? && t.retryCount < t.maxRetries)
      && (t'.status.Failed? <==> outcome.ThrewPermanent? || (outcome.Threw? && t.retryCount >= t.maxRetries))
      && t'.retryCount == t.retryCount + (if t'.status.Retrying? then 1 else 0)
      && t'.delivery == (if t'.status.Retrying? then t.delivery else Due)
      && t'.maxRetries == t.maxRetries && t'.attempts == t.attempts && t'.hasHandler == t.hasHandler
    ensures CallLeaves(s, Settle(s, i, outcome), i)
  {
  }

  /** The end of a call the user cancelled writes nothing to the row. */
  lemma CancelledCallEnds(s: State, i: nat, outcome: Outcome)
    requires i < |s.invocations| && !s.invocations[i].settled && s.invocations[i].signal.CancelledByUser?
    ensures Settle(s, i, outcome).tasks == s.tasks && CallLeaves(s, Settle(s, i, outcome), i)
  {
  }

  /** The call is settled, and its task has no entry any more. */
  ghost predicate CallLeaves(s: State, s': State, i: nat)
    requires i < |s.invocations|
  {
    && s'.invocations == s.invocations[i := s.invocations[i].(settled := true)]
    && (forall k :: k in s'.running <==> k in s.running && k != s.invocations[i].task)
    && (forall k :: k in s'.active <==> k in s.active && k != s.invocations[i].task)
    && (forall k | k in s'.running :: s'.running[k] == s.running[k])
    && (forall k | k in s'.active :: s'.active[k] == s.active[k])
    && s'.polling == s.polling && s'.stopped == s.stopped && s'.ticking == s.ticking && s'.snapshot == s.snapshot
  }

  lemma {:induction false} CallsHaveRows(invocations: seq<Invocation>, i: nat, id: nat)
    requires i < |invocations| && invocations[i].task == id
    ensures CountOf(invocations, id) > 0
    decreases |invocations|
  {
    if i < |invocations| - 1 { CallsHaveRows(invocations[..|invocations| - 1], i, id); }
  }

  /** A task whose only unsettled call ends with a permanent error is failed for good and never called again. */
  lemma PermanentEndIsFinal(before: seq<Step>, i: nat, id: nat, steps: seq<Step>)
    requires var s := Run(INITIAL, before);
      && Outstanding(s, i, id) && !s.invocations[i].signal.CancelledByUser?
      && forall j: nat | Outstanding(s, j, id) :: j == i
    ensures var s := Run(INITIAL, before);
      var s' := Run(Apply(s, Settles(i, ThrewPermanent)), steps);
      HasStatus(s', id, Failed) && CountOf(s'.invocations, id) == CountOf(s.invocations, id)
  {
    hide Run, CountOf;
    var s := Run(INITIAL, before);
    RunKeepsInv(before);
    CallsHaveRows(s.invocations, i, id);
    assert CreditOk(s, id);
    var s1 := Apply(s, Settles(i, ThrewPermanent));
    CallEnds(s, i, ThrewPermanent);
    assert forall j: nat :: Outstanding(s1, j, id) ==> Outstanding(s, j, id);
    CountSame(s.invocations, s1.invocations, id);
    SilencedTerminalIsFinal(s1, steps, id);
  }

  // ---------- the two parts of a tick ----------

  function IdsOf(ids: seq<nat>): set<nat> { set id | id in ids }

  predicate IsRunning(s: State, id: nat) { id in s.tasks && s.tasks[id].status.Running? }

  predicate Registered(s: State, i: nat)
    requires i < |s.invocations|
  {
    s.invocations[i].task in s.running && s.running[s.invocations[i].task] == i
  }

  /** The rows of `ids` that were running have failed, with their result due. */
  ghost predicate RowsFailed(s: State, s': State, ids: set<nat>) {
    && s'.tasks.Keys == s.tasks.Keys
    && forall id | id in s.tasks :: s'.tasks[id] ==
         if id in ids && IsRunning(s, id)
         then s.tasks[id].(status := Failed, delivery := Due, outcomes := s.tasks[id].outcomes + 1) else s.tasks[id]
  }

  /** Their entries are gone. */
  ghost predicate EntriesDropped(s: State, s': State, ids: set<nat>) {
    && (forall id :: id in s'.running <==> id in s.running && !(id in ids && IsRunning(s, id)))
    && (forall id | id in s'.running :: s'.running[id] == s.running[id])
    && s'.active == s'.running
  }

  /** The calls registered for them have the signal, unless they had one before. */
  ghost predicate CallsTimedOut(s: State, s': State, ids: set<nat>) {
    && |s'.invocations| == |s.invocations|
    && forall i: nat | i < |s.invocations| ::
         var call := s.invocations[i];
         s'.invocations[i] ==
           if call.task in ids && IsRunning(s, call.task) && Registered(s, i) && call.signal.Live?
           then call.(signal := TimedOut) else call
  }

  ghost predicate FailedAsStale(s: State, s': State, ids: set<nat>) {
    && RowsFailed(s, s', ids) && EntriesDropped(s, s', ids) && CallsTimedOut(s, s', ids)
    && s'.polling == s.polling && s'.stopped == s.stopped
  }

  lemma OneFailsAsStale(s: State, id: nat)
    requires EntriesOk(s)
    ensures FailedAsStale(s, ForceFail(s, id), {id}) && EntriesOk(ForceFail(s, id))
  {
    hide RowsFailed, EntriesDropped, CallsTimedOut, EntriesOk;
    OneRowFails(s, id);
    OneEntryDrops(s, id);
    OneCallTimesOut(s, id);
  }

  lemma OneRowFails(s: State, id: nat)
    ensures RowsFailed(s, ForceFail(s, id), {id})
  {
  }

  lemma OneEntryDrops(s: State, id: nat)
    requires EntriesOk(s)
    ensures EntriesDropped(s, ForceFail(s, id), {id}) && EntriesOk(ForceFail(s, id))
  {
  }

  lemma OneCallTimesOut(s: State, id: nat)
    requires EntriesOk(s)
    ensures CallsTimedOut(s, ForceFail(s, id), {id})
  {
  }

  lemma StaleTwice(a: State, b: State, c: State, ids: set<nat>, id: nat)
    requires FailedAsStale(a, b, ids) && FailedAsStale(b, c, {id})
    ensures FailedAsStale(a, c, ids + {id})
  {
    hide CallsTimedOut;
    CallsTimeOutTwice(a, b, c, ids, id);
  }

  lemma CallsTimeOutTwice(a: State, b: State, c: State, ids: set<nat>, id: nat)
    requires FailedAsStale(a, b, ids) && CallsTimedOut(b, c, {id})
    ensures CallsTimedOut(a, c, ids + {id})
  {
    forall i: nat | i < |a.invocations|
      ensures b.invocations[i].task == a.invocations[i].task
      ensures a.invocations[i].task == id && id !in ids ==> Registered(b, i) == Registered(a, i)
    {
    }
  }

  lemma {:induction false} AllFailAsStale(s: State, ids: seq<nat>)
    requires EntriesOk(s)
    ensures FailedAsStale(s, ForceFailAll(s, ids), IdsOf(ids)) && EntriesOk(ForceFailAll(s, ids))
    decreases |ids|
  {
    hide ForceFail, EntriesOk, FailedAsStale;
    if ids == [] {
      assert IdsOf(ids) == {};
      NoneFails(s);
    } else {
      var front, id := ids[..|ids| - 1], ids[|ids| - 1];
      AllFailAsStale(s, front);
      OneFailsAsStale(ForceFailAll(s, front), id);
      StaleTwice(s, ForceFailAll(s, front), ForceFailAll(s, ids), IdsOf(front), id);
      assert ids == front + [id];
      assert IdsOf(ids) == IdsOf(front) + {id};
    }
  }

  lemma NoneFails(s: State)
    requires EntriesOk(s)
    ensures FailedAsStale(s, s, {})
  {
  }

  /** The first part of a tick fails the stale rows and picks the pending ones; a stopped runner and one that is in a
      tick do nothing. */
  lemma TickFailsStale(s: State, stale: seq<nat>, pending: seq<nat>)
    requires EntriesOk(s)
    ensures var s' := Apply(s, BeginsTick(stale, pending));
      if s.stopped || s.ticking then s' == s
      else FailedAsStale(s, s', IdsOf(stale)) && s'.ticking && s'.snapshot == pending
  {
    hide ForceFailAll;
    AllFailAsStale(s, stale);
  }

  /** Can be claimed now and has no call registered. */
  predicate Ready(s: State, id: nat, due: set<nat>) {
    && id in s.tasks && id !in s.running
    && (s.tasks[id].status.Pending? || (s.tasks[id].status.Retrying? && id in due))
  }

  /** Of `ids` those that are ready are running if they have a handler, and have failed with their result due
      otherwise. */
  ghost predicate RowsStarted(s: State, s': State, ids: set<nat>, due: set<nat>) {
    && s'.tasks.Keys == s.tasks.Keys
    && forall id | id in s.tasks :: s'.tasks[id] ==
         if id !in ids || !Ready(s, id, due) then s.tasks[id]
         else if s.tasks[id].hasHandler then s.tasks[id].(status := Running)
         else s.tasks[id].(status := Failed, delivery := Due, outcomes := s.tasks[id].outcomes + 1)
  }

  predicate IsStarted(s: State, id: nat, ids: set<nat>, due: set<nat>) {
    id in ids && Ready(s, id, due) && s.tasks[id].hasHandler
  }

  /** Each that is running has one new call, and these are all new calls. */
  ghost predicate CallsStarted(s: State, s': State, ids: set<nat>, due: set<nat>) {
    && s.invocations <= s'.invocations
    && forall i: nat | |s.invocations| <= i < |s'.invocations| ::
         var id := s'.invocations[i].task;
         && s'.invocations[i] == Invocation(id, Live, false) && IsStarted(s, id, ids, due)
         && id in s'.running && s'.running[id] == i
  }

  /** The new calls are registered, and no other entry is touched. */
  ghost predicate EntriesStarted(s: State, s': State, ids: set<nat>, due: set<nat>) {
    && (forall id :: id in s'.running <==> id in s.running || IsStarted(s, id, ids, due))
    && (forall id | id in s.running :: s'.running[id] == s.running[id])
    && (forall id | id in s'.running && id !in s.running ::
          && |s.invocations| <= s'.running[id] < |s'.invocations| && s'.invocations[s'.running[id]].task == id)
    && (s.active == s.running ==> s'.active == s'.running)
  }

  ghost predicate StartedReady(s: State, s': State, ids: set<nat>, due: set<nat>) {
    && RowsStarted(s, s', ids, due) && CallsStarted(s, s', ids, due) && EntriesStarted(s, s', ids, due)
    && s'.polling == s.polling && s'.stopped == s.stopped && s'.ticking == s.ticking && s'.snapshot == s.snapshot
  }

  function StartIfIdle(s: State, id: nat, due: set<nat>): State {
    if id in s.running then s else StartTask(s, id, due)
  }

  lemma OneStarts(s: State, id: nat, due: set<nat>)
    ensures StartedReady(s, StartIfIdle(s, id, due), {id}, due)
  {
    hide RowsStarted, CallsStarted, EntriesStarted;
    OneRowStarts(s, id, due);
    OneCallStarts(s, id, due);
    OneEntryStarts(s, id, due);
  }

  lemma OneRowStarts(s: State, id: nat, due: set<nat>)
    ensures RowsStarted(s, StartIfIdle(s, id, due), {id}, due)
  {
  }

  lemma OneCallStarts(s: State, id: nat, due: set<nat>)
    ensures CallsStarted(s, StartIfIdle(s, id, due), {id}, due)
  {
  }

  lemma OneEntryStarts(s: State, id: nat, due: set<nat>)
    ensures EntriesStarted(s, StartIfIdle(s, id, due), {id}, due)
  {
  }

  /** What is started is not ready any more, and what is not stays as ready as it was. */
  lemma ReadyAfter(a: State, b: State, ids: set<nat>, due: set<nat>, id: nat)
    requires RowsStarted(a, b, ids, due) && EntriesStarted(a, b, ids, due)
    ensures id in ids ==> !Ready(b, id, due)
    ensures id !in ids ==> (Ready(b, id, due) <==> Ready(a, id, due)) && (id in a.tasks ==> b.tasks[id] == a.tasks[id])
  {
  }

  lemma StartsTwice(a: State, b: State, c: State, ids: set<nat>, id: nat, due: set<nat>)
    requires StartedReady(a, b, ids, due) && StartedReady(b, c, {id}, due)
    ensures StartedReady(a, c, ids + {id}, due)
  {
    hide RowsStarted, CallsStarted, EntriesStarted;
    ReadyAfter(a, b, ids, due, id);
    RowsStartTwice(a, b, c, ids, id, due);
    CallsStartTwice(a, b, c, ids, id, due);
    EntriesStartTwice(a, b, c, ids, id, due);
  }

  lemma RowsStartTwice(a: State, b: State, c: State, ids: set<nat>, id: nat, due: set<nat>)
    requires RowsStarted(a, b, ids, due) && EntriesStarted(a, b, ids, due) && RowsStarted(b, c, {id}, due)
    ensures RowsStarted(a, c, ids + {id}, due)
  {
    ReadyAfter(a, b, ids, due, id);
  }

  lemma CallsStartTwice(a: State, b: State, c: State, ids: set<nat>, id: nat, due: set<nat>)
    requires StartedReady(a, b, ids, due) && StartedReady(b, c, {id}, due)
    ensures CallsStarted(a, c, ids + {id}, due)
  {
    ReadyAfter(a, b, ids, due, id);
  }

  lemma EntriesStartTwice(a: State, b: State, c: State, ids: set<nat>, id: nat, due: set<nat>)
    requires StartedReady(a, b, ids, due) && StartedReady(b, c, {id}, due)
    ensures EntriesStarted(a, c, ids + {id}, due)
  {
    ReadyAfter(a, b, ids, due, id);
  }

  lemma {:induction false} AllStart(s: State, ids: seq<nat>, due: set<nat>)
    ensures StartedReady(s, StartAll(s, ids, due), IdsOf(ids), due)
    decreases |ids|
  {
    hide StartTask, StartedReady;
    if ids == [] {
      assert IdsOf(ids) == {};
      NoneStarts(s, due);
    } else {
      var front, id := ids[..|ids| - 1], ids[|ids| - 1];
      AllStart(s, front, due);
      OneStarts(StartAll(s, front, due), id, due);
      StartsTwice(s, StartAll(s, front, due), StartAll(s, ids, due), IdsOf(front), id, due);
      assert ids == front + [id];
      assert IdsOf(ids) == IdsOf(front) + {id};
    }
  }

  lemma NoneStarts(s: State, due: set<nat>)
    ensures StartedReady(s, s, {}, due)
  {
  }

  /** The tasks a tick may start: as many of those it picked first as there are free slots. */
  function Chances(s: State): seq<nat> {
    var free := MAX_CONCURRENT - |s.running|;
    if free <= 0 then [] else if free >= |s.snapshot| then s.snapshot else s.snapshot[..free]
  }

  /** The second part of a tick starts what is ready among the first it picked. */
  lemma TickStarts(s: State, due: set<nat>)
    requires s.ticking
    ensures var s' := Apply(s, EndsTick(due));
      StartedReady(s, s'.(ticking := true, snapshot := s.snapshot), IdsOf(Chances(s)), due)
      && !s'.ticking && s'.snapshot == []
  {
    hide StartAll;
    AllStart(s, Chances(s), due);
    NothingToStart(s, due);
    assert s.snapshot[..|s.snapshot|] == s.snapshot;
  }

  lemma NothingToStart(s: State, due: set<nat>)
    ensures StartAll(s, [], due) == s
  {
  }

  // ---------- cancelling, stopping, starting ----------

  /** The live rows of `ids` are cancelled and have nothing to deliver. */
  ghost predicate RowsCancelled(s: State, s': State, ids: set<nat>) {
    && s'.tasks.Keys == s.tasks.Keys
    && forall id | id in s.tasks :: s'.tasks[id] ==
         if id in ids && !Terminal(s.tasks[id].status)
         then s.tasks[id].(status := Cancelled, delivery := NoDelivery) else s.tasks[id]
  }

  /** The calls registered for them are told so, unless they had a signal before. */
  ghost predicate CallsCancelled(s: State, s': State, ids: set<nat>) {
    && |s'.invocations| == |s.invocations|
    && forall i: nat | i < |s.invocations| ::
         var call := s.invocations[i];
         s'.invocations[i] ==
           if call.task in ids && call.task in s.tasks && !Terminal(s.tasks[call.task].status) && Registered(s, i)
             && call.signal.Live?
           then call.(signal := CancelledByUser) else call
  }

  ghost predicate CancelledLive(s: State, s': State, ids: set<nat>) {
    && RowsCancelled(s, s', ids) && CallsCancelled(s, s', ids)
    && s' == s.(tasks := s'.tasks, invocations := s'.invocations)
  }

  lemma OneIsCancelled(s: State, id: nat)
    requires EntriesOk(s)
    ensures CancelledLive(s, CancelOne(s, id), {id}) && EntriesOk(CancelOne(s, id))
  {
    hide CallsCancelled;
    OneCallIsCancelled(s, id);
  }

  lemma OneCallIsCancelled(s: State, id: nat)
    requires EntriesOk(s)
    ensures CallsCancelled(s, CancelOne(s, id), {id})
  {
  }

  lemma CancelledTwice(a: State, b: State, c: State, ids: set<nat>, id: nat)
    requires CancelledLive(a, b, ids) && CancelledLive(b, c, {id})
    ensures CancelledLive(a, c, ids + {id})
  {
    hide CallsCancelled;
    CallsCancelledTwice(a, b, c, ids, id);
  }

  lemma CallsCancelledTwice(a: State, b: State, c: State, ids: set<nat>, id: nat)
    requires CancelledLive(a, b, ids) && CallsCancelled(b, c, {id})
    ensures CallsCancelled(a, c, ids + {id})
  {
  }

  /** A cascade cancels every live row it is given and reaches the registered calls. */
  lemma {:induction false} CascadeCancels(s: State, ids: seq<nat>)
    requires EntriesOk(s)
    ensures CancelledLive(s, Apply(s, Cancels(ids)), IdsOf(ids)) && EntriesOk(Apply(s, Cancels(ids)))
    decreases |ids|
  {
    hide CancelOne, EntriesOk, CancelledLive;
    if ids == [] {
      assert IdsOf(ids) == {};
      NoneIsCancelled(s);
    } else {
      var front, id := ids[..|ids| - 1], ids[|ids| - 1];
      CascadeCancels(s, front);
      OneIsCancelled(CancelAll(s, front), id);
      CancelledTwice(s, CancelAll(s, front), CancelAll(s, ids), IdsOf(front), id);
      assert ids == front + [id];
      assert IdsOf(ids) == IdsOf(front) + {id};
    }
  }

  lemma NoneIsCancelled(s: State)
    ensures CancelledLive(s, s, {})
  {
  }

  /** A stop tells every registered call to end and forgets all entries; rows, ticks and picks stay. */
  lemma StopAborts(s: State)
    requires EntriesOk(s)
    ensures var s' := Apply(s, Stops);
      && s'.stopped && !s'.polling && s'.running == map[] == s'.active
      && s'.tasks == s.tasks && s'.ticking == s.ticking && s'.snapshot == s.snapshot
      && |s'.invocations| == |s.invocations|
      && forall i: nat | i < |s.invocations| ::
           s'.invocations[i] ==
             if Registered(s, i) && s.invocations[i].signal.Live? then s.invocations[i].(signal := TimedOut)
             else s.invocations[i]
  {
    var s' := Apply(s, Stops);
    assert s'.active == map[];
    forall i: nat | i < |s.invocations|
      ensures i in s.running.Values <==> Registered(s, i)
    {
      if i in s.running.Values {
        var id :| id in s.running && s.running[id] == i;
      }
    }
  }

  /** A start queues again exactly the rows that are marked running, and nothing at all when the runner polls. */
  lemma StartRequeues(s: State)
    ensures var s' := Apply(s, Starts);
      && s'.polling && s'.stopped == (s.stopped && s.polling) && s'.tasks.Keys == s.tasks.Keys
      && s' == s.(polling := true, stopped := s'.stopped, tasks := s'.tasks)
      && forall id | id in s.tasks :: s'.tasks[id] ==
           if !s.polling && s.tasks[id].status.Running?
           then s.tasks[id].(status := Retrying, recovered := s.tasks[id].recovered + 1) else s.tasks[id]
  {
  }

  /** Whichever way a tick ends, rows, calls and entries of a tick that is abandoned stay, and the next one can begin
      and picks anew. */
  lemma NextTickBegins(s: State, due: set<nat>, pending: seq<nat>)
    ensures var ended, left, next := Apply(s, EndsTick(due)), Apply(s, AbandonsTick), BeginsTick([], pending);
      && left == s.(ticking := left.ticking, snapshot := left.snapshot) && !left.ticking && !ended.ticking
      && ended.stopped == s.stopped
      && (!s.stopped ==>
            && Apply(ended, next).ticking && Apply(ended, next).snapshot == pending
            && Apply(left, next).ticking && Apply(left, next).snapshot == pending)
  {
    if s.ticking { TickStarts(s, due); }
  }

  /** A task is added once, waiting to be claimed, with nothing counted and nothing to deliver. */
  lemma AddedTaskWaits(s: State, id: nat, maxRetries: nat, hasHandler: bool)
    ensures var s' := Apply(s, Adds(id, maxRetries, hasHandler));
      if id in s.tasks then s' == s
      else
        && s' == s.(tasks := s'.tasks) && s'.tasks.Keys == s.tasks.Keys + {id}
        && (forall k | k in s.tasks :: s'.tasks[k] == s.tasks[k])
        && s'.tasks[id].status.Pending? && s'.tasks[id].retryCount == s'.tasks[id].attempts == 0
        && s'.tasks[id].maxRetries == maxRetries && s'.tasks[id].hasHandler == hasHandler
        && s'.tasks[id].delivery.NoDelivery?
        && s'.tasks[id].recovered == s'.tasks[id].outcomes == s'.tasks[id].sending == 0
  {
  }

  // ---------- deliveries ----------

  /** The end of a delivery: delivered if and only if it was sent, due again if and only if it was not and attempts are
      left, and given up otherwise. */
  lemma DeliveryEnds(s: State, id: nat, sent: bool)
    requires id in s.tasks && s.tasks[id].sending > 0
    ensures var s', t := Apply(s, EndsDelivery(id, sent)), s.tasks[id];
      && s'.tasks.Keys == s.tasks.Keys && s' == s.(tasks := s'.tasks)
      && (forall k | k in s.tasks && k != id :: s'.tasks[k] == s.tasks[k])
      && var t' := s'.tasks[id];
      && t' == t.(delivery := t'.delivery, sending := t'.sending) && t'.sending + 1 == t.sending
      && (t'.delivery.Delivered? <==> sent)
      && (Deliverable(t') <==> !sent && t.attempts < MAX_ATTEMPTS)
      && (t'.delivery.Undeliverable? <==> !sent && t.attempts >= MAX_ATTEMPTS)
  {
  }

  /** A delivery is claimed if and only if the result is due, and then counts as an attempt. */
  lemma DeliveryIsClaimed(s: State, id: nat)
    requires id in s.tasks
    ensures var s', t := Apply(s, ClaimsDelivery(id)), s.tasks[id];
      && s'.tasks.Keys == s.tasks.Keys && s' == s.(tasks := s'.tasks)
      && (forall k | k in s.tasks && k != id :: s'.tasks[k] == s.tasks[k])
      && s'.tasks[id] ==
           if t.delivery.Due? || t.delivery.Redelivering?
           then t.(delivery := Delivering, attempts := t.attempts + 1, sending := t.sending + 1) else t
  {
  }

  /** The timer of a call tells it to end while it is at work, unless it has been told before. */
  lemma TimerAborts(s: State, i: nat)
    ensures var s' := Apply(s, TimesOut(i));
      && s' == s.(invocations := s'.invocations) && |s'.invocations| == |s.invocations|
      && forall k: nat | k < |s.invocations| ::
           s'.invocations[k] ==
             if k == i && !s.invocations[k].settled && s.invocations[k].signal.Live?
             then s.invocations[k].(signal := TimedOut) else s.invocations[k]
  {
  }
}

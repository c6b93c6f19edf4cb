/** The job runner with the maps, flags and rows that its methods update in place. */
module JobRunner {
  import opened JobRunnerSpec
  import opened JobRunnerProofs

  lemma NothingStarted(s: State, ids: seq<nat>, due: set<nat>)
    requires ids == []
    ensures StartAll(s, ids, due) == s
  {
  }

  /** One round of the loop over the picked tasks. */
  lemma StartNext(s: State, ids: seq<nat>, i: nat, due: set<nat>)
    requires i < |ids|
    ensures var s1 := StartAll(s, ids[..i], due);
      StartAll(s, ids[..i + 1], due) == if ids[i] in s1.running then s1 else StartTask(s1, ids[i], due)
  {
    assert ids[..i + 1][..i] == ids[..i];
  }

  class BackgroundJobRunner {
    var backgroundTasks: map<nat, Task>
    var invocations: seq<Invocation>
    var running: map<nat, nat>
    var activeHandlers: map<nat, nat>
    var polling: bool
    var stopped: bool
    var ticking: bool
    var snapshot: seq<nat>

    ghost function Model(): State
      reads this
    {
      State(backgroundTasks, invocations, running, activeHandlers, polling, stopped, ticking, snapshot)
    }

    ghost predicate Valid()
      reads this
    {
      Inv(Model())
    }

    constructor ()
      ensures Valid() && Model() == INITIAL
    {
      backgroundTasks, invocations, running, activeHandlers := map[], [], map[], map[];
      polling, stopped, ticking, snapshot := false, false, false, [];
    }

    method AbortCall(i: nat, reason: Signal)
      modifies this`invocations
      ensures invocations == AbortAt(old(invocations), i, reason)
    {
      if i < |invocations| && invocations[i].signal.Live? {
        invocations := invocations[i := invocations[i].(signal := reason)];
      }
    }

    method ForceFailTask(id: nat)
      modifies this
      ensures Model() == ForceFail(old(Model()), id)
    {
      if id !in backgroundTasks || !backgroundTasks[id].status.Running? {
        return;
      }
      if id in running {
        AbortCall(running[id], TimedOut);
        running := running - {id};
        activeHandlers := activeHandlers - {id};
      } else {
        assert running - {id} == running;
      }
      backgroundTasks := backgroundTasks[id := FailTask(backgroundTasks[id])];
    }

    method CheckTimeouts(stale: seq<nat>)
      modifies this
      ensures Model() == ForceFailAll(old(Model()), stale)
    {
      for i := 0 to |stale|
        invariant Model() == ForceFailAll(old(Model()), stale[..i])
      {
        assert stale[..i + 1][..i] == stale[..i];
        ForceFailTask(stale[i]);
      }
      assert stale[..|stale|] == stale;
    }

    method BeginTick(stale: seq<nat>, pending: seq<nat>)
      requires Valid()
      modifies this
      ensures Valid() && Model() == Apply(old(Model()), BeginsTick(stale, pending))
    {
      StepKeepsInv(Model(), BeginsTick(stale, pending));
      if stopped || ticking {
        return;
      }
      CheckTimeouts(stale);
      ticking, snapshot := true, pending;
    }

    method ExecuteTask(id: nat, due: set<nat>)
      modifies this
      ensures Model() == StartTask(old(Model()), id, due)
    {
      var claimed := ClaimTaskForRun(id, due);
      if !claimed {
        return;
      }
      if !backgroundTasks[id].hasHandler {
        backgroundTasks := backgroundTasks[id := FailTask(backgroundTasks[id])];
        return;
      }
      var call := |invocations|;
      invocations := invocations + [Invocation(id, Live, false)];
      running := running[id := call];
      activeHandlers := activeHandlers[id := call];
    }

    /** The atomic claim of the task table. */
    method ClaimTaskForRun(id: nat, due: set<nat>) returns (claimed: bool)
      modifies this`backgroundTasks
      ensures claimed <==>
        id in old(backgroundTasks) && Claimable(old(backgroundTasks)[id].status)
        && (old(backgroundTasks)[id].status.Retrying? ==> id in due)
      ensures backgroundTasks ==
        if claimed then old(backgroundTasks)[id := old(backgroundTasks)[id].(status := Running)]
          else old(backgroundTasks)
    {
      claimed := id in backgroundTasks && Claimable(backgroundTasks[id].status)
        && (backgroundTasks[id].status.Retrying? ==> id in due);
      if claimed {
        backgroundTasks := backgroundTasks[id := backgroundTasks[id].(status := Running)];
      }
    }

    method EndTick(due: set<nat>)
      requires Valid()
      modifies this
      ensures Valid() && Model() == Apply(old(Model()), EndsTick(due))
    {
      hide Inv, StartTask, StartAll;
      StepKeepsInv(Model(), EndsTick(due));
      if !ticking {
        return;
      }
      var slotsAvailable := MAX_CONCURRENT - |running|;
      if slotsAvailable > 0 {
        var toExecute := snapshot[..Min(slotsAvailable, |snapshot|)];
        NothingStarted(Model(), toExecute[..0], due);
        for i := 0 to |toExecute|
          invariant Model() == StartAll(old(Model()), toExecute[..i], due)
        {
          StartNext(old(Model()), toExecute, i, due);
          if toExecute[i] in running { continue; }
          ExecuteTask(toExecute[i], due);
        }
        assert toExecute[..|toExecute|] == toExecute;
      }
      ticking, snapshot := false, [];
    }

    /** What follows the awaited handler call. */
    method FinishCall(i: nat, outcome: Outcome)
      requires Valid()
      modifies this
      ensures Valid() && Model() == Apply(old(Model()), Settles(i, outcome))
    {
      hide Inv;
      StepKeepsInv(Model(), Settles(i, outcome));
      if i >= |invocations| || invocations[i].settled {
        return;
      }
      var call := invocations[i];
      invocations := invocations[i := call.(settled := true)];
      running := running - {call.task};
      activeHandlers := activeHandlers - {call.task};
      if call.signal.CancelledByUser? || call.task !in backgroundTasks {
        return;
      }
      var row := backgroundTasks[call.task];
      if outcome.Returned? {
        row := CompleteTask(row);
      } else if !outcome.ThrewPermanent? && row.retryCount < row.maxRetries {
        row := MarkRetrying(row);
      } else {
        row := FailTask(row);
      }
      backgroundTasks := backgroundTasks[call.task := row];
    }

    method CascadeCancel(ids: seq<nat>)
      requires Valid()
      modifies this
      ensures Valid() && Model() == Apply(old(Model()), Cancels(ids))
    {
      StepKeepsInv(Model(), Cancels(ids));
      for i := 0 to |ids|
        invariant Model() == CancelAll(old(Model()), ids[..i])
      {
        assert ids[..i + 1][..i] == ids[..i];
        var id := ids[i];
        if id !in backgroundTasks || Terminal(backgroundTasks[id].status) { continue; }
        backgroundTasks := backgroundTasks[id := CancelTask(backgroundTasks[id])];
        if id in activeHandlers {
          AbortCall(activeHandlers[id], CancelledByUser);
        }
      }
      assert ids[..|ids|] == ids;
    }

    /** Abort every running call, without waiting for any. */
    method AbortRunning()
      modifies this`invocations, this`activeHandlers
      ensures invocations == AbortCalls(old(invocations), running.Values)
      ensures activeHandlers == old(activeHandlers) - running.Keys
    {
      hide AbortCalls, CallsOf;
      NoneAborted(invocations, running);
      AllCalls(running);
      var left := running.Keys;
      while left != {}
        invariant left <= running.Keys
        invariant activeHandlers == old(activeHandlers) - (running.Keys - left)
        invariant invocations == AbortCalls(old(invocations), CallsOf(running, running.Keys - left))
        decreases left
      {
        var id :| id in left;
        OneMoreAborted(old(invocations), running, running.Keys - left, id);
        assert running.Keys - (left - {id}) == running.Keys - left + {id};
        AbortCall(running[id], TimedOut);
        activeHandlers := activeHandlers - {id};
        left := left - {id};
      }
      assert running.Keys - left == running.Keys;
    }

    method StopRunner()
      requires Valid()
      modifies this
      ensures Valid() && Model() == Apply(old(Model()), Stops)
    {
      hide Inv, AbortCalls, Apply, CallsOf;
      ghost var before := Model();
      StepKeepsInv(before, Stops);
      StopIs(before);
      AbortRunning();
      polling, stopped, running := false, true, map[];
    }

    method StartRunner()
      requires Valid()
      modifies this
      ensures Valid() && Model() == Apply(old(Model()), Starts)
    {
      StepKeepsInv(Model(), Starts);
      if polling {
        return;
      }
      polling, stopped := true, false;
      backgroundTasks := map id | id in backgroundTasks :: RecoverTask(backgroundTasks[id]);
    }

    /** The atomic claim of a delivery. */
    method ClaimTaskDelivery(id: nat) returns (claimed: bool)
      requires Valid()
      modifies this
      ensures Valid() && Model() == Apply(old(Model()), ClaimsDelivery(id))
      ensures claimed <==> id in old(backgroundTasks) && Deliverable(old(backgroundTasks)[id])
    {
      StepKeepsInv(Model(), ClaimsDelivery(id));
      claimed := id in backgroundTasks && Deliverable(backgroundTasks[id]);
      if claimed {
        var row := backgroundTasks[id];
        backgroundTasks := backgroundTasks[
          id := row.(delivery := Delivering, attempts := row.attempts + 1, sending := row.sending + 1)];
      }
    }

    /** What follows the awaited channel. */
    method FinishDelivery(id: nat, sent: bool)
      requires Valid() && id in backgroundTasks && backgroundTasks[id].sending > 0
      modifies this
      ensures Valid() && Model() == Apply(old(Model()), EndsDelivery(id, sent))
    {
      StepKeepsInv(Model(), EndsDelivery(id, sent));
      var row := backgroundTasks[id].(sending := backgroundTasks[id].sending - 1);
      if sent {
        row := row.(delivery := Delivered);
      } else if row.attempts >= MAX_ATTEMPTS {
        row := row.(delivery := Undeliverable);
      } else {
        row := row.(delivery := Redelivering);
      }
      backgroundTasks := backgroundTasks[id := row];
    }
  }

  lemma StopIs(s: State)
    ensures Apply(s, Stops) ==
      State(s.tasks, AbortCalls(s.invocations, s.running.Values), map[], s.active - s.running.Keys, false, true,
            s.ticking, s.snapshot)
  {
  }

  function CallsOf(running: map<nat, nat>, ids: set<nat>): set<nat> {
    set id | id in ids && id in running :: running[id]
  }

  lemma NoneAborted(invocations: seq<Invocation>, running: map<nat, nat>)
    ensures AbortCalls(invocations, CallsOf(running, running.Keys - running.Keys)) == invocations
  {
  }

  lemma AllCalls(running: map<nat, nat>)
    ensures CallsOf(running, running.Keys) == running.Values
  {
  }

  lemma OneMoreAborted(invocations: seq<Invocation>, running: map<nat, nat>, ids: set<nat>, id: nat)
    requires id in running
    ensures AbortAt(AbortCalls(invocations, CallsOf(running, ids)), running[id], TimedOut)
      == AbortCalls(invocations, CallsOf(running, ids + {id}))
  {
    assert CallsOf(running, ids + {id}) == CallsOf(running, ids) + {running[id]};
  }
}

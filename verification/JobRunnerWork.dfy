/** How many handlers are at work at once, as against how many the runner counts. */
module JobRunnerWork {
  import opened JobRunnerProofs
  import opened JobRunnerSpec
  import opened JobRunnerTheorems

  /** The calls that have not settled. */
  function AtWork(s: State): set<nat> {
    set i: nat | i < |s.invocations| && !s.invocations[i].settled
  }

  /** Calls at work that the runner does not count any more. */
  function Strays(s: State): set<nat> { AtWork(s) - s.running.Values }

  predicate IsRunning(s: State, id: nat) { id in s.tasks && s.tasks[id].status.Running? }

  /** The calls at work whose entry a step drops: those of stale rows, all of them at a stop, and at the end of
      a call the entry that a later call of the same task made. */
  function Dropped(s: State, step: Step): set<nat> {
    match step
    case BeginsTick(stale, _) =>
      if s.stopped || s.ticking then {}
      else set id | id in s.running && id in stale && IsRunning(s, id) :: s.running[id]
    case Stops => s.running.Values
    case Settles(i, _) =>
      if i in AtWork(s) && s.invocations[i].task in s.running then {s.running[s.invocations[i].task]} - {i} else {}
    case _ => {}
  }

  // ---------- one step ----------

  /** Every entry is a call at work of its task, so no call has two entries. */
  lemma EntryOf(s: State, id: nat)
    requires EntriesOk(s) && id in s.running
    ensures s.running[id] in AtWork(s) && s.invocations[s.running[id]].task == id
  {
  }

  /** Calls may get signals, none is made and none settles. */
  ghost predicate SameWork(s: State, s': State) {
    && |s'.invocations| == |s.invocations|
    && forall i | 0 <= i < |s.invocations| :: s'.invocations[i].settled == s.invocations[i].settled
  }

  lemma {:induction false} ForceFailAllDrops(s: State, ids: seq<nat>)
    requires EntriesOk(s)
    ensures var s' := ForceFailAll(s, ids);
      && EntriesOk(s') && SameWork(s, s')
      && (forall id :: IsRunning(s', id) <==> IsRunning(s, id) && id !in ids)
      && (forall id :: id in s'.running <==> id in s.running && !(id in ids && IsRunning(s, id)))
      && (forall id | id in s'.running :: s'.running[id] == s.running[id])
    decreases |ids|
  {
    hide EntriesOk, ForceFail;
    if ids != [] {
      var front, id := ids[..|ids| - 1], ids[|ids| - 1];
      assert ids == front + [id];
      ForceFailAllDrops(s, front);
      ForceFailDrops(ForceFailAll(s, front), id);
    }
  }

  lemma ForceFailDrops(s: State, id: nat)
    requires EntriesOk(s)
    ensures var s' := ForceFail(s, id);
      && EntriesOk(s') && SameWork(s, s')
      && (forall k :: IsRunning(s', k) <==> IsRunning(s, k) && k != id)
      && s'.running == if IsRunning(s, id) then s.running - {id} else s.running
  {
    if id in s.tasks && s.tasks[id].status.Running? {
      ForceFailShape(s, id);
      hide ForceFail;
      DropEntryKeepsEntries(s, ForceFail(s, id), id);
      ForceFailSettlesNothing(s, id);
    }
  }

  lemma ForceFailSettlesNothing(s: State, id: nat)
    ensures SameWork(s, ForceFail(s, id))
  {
  }

  lemma {:induction false} StartAllRegisters(s: State, ids: seq<nat>, due: set<nat>)
    requires EntriesOk(s)
    ensures var s' := StartAll(s, ids, due);
      && EntriesOk(s') && |s'.invocations| >= |s.invocations|
      && (forall i | 0 <= i < |s.invocations| :: s'.invocations[i] == s.invocations[i])
      && (forall i: nat :: i in s'.running.Values <==> i in s.running.Values || |s.invocations| <= i < |s'.invocations|)
    decreases |ids|
  {
    hide EntriesOk, StartTask;
    if ids != [] {
      var front, id := ids[..|ids| - 1], ids[|ids| - 1];
      StartAllRegisters(s, front, due);
      if id !in StartAll(s, front, due).running { StartRegisters(StartAll(s, front, due), id, due); }
    }
  }

  lemma StartRegisters(s: State, id: nat, due: set<nat>)
    requires EntriesOk(s) && id !in s.running
    ensures var s' := StartTask(s, id, due);
      && EntriesOk(s') && |s.invocations| <= |s'.invocations| <= |s.invocations| + 1
      && (forall i | 0 <= i < |s.invocations| :: s'.invocations[i] == s.invocations[i])
      && (forall i: nat :: i in s'.running.Values <==> i in s.running.Values || |s.invocations| <= i < |s'.invocations|)
  {
    var s' := StartTask(s, id, due);
    if s'.invocations != s.invocations {
      var n := |s.invocations|;
      assert s'.running == s.running[id := n];
      forall i: nat
        ensures i in s'.running.Values <==> i in s.running.Values || i == n
      {
        if i in s.running.Values {
          var k :| k in s.running && s.running[k] == i;
          assert k in s'.running && s'.running[k] == i;
        }
        if i == n { assert id in s'.running && s'.running[id] == n; }
      }
    }
  }

  lemma BeginStrays(s: State, stale: seq<nat>, pending: seq<nat>)
    requires EntriesOk(s)
    ensures Strays(TickBegin(s, stale, pending)) == Strays(s) + Dropped(s, BeginsTick(stale, pending))
  {
    if !s.stopped && !s.ticking {
      hide EntriesOk, IsRunning;
      ForceFailAllDrops(s, stale);
      var s' := TickBegin(s, stale, pending);
      assert AtWork(s') == AtWork(s);
      forall i: nat
        ensures i in Strays(s') <==> i in Strays(s) || i in Dropped(s, BeginsTick(stale, pending))
      {
        if i in AtWork(s) && i in s.running.Values {
          var id :| id in s.running && s.running[id] == i;
          EntryOf(s, id);
          if i in s'.running.Values {
            var k :| k in s'.running && s'.running[k] == i;
            EntryOf(s, k);
          }
          if !(id in stale && IsRunning(s, id)) { assert id in s'.running && s'.running[id] == i; }
        }
        if i in Dropped(s, BeginsTick(stale, pending)) {
          var id :| id in s.running && id in stale && IsRunning(s, id) && s.running[id] == i;
          EntryOf(s, id);
        }
        if i in s'.running.Values {
          var k :| k in s'.running && s'.running[k] == i;
          assert k in s.running && s.running[k] == i;
        }
      }
    }
  }

  lemma EndStrays(s: State, due: set<nat>)
    requires EntriesOk(s)
    ensures Strays(TickEnd(s, due)) == Strays(s)
  {
    var slots := MAX_CONCURRENT - |s.running|;
    if s.ticking && slots > 0 {
      var ids := s.snapshot[..Min(slots, |s.snapshot|)];
      hide EntriesOk, StartAll;
      StartAllRegisters(s, ids, due);
      var s' := TickEnd(s, due);
      assert s'.invocations == StartAll(s, ids, due).invocations && s'.running == StartAll(s, ids, due).running;
      forall i: nat
        ensures i in Strays(s') <==> i in Strays(s)
      {
      }
    }
  }

  lemma SettleShape(s: State, i: nat, outcome: Outcome)
    ensures i in AtWork(s) ==>
      && Settle(s, i, outcome).running == s.running - {s.invocations[i].task}
      && AtWork(Settle(s, i, outcome)) == AtWork(s) - {i}
    ensures i !in AtWork(s) ==> Settle(s, i, outcome) == s
  {
  }

  lemma ValuesWithout(m: map<nat, nat>, id: nat, j: nat)
    requires forall k | k in m && k != id && id in m :: m[k] != m[id]
    ensures j in (m - {id}).Values <==> j in m.Values && !(id in m && m[id] == j)
  {
    if j in m.Values {
      var k :| k in m && m[k] == j;
      if k != id { assert k in m - {id} && (m - {id})[k] == j; }
    }
    if j in (m - {id}).Values {
      var k :| k in m - {id} && (m - {id})[k] == j;
      assert k in m && m[k] == j;
    }
  }

  lemma EntriesDiffer(s: State, id: nat)
    requires EntriesOk(s)
    ensures forall k | k in s.running && k != id && id in s.running :: s.running[k] != s.running[id]
  {
  }

  lemma SettleStrays(s: State, i: nat, outcome: Outcome)
    requires EntriesOk(s)
    ensures Strays(Settle(s, i, outcome)) == (Strays(s) - {i}) + Dropped(s, Settles(i, outcome))
  {
    hide Settle, AtWork;
    SettleShape(s, i, outcome);
    if i in AtWork(s) {
      IsMade(s, i);
      var id := s.invocations[i].task;
      var s' := Settle(s, i, outcome);
      EntriesDiffer(s, id);
      if id in s.running { EntryOf(s, id); }
      hide EntriesOk;
      forall j: nat
        ensures j in Strays(s') <==> (j in Strays(s) && j != i) || j in Dropped(s, Settles(i, outcome))
      {
        ValuesWithout(s.running, id, j);
      }
    }
  }

  lemma IsMade(s: State, i: nat)
    requires i in AtWork(s)
    ensures i < |s.invocations|
  {
  }

  lemma {:induction false} CancelAllKeepsWork(s: State, ids: seq<nat>)
    ensures SameWork(s, CancelAll(s, ids)) && CancelAll(s, ids).running == s.running
    decreases |ids|
  {
    if ids != [] { CancelAllKeepsWork(s, ids[..|ids| - 1]); }
  }

  lemma StopStrays(s: State)
    requires EntriesOk(s)
    ensures Strays(Stop(s)) == Strays(s) + s.running.Values
  {
    assert AtWork(Stop(s)) == AtWork(s);
    forall i | i in s.running.Values
      ensures i in AtWork(s)
    {
      var k :| k in s.running && s.running[k] == i;
    }
  }

  /** The calls that settle at a step. */
  function SettledBy(step: Step): set<nat> { if step.Settles? then {step.invocation} else {} }

  lemma SameWorkStrays(s: State, s': State)
    requires SameWork(s, s') && s'.running == s.running
    ensures AtWork(s') == AtWork(s) && Strays(s') == Strays(s)
  {
  }

  predicate ChangesRows(step: Step) {
    step.Adds? || step.AbandonsTick? || step.TimesOut? || step.Starts? || step.ClaimsDelivery? || step.EndsDelivery?
  }

  lemma RowsKeepWork(s: State, step: Step)
    requires ChangesRows(step)
    ensures SameWork(s, Apply(s, step)) && Apply(s, step).running == s.running
  {
  }

  /** A call strays exactly when a step drops its entry, and until it settles. */
  lemma StepStrays(s: State, step: Step)
    requires EntriesOk(s)
    ensures Strays(Apply(s, step)) == (Strays(s) - SettledBy(step)) + Dropped(s, step)
  {
    hide TickBegin, TickEnd, Settle, Stop, CancelAll, Strays, AtWork, EntriesOk, SameWork;
    match step
    case BeginsTick(stale, pending) => BeginStrays(s, stale, pending);
    case EndsTick(due) => EndStrays(s, due);
    case Settles(i, outcome) => SettleStrays(s, i, outcome);
    case Stops => StopStrays(s);
    case Cancels(ids) =>
      CancelAllKeepsWork(s, ids);
      SameWorkStrays(s, Apply(s, step));
    case _ =>
      hide Apply;
      RowsKeepWork(s, step);
      SameWorkStrays(s, Apply(s, step));
  }

  /** No call made before settles. */
  ghost predicate WorkKept(s: State, s': State) {
    && |s'.invocations| >= |s.invocations|
    && forall i | 0 <= i < |s.invocations| :: s'.invocations[i].settled == s.invocations[i].settled
  }

  lemma KeptAtWork(s: State, s': State)
    requires WorkKept(s, s')
    ensures |s'.invocations| >= |s.invocations|
    ensures forall i: nat | i < |s.invocations| :: i in AtWork(s') <==> i in AtWork(s)
  {
  }

  lemma EndKeepsWork(s: State, due: set<nat>)
    requires EntriesOk(s)
    ensures WorkKept(s, TickEnd(s, due))
  {
    hide EntriesOk, StartAll;
    var slots := MAX_CONCURRENT - |s.running|;
    if slots > 0 { StartAllRegisters(s, s.snapshot[..Min(slots, |s.snapshot|)], due); }
  }

  lemma BeginKeepsWork(s: State, stale: seq<nat>, pending: seq<nat>)
    requires EntriesOk(s)
    ensures WorkKept(s, TickBegin(s, stale, pending))
  {
    hide EntriesOk, ForceFailAll, IsRunning;
    ForceFailAllDrops(s, stale);
  }

  lemma StopKeepsWork(s: State)
    ensures WorkKept(s, Stop(s))
  {
  }

  lemma SettleWork(s: State, i: nat, outcome: Outcome)
    ensures |Settle(s, i, outcome).invocations| == |s.invocations|
    ensures forall j: nat | j < |s.invocations| :: j in AtWork(Settle(s, i, outcome)) <==> j in AtWork(s) && j != i
  {
  }

  lemma SameIsKept(s: State, s': State)
    requires SameWork(s, s')
    ensures WorkKept(s, s')
  {
  }

  /** Of the calls made before, a step takes from the work just the one it settles. */
  lemma StepWork(s: State, step: Step)
    requires EntriesOk(s)
    ensures |Apply(s, step).invocations| >= |s.invocations|
    ensures forall i: nat | i < |s.invocations| :: i in AtWork(Apply(s, step)) <==> i in AtWork(s) - SettledBy(step)
  {
    hide EntriesOk, AtWork;
    if step.Settles? {
      hide Settle;
      SettleWork(s, step.invocation, step.outcome);
    } else {
      StepKeepsWork(s, step);
      hide Apply, WorkKept;
      KeptAtWork(s, Apply(s, step));
    }
  }

  lemma StepKeepsWork(s: State, step: Step)
    requires EntriesOk(s) && !step.Settles?
    ensures WorkKept(s, Apply(s, step))
  {
    hide EntriesOk, TickBegin, TickEnd, Stop, CancelAll, SameWork, WorkKept;
    match step
    case BeginsTick(stale, pending) => BeginKeepsWork(s, stale, pending);
    case EndsTick(due) => EndKeepsWork(s, due);
    case Stops => StopKeepsWork(s);
    case Cancels(ids) =>
      CancelAllKeepsWork(s, ids);
      SameIsKept(s, CancelAll(s, ids));
    case _ =>
      RowsKeepWork(s, step);
      SameIsKept(s, Apply(s, step));
  }

  // ---------- every run ----------

  /** The calls whose entry some step of the run dropped. */
  ghost function DroppedIn(steps: seq<Step>): set<nat> {
    if steps == [] then {}
    else DroppedIn(steps[..|steps| - 1]) + Dropped(Run(INITIAL, steps[..|steps| - 1]), steps[|steps| - 1])
  }

  lemma DroppedWasCounted(s: State, step: Step)
    requires EntriesOk(s)
    ensures forall i | i in Dropped(s, step) :: i < |s.invocations|
  {
    forall i | i in s.running.Values
      ensures i < |s.invocations|
    {
      var id :| id in s.running && s.running[id] == i;
    }
  }

  lemma InvEntries(s: State)
    requires Inv(s)
    ensures EntriesOk(s) && |s.running| <= MAX_CONCURRENT
  {
  }

  /** In every run the calls at work are those the runner counts and those whose entry was dropped. */
  lemma {:induction false} WorkOfEveryRun(steps: seq<Step>)
    ensures var s := Run(INITIAL, steps);
      Strays(s) == AtWork(s) * DroppedIn(steps) && s.running.Values <= AtWork(s)
    decreases |steps|
  {
    hide Apply, Dropped, Inv, EntriesOk, AtWork, SettledBy, Run;
    RunKeepsInv(steps);
    InvEntries(Run(INITIAL, steps));
    CountedIsAtWork(Run(INITIAL, steps));
    StraysWereDropped(steps);
  }

  lemma CountedIsAtWork(s: State)
    requires EntriesOk(s)
    ensures s.running.Values <= AtWork(s)
  {
    forall i | i in s.running.Values
      ensures i in AtWork(s)
    {
      var id :| id in s.running && s.running[id] == i;
    }
  }

  lemma {:induction false} StraysWereDropped(steps: seq<Step>)
    ensures var s := Run(INITIAL, steps);
      Strays(s) == AtWork(s) * DroppedIn(steps) && forall i | i in DroppedIn(steps) :: i < |s.invocations|
    decreases |steps|
  {
    hide Apply, Dropped, Inv, EntriesOk, AtWork, SettledBy;
    if steps == [] {
      NothingAtWork();
    } else {
      var n := |steps| - 1;
      StraysWereDropped(steps[..n]);
      RunKeepsInv(steps[..n]);
      var s := Run(INITIAL, steps[..n]);
      InvEntries(s);
      StepStrays(s, steps[n]);
      StepWork(s, steps[n]);
      DroppedWasCounted(s, steps[n]);
      WorkIsMade(s);
      forall i: nat
        ensures i in Strays(Run(INITIAL, steps)) <==> i in AtWork(Run(INITIAL, steps)) && i in DroppedIn(steps)
      {
      }
    }
  }

  lemma WorkIsMade(s: State)
    ensures forall i | i in AtWork(s) :: i < |s.invocations|
  {
  }

  lemma NothingAtWork()
    ensures AtWork(INITIAL) == {}
  {
  }

  lemma {:induction false} ValuesOf(m: map<nat, nat>)
    ensures |m.Values| <= |m|
    decreases |m|
  {
    if m == map[] {
      assert m.Values == {};
    } else {
      var k :| k in m;
      var rest := m - {k};
      assert m == rest[k := m[k]];
      ValuesOf(rest);
      assert m.Values <= rest.Values + {m[k]};
      Fewer(m.Values, rest.Values + {m[k]});
    }
  }

  lemma {:induction false} Fewer(a: set<nat>, b: set<nat>)
    requires a <= b
    ensures |a| <= |b|
    decreases a
  {
    if a != {} {
      var x :| x in a;
      Fewer(a - {x}, b - {x});
    }
  }

  /** At most three handlers are at work, and one more for each call whose entry was dropped. */
  lemma WorkIsBounded(steps: seq<Step>)
    ensures |AtWork(Run(INITIAL, steps))| <= MAX_CONCURRENT + |DroppedIn(steps)|
    ensures DroppedIn(steps) == {} ==> AtWork(Run(INITIAL, steps)) == Run(INITIAL, steps).running.Values
  {
    hide AtWork, DroppedIn, Run, Inv, EntriesOk;
    var s := Run(INITIAL, steps);
    RunKeepsInv(steps);
    InvEntries(s);
    WorkOfEveryRun(steps);
    ValuesOf(s.running);
    assert AtWork(s) == s.running.Values + Strays(s);
    Fewer(Strays(s), DroppedIn(steps));
  }

  // ---------- forced failures pile up ----------

  /** In each round a task is added, started, and failed as stale in the next tick. */
  function Rounds(n: nat): seq<Step> {
    if n == 0 then [Starts]
    else
      var k := n - 1;
      Rounds(k) + [Adds(k, 0, true)] + [BeginsTick([], [k])] + [EndsTick({})] + [BeginsTick([k], [])] + [EndsTick({})]
  }

  /** After `n` rounds `n` calls are at work and the runner counts none. */
  predicate PiledUp(s: State, n: nat) {
    && |s.invocations| == n && (forall i | 0 <= i < n :: !s.invocations[i].settled)
    && s.running == map[] && s.active == map[] && !s.stopped && !s.ticking && s.snapshot == []
    && forall id | id in s.tasks :: id < n
  }

  lemma RunFive(s: State, steps: seq<Step>, a: Step, b: Step, c: Step, d: Step, e: Step)
    ensures Run(s, steps + [a] + [b] + [c] + [d] + [e]) ==
      Apply(Apply(Apply(Apply(Apply(Run(s, steps), a), b), c), d), e)
  {
    hide Apply, Run;
    RunAppend(s, steps, a);
    RunAppend(s, steps + [a], b);
    RunAppend(s, steps + [a] + [b], c);
    RunAppend(s, steps + [a] + [b] + [c], d);
    RunAppend(s, steps + [a] + [b] + [c] + [d], e);
  }

  lemma RoundStarts(s: State, k: nat)
    requires PiledUp(s, k)
    ensures var s3 := Apply(Apply(Apply(s, Adds(k, 0, true)), BeginsTick([], [k])), EndsTick({}));
      && s3.invocations == s.invocations + [Invocation(k, Live, false)]
      && s3.running == map[k := k] && s3.active == map[k := k] && !s3.stopped && !s3.ticking
      && s3.tasks.Keys == s.tasks.Keys + {k} && s3.tasks[k].status.Running?
  {
    hide StartAll, ForceFailAll;
    var s1 := Apply(s, Adds(k, 0, true));
    NoneFailed(s1);
    var s2 := s1.(ticking := true, snapshot := [k]);
    PicksOne(s2, k, {});
  }

  lemma RoundFails(s: State, k: nat)
    requires s.running == s.active == map[k := k] && !s.stopped && !s.ticking && k < |s.invocations|
    requires k in s.tasks && s.tasks[k].status.Running?
    ensures var s5 := Apply(Apply(s, BeginsTick([k], [])), EndsTick({}));
      && s5.invocations == AbortAt(s.invocations, k, TimedOut) && s5.running == s5.active == map[]
      && !s5.stopped && !s5.ticking && s5.snapshot == [] && s5.tasks.Keys == s.tasks.Keys
  {
    hide StartAll, ForceFailAll;
    FailsOne(s, k);
    var s4 := Apply(s, BeginsTick([k], []));
    assert map[k := k] - {k} == map[];
    NoneStarted(s4, {});
    assert s4.snapshot[..0] == [];
  }

  lemma OneRound(s: State, k: nat)
    requires PiledUp(s, k)
    ensures PiledUp(Apply(Apply(Apply(Apply(Apply(s, Adds(k, 0, true)), BeginsTick([], [k])), EndsTick({})),
                                BeginsTick([k], [])), EndsTick({})), k + 1)
  {
    RoundStarts(s, k);
    var s3 := Apply(Apply(Apply(s, Adds(k, 0, true)), BeginsTick([], [k])), EndsTick({}));
    hide Apply;
    RoundFails(s3, k);
  }

  lemma NoneStarted(s: State, due: set<nat>)
    ensures StartAll(s, [], due) == s
  {
  }

  lemma NoneFailed(s: State)
    ensures ForceFailAll(s, []) == s
  {
  }

  /** Handlers that do not heed their signal pile up without bound, though the runner is never stopped and
      never counts more than one of them. */
  lemma {:induction false} ForcedFailuresPileUp(n: nat)
    ensures PiledUp(Run(INITIAL, Rounds(n)), n) && |AtWork(Run(INITIAL, Rounds(n)))| == n
  {
    hide Apply;
    if n == 0 {
      StartedOnly();
    } else {
      ForcedFailuresPileUp(n - 1);
      var k := n - 1;
      RunFive(INITIAL, Rounds(k), Adds(k, 0, true), BeginsTick([], [k]), EndsTick({}), BeginsTick([k], []),
        EndsTick({}));
      OneRound(Run(INITIAL, Rounds(k)), k);
    }
    AllAtWork(Run(INITIAL, Rounds(n)), n);
  }

  lemma StartedOnly()
    ensures PiledUp(Run(INITIAL, [Starts]), 0)
  {
    RunAppend(INITIAL, [], Starts);
    assert [] + [Starts] == [Starts];
  }

  function UpTo(n: nat): set<nat> { if n == 0 then {} else UpTo(n - 1) + {n - 1} }

  lemma {:induction false} SizeUpTo(n: nat)
    ensures |UpTo(n)| == n && forall i: nat :: i in UpTo(n) <==> i < n
  {
    if n > 0 { SizeUpTo(n - 1); }
  }

  lemma AllAtWork(s: State, n: nat)
    requires PiledUp(s, n)
    ensures |AtWork(s)| == n
  {
    SizeUpTo(n);
    assert AtWork(s) == UpTo(n);
  }
}

/** The background job runner: bounded execution with claims, retries, timeouts and cancellation.

    Each step is the code between two awaits. The task table is a value with the few columns that
    decide what runs; an invocation is one call of a task's handler, named by its number. The clock
    is an input: the caller says which tasks are stale and which retry times have come. */
module JobRunnerSpec {

  datatype Status = Pending | Running | Retrying | Completed | Failed | Cancelled

  datatype Delivery = NoDelivery | Due | Delivering | Redelivering | Delivered | Undeliverable

  /** `recovered`, `outcomes` and `sending` are history: how often a restart put the task back in the queue, how
      often an outcome was written, and how many deliveries have been claimed and not ended. */
  datatype Task = Task(
    status: Status, retryCount: nat, maxRetries: nat, hasHandler: bool, delivery: Delivery, attempts: nat,
    recovered: nat, outcomes: nat, sending: nat)

  /** An abort signal keeps its first reason. */
  datatype Signal = Live | TimedOut | CancelledByUser

  datatype Invocation = Invocation(task: nat, signal: Signal, settled: bool)

  datatype State = State(
    tasks: map<nat, Task>, invocations: seq<Invocation>, running: map<nat, nat>, active: map<nat, nat>,
    polling: bool, stopped: bool, ticking: bool, snapshot: seq<nat>)

  const MAX_CONCURRENT := 3
  const MAX_ATTEMPTS := 5

  const INITIAL := State(map[], [], map[], map[], false, false, false, [])

  predicate Claimable(status: Status) { status.Pending? || status.Retrying? }

  predicate Terminal(status: Status) { status.Completed? || status.Failed? || status.Cancelled? }

  function Abort(i: Invocation, reason: Signal): Invocation {
    if i.signal.Live? then i.(signal := reason) else i
  }

  function AbortAt(invocations: seq<Invocation>, i: nat, reason: Signal): seq<Invocation> {
    if i < |invocations| then invocations[i := Abort(invocations[i], reason)] else invocations
  }

  // ---------- the task table ----------

  function CompleteTask(t: Task): Task { t.(status := Completed, delivery := Due, outcomes := t.outcomes + 1) }

  function FailTask(t: Task): Task { t.(status := Failed, delivery := Due, outcomes := t.outcomes + 1) }

  function MarkRetrying(t: Task): Task { t.(status := Retrying, retryCount := t.retryCount + 1) }

  function CancelTask(t: Task): Task {
    if Terminal(t.status) then t else t.(status := Cancelled, delivery := NoDelivery)
  }

  function RecoverTask(t: Task): Task {
    if t.status.Running? then t.(status := Retrying, recovered := t.recovered + 1) else t
  }

  // ---------- one tick ----------

  /** A stale running task is force-failed; its handler is only told to stop. */
  function ForceFail(s: State, id: nat): State {
    if id !in s.tasks || !s.tasks[id].status.Running? then s
    else
      s.(tasks := s.tasks[id := FailTask(s.tasks[id])],
         invocations := if id in s.running then AbortAt(s.invocations, s.running[id], TimedOut) else s.invocations,
         running := s.running - {id},
         active := if id in s.running then s.active - {id} else s.active)
  }

  function ForceFailAll(s: State, ids: seq<nat>): State {
    if ids == [] then s else ForceFail(ForceFailAll(s, ids[..|ids| - 1]), ids[|ids| - 1])
  }

  /** The part of a tick before its deliveries are awaited. */
  function TickBegin(s: State, stale: seq<nat>, pending: seq<nat>): State {
    if s.stopped || s.ticking then s else ForceFailAll(s, stale).(ticking := true, snapshot := pending)
  }

  /** Claim the task and call its handler, or fail it when it has none. */
  function StartTask(s: State, id: nat, due: set<nat>): State {
    if id !in s.tasks || !Claimable(s.tasks[id].status) || (s.tasks[id].status.Retrying? && id !in due) then s
    else if !s.tasks[id].hasHandler then s.(tasks := s.tasks[id := FailTask(s.tasks[id])])
    else
      var n := |s.invocations|;
      s.(tasks := s.tasks[id := s.tasks[id].(status := Running)],
         invocations := s.invocations + [Invocation(id, Live, false)],
         running := s.running[id := n], active := s.active[id := n])
  }

  function StartAll(s: State, ids: seq<nat>, due: set<nat>): State {
    if ids == [] then s
    else
      var s1 := StartAll(s, ids[..|ids| - 1], due);
      var id := ids[|ids| - 1];
      if id in s1.running then s1 else StartTask(s1, id, due)
  }

  function Min(a: int, b: int): int { if a < b then a else b }

  /** The rest of the tick; `stopped` is not looked at again. */
  function TickEnd(s: State, due: set<nat>): State {
    if !s.ticking then s
    else
      var slots := MAX_CONCURRENT - |s.running|;
      var started := if slots <= 0 then s else StartAll(s, s.snapshot[..Min(slots, |s.snapshot|)], due);
      started.(ticking := false, snapshot := [])
  }

  // ---------- the other steps ----------

  datatype Outcome = Returned | Threw | ThrewPermanent

  function AfterSettling(t: Task, outcome: Outcome): Task {
    if outcome.Returned? then CompleteTask(t)
    else if outcome.Threw? && t.retryCount < t.maxRetries then MarkRetrying(t)
    else FailTask(t)
  }

  /** The continuation of a handler call. It clears the entries of its task, whoever made them. */
  function Settle(s: State, i: nat, outcome: Outcome): State {
    if i >= |s.invocations| || s.invocations[i].settled then s
    else
      var inv := s.invocations[i];
      var s1 := s.(invocations := s.invocations[i := inv.(settled := true)],
                   running := s.running - {inv.task}, active := s.active - {inv.task});
      if inv.signal.CancelledByUser? || inv.task !in s.tasks then s1
      else s1.(tasks := s.tasks[inv.task := AfterSettling(s.tasks[inv.task], outcome)])
  }

  /** The timer of a handler call. */
  function Timeout(s: State, i: nat): State {
    if i < |s.invocations| && !s.invocations[i].settled then s.(invocations := AbortAt(s.invocations, i, TimedOut))
      else s
  }

  function CancelOne(s: State, id: nat): State {
    if id !in s.tasks || Terminal(s.tasks[id].status) then s
    else
      s.(tasks := s.tasks[id := CancelTask(s.tasks[id])],
         invocations := if id in s.active then AbortAt(s.invocations, s.active[id], CancelledByUser) else s.invocations)
  }

  /** Cancelling every live task that one scheduled task gave rise to. */
  function CancelAll(s: State, ids: seq<nat>): State {
    if ids == [] then s else CancelOne(CancelAll(s, ids[..|ids| - 1]), ids[|ids| - 1])
  }

  function AbortCalls(invocations: seq<Invocation>, calls: set<nat>): seq<Invocation> {
    seq(|invocations|, i requires 0 <= i < |invocations| =>
      if i in calls then Abort(invocations[i], TimedOut) else invocations[i])
  }

  function Stop(s: State): State {
    s.(polling := false, stopped := true, running := map[], active := s.active - s.running.Keys,
       invocations := AbortCalls(s.invocations, s.running.Values))
  }

  /** A start requeues the rows that are marked running, unless the runner is polling already. */
  function Start(s: State): State {
    if s.polling then s
    else s.(polling := true, stopped := false, tasks := map id | id in s.tasks :: RecoverTask(s.tasks[id]))
  }

  function AddTask(s: State, id: nat, maxRetries: nat, hasHandler: bool): State {
    if id in s.tasks then s
    else s.(tasks := s.tasks[id := Task(Pending, 0, maxRetries, hasHandler, NoDelivery, 0, 0, 0, 0)])
  }

  predicate Deliverable(t: Task) { t.delivery.Due? || t.delivery.Redelivering? }

  function Claimed(t: Task): Task {
    t.(delivery := Delivering, attempts := t.attempts + 1, sending := t.sending + 1)
  }

  /** The claim of a delivery, which hands the result to its channel. */
  function ClaimDelivery(s: State, id: nat): State {
    if id in s.tasks && Deliverable(s.tasks[id]) then s.(tasks := s.tasks[id := Claimed(s.tasks[id])]) else s
  }

  function Ended(t: Task, sent: bool): Task
    requires t.sending > 0
  {
    t.(sending := t.sending - 1,
       delivery := if sent then Delivered else if t.attempts >= MAX_ATTEMPTS then Undeliverable else Redelivering)
  }

  /** The end of a delivery that was claimed, whatever has been written to the row meanwhile. */
  function EndDelivery(s: State, id: nat, sent: bool): State {
    if id !in s.tasks || s.tasks[id].sending == 0 then s
    else s.(tasks := s.tasks[id := Ended(s.tasks[id], sent)])
  }

  datatype Step =
    | Adds(id: nat, maxRetries: nat, hasHandler: bool)
    | BeginsTick(stale: seq<nat>, pending: seq<nat>)
    | EndsTick(due: set<nat>)
    | AbandonsTick
    | Settles(invocation: nat, outcome: Outcome)
    | TimesOut(invocation: nat)
    | Cancels(ids: seq<nat>)
    | Stops
    | Starts
    | ClaimsDelivery(id: nat)
    | EndsDelivery(id: nat, sent: bool)

  function Apply(s: State, step: Step): State {
    match step
    case Adds(id, maxRetries, hasHandler) => AddTask(s, id, maxRetries, hasHandler)
    case BeginsTick(stale, pending) => TickBegin(s, stale, pending)
    case EndsTick(due) => TickEnd(s, due)
    case AbandonsTick => s.(ticking := false, snapshot := [])
    case Settles(i, outcome) => Settle(s, i, outcome)
    case TimesOut(i) => Timeout(s, i)
    case Cancels(ids) => CancelAll(s, ids)
    case Stops => Stop(s)
    case Starts => Start(s)
    case ClaimsDelivery(id) => ClaimDelivery(s, id)
    case EndsDelivery(id, sent) => EndDelivery(s, id, sent)
  }

  /** Every run is allowed: a step that is not enabled changes nothing. */
  function Run(s: State, steps: seq<Step>): State {
    if steps == [] then s else Apply(Run(s, steps[..|steps| - 1]), steps[|steps| - 1])
  }
}

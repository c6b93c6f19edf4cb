/** Turn scheduling: one promise chain per session and one counting semaphore per user.

    The state of the four maps is a value here and every atomic step (the code between two
    awaits) is a function on it. `TurnScheduler.dfy` runs the same steps on mutable maps, and
    `TurnSchedulerProofs.dfy` proves what every run keeps.

    A ticket is one call of `runInChatQueue`, named by its arrival number. The `stamp` of a
    ticket and the `clock` are history: the order in which tickets asked for a user slot. */
module TurnSchedulerSpec {
  import opened Options

  /** Where a ticket is. The last three phases are reached only when the queue notice throws:
      the call rejects and nobody will ever release what it holds. */
  datatype Phase =
    | WaitSession    // awaiting the previous tail of its session
    | WaitSlot       // admitted to its session, its resume closure is in the user's queue
    | Granted        // holds a slot, its continuation has not run yet
    | Running        // executing the task
    | Done           // past the finally block
    | LostAtArrival  // rejected before awaiting its session
    | LostInQueue    // rejected after its resume closure was queued
    | Leaked         // a slot was handed to a rejected call

  datatype Ticket = Ticket(session: string, user: string, pred: Option<nat>, phase: Phase, stamp: nat)

  datatype State = State(
    tickets: seq<Ticket>,
    tail: map<string, nat>,
    depth: map<string, int>,
    running: map<string, int>,
    queues: map<string, seq<nat>>,
    clock: nat)

  const INITIAL := State([], map[], map[], map[], map[], 0)

  datatype Step =
    | Arrive(session: string, user: string, noticeThrows: bool)
    | Admit(ticket: nat, noticeThrows: bool)
    | Resume(ticket: nat)
    | Finish(ticket: nat)

  function Get<V>(m: map<string, V>, k: string, default: V): V {
    if k in m then m[k] else default
  }

  function Max(a: int, b: int): int {
    if a < b then b else a
  }

  function SetPhase(tickets: seq<Ticket>, t: nat, p: Phase): seq<Ticket> {
    if t < |tickets| then tickets[t := tickets[t].(phase := p)] else tickets
  }

  /** What calling a queued resume closure does to the ticket that queued it. */
  function Woken(p: Phase): Phase {
    match p
    case WaitSlot => Granted
    case LostInQueue => Leaked
    case _ => p
  }

  function Wake(tickets: seq<Ticket>, t: nat): seq<Ticket> {
    if t < |tickets| then SetPhase(tickets, t, Woken(tickets[t].phase)) else tickets
  }

  /** A counter entry that is stored only while it is not zero. */
  function Store(m: map<string, int>, k: string, v: int): map<string, int> {
    if v == 0 then m - {k} else m[k := v]
  }

  function ReleaseUserTurnSlot(s: State, user: string): State {
    var queue := Get(s.queues, user, []);
    if queue != [] then
      var rest := queue[1..];
      s.(queues := if rest == [] then s.queues - {user} else s.queues[user := rest],
         tickets := Wake(s.tickets, queue[0]))
    else
      s.(queues := s.queues - {user},
         running := Store(s.running, user, Max(0, Get(s.running, user, 0) - 1)))
  }

  function AcquireUserTurnSlot(s: State, max: int, t: nat, user: string, noticeThrows: bool): State {
    var queue := Get(s.queues, user, []);
    var running := Get(s.running, user, 0);
    if running < max && queue == [] then
      s.(running := s.running[user := running + 1], tickets := SetPhase(s.tickets, t, Granted))
    else
      s.(queues := s.queues[user := queue + [t]],
         tickets := SetPhase(s.tickets, t, if noticeThrows then LostInQueue else WaitSlot))
  }

  function ArriveStep(s: State, session: string, user: string, noticeThrows: bool): State {
    var hadSessionWorkAhead := session in s.tail;
    var pred := if hadSessionWorkAhead then Some(s.tail[session]) else None;
    var phase := if hadSessionWorkAhead && noticeThrows then LostAtArrival else WaitSession;
    s.(tickets := s.tickets + [Ticket(session, user, pred, phase, 0)],
       tail := s.tail[session := |s.tickets|],
       depth := if hadSessionWorkAhead then s.depth[session := Get(s.depth, session, 0) + 1] else s.depth)
  }

  function AdmitStep(s: State, max: int, t: nat, noticeThrows: bool): State
    requires t < |s.tickets|
  {
    var ticket := s.tickets[t];
    var s1 := s.(
      depth := if ticket.pred.Some?
        then Store(s.depth, ticket.session, Max(0, Get(s.depth, ticket.session, 1) - 1))
        else s.depth,
      tickets := s.tickets[t := ticket.(stamp := s.clock)],
      clock := s.clock + 1);
    AcquireUserTurnSlot(s1, max, t, ticket.user, noticeThrows)
  }

  function FinishStep(s: State, t: nat): State
    requires t < |s.tickets|
  {
    var ticket := s.tickets[t];
    var s1 := ReleaseUserTurnSlot(s, ticket.user);
    s1.(tickets := SetPhase(s1.tickets, t, Done),
        tail := if ticket.session in s1.tail && s1.tail[ticket.session] == t then s1.tail - {ticket.session}
          else s1.tail)
  }

  /** A ticket's awaited promise has resolved: its session predecessor ran `releaseCurrent`. */
  predicate SessionOpen(s: State, t: nat)
    requires t < |s.tickets|
  {
    var pred := s.tickets[t].pred;
    pred.Some? ==> pred.value < |s.tickets| && s.tickets[pred.value].phase == Done
  }

  predicate Enabled(s: State, step: Step) {
    match step
    case Arrive(_, _, _) => true
    case Admit(t, _) => t < |s.tickets| && s.tickets[t].phase == WaitSession && SessionOpen(s, t)
    case Resume(t) => t < |s.tickets| && s.tickets[t].phase == Granted
    case Finish(t) => t < |s.tickets| && s.tickets[t].phase == Running
  }

  function Apply(s: State, max: int, step: Step): State
    requires Enabled(s, step)
  {
    match step
    case Arrive(session, user, throws) => ArriveStep(s, session, user, throws)
    case Admit(t, throws) => AdmitStep(s, max, t, throws)
    case Resume(t) => s.(tickets := SetPhase(s.tickets, t, Running))
    case Finish(t) => FinishStep(s, t)
  }

  /** Every step of the run is enabled where it is taken: one interleaving of the event loop. */
  predicate ValidRun(s: State, max: int, steps: seq<Step>)
    decreases |steps|
  {
    steps != [] ==> Enabled(s, steps[0]) && ValidRun(Apply(s, max, steps[0]), max, steps[1..])
  }

  function Run(s: State, max: int, steps: seq<Step>): State
    requires ValidRun(s, max, steps)
    decreases |steps|
  {
    if steps == [] then s else Run(Apply(s, max, steps[0]), max, steps[1..])
  }
}

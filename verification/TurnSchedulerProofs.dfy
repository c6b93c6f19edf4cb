/** What every interleaving of arrivals, admissions, wakeups and finishes keeps. */
module TurnSchedulerProofs {
  import opened Options
  import opened TurnSchedulerSpec

  // ---------- vocabulary ----------

  predicate Lost(p: Phase) { p.LostAtArrival? || p.LostInQueue? || p.Leaked? }

  /** Counted in the user's running total. */
  predicate HoldsSlot(p: Phase) { p.Granted? || p.Running? || p.Leaked? }

  /** Its resume closure is in the user's queue. */
  predicate Queued(p: Phase) { p.WaitSlot? || p.LostInQueue? }

  /** Between session admission and `releaseCurrent`. */
  predicate InSession(p: Phase) { Queued(p) || HoldsSlot(p) }

  /** Has been given a slot at some time. */
  predicate Served(p: Phase) { HoldsSlot(p) || p.Done? }

  /** Arrived behind work and not yet admitted. */
  predicate WaitsBehind(t: Ticket) { t.pred.Some? && (t.phase.WaitSession? || t.phase.LostAtArrival?) }

  ghost function Holders(ts: seq<Ticket>, user: string): set<nat> {
    set i: nat | i < |ts| && ts[i].user == user && HoldsSlot(ts[i].phase)
  }

  ghost function Behind(ts: seq<Ticket>, session: string): set<nat> {
    set i: nat | i < |ts| && ts[i].session == session && WaitsBehind(ts[i])
  }

  // ---------- the invariant ----------

  ghost predicate AllEarlierDone(ts: seq<Ticket>, t: nat)
    requires t < |ts|
  {
    forall e: nat | e < t && ts[e].session == ts[t].session :: ts[e].phase.Done?
  }

  /** The predecessor of a ticket is the ticket right before it in its session; without one,
      the session was idle when the ticket arrived. */
  ghost predicate PredOk(ts: seq<Ticket>, t: nat)
    requires t < |ts|
  {
    if ts[t].pred.Some? then
      var p := ts[t].pred.value;
      && p < t && ts[p].session == ts[t].session
      && forall e: nat | p < e < t :: ts[e].session != ts[t].session
    else
      !ts[t].phase.LostAtArrival? && AllEarlierDone(ts, t)
  }

  /** FIFO inside a session: whoever left the waiting phase left after everyone before it finished. */
  ghost predicate OrderInv(ts: seq<Ticket>) {
    && (forall t: nat | t < |ts| :: PredOk(ts, t))
    && (forall t: nat | t < |ts| && (InSession(ts[t].phase) || ts[t].phase.Done?) :: AllEarlierDone(ts, t))
  }

  ghost predicate TailOk(s: State, k: string) {
    if k in s.tail then
      && s.tail[k] < |s.tickets| && s.tickets[s.tail[k]].session == k && !s.tickets[s.tail[k]].phase.Done?
      && forall t: nat | s.tail[k] < t < |s.tickets| :: s.tickets[t].session != k
    else
      forall t: nat | t < |s.tickets| && s.tickets[t].session == k :: s.tickets[t].phase.Done?
  }

  ghost predicate DepthOk(s: State, k: string) {
    Get(s.depth, k, 0) == |Behind(s.tickets, k)| && (k in s.depth ==> s.depth[k] != 0)
  }

  ghost predicate RunningOk(s: State, max: int, u: string) {
    && Get(s.running, u, 0) == |Holders(s.tickets, u)| <= max
    && (u in s.running ==> s.running[u] != 0)
    && (Get(s.queues, u, []) != [] ==> Get(s.running, u, 0) == max)
  }

  /** A user's queue lists exactly the queued tickets of that user, in the order they asked. */
  ghost predicate QueueOk(s: State, u: string) {
    var q := Get(s.queues, u, []);
    && (u in s.queues ==> q != [])
    && (forall i: nat | i < |q| :: q[i] < |s.tickets| && s.tickets[q[i]].user == u && Queued(s.tickets[q[i]].phase))
    && (forall t: nat | t < |s.tickets| && s.tickets[t].user == u && Queued(s.tickets[t].phase) :: t in q)
    && (forall i: nat, j: nat | i < j < |q| :: s.tickets[q[i]].stamp < s.tickets[q[j]].stamp)
  }

  ghost predicate StampsInv(s: State) {
    forall t: nat | t < |s.tickets| && (InSession(s.tickets[t].phase) || s.tickets[t].phase.Done?) ::
      s.tickets[t].stamp < s.clock
  }

  /** Nobody is served before an earlier asker of the same user. */
  ghost predicate NoOvertaking(ts: seq<Ticket>) {
    forall a: nat, b: nat | a < |ts| && b < |ts| && ts[a].user == ts[b].user
      && InSession(ts[a].phase) && Served(ts[b].phase) && ts[a].stamp < ts[b].stamp :: Served(ts[a].phase)
  }

  ghost predicate SessionInv(s: State) {
    OrderInv(s.tickets) && (forall k :: TailOk(s, k)) && (forall k :: DepthOk(s, k))
  }

  ghost predicate SlotInv(s: State, max: int) {
    && (forall u :: RunningOk(s, max, u)) && (forall u :: QueueOk(s, u))
    && StampsInv(s) && NoOvertaking(s.tickets)
  }

  ghost predicate Inv(s: State, max: int) {
    SessionInv(s) && SlotInv(s, max)
  }

  lemma InitialInv(max: nat)
    ensures Inv(INITIAL, max)
  {
    forall k
      ensures DepthOk(INITIAL, k) && RunningOk(INITIAL, max, k) && TailOk(INITIAL, k) && QueueOk(INITIAL, k)
    {
      assert Holders([], k) == {} && Behind([], k) == {};
    }
  }

  // ---------- how the clauses react to a change of phases ----------

  /** `ts'` differs from `ts` in phases and stamps only; a finished ticket stays finished. */
  ghost predicate SameTickets(ts: seq<Ticket>, ts': seq<Ticket>) {
    && |ts| == |ts'|
    && forall i: nat | i < |ts| ::
         && ts'[i].session == ts[i].session && ts'[i].user == ts[i].user && ts'[i].pred == ts[i].pred
         && (ts[i].phase.Done? ==> ts'[i].phase.Done?)
         && (ts'[i].phase.LostAtArrival? ==> ts[i].phase.LostAtArrival?)
  }

  lemma OrderKept(ts: seq<Ticket>, ts': seq<Ticket>)
    requires OrderInv(ts) && SameTickets(ts, ts')
    requires forall t: nat | t < |ts| && (InSession(ts'[t].phase) || ts'[t].phase.Done?) ::
      InSession(ts[t].phase) || ts[t].phase.Done? || AllEarlierDone(ts, t)
    ensures OrderInv(ts')
  {
    forall t: nat | t < |ts'|
      ensures PredOk(ts', t)
    {
      assert PredOk(ts, t);
    }
  }

  /** An open session means every earlier ticket of the session has finished. */
  lemma OpenSessionIsClear(s: State, t: nat)
    requires OrderInv(s.tickets) && t < |s.tickets| && SessionOpen(s, t)
    ensures AllEarlierDone(s.tickets, t)
  {
    assert PredOk(s.tickets, t);
    if s.tickets[t].pred.Some? {
      assert AllEarlierDone(s.tickets, s.tickets[t].pred.value);
    }
  }

  lemma SameHolders(ts: seq<Ticket>, ts': seq<Ticket>, user: string)
    requires SameTickets(ts, ts')
    requires forall i: nat | i < |ts| && ts[i].user == user :: HoldsSlot(ts'[i].phase) == HoldsSlot(ts[i].phase)
    ensures Holders(ts', user) == Holders(ts, user)
  {
  }

  lemma OneMoreHolder(ts: seq<Ticket>, ts': seq<Ticket>, t: nat)
    requires SameTickets(ts, ts') && t < |ts| && !HoldsSlot(ts[t].phase) && HoldsSlot(ts'[t].phase)
    requires forall i: nat | i < |ts| && i != t :: HoldsSlot(ts'[i].phase) == HoldsSlot(ts[i].phase)
    ensures |Holders(ts', ts[t].user)| == |Holders(ts, ts[t].user)| + 1
  {
    assert Holders(ts', ts[t].user) == Holders(ts, ts[t].user) + {t};
  }

  lemma OneLessHolder(ts: seq<Ticket>, ts': seq<Ticket>, t: nat)
    requires SameTickets(ts, ts') && t < |ts| && HoldsSlot(ts[t].phase) && !HoldsSlot(ts'[t].phase)
    requires forall i: nat | i < |ts| && i != t :: HoldsSlot(ts'[i].phase) == HoldsSlot(ts[i].phase)
    ensures |Holders(ts', ts[t].user)| == |Holders(ts, ts[t].user)| - 1
  {
    assert Holders(ts, ts[t].user) == Holders(ts', ts[t].user) + {t};
  }

  lemma SameBehind(ts: seq<Ticket>, ts': seq<Ticket>, session: string)
    requires SameTickets(ts, ts')
    requires forall i: nat | i < |ts| && ts[i].session == session :: WaitsBehind(ts'[i]) == WaitsBehind(ts[i])
    ensures Behind(ts', session) == Behind(ts, session)
  {
  }

  lemma OneLessBehind(ts: seq<Ticket>, ts': seq<Ticket>, t: nat)
    requires SameTickets(ts, ts') && t < |ts| && WaitsBehind(ts[t]) && !WaitsBehind(ts'[t])
    requires forall i: nat | i < |ts| && i != t :: ts'[i] == ts[i]
    ensures |Behind(ts', ts[t].session)| == |Behind(ts, ts[t].session)| - 1
  {
    assert Behind(ts, ts[t].session) == Behind(ts', ts[t].session) + {t};
  }

  // ---------- arrival ----------

  lemma ArriveKeepsSession(s: State, session: string, user: string, throws: bool)
    requires SessionInv(s)
    ensures SessionInv(ArriveStep(s, session, user, throws))
  {
    hide OrderInv, TailOk, DepthOk, ArriveStep;
    var s' := ArriveStep(s, session, user, throws);
    assert TailOk(s, session);
    ArriveKeepsOrder(s, session, user, throws);
    forall k
      ensures TailOk(s', k) && DepthOk(s', k)
    {
      assert TailOk(s, k) && DepthOk(s, k);
      ArriveKeepsTail(s, session, user, throws, k);
      ArriveKeepsDepth(s, session, user, throws, k);
    }
  }

  lemma ArriveKeepsOrder(s: State, session: string, user: string, throws: bool)
    requires OrderInv(s.tickets) && TailOk(s, session)
    ensures OrderInv(ArriveStep(s, session, user, throws).tickets)
  {
    var ts, ts' := s.tickets, ArriveStep(s, session, user, throws).tickets;
    assert forall t: nat | t < |ts| :: ts'[t] == ts[t];
    forall t: nat | t < |ts'|
      ensures PredOk(ts', t)
    {
      if t < |ts| { assert PredOk(ts, t); }
    }
    forall t: nat | t < |ts'| && (InSession(ts'[t].phase) || ts'[t].phase.Done?)
      ensures AllEarlierDone(ts', t)
    {
      assert AllEarlierDone(ts, t);
    }
  }

  lemma ArriveKeepsTail(s: State, session: string, user: string, throws: bool, k: string)
    requires TailOk(s, k)
    ensures TailOk(ArriveStep(s, session, user, throws), k)
  {
  }

  lemma ArriveKeepsDepth(s: State, session: string, user: string, throws: bool, k: string)
    requires DepthOk(s, k)
    ensures DepthOk(ArriveStep(s, session, user, throws), k)
  {
    var ts, ts' := s.tickets, ArriveStep(s, session, user, throws).tickets;
    assert forall t: nat | t < |ts| :: ts'[t] == ts[t];
    if k == session && session in s.tail {
      assert Behind(ts', k) == Behind(ts, k) + {|ts|};
    } else {
      assert Behind(ts', k) == Behind(ts, k);
    }
  }

  lemma ArriveKeepsSlots(s: State, max: int, session: string, user: string, throws: bool)
    requires SlotInv(s, max)
    ensures SlotInv(ArriveStep(s, session, user, throws), max)
  {
    hide RunningOk, QueueOk;
    var s' := ArriveStep(s, session, user, throws);
    assert forall t: nat | t < |s.tickets| :: s'.tickets[t] == s.tickets[t];
    forall u
      ensures RunningOk(s', max, u) && QueueOk(s', u)
    {
      assert RunningOk(s, max, u) && QueueOk(s, u);
      ArriveKeepsUser(s, max, session, user, throws, u);
    }
  }

  lemma ArriveKeepsUser(s: State, max: int, session: string, user: string, throws: bool, u: string)
    requires RunningOk(s, max, u) && QueueOk(s, u)
    ensures var s' := ArriveStep(s, session, user, throws);
      RunningOk(s', max, u) && QueueOk(s', u)
  {
    var ts, ts' := s.tickets, ArriveStep(s, session, user, throws).tickets;
    assert forall t: nat | t < |ts| :: ts'[t] == ts[t];
    assert Holders(ts', u) == Holders(ts, u);
  }

  // ---------- admission to the session ----------

  /** What an admission changes: the depth entry of the session, and either a slot or a queue place. */
  ghost predicate Admitted(s: State, s': State, max: int, t: nat) {
    && t < |s.tickets| && SameTickets(s.tickets, s'.tickets)
    && s'.tail == s.tail && s'.clock == s.clock + 1
    && (forall i: nat | i < |s.tickets| && i != t :: s'.tickets[i] == s.tickets[i])
    && s.tickets[t].phase.WaitSession? && s'.tickets[t].stamp == s.clock
    && var ticket := s.tickets[t];
    && s'.depth == (if ticket.pred.Some?
         then Store(s.depth, ticket.session, Max(0, Get(s.depth, ticket.session, 1) - 1)) else s.depth)
    && var queue := Get(s.queues, ticket.user, []);
    && var held := Get(s.running, ticket.user, 0);
    if held < max && queue == [] then
      && s'.tickets[t].phase.Granted? && s'.queues == s.queues && s'.running == s.running[ticket.user := held + 1]
    else
      && Queued(s'.tickets[t].phase) && s'.running == s.running && s'.queues == s.queues[ticket.user := queue + [t]]
  }

  lemma AdmitShape(s: State, max: int, t: nat, throws: bool)
    requires t < |s.tickets| && s.tickets[t].phase == WaitSession
    ensures Admitted(s, AdmitStep(s, max, t, throws), max, t)
  {
  }

  lemma AdmitKeepsDepth(s: State, s': State, max: int, t: nat, k: string)
    requires Admitted(s, s', max, t) && DepthOk(s, k) && DepthOk(s, s.tickets[t].session)
    ensures s.tickets[t].pred.Some? ==> Get(s.depth, s.tickets[t].session, 0) >= 1
    ensures DepthOk(s', k)
  {
    var ts, ts', own := s.tickets, s'.tickets, s.tickets[t].session;
    if ts[t].pred.Some? {
      OneLessBehind(ts, ts', t);
      if k != own {
        SameBehind(ts, ts', k);
      }
    } else {
      SameBehind(ts, ts', k);
    }
  }

  lemma AdmitKeepsSession(s: State, max: int, t: nat, throws: bool)
    requires SessionInv(s) && Enabled(s, Admit(t, throws))
    ensures s.tickets[t].pred.Some? ==> Get(s.depth, s.tickets[t].session, 1) - 1 >= 0
    ensures SessionInv(AdmitStep(s, max, t, throws))
  {
    AdmitShape(s, max, t, throws);
    var s' := AdmitStep(s, max, t, throws);
    OpenSessionIsClear(s, t);
    OrderKept(s.tickets, s'.tickets);
    assert DepthOk(s, s.tickets[t].session);
    forall k
      ensures TailOk(s', k) && DepthOk(s', k)
    {
      assert TailOk(s, k) && DepthOk(s, k);
      AdmitKeepsDepth(s, s', max, t, k);
    }
  }

  lemma AdmitKeepsRunning(s: State, s': State, max: int, t: nat, u: string)
    requires Admitted(s, s', max, t) && RunningOk(s, max, u)
    ensures RunningOk(s', max, u)
  {
    if u == s.tickets[t].user && HoldsSlot(s'.tickets[t].phase) {
      OneMoreHolder(s.tickets, s'.tickets, t);
    } else {
      SameHolders(s.tickets, s'.tickets, u);
    }
  }

  lemma AdmitKeepsQueue(s: State, s': State, max: int, t: nat, u: string)
    requires Admitted(s, s', max, t) && QueueOk(s, u) && StampsInv(s)
    ensures QueueOk(s', u)
  {
    var joined := u == s.tickets[t].user && Queued(s'.tickets[t].phase);
    assert u in s'.queues <==> u in s.queues || joined;
    assert Get(s'.queues, u, []) == Get(s.queues, u, []) + if joined then [t] else [];
    QueueJoined(s, s', t, u, joined);
  }

  /** A ticket that asks now stands behind everyone who asked before. */
  lemma QueueJoined(s: State, s': State, t: nat, u: string, joined: bool)
    requires QueueOk(s, u) && StampsInv(s) && |s'.tickets| == |s.tickets| && t < |s.tickets|
    requires forall i: nat | i < |s.tickets| && i != t :: s'.tickets[i] == s.tickets[i]
    requires !Queued(s.tickets[t].phase) && s'.tickets[t].stamp == s.clock && s'.tickets[t].user == s.tickets[t].user
    requires joined <==> u == s.tickets[t].user && Queued(s'.tickets[t].phase)
    requires u in s'.queues <==> u in s.queues || joined
    requires Get(s'.queues, u, []) == Get(s.queues, u, []) + if joined then [t] else []
    ensures QueueOk(s', u)
  {
    var ts, ts' := s.tickets, s'.tickets;
    var q, q' := Get(s.queues, u, []), Get(s'.queues, u, []);
    forall i: nat | i < |q|
      ensures q'[i] == q[i] && ts'[q[i]] == ts[q[i]] && ts[q[i]].stamp < s.clock
    {
      assert Queued(ts[q[i]].phase);
    }
    forall e: nat | e < |ts'| && ts'[e].user == u && Queued(ts'[e].phase)
      ensures e in q'
    {
      assert e == t || e in q;
    }
  }

  lemma AdmitKeepsSlots(s: State, max: int, t: nat, throws: bool)
    requires SlotInv(s, max) && Enabled(s, Admit(t, throws))
    ensures SlotInv(AdmitStep(s, max, t, throws), max)
  {
    hide AdmitStep, RunningOk, QueueOk, Admitted;
    AdmitShape(s, max, t, throws);
    var s' := AdmitStep(s, max, t, throws);
    forall u
      ensures RunningOk(s', max, u) && QueueOk(s', u)
    {
      assert RunningOk(s, max, u) && QueueOk(s, u);
      AdmitKeepsRunning(s, s', max, t, u);
      AdmitKeepsQueue(s, s', max, t, u);
    }
    AdmitKeepsStamps(s, s', max, t);
    AdmitKeepsNoOvertaking(s, s', max, t);
  }

  lemma AdmitKeepsStamps(s: State, s': State, max: int, t: nat)
    requires Admitted(s, s', max, t) && StampsInv(s)
    ensures StampsInv(s')
  {
  }

  /** Whoever gets a slot at once found nobody in the queue. */
  lemma AdmitKeepsNoOvertaking(s: State, s': State, max: int, t: nat)
    requires Admitted(s, s', max, t) && StampsInv(s) && QueueOk(s, s.tickets[t].user) && NoOvertaking(s.tickets)
    ensures NoOvertaking(s'.tickets)
  {
  }

  // ---------- resuming with a slot ----------

  lemma ResumeKeepsInv(s: State, max: int, t: nat)
    requires Inv(s, max) && Enabled(s, Resume(t))
    ensures Inv(Apply(s, max, Resume(t)), max)
  {
    var s' := Apply(s, max, Resume(t));
    var ts, ts' := s.tickets, s'.tickets;
    assert SameTickets(ts, ts');
    OrderKept(ts, ts');
    forall k
      ensures TailOk(s', k) && DepthOk(s', k)
    {
      assert TailOk(s, k) && DepthOk(s, k);
      SameBehind(ts, ts', k);
    }
    forall u
      ensures RunningOk(s', max, u) && QueueOk(s', u)
    {
      assert RunningOk(s, max, u) && QueueOk(s, u);
      SameHolders(ts, ts', u);
    }
  }

  // ---------- finishing: hand the slot over or give it back ----------

  /** What the finally block changes. `handed` is the head of the user's queue, if there is one. */
  ghost predicate Finished(s: State, s': State, t: nat) {
    && t < |s.tickets| && SameTickets(s.tickets, s'.tickets) && s.tickets[t].phase.Running?
    && s'.tickets[t] == s.tickets[t].(phase := Done)
    && s'.depth == s.depth && s'.clock == s.clock
    && s'.tail == (if s.tickets[t].session in s.tail && s.tail[s.tickets[t].session] == t
         then s.tail - {s.tickets[t].session} else s.tail)
    && var user := s.tickets[t].user;
    && var queue := Get(s.queues, user, []);
    if queue == [] then
      && s'.queues == s.queues - {user}
      && s'.running == Store(s.running, user, Max(0, Get(s.running, user, 0) - 1))
      && forall i: nat | i < |s.tickets| && i != t :: s'.tickets[i] == s.tickets[i]
    else
      && var h := queue[0];
      && h < |s.tickets| && h != t && s.tickets[h].user == user && Queued(s.tickets[h].phase)
      && s'.tickets[h] == s.tickets[h].(phase := Woken(s.tickets[h].phase))
      && s'.running == s.running
      && s'.queues == (if queue[1..] == [] then s.queues - {user} else s.queues[user := queue[1..]])
      && forall i: nat | i < |s.tickets| && i != t && i != h :: s'.tickets[i] == s.tickets[i]
  }

  lemma QueueHead(s: State, u: string)
    requires QueueOk(s, u) && Get(s.queues, u, []) != []
    ensures var h := Get(s.queues, u, [])[0];
      h < |s.tickets| && s.tickets[h].user == u && Queued(s.tickets[h].phase)
  {
  }

  lemma FinishShape(s: State, t: nat)
    requires Enabled(s, Finish(t)) && QueueOk(s, s.tickets[t].user)
    ensures Finished(s, FinishStep(s, t), t)
  {
    hide QueueOk;
    if Get(s.queues, s.tickets[t].user, []) != [] {
      QueueHead(s, s.tickets[t].user);
    }
  }

  lemma FinishKeepsSession(s: State, t: nat)
    requires SessionInv(s) && Enabled(s, Finish(t)) && QueueOk(s, s.tickets[t].user)
    ensures SessionInv(FinishStep(s, t))
  {
    FinishShape(s, t);
    var s' := FinishStep(s, t);
    OrderKept(s.tickets, s'.tickets);
    assert AllEarlierDone(s.tickets, t);
    forall k
      ensures TailOk(s', k) && DepthOk(s', k)
    {
      assert TailOk(s, k) && DepthOk(s, k);
      SameBehind(s.tickets, s'.tickets, k);
    }
  }

  /** A hand-over keeps the count: one holder leaves and one enters. */
  lemma HandOverKeepsCount(s: State, s': State, t: nat)
    requires Finished(s, s', t) && Get(s.queues, s.tickets[t].user, []) != []
    ensures |Holders(s'.tickets, s.tickets[t].user)| == |Holders(s.tickets, s.tickets[t].user)|
  {
    var mid := s.tickets[t := s'.tickets[t]];
    var h := Get(s.queues, s.tickets[t].user, [])[0];
    OneLessHolder(s.tickets, mid, t);
    assert SameTickets(mid, s'.tickets);
    OneMoreHolder(mid, s'.tickets, h);
  }

  lemma FinishKeepsRunning(s: State, s': State, max: int, t: nat, u: string)
    requires Finished(s, s', t) && RunningOk(s, max, u)
    ensures u == s.tickets[t].user ==> Get(s.running, u, 0) >= 1
    ensures RunningOk(s', max, u)
  {
    var own := s.tickets[t].user;
    if u != own {
      SameHolders(s.tickets, s'.tickets, u);
    } else {
      assert t in Holders(s.tickets, u);
      if Get(s.queues, u, []) == [] {
        OneLessHolder(s.tickets, s'.tickets, t);
      } else {
        HandOverKeepsCount(s, s', t);
      }
    }
  }

  /** The queue of a user lost its first `off` entries, and those tickets are the only ones that left it. */
  lemma ShorterQueueOk(s: State, s': State, u: string, off: nat)
    requires QueueOk(s, u) && |s'.tickets| == |s.tickets| && (u in s'.queues ==> Get(s'.queues, u, []) != [])
    requires off <= |Get(s.queues, u, [])| && Get(s'.queues, u, []) == Get(s.queues, u, [])[off..]
    requires forall i: nat | off <= i < |Get(s.queues, u, [])| ::
      s'.tickets[Get(s.queues, u, [])[i]] == s.tickets[Get(s.queues, u, [])[i]]
    requires forall e: nat | e < |s'.tickets| && s'.tickets[e].user == u && Queued(s'.tickets[e].phase) ::
      s'.tickets[e] == s.tickets[e] && e !in Get(s.queues, u, [])[..off]
    ensures QueueOk(s', u)
  {
    hide Queued;
    var ts, ts' := s.tickets, s'.tickets;
    var q, q' := Get(s.queues, u, []), Get(s'.queues, u, []);
    forall i: nat | i < |q'|
      ensures q'[i] == q[i + off] && q'[i] < |ts| && ts'[q'[i]] == ts[q'[i]]
    {
    }
    forall e: nat | e < |ts'| && ts'[e].user == u && Queued(ts'[e].phase)
      ensures e in q'
    {
      InLaterPart(q, off, e);
    }
  }

  lemma InLaterPart(q: seq<nat>, off: nat, e: nat)
    requires off <= |q| && e in q && e !in q[..off]
    ensures e in q[off..]
  {
    assert q == q[..off] + q[off..];
  }

  lemma FinishKeepsQueue(s: State, s': State, t: nat, u: string)
    requires Finished(s, s', t) && QueueOk(s, u)
    ensures QueueOk(s', u)
  {
    var ts, q := s.tickets, Get(s.queues, u, []);
    var off := if u == ts[t].user && q != [] then 1 else 0;
    assert Get(s'.queues, u, []) == q[off..];
    forall i: nat | off <= i < |q|
      ensures q[i] < |ts| && s'.tickets[q[i]] == ts[q[i]]
    {
      assert Queued(ts[q[i]].phase) && ts[q[i]].user == u;
    }
    ShorterQueueOk(s, s', u, off);
  }

  lemma FinishKeepsNoOvertaking(s: State, s': State, t: nat)
    requires Finished(s, s', t) && QueueOk(s, s.tickets[t].user) && NoOvertaking(s.tickets)
    ensures NoOvertaking(s'.tickets)
  {
    var ts, ts' := s.tickets, s'.tickets;
    var q := Get(s.queues, ts[t].user, []);
    forall a: nat, b: nat | a < |ts'| && b < |ts'| && ts'[a].user == ts'[b].user
      && InSession(ts'[a].phase) && Served(ts'[b].phase) && ts'[a].stamp < ts'[b].stamp
      ensures Served(ts'[a].phase)
    {
      if !Served(ts[b].phase) {
        assert q != [] && b == q[0];
        assert Queued(ts[a].phase) ==> a in q;
      }
    }
  }

  lemma FinishKeepsSlots(s: State, max: int, t: nat)
    requires SlotInv(s, max) && Enabled(s, Finish(t))
    ensures SlotInv(FinishStep(s, t), max)
  {
    var s' := FinishStep(s, t);
    assert QueueOk(s, s.tickets[t].user);
    FinishShape(s, t);
    forall u
      ensures RunningOk(s', max, u) && QueueOk(s', u)
    {
      assert RunningOk(s, max, u) && QueueOk(s, u);
      FinishKeepsRunning(s, s', max, t, u);
      FinishKeepsQueue(s, s', t, u);
    }
    FinishKeepsNoOvertaking(s, s', t);
  }

  // ---------- every run ----------

  lemma StepKeepsInv(s: State, max: int, step: Step)
    requires Inv(s, max) && Enabled(s, step)
    ensures Inv(Apply(s, max, step), max)
  {
    match step
    case Arrive(session, user, throws) =>
      ArriveKeepsSession(s, session, user, throws);
      ArriveKeepsSlots(s, max, session, user, throws);
    case Admit(t, throws) =>
      AdmitKeepsSession(s, max, t, throws);
      AdmitKeepsSlots(s, max, t, throws);
    case Resume(t) =>
      ResumeKeepsInv(s, max, t);
    case Finish(t) =>
      assert QueueOk(s, s.tickets[t].user);
      FinishKeepsSession(s, t);
      FinishKeepsSlots(s, max, t);
  }

  lemma {:induction false} RunKeepsInv(s: State, max: int, steps: seq<Step>)
    requires Inv(s, max) && ValidRun(s, max, steps)
    ensures Inv(Run(s, max, steps), max)
    decreases |steps|
  {
    if steps != [] {
      StepKeepsInv(s, max, steps[0]);
      RunKeepsInv(Apply(s, max, steps[0]), max, steps[1..]);
    }
  }
}

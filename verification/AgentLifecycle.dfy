/** Promotion, demotion, blacklisting and archiving of agents by their score. */
module AgentLifecycle {
  import opened Options

  datatype Kind = Preset | Dynamic

  datatype Status = Active | Inactive | Archived

  /** `updatedAt` is missing when the stored time stamp does not parse; times are in days. */
  datatype Agent = Agent(kind: Kind, status: Status, spawnCount: int, updatedAt: Option<real>)

  datatype Thresholds = Thresholds(
    promoteMinSpawns: int, promoteMinScore: real, demoteMinTasks: int, demoteScore: real, archiveInactiveDays: real,
    promotionIsGated: bool)

  const BLACKLIST_MIN_SPAWNS := 3
  const BLACKLIST_SCORE := 0.3

  datatype Result = Result(score: real, totalTasks: int)

  datatype Action = NoAction | PromoteProposed | Promoted | Demoted | Blacklisted | ArchivedStale

  predicate Applied(a: Action) { a.Promoted? || a.Demoted? || a.Blacklisted? || a.ArchivedStale? }

  predicate IsStale(t: Thresholds, a: Agent, now: real) {
    a.status.Inactive? && t.archiveInactiveDays > 0.0 && a.updatedAt.Some?
      && now - a.updatedAt.value >= t.archiveInactiveDays
  }

  predicate Underperforms(a: Agent, r: Result) {
    a.kind.Dynamic? && a.status.Active? && a.spawnCount >= BLACKLIST_MIN_SPAWNS && r.score < BLACKLIST_SCORE
  }

  predicate MustDemote(t: Thresholds, a: Agent, r: Result) {
    a.kind.Preset? && a.status.Active? && r.totalTasks >= t.demoteMinTasks && r.score < t.demoteScore
  }

  predicate MayPromote(t: Thresholds, a: Agent, r: Result) {
    a.kind.Dynamic? && a.status.Active? && a.spawnCount >= t.promoteMinSpawns && r.score >= t.promoteMinScore
  }

  /** `pending` says whether a promotion request for the agent awaits approval. */
  function Decide(t: Thresholds, a: Agent, r: Result, now: real, pending: bool): Action {
    if IsStale(t, a, now) then ArchivedStale
    else if Underperforms(a, r) then Blacklisted
    else if MustDemote(t, a, r) then Demoted
    else if MayPromote(t, a, r) then
      if !t.promotionIsGated then Promoted else if pending then NoAction else PromoteProposed
    else NoAction
  }

  /** What the action writes; every write stamps the record. */
  function Write(a: Agent, action: Action, now: real): Agent {
    match action
    case ArchivedStale => a.(status := Archived, updatedAt := Some(now))
    case Blacklisted => a.(status := Inactive, updatedAt := Some(now))
    case Demoted => a.(kind := Dynamic, updatedAt := Some(now))
    case Promoted => a.(kind := Preset, updatedAt := Some(now))
    case _ => a
  }

  /** Evaluating one result again and again, at any times; a proposal leaves a pending request. */
  datatype State = State(agent: Agent, pending: bool, applied: nat)

  function Evaluate(t: Thresholds, r: Result, s: State, now: real): State {
    var action := Decide(t, s.agent, r, now, s.pending);
    State(Write(s.agent, action, now), s.pending || action.PromoteProposed?,
          s.applied + if Applied(action) then 1 else 0)
  }

  function EvaluateAll(t: Thresholds, r: Result, a: Agent, pending: bool, times: seq<real>): State {
    if times == [] then State(a, pending, 0)
    else Evaluate(t, r, EvaluateAll(t, r, a, pending, times[..|times| - 1]), times[|times| - 1])
  }

  // ---------- the branches, writing as they go ----------

  class AgentRow {
    var agent: Agent
    var pendingPromotion: bool

    constructor (agent: Agent, pendingPromotion: bool)
      ensures this.agent == agent && this.pendingPromotion == pendingPromotion
    {
      this.agent, this.pendingPromotion := agent, pendingPromotion;
    }

    method UpdateStatus(status: Status, now: real)
      modifies this`agent
      ensures agent == old(agent).(status := status, updatedAt := Some(now))
    {
      agent := agent.(status := status, updatedAt := Some(now));
    }

    method UpdateKind(kind: Kind, now: real)
      modifies this`agent
      ensures agent == old(agent).(kind := kind, updatedAt := Some(now))
    {
      agent := agent.(kind := kind, updatedAt := Some(now));
    }

    method EvaluateEvolutionLifecycle(t: Thresholds, r: Result, now: real) returns (action: Action)
      modifies this
      ensures action == Decide(t, old(agent), r, now, old(pendingPromotion))
      ensures agent == Write(old(agent), action, now)
      ensures pendingPromotion == (old(pendingPromotion) || action.PromoteProposed?)
    {
      if agent.status.Inactive? && t.archiveInactiveDays > 0.0 {
        if agent.updatedAt.Some? && now - agent.updatedAt.value >= t.archiveInactiveDays {
          UpdateStatus(Archived, now);
          return ArchivedStale;
        }
      }
      if agent.kind.Dynamic? && agent.status.Active? && agent.spawnCount >= BLACKLIST_MIN_SPAWNS
        && r.score < BLACKLIST_SCORE {
        UpdateStatus(Inactive, now);
        return Blacklisted;
      }
      if agent.kind.Preset? && agent.status.Active? && r.totalTasks >= t.demoteMinTasks && r.score < t.demoteScore {
        UpdateKind(Dynamic, now);
        return Demoted;
      }
      if agent.kind.Dynamic? && agent.status.Active? && agent.spawnCount >= t.promoteMinSpawns
        && r.score >= t.promoteMinScore {
        if t.promotionIsGated {
          if pendingPromotion {
            return NoAction;
          }
          pendingPromotion := true;
          return PromoteProposed;
        }
        UpdateKind(Preset, now);
        return Promoted;
      }
      return NoAction;
    }
  }

  // ---------- how often one result can move an agent ----------

  predicate Sinks(a: Agent, r: Result) { a.spawnCount >= BLACKLIST_MIN_SPAWNS && r.score < BLACKLIST_SCORE }

  predicate Falls(t: Thresholds, r: Result) { r.totalTasks >= t.demoteMinTasks && r.score < t.demoteScore }

  predicate Rises(t: Thresholds, a: Agent, r: Result) {
    !t.promotionIsGated && a.spawnCount >= t.promoteMinSpawns && r.score >= t.promoteMinScore
  }

  /** The result demotes the agent as a preset and promotes it as a dynamic agent. */
  predicate Cycles(t: Thresholds, a: Agent, r: Result) {
    a.status.Active? && Falls(t, r) && Rises(t, a, r) && !Sinks(a, r)
  }

  /** How many more transitions the result can cause, if it does not cycle. */
  function Rank(t: Thresholds, a: Agent, r: Result): nat {
    match a.status
    case Archived => 0
    case Inactive => 1
    case Active =>
      var dynamic := if Sinks(a, r) then 2 else if Rises(t, a, r) then 1 else 0;
      if a.kind.Dynamic? then dynamic
      else if Falls(t, r) then 1 + (if Sinks(a, r) then 2 else 0) else 0
  }

  lemma StepDecreasesRank(t: Thresholds, r: Result, s: State, now: real)
    requires !Cycles(t, s.agent, r)
    ensures var s' := Evaluate(t, r, s, now);
      && Rank(t, s'.agent, r) + s'.applied <= Rank(t, s.agent, r) + s.applied
      && !Cycles(t, s'.agent, r)
      && (s'.applied == s.applied ==> s'.agent == s.agent)
  {
  }

  lemma {:induction false} TransitionsAreRanked(t: Thresholds, r: Result, a: Agent, pending: bool, times: seq<real>)
    requires !Cycles(t, a, r)
    ensures var s := EvaluateAll(t, r, a, pending, times);
      Rank(t, s.agent, r) + s.applied <= Rank(t, a, r) && !Cycles(t, s.agent, r)
    decreases |times|
  {
    hide Rank, Cycles, Evaluate;
    if times != [] {
      TransitionsAreRanked(t, r, a, pending, times[..|times| - 1]);
      StepDecreasesRank(t, r, EvaluateAll(t, r, a, pending, times[..|times| - 1]), times[|times| - 1]);
    }
  }

  lemma {:induction false} CyclesForever(t: Thresholds, r: Result, a: Agent, pending: bool, times: seq<real>)
    requires Cycles(t, a, r)
    ensures var s := EvaluateAll(t, r, a, pending, times);
      && s.applied == |times| && Cycles(t, s.agent, r)
      && s.agent.kind == (if |times| % 2 == 0 then a.kind else if a.kind.Preset? then Dynamic else Preset)
    decreases |times|
  {
    if times != [] {
      CyclesForever(t, r, a, pending, times[..|times| - 1]);
    }
  }

  ghost predicate AtMostThree(t: Thresholds, r: Result, a: Agent, pending: bool) {
    forall times: seq<real> :: EvaluateAll(t, r, a, pending, times).applied <= 3
  }

  /** One result moves an agent at most three times, however often and whenever it is evaluated, if
      and only if it does not both demote and promote it; otherwise every evaluation moves it. */
  lemma AtMostThreeIff(t: Thresholds, r: Result, a: Agent, pending: bool)
    ensures AtMostThree(t, r, a, pending) <==> !Cycles(t, a, r)
  {
    if Cycles(t, a, r) {
      var times := [0.0, 0.0, 0.0, 0.0];
      CyclesForever(t, r, a, pending, times);
      assert EvaluateAll(t, r, a, pending, times).applied == 4;
    } else {
      forall times: seq<real>
        ensures EvaluateAll(t, r, a, pending, times).applied <= 3
      {
        TransitionsAreRanked(t, r, a, pending, times);
      }
    }
  }

  /** Thresholds in the intended order never cycle. */
  lemma OrderedThresholdsSettle(t: Thresholds, r: Result, a: Agent, pending: bool)
    requires t.demoteScore <= t.promoteMinScore
    ensures AtMostThree(t, r, a, pending)
  {
    AtMostThreeIff(t, r, a, pending);
  }

  /** Dynamic, active and good enough, and not to be blacklisted: the agent is up for promotion. */
  predicate Deserves(t: Thresholds, a: Agent, r: Result) {
    a.spawnCount >= t.promoteMinSpawns && r.score >= t.promoteMinScore && !Sinks(a, r)
  }

  /** Where one result leaves an agent that it does not move for ever, once it was evaluated twice: an active preset
      falls or stays, an active dynamic agent sinks, rises or stays, and what falls may sink. Where promotions are
      gated an agent stays dynamic and has a request pending. */
  lemma {:induction false} WhereItSettles(t: Thresholds, r: Result, a: Agent, pending: bool, times: seq<real>)
    requires !Cycles(t, a, r) && |times| >= 2
    ensures var s := EvaluateAll(t, r, a, pending, times);
      var falls := a.status.Active? && a.kind.Preset? && Falls(t, r);
      var dynamic := a.status.Active? && (a.kind.Dynamic? || Falls(t, r));
      && (s.agent.kind.Preset? <==>
            (a.kind.Preset? && !falls) || (dynamic && a.kind.Dynamic? && Deserves(t, a, r) && !t.promotionIsGated))
      && (s.agent.status.Active? <==> a.status.Active? && !(dynamic && Sinks(a, r)))
      && (s.pending <==> pending || (dynamic && Deserves(t, a, r) && t.promotionIsGated))
      && s.agent.spawnCount == a.spawnCount
    decreases |times|
  {
    var front, last := times[..|times| - 1], times[|times| - 1];
    if |times| == 2 {
      assert front[..1] == front && front[..0] == [];
      assert EvaluateAll(t, r, a, pending, []) == State(a, pending, 0);
      assert EvaluateAll(t, r, a, pending, front) == Evaluate(t, r, State(a, pending, 0), times[0]);
    } else {
      WhereItSettles(t, r, a, pending, front);
    }
  }

  /** How often the evaluations propose a promotion. */
  function Proposals(t: Thresholds, r: Result, a: Agent, pending: bool, times: seq<real>): nat {
    if times == [] then 0
    else
      var front, last := times[..|times| - 1], times[|times| - 1];
      var s := EvaluateAll(t, r, a, pending, front);
      Proposals(t, r, a, pending, front) + if Decide(t, s.agent, r, last, s.pending).PromoteProposed? then 1 else 0
  }

  /** A promotion is proposed at most once, and not at all while a request is pending. */
  lemma {:induction false} ProposedOnce(t: Thresholds, r: Result, a: Agent, pending: bool, times: seq<real>)
    ensures Proposals(t, r, a, pending, times) ==
      if !pending && EvaluateAll(t, r, a, pending, times).pending then 1 else 0
    decreases |times|
  {
    if times != [] {
      ProposedOnce(t, r, a, pending, times[..|times| - 1]);
    }
  }

  /** This evaluation was the last to move the agent, and its time is on the record. */
  predicate LastMove(t: Thresholds, r: Result, a: Agent, pending: bool, times: seq<real>, i: nat)
    requires i < |times|
  {
    var s := EvaluateAll(t, r, a, pending, times);
    s.agent.updatedAt == Some(times[i]) && EvaluateAll(t, r, a, pending, times[..i]).applied + 1 == s.applied
  }

  /** Every move stamps the record, and an evaluation that moves nothing leaves it alone. */
  lemma {:induction false} MovesAreStamped(t: Thresholds, r: Result, a: Agent, pending: bool, times: seq<real>)
    ensures var s := EvaluateAll(t, r, a, pending, times);
      && (s.applied == 0 ==> s.agent == a)
      && (s.applied > 0 ==> exists i: nat :: i < |times| && LastMove(t, r, a, pending, times, i))
    decreases |times|
  {
    if times != [] {
      var n := |times| - 1;
      MovesAreStamped(t, r, a, pending, times[..n]);
      var s, s' := EvaluateAll(t, r, a, pending, times[..n]), EvaluateAll(t, r, a, pending, times);
      if s'.applied == s.applied && s.applied > 0 {
        var i: nat :| i < n && LastMove(t, r, a, pending, times[..n], i);
        assert times[..n][..i] == times[..i];
        assert LastMove(t, r, a, pending, times, i);
      } else if s'.applied > 0 {
        assert LastMove(t, r, a, pending, times, n);
      }
    }
  }

  predicate IdleTooLong(t: Thresholds, a: Agent, now: real) {
    t.archiveInactiveDays > 0.0 && a.updatedAt.Some? && now - a.updatedAt.value >= t.archiveInactiveDays
  }

  /** An inactive agent is archived exactly when an evaluation finds it idle for long enough. */
  lemma {:induction false} ArchivedIffIdle(t: Thresholds, r: Result, a: Agent, pending: bool, times: seq<real>)
    requires a.status.Inactive?
    ensures var s := EvaluateAll(t, r, a, pending, times);
      && (s.agent.status.Archived? <==> exists i: nat :: i < |times| && IdleTooLong(t, a, times[i]))
      && (!s.agent.status.Archived? ==> s.agent == a)
    decreases |times|
  {
    if times != [] {
      ArchivedIffIdle(t, r, a, pending, times[..|times| - 1]);
    }
  }

  /** Three is reached: demoted, blacklisted, archived. */
  lemma ThreeTransitions(t: Thresholds, r: Result, a: Agent, pending: bool, now: real)
    requires MustDemote(t, a, r) && Sinks(a, r) && t.archiveInactiveDays > 0.0
    ensures var s := EvaluateAll(t, r, a, pending, [now, now, now + t.archiveInactiveDays]);
      s.applied == 3 && s.agent.status.Archived? && s.agent.kind.Dynamic?
  {
    var later := now + t.archiveInactiveDays;
    assert [now, now, later][..2] == [now, now] && [now, now][..1] == [now] && [now][..0] == [];
    var s1 := Evaluate(t, r, State(a, pending, 0), now);
    var s2 := Evaluate(t, r, s1, now);
    assert EvaluateAll(t, r, a, pending, [now]) == s1;
    assert EvaluateAll(t, r, a, pending, [now, now]) == s2;
  }

  /** An archived agent stays as it is under all results, thresholds and times. */
  lemma {:induction false} ArchivedIsAbsorbing(t: Thresholds, r: Result, a: Agent, pending: bool, times: seq<real>)
    requires a.status.Archived?
    ensures EvaluateAll(t, r, a, pending, times) == State(a, pending, 0)
    decreases |times|
  {
    if times != [] {
      ArchivedIsAbsorbing(t, r, a, pending, times[..|times| - 1]);
    }
  }

  // ---------- refreshing the score ----------

  /** A refresh takes a snapshot, writes the score, which stamps the record, and then decides on the
      snapshot. */
  function Refresh(t: Thresholds, r: Result, a: Agent, now: real, pending: bool): Agent {
    Write(a.(updatedAt := Some(now)), Decide(t, a, r, now, pending), now)
  }

  function RefreshAll(t: Thresholds, r: Result, a: Agent, pending: bool, times: seq<real>): Agent
    decreases |times|
  {
    if times == [] then a else RefreshAll(t, r, Refresh(t, r, a, times[0], pending), pending, times[1..])
  }

  /** Some refresh came at least `days` after the write before it. */
  predicate HasGap(days: real, last: real, times: seq<real>)
    decreases |times|
  {
    times != [] && (times[0] - last >= days || HasGap(days, times[0], times[1..]))
  }

  lemma {:induction false} ArchivedStaysArchived(t: Thresholds, r: Result, a: Agent, pending: bool, times: seq<real>)
    requires a.status.Archived?
    ensures RefreshAll(t, r, a, pending, times).status.Archived?
    decreases |times|
  {
    if times != [] {
      ArchivedStaysArchived(t, r, Refresh(t, r, a, times[0], pending), pending, times[1..]);
    }
  }

  /** Refreshing keeps an inactive agent from being archived unless two writes lie far enough apart. */
  lemma {:induction false} ArchivedIffGap(t: Thresholds, r: Result, a: Agent, pending: bool, times: seq<real>)
    requires a.status.Inactive? && a.updatedAt.Some? && t.archiveInactiveDays > 0.0
    ensures RefreshAll(t, r, a, pending, times).status.Archived? <==>
      HasGap(t.archiveInactiveDays, a.updatedAt.value, times)
    decreases |times|
  {
    if times != [] {
      var next := Refresh(t, r, a, times[0], pending);
      if IsStale(t, a, times[0]) {
        ArchivedStaysArchived(t, r, next, pending, times[1..]);
      } else {
        ArchivedIffGap(t, r, next, pending, times[1..]);
      }
    }
  }

  // ---------- the cases exist ----------

  const CROSSED := Thresholds(5, 0.5, 5, 0.9, 0.0, false)

  /** Thresholds that cross move an ordinary agent up and down at every evaluation. */
  lemma CrossedThresholdsCycle(pending: bool, times: seq<real>)
    ensures var a := Agent(Dynamic, Active, 10, None);
      EvaluateAll(CROSSED, Result(0.7, 10), a, pending, times).applied == |times|
  {
    CyclesForever(CROSSED, Result(0.7, 10), Agent(Dynamic, Active, 10, None), pending, times);
  }

  /** An agent that has been inactive for three days is not archived after two if it is refreshed daily. */
  lemma DailyRefreshKeepsInactive(r: Result, a: Agent, pending: bool)
    requires a.status.Inactive? && a.updatedAt == Some(0.0)
    ensures !RefreshAll(CROSSED.(archiveInactiveDays := 2.0), r, a, pending, [1.0, 2.0, 3.0]).status.Archived?
    ensures RefreshAll(CROSSED.(archiveInactiveDays := 2.0), r, a, pending, [3.0]).status.Archived?
  {
    var t := CROSSED.(archiveInactiveDays := 2.0);
    ArchivedIffGap(t, r, a, pending, [1.0, 2.0, 3.0]);
    ArchivedIffGap(t, r, a, pending, [3.0]);
    assert [1.0, 2.0, 3.0][1..] == [2.0, 3.0] && [2.0, 3.0][1..] == [3.0] && [3.0][1..] == [];
  }
}

/** The performance score of an agent from its task attempts, over exact real numbers.

    Division by a budget of zero leaves the reals, so the parts it reaches are extended numbers. */
module AgentScoring {

  datatype Attempt = Attempt(task: string, completed: bool, cost: real)

  datatype Weights = Weights(w1: real, w2: real, w3: real)

  /** A result of floating point division, rounding aside. */
  datatype Num = Finite(value: real) | Infinite(positive: bool) | NotANumber

  datatype Breakdown = Breakdown(
    successRate: real, efficiencyScore: Num, reliabilityScore: real, evolutionScore: Num,
    totalTasks: nat, completedTasks: nat, avgTokenCost: real, avgRetries: real)

  const MAX_RETRIES := 3.0

  function Max(a: real, b: real): real { if a < b then b else a }

  // ---------- what the numbers mean ----------

  function Tasks(rows: seq<Attempt>): set<string> {
    set i | 0 <= i < |rows| :: rows[i].task
  }

  /** A task counts as completed if any of its attempts is. */
  function CompletedTasks(rows: seq<Attempt>): set<string> {
    set i | 0 <= i < |rows| && rows[i].completed :: rows[i].task
  }

  function TotalCost(rows: seq<Attempt>): real {
    if rows == [] then 0.0 else TotalCost(rows[..|rows| - 1]) + rows[|rows| - 1].cost
  }

  function Divide(x: real, y: real): Num {
    if y != 0.0 then Finite(x / y)
    else if x == 0.0 then NotANumber
    else Infinite(x > 0.0)
  }

  /** `Math.max(0, 1 - n)`. */
  function MaxZeroOneMinus(n: Num): Num {
    match n
    case Finite(x) => Finite(Max(0.0, 1.0 - x))
    case Infinite(positive) => if positive then Finite(0.0) else Infinite(true)
    case NotANumber => NotANumber
  }

  /** `x + w * n`. */
  function PlusTimes(x: real, w: real, n: Num): Num {
    match n
    case Finite(y) => Finite(x + w * y)
    case Infinite(positive) => if w == 0.0 then NotANumber else Infinite((w > 0.0) == positive)
    case NotANumber => NotANumber
  }

  function Score(w: Weights, budget: real, tasks: nat, completed: nat, attempts: nat, cost: real): Breakdown {
    var successRate := if tasks > 0 then completed as real / tasks as real else 0.0;
    var avgTokenCost := if attempts > 0 then cost / attempts as real else 0.0;
    var efficiencyScore := MaxZeroOneMinus(Divide(avgTokenCost, budget));
    var avgRetries := if tasks > 0 then Max(0.0, (attempts as real - tasks as real) / tasks as real) else 0.0;
    var reliabilityScore := Max(0.0, 1.0 - avgRetries / MAX_RETRIES);
    Breakdown(successRate, efficiencyScore, reliabilityScore,
              PlusTimes(w.w1 * successRate + w.w3 * reliabilityScore, w.w2, efficiencyScore),
              tasks, completed, avgTokenCost, avgRetries)
  }

  function ScoreOf(w: Weights, budget: real, rows: seq<Attempt>): Breakdown {
    Score(w, budget, |Tasks(rows)|, |CompletedTasks(rows)|, |rows|, TotalCost(rows))
  }

  // ---------- the computation ----------

  /** The attempts of one task, in order. */
  function OfTask(rows: seq<Attempt>, task: string): seq<Attempt> {
    if rows == [] then []
    else OfTask(rows[..|rows| - 1], task) + if rows[|rows| - 1].task == task then [rows[|rows| - 1]] else []
  }

  predicate SomeCompleted(rows: seq<Attempt>) {
    exists i | 0 <= i < |rows| :: rows[i].completed
  }

  lemma SomeCompletedMore(rows: seq<Attempt>, x: Attempt)
    ensures SomeCompleted(rows + [x]) <==> SomeCompleted(rows) || x.completed
  {
    var all := rows + [x];
    assert all[|rows|] == x;
    if SomeCompleted(rows) {
      var i :| 0 <= i < |rows| && rows[i].completed;
      assert all[i].completed;
    }
  }

  lemma {:induction false} OfTaskCompleted(rows: seq<Attempt>, task: string)
    ensures SomeCompleted(OfTask(rows, task)) <==> task in CompletedTasks(rows)
    decreases |rows|
  {
    if rows != [] {
      var n := |rows| - 1;
      OfTaskCompleted(rows[..n], task);
      assert rows == rows[..n] + [rows[n]];
      assert CompletedTasks(rows) == CompletedTasks(rows[..n]) + if rows[n].completed then {rows[n].task} else {};
      SomeCompletedMore(OfTask(rows[..n], task), rows[n]);
      assert OfTask(rows[..n], task) + [] == OfTask(rows[..n], task);
    }
  }

  lemma TasksOfMore(rows: seq<Attempt>, n: nat)
    requires n < |rows|
    ensures Tasks(rows[..n + 1]) == Tasks(rows[..n]) + {rows[n].task}
  {
    assert rows[..n + 1] == rows[..n] + [rows[n]];
  }

  method GroupByTask(rows: seq<Attempt>) returns (taskMap: map<string, seq<Attempt>>)
    ensures taskMap.Keys == Tasks(rows)
    ensures forall task | task in taskMap :: taskMap[task] == OfTask(rows, task)
  {
    taskMap := map[];
    for i := 0 to |rows|
      invariant taskMap.Keys == Tasks(rows[..i])
      invariant forall task | task in taskMap :: taskMap[task] == OfTask(rows[..i], task)
    {
      TasksOfMore(rows, i);
      assert rows[..i + 1][..i] == rows[..i];
      UnseenTask(rows[..i], rows[i].task);
      var list := if rows[i].task in taskMap then taskMap[rows[i].task] else [];
      taskMap := taskMap[rows[i].task := list + [rows[i]]];
    }
    assert rows[..|rows|] == rows;
  }

  method CountCompleted(rows: seq<Attempt>, taskMap: map<string, seq<Attempt>>) returns (completedTasks: nat)
    requires taskMap.Keys == Tasks(rows)
    requires forall task | task in taskMap :: taskMap[task] == OfTask(rows, task)
    ensures completedTasks == |CompletedTasks(rows)|
  {
    hide OfTask, SomeCompleted, CompletedTasks, Tasks;
    var left := taskMap.Keys;
    completedTasks := 0;
    while left != {}
      invariant left <= taskMap.Keys
      invariant completedTasks == |CompletedTasks(rows) * (taskMap.Keys - left)|
      decreases left
    {
      var task :| task in left;
      OfTaskCompleted(rows, task);
      ghost var done := CompletedTasks(rows) * (taskMap.Keys - left);
      if SomeCompleted(taskMap[task]) {
        completedTasks := completedTasks + 1;
        assert CompletedTasks(rows) * (taskMap.Keys - (left - {task})) == done + {task};
      } else {
        assert CompletedTasks(rows) * (taskMap.Keys - (left - {task})) == done;
      }
      left := left - {task};
    }
    CompletedAreTasks(rows);
    assert CompletedTasks(rows) * (taskMap.Keys - left) == CompletedTasks(rows);
  }

  lemma CompletedAreTasks(rows: seq<Attempt>)
    ensures CompletedTasks(rows) <= Tasks(rows)
  {
  }

  /** Group the attempts by task, count, add up. */
  method CalculateScore(w: Weights, budget: real, rows: seq<Attempt>) returns (b: Breakdown)
    ensures b == ScoreOf(w, budget, rows)
  {
    var taskMap := GroupByTask(rows);
    var completedTasks := CountCompleted(rows, taskMap);
    var totalTokenCost := 0.0;
    for i := 0 to |rows|
      invariant totalTokenCost == TotalCost(rows[..i])
    {
      assert rows[..i + 1][..i] == rows[..i];
      totalTokenCost := totalTokenCost + rows[i].cost;
    }
    assert rows[..|rows|] == rows;
    return Score(w, budget, |taskMap.Keys|, completedTasks, |rows|, totalTokenCost);
  }

  lemma {:induction false} UnseenTask(rows: seq<Attempt>, task: string)
    ensures task !in Tasks(rows) ==> OfTask(rows, task) == []
    decreases |rows|
  {
    if rows != [] {
      var n := |rows| - 1;
      UnseenTask(rows[..n], task);
      assert rows == rows[..n] + [rows[n]];
      assert Tasks(rows) == Tasks(rows[..n]) + {rows[n].task};
    }
  }

  // ---------- order does not matter ----------

  lemma {:induction false} CostConcat(a: seq<Attempt>, b: seq<Attempt>)
    ensures TotalCost(a + b) == TotalCost(a) + TotalCost(b)
    decreases |b|
  {
    if b == [] {
      assert a + b == a;
    } else {
      assert (a + b)[..|a + b| - 1] == a + b[..|b| - 1];
      CostConcat(a, b[..|b| - 1]);
    }
  }

  lemma {:induction false} CostIgnoresOrder(a: seq<Attempt>, b: seq<Attempt>)
    requires multiset(a) == multiset(b)
    ensures TotalCost(a) == TotalCost(b)
    decreases |a|
  {
    hide TotalCost;
    assert |a| == |multiset(a)| == |multiset(b)| == |b|;
    if a == [] {
      assert a == b;
    } else {
      var n := |a| - 1;
      LastCost(a);
      assert a[n] in multiset(b);
      var i :| 0 <= i < |b| && b[i] == a[n];
      RemainingAttempts(a, b, i);
      CostIgnoresOrder(a[..n], b[..i] + b[i + 1..]);
      CostWithout(b, i);
    }
  }

  lemma LastCost(a: seq<Attempt>)
    requires a != []
    ensures TotalCost(a) == TotalCost(a[..|a| - 1]) + a[|a| - 1].cost
  {
  }

  lemma RemainingAttempts(a: seq<Attempt>, b: seq<Attempt>, i: nat)
    requires multiset(a) == multiset(b) && a != [] && i < |b| && b[i] == a[|a| - 1]
    ensures multiset(a[..|a| - 1]) == multiset(b[..i] + b[i + 1..])
  {
    var x := b[i];
    assert a == a[..|a| - 1] + [x];
    assert b == b[..i] + [x] + b[i + 1..];
    assert multiset(a[..|a| - 1]) == multiset(a) - multiset{x};
    assert multiset(b[..i] + b[i + 1..]) == multiset(b) - multiset{x};
  }

  lemma CostWithout(b: seq<Attempt>, i: nat)
    requires i < |b|
    ensures TotalCost(b) == TotalCost(b[..i] + b[i + 1..]) + b[i].cost
  {
    hide TotalCost;
    var before, after := b[..i], b[i + 1..];
    var upTo := before + [b[i]];
    CostConcat(before, after);
    CostConcat(upTo, after);
    LastCost(upTo);
    assert upTo[..|upTo| - 1] == before;
    assert b == upTo + after;
  }

  lemma SetsIgnoreOrder(a: seq<Attempt>, b: seq<Attempt>)
    requires multiset(a) == multiset(b)
    ensures Tasks(a) <= Tasks(b) && CompletedTasks(a) <= CompletedTasks(b)
  {
    forall i | 0 <= i < |a|
      ensures a[i].task in Tasks(b)
      ensures a[i].completed ==> a[i].task in CompletedTasks(b)
    {
      assert a[i] in multiset(b);
      var j :| 0 <= j < |b| && b[j] == a[i];
    }
  }

  /** The score depends on which attempts there are, not on their order. */
  lemma ScoreIgnoresOrder(w: Weights, budget: real, a: seq<Attempt>, b: seq<Attempt>)
    requires multiset(a) == multiset(b)
    ensures ScoreOf(w, budget, a) == ScoreOf(w, budget, b)
  {
    CostIgnoresOrder(a, b);
    SetsIgnoreOrder(a, b);
    SetsIgnoreOrder(b, a);
    assert Tasks(a) == Tasks(b) && CompletedTasks(a) == CompletedTasks(b);
    assert |a| == |multiset(a)| == |multiset(b)| == |b|;
  }

  // ---------- bounds ----------

  predicate WeightsOk(w: Weights) { 0.0 <= w.w1 <= 1.0 && 0.0 <= w.w2 <= 1.0 && 0.0 <= w.w3 <= 1.0 }

  predicate CostsOk(rows: seq<Attempt>) {
    forall i | 0 <= i < |rows| :: rows[i].cost >= 0.0
  }

  lemma {:induction false} CostIsNonNegative(rows: seq<Attempt>)
    requires CostsOk(rows)
    ensures TotalCost(rows) >= 0.0
    ensures TotalCost(rows) == 0.0 <==> forall i | 0 <= i < |rows| :: rows[i].cost == 0.0
    decreases |rows|
  {
    if rows != [] {
      var n := |rows| - 1;
      assert forall i | 0 <= i < n :: rows[..n][i] == rows[i];
      CostIsNonNegative(rows[..n]);
      if TotalCost(rows) == 0.0 {
        forall i | 0 <= i < |rows|
          ensures rows[i].cost == 0.0
        {
          if i < n { assert rows[..n][i].cost == 0.0; }
        }
      }
    }
  }

  lemma {:induction false} TaskCounts(rows: seq<Attempt>)
    ensures CompletedTasks(rows) <= Tasks(rows) && |CompletedTasks(rows)| <= |Tasks(rows)| <= |rows|
    ensures rows != [] ==> |Tasks(rows)| > 0
    decreases |rows|
  {
    Subset(CompletedTasks(rows), Tasks(rows));
    if rows != [] {
      var n := |rows| - 1;
      TaskCounts(rows[..n]);
      TasksOfMore(rows, n);
      assert rows[..n + 1] == rows;
      assert rows[0].task in Tasks(rows);
    }
  }

  lemma {:induction false} Subset(a: set<string>, b: set<string>)
    requires a <= b
    ensures |a| <= |b|
    ensures |a| == |b| ==> a == b
    decreases a
  {
    if a != {} {
      var x :| x in a;
      Subset(a - {x}, b - {x});
    }
  }

  lemma QuotientInUnit(x: real, y: real)
    requires 0.0 <= x <= y && y > 0.0
    ensures 0.0 <= x / y <= 1.0
    ensures x / y == 1.0 <==> x == y
  {
    assert x / y * y == x;
  }

  lemma QuotientNonNegative(x: real, y: real)
    requires x >= 0.0 && y > 0.0
    ensures x / y >= 0.0
    ensures x / y == 0.0 <==> x == 0.0
  {
    assert x / y * y == x;
  }

  predicate InUnit(x: real) { 0.0 <= x <= 1.0 }

  lemma CompletionInUnit(tasks: nat, completed: nat)
    requires completed <= tasks
    ensures var rate := if tasks > 0 then completed as real / tasks as real else 0.0;
      InUnit(rate) && (rate == 1.0 <==> tasks > 0 && completed == tasks)
  {
    if tasks > 0 {
      QuotientInUnit(completed as real, tasks as real);
    }
  }

  predicate NumInUnit(n: Num) { n.Finite? && InUnit(n.value) }

  /** The budget can carry the cost: it is positive, or zero with something spent, or negative with nothing. */
  predicate BudgetServes(budget: real, cost: real) {
    budget > 0.0 || (budget == 0.0 && cost > 0.0) || (budget < 0.0 && cost == 0.0)
  }

  /** For exactly which budgets the efficiency lies between zero and one; it is full exactly when nothing was
      spent. With nothing spent on a budget of zero it is not a number, and a negative budget lifts it above one. */
  lemma EfficiencyInUnitIff(attempts: nat, cost: real, budget: real)
    requires cost >= 0.0 && (attempts == 0 ==> cost == 0.0)
    ensures var average := if attempts > 0 then cost / attempts as real else 0.0;
      var score := MaxZeroOneMinus(Divide(average, budget));
      && (NumInUnit(score) <==> BudgetServes(budget, cost))
      && (NumInUnit(score) ==> (score.value == 1.0 <==> cost == 0.0))
      && (score.NotANumber? <==> budget == 0.0 && cost == 0.0)
      && (budget < 0.0 && cost > 0.0 ==> score.Finite? && score.value > 1.0)
      && !score.Infinite?
  {
    var average := if attempts > 0 then cost / attempts as real else 0.0;
    if attempts > 0 { QuotientNonNegative(cost, attempts as real); }
    if budget > 0.0 {
      QuotientNonNegative(average, budget);
    } else if budget < 0.0 {
      QuotientNonNegative(average, -budget);
      Negated(average, budget);
    }
  }

  lemma Negated(x: real, y: real)
    requires y != 0.0
    ensures x / y == -(x / -y)
  {
    assert (x / y) * y == x && (x / -y) * -y == x;
  }

  lemma ReliabilityInUnit(tasks: nat, attempts: nat)
    requires tasks <= attempts && (tasks == 0 ==> attempts == 0)
    ensures var retries := if tasks > 0 then Max(0.0, (attempts as real - tasks as real) / tasks as real) else 0.0;
      var score := Max(0.0, 1.0 - retries / MAX_RETRIES);
      InUnit(score) && (score == 1.0 <==> attempts == tasks)
  {
    if tasks > 0 {
      var retries := (attempts as real - tasks as real) / tasks as real;
      QuotientNonNegative(attempts as real - tasks as real, tasks as real);
      QuotientNonNegative(retries, MAX_RETRIES);
    } else {
      QuotientNonNegative(0.0, MAX_RETRIES);
    }
  }

  /** Each part of the score lies between zero and one, the efficiency provided that the budget serves, and
      is one exactly when nothing was lost. */
  lemma PartsInUnit(w: Weights, budget: real, rows: seq<Attempt>)
    requires CostsOk(rows)
    ensures var b := ScoreOf(w, budget, rows);
      && InUnit(b.successRate) && InUnit(b.reliabilityScore)
      && (NumInUnit(b.efficiencyScore) <==> BudgetServes(budget, TotalCost(rows)))
      && (b.efficiencyScore.NotANumber? <==> budget == 0.0 && TotalCost(rows) == 0.0)
      && (budget < 0.0 && TotalCost(rows) > 0.0 ==> b.efficiencyScore.Finite? && b.efficiencyScore.value > 1.0)
      && (b.successRate == 1.0 <==> rows != [] && CompletedTasks(rows) == Tasks(rows))
      && (NumInUnit(b.efficiencyScore) ==> (b.efficiencyScore.value == 1.0 <==> TotalCost(rows) == 0.0))
      && (b.reliabilityScore == 1.0 <==> |rows| == |Tasks(rows)|)
  {
    hide InUnit, Max, CompletedTasks, Tasks, MaxZeroOneMinus, Divide, BudgetServes, PlusTimes;
    TaskCounts(rows);
    CostIsNonNegative(rows);
    Subset(CompletedTasks(rows), Tasks(rows));
    CompletionInUnit(|Tasks(rows)|, |CompletedTasks(rows)|);
    EfficiencyInUnitIff(|rows|, TotalCost(rows), budget);
    ReliabilityInUnit(|Tasks(rows)|, |rows|);
  }

  function Times(w: real, x: real): real { w * x }

  lemma Product(w: real, x: real)
    requires w >= 0.0 && InUnit(x)
    ensures 0.0 <= Times(w, x) <= w
    ensures w > 0.0 ==> (Times(w, x) == w <==> x == 1.0)
  {
    assert w * (1.0 - x) >= 0.0;
    assert w * x == w - w * (1.0 - x);
    if w > 0.0 && x < 1.0 {
      assert w * (1.0 - x) > 0.0;
    }
  }

  lemma ScoreIsWeighted(w: Weights, budget: real, rows: seq<Attempt>)
    ensures var b := ScoreOf(w, budget, rows);
      && (b.efficiencyScore.Finite? ==> b.evolutionScore == Finite(
            Times(w.w1, b.successRate) + Times(w.w2, b.efficiencyScore.value) + Times(w.w3, b.reliabilityScore)))
      && (b.efficiencyScore.NotANumber? ==> b.evolutionScore.NotANumber?)
  {
    hide Max, Tasks, CompletedTasks, TotalCost, Divide, MaxZeroOneMinus;
  }

  lemma Undivided(x: real, y: real)
    requires y != 0.0
    ensures x / y * y == x
  {
  }

  /** The success rate and the retries are shares of the tasks, and the cost is shared by the attempts. */
  lemma SharesOfTasks(w: Weights, budget: real, rows: seq<Attempt>)
    requires rows != []
    ensures var b, tasks := ScoreOf(w, budget, rows), |Tasks(rows)| as real;
      && b.successRate * tasks == |CompletedTasks(rows)| as real && b.avgTokenCost * |rows| as real == TotalCost(rows)
      && b.avgRetries * tasks == |rows| as real - tasks
      && b.totalTasks == |Tasks(rows)| && b.completedTasks == |CompletedTasks(rows)|
  {
    hide Tasks, CompletedTasks, MaxZeroOneMinus, Divide, PlusTimes;
    TaskCounts(rows);
    var tasks := |Tasks(rows)| as real;
    Undivided(|CompletedTasks(rows)| as real, tasks);
    Undivided(TotalCost(rows), |rows| as real);
    Undivided(|rows| as real - tasks, tasks);
    QuotientNonNegative(|rows| as real - tasks, tasks);
  }

  /** The reliability falls by a third of a task's share with every retry and is used up after three for each task; the
      efficiency is what the average attempt leaves of the budget. */
  lemma RetriesAndCostsTell(w: Weights, budget: real, rows: seq<Attempt>)
    requires rows != [] && budget > 0.0
    ensures var b := ScoreOf(w, budget, rows);
      && 3.0 * b.reliabilityScore == (if b.avgRetries <= 3.0 then 3.0 - b.avgRetries else 0.0)
      && b.efficiencyScore.Finite?
      && b.efficiencyScore.value * budget == (if b.avgTokenCost <= budget then budget - b.avgTokenCost else 0.0)
  {
    hide Tasks, CompletedTasks, PlusTimes;
    var b := ScoreOf(w, budget, rows);
    Undivided(b.avgTokenCost, budget);
    EfficiencyLeft(b.avgTokenCost, budget);
  }

  lemma EfficiencyLeft(cost: real, budget: real)
    requires budget > 0.0
    ensures Max(0.0, 1.0 - cost / budget) * budget == if cost <= budget then budget - cost else 0.0
  {
    var q := cost / budget;
    assert q * budget == cost;
    assert (1.0 - q) * budget == budget - cost;
    SignOfProduct(1.0 - q, budget);
  }

  lemma SignOfProduct(x: real, y: real)
    requires y > 0.0
    ensures x * y > 0.0 <==> x > 0.0
    ensures x * y == 0.0 <==> x == 0.0
  {
  }

  /** On a budget of zero any spending uses it up; refunds lift the score without bound, unless the weight of the
      efficiency is zero or negative, and nothing spent tells nothing. */
  lemma ZeroBudgetScores(w: Weights, rows: seq<Attempt>)
    requires rows != []
    ensures var b, cost := ScoreOf(w, 0.0, rows), TotalCost(rows);
      && (cost > 0.0 ==> b.efficiencyScore == Finite(0.0))
      && (cost == 0.0 ==> b.efficiencyScore.NotANumber? && b.evolutionScore.NotANumber?)
      && (cost < 0.0 ==> b.efficiencyScore == Infinite(true))
      && (cost < 0.0 && w.w2 != 0.0 ==> b.evolutionScore == Infinite(w.w2 > 0.0))
      && (cost < 0.0 && w.w2 == 0.0 ==> b.evolutionScore.NotANumber?)
  {
    hide Tasks, CompletedTasks, Max;
    var b := ScoreOf(w, 0.0, rows);
    Undivided(TotalCost(rows), |rows| as real);
    if TotalCost(rows) > 0.0 {
      QuotientNonNegative(TotalCost(rows), |rows| as real);
    } else if TotalCost(rows) < 0.0 {
      QuotientNonNegative(-TotalCost(rows), |rows| as real);
      assert b.avgTokenCost == -(-TotalCost(rows) / |rows| as real);
    }
  }

  /** With non-negative costs and a budget that serves, the score lies between zero and the sum of the
      weights, and it is full exactly when every task was completed at the first attempt for free; on a
      budget of zero on which nothing was spent the score is not a number. */
  lemma ScoreIsBounded(w: Weights, budget: real, rows: seq<Attempt>)
    requires WeightsOk(w) && CostsOk(rows)
    ensures var score := ScoreOf(w, budget, rows).evolutionScore;
      && (score.NotANumber? <==> budget == 0.0 && TotalCost(rows) == 0.0)
      && (BudgetServes(budget, TotalCost(rows)) ==> score.Finite? && 0.0 <= score.value <= w.w1 + w.w2 + w.w3)
      && (BudgetServes(budget, TotalCost(rows)) && w.w1 > 0.0 && w.w2 > 0.0 && w.w3 > 0.0 ==>
            (score.value == w.w1 + w.w2 + w.w3 <==>
              rows != [] && CompletedTasks(rows) == Tasks(rows) && TotalCost(rows) == 0.0 && |rows| == |Tasks(rows)|))
  {
    hide ScoreOf, Times, Tasks, CompletedTasks, TotalCost;
    CostIsNonNegative(rows);
    PartsInUnit(w, budget, rows);
    ScoreIsWeighted(w, budget, rows);
    var b := ScoreOf(w, budget, rows);
    Product(w.w1, b.successRate);
    if BudgetServes(budget, TotalCost(rows)) { Product(w.w2, b.efficiencyScore.value); }
    Product(w.w3, b.reliabilityScore);
  }

  /** The budget that serves is needed: on a negative one a perfect agent that spends anything scores more than
      the sum of the weights. */
  lemma NegativeBudgetOverpays(w: Weights, budget: real, rows: seq<Attempt>)
    requires WeightsOk(w) && w.w2 > 0.0 && CostsOk(rows) && budget < 0.0 && TotalCost(rows) > 0.0
    requires rows != [] && CompletedTasks(rows) == Tasks(rows) && |rows| == |Tasks(rows)|
    ensures var score := ScoreOf(w, budget, rows).evolutionScore;
      score.Finite? && score.value > w.w1 + w.w2 + w.w3
  {
    hide ScoreOf, Tasks, CompletedTasks, TotalCost;
    PartsInUnit(w, budget, rows);
    ScoreIsWeighted(w, budget, rows);
    var b := ScoreOf(w, budget, rows);
    assert Times(w.w1, b.successRate) == w.w1 && Times(w.w3, b.reliabilityScore) == w.w3;
    MoreThanWeight(w.w2, b.efficiencyScore.value);
  }

  lemma MoreThanWeight(w: real, x: real)
    requires w > 0.0 && x > 1.0
    ensures Times(w, x) > w
  {
    assert w * (x - 1.0) > 0.0;
    assert w * x == w + w * (x - 1.0);
  }

  // ---------- what each weight pays for ----------

  /** The same attempts but for which of them are completed. */
  ghost predicate SameWork(a: seq<Attempt>, b: seq<Attempt>) {
    |a| == |b| && forall i | 0 <= i < |a| :: a[i].task == b[i].task && a[i].cost == b[i].cost
  }

  lemma {:induction false} SameWorkCosts(a: seq<Attempt>, b: seq<Attempt>)
    requires SameWork(a, b)
    ensures TotalCost(a) == TotalCost(b) && Tasks(a) == Tasks(b)
    decreases |a|
  {
    if a == [] {
      assert a == b;
    } else {
      var n := |a| - 1;
      assert forall i | 0 <= i < n :: a[..n][i] == a[i] && b[..n][i] == b[i];
      SameWorkCosts(a[..n], b[..n]);
      TasksOfMore(a, n);
      TasksOfMore(b, n);
      assert a[..n + 1] == a && b[..n + 1] == b;
    }
  }

  /** For the same work, the score differs by the first weight times the difference in the share of
      completed tasks: completing more never lowers it, and nothing else about the outcomes counts. A budget
      of zero on which nothing was spent spoils both scores alike. */
  lemma CompletionPaysTheFirstWeight(w: Weights, budget: real, a: seq<Attempt>, b: seq<Attempt>)
    requires SameWork(a, b) && a != []
    ensures |Tasks(a)| > 0
    ensures var before, after := ScoreOf(w, budget, a).evolutionScore, ScoreOf(w, budget, b).evolutionScore;
      if before.Finite? then
        && after.Finite?
        && after.value - before.value ==
             w.w1 * (|CompletedTasks(b)| as real / |Tasks(a)| as real
                     - |CompletedTasks(a)| as real / |Tasks(a)| as real)
        && (w.w1 >= 0.0 && |CompletedTasks(a)| <= |CompletedTasks(b)| ==> before.value <= after.value)
      else after == before
  {
    hide Tasks, CompletedTasks, Max, TotalCost, Divide, MaxZeroOneMinus;
    SameWorkCosts(a, b);
    TaskCounts(a);
    var n := |Tasks(a)| as real;
    var p, q := |CompletedTasks(a)| as real / n, |CompletedTasks(b)| as real / n;
    Distribute(w.w1, q, p);
    if w.w1 >= 0.0 && |CompletedTasks(a)| <= |CompletedTasks(b)| {
      QuotientOrder(|CompletedTasks(a)| as real, |CompletedTasks(b)| as real, n);
      assert w.w1 * (q - p) >= 0.0;
    }
  }

  lemma Distribute(x: real, y: real, z: real)
    ensures x * (y - z) == x * y - x * z
  {
  }

  lemma QuotientOrder(x: real, y: real, z: real)
    requires x <= y && z > 0.0
    ensures x / z <= y / z
  {
    QuotientNonNegative(y - x, z);
    assert (y - x) / z == y / z - x / z;
  }
}

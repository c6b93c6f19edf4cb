/** Cached answers never show a file as it was before the last invalidation. */
module DefinitionCache {
  import opened DefinitionCacheSpec
  import opened Options

  /** Every read saw at least version `least`, and at most the present one. */
  ghost predicate ReadSince(seen: seq<nat>, least: nat, version: nat) {
    forall i | 0 <= i < |seen| :: least <= seen[i] <= version
  }

  ghost predicate ScanOk(s: State, scan: Scan) {
    && scan.generation <= s.generation && scan.began <= s.version
    && ReadSince(scan.seen, scan.began, s.version)
    && (scan.generation == s.generation ==> scan.began >= s.cleared)
  }

  ghost predicate EntryOk(s: State, e: Cached) {
    && s.cleared <= e.began <= s.version && ReadSince(e.seen, e.began, s.version)
    && e.expiresAt == e.storedAt + TTL && e.storedAt <= s.now
  }

  ghost predicate MemoOk(s: State, m: Memo) {
    && m.generation <= s.generation && m.version <= s.version
    && (m.generation == s.generation ==> m.version >= s.cleared)
    && m.expiresAt == m.storedAt + TTL
  }

  ghost predicate Inv(s: State) {
    && s.cleared <= s.version
    && (forall id | id in s.scans :: ScanOk(s, s.scans[id]))
    && (forall key | key in s.cache :: EntryOk(s, s.cache[key]))
    && (s.memo.Some? ==> MemoOk(s, s.memo.value))
  }

  lemma StepKeepsInv(s: State, step: Step)
    requires Inv(s)
    ensures Inv(Apply(s, step))
  {
    hide EndScan;
    if step.EndsScan? {
      EndScanKeepsInv(s, step.id);
    } else {
      var s' := Apply(s, step);
      forall id | id in s'.scans
        ensures ScanOk(s', s'.scans[id])
      {
        assert id in s.scans ==> ScanOk(s, s.scans[id]);
      }
      forall key | key in s'.cache
        ensures EntryOk(s', s'.cache[key])
      {
        assert EntryOk(s, s.cache[key]);
      }
    }
  }

  lemma EndScanKeepsInv(s: State, id: nat)
    requires Inv(s)
    ensures Inv(EndScan(s, id))
  {
    var s' := EndScan(s, id);
    forall k | k in s'.scans
      ensures ScanOk(s', s'.scans[k])
    {
      assert ScanOk(s, s.scans[k]);
    }
    forall key | key in s'.cache
      ensures EntryOk(s', s'.cache[key])
    {
      assert key in s.cache ==> EntryOk(s, s.cache[key]);
      assert id in s.scans ==> ScanOk(s, s.scans[id]);
    }
  }

  lemma {:induction false} RunKeepsInv(steps: seq<Step>)
    ensures Inv(Run(steps))
    decreases |steps|
  {
    if steps != [] {
      RunKeepsInv(steps[..|steps| - 1]);
      StepKeepsInv(Run(steps[..|steps| - 1]), steps[|steps| - 1]);
    }
  }

  /** How often the agent files changed. */
  function Changed(steps: seq<Step>): nat {
    if steps == [] then 0 else Changed(steps[..|steps| - 1]) + if steps[|steps| - 1].Changes? then 1 else 0
  }

  /** How often they had changed at the last invalidation. */
  function ClearedAt(steps: seq<Step>): nat {
    if steps == [] then 0
    else if steps[|steps| - 1].Clears? then Changed(steps[..|steps| - 1])
    else ClearedAt(steps[..|steps| - 1])
  }

  function Elapsed(steps: seq<Step>): nat {
    if steps == [] then 0
    else Elapsed(steps[..|steps| - 1]) + if steps[|steps| - 1].TimePasses? then steps[|steps| - 1].ms else 0
  }

  lemma {:induction false} HistoryIsKept(steps: seq<Step>)
    ensures Run(steps).version == Changed(steps) && Run(steps).cleared == ClearedAt(steps)
    ensures Run(steps).now == Elapsed(steps)
    decreases |steps|
  {
    if steps != [] {
      HistoryIsKept(steps[..|steps| - 1]);
    }
  }

  /** Whatever the interleaving: an answer from the cache comes from a scan that began after the last
      invalidation, read every file after it, and was stored less than the time to live ago; an
      answer from the memo was read after the last invalidation and within that time, too. */
  lemma CachedAnswersAreFresh(steps: seq<Step>, key: string, useCache: bool)
    ensures var s := Run(steps);
      && (Lookup(s, key, useCache).Some? ==>
            var e := Lookup(s, key, useCache).value;
            && e.began >= ClearedAt(steps)
            && (forall i | 0 <= i < |e.seen| :: e.seen[i] >= ClearedAt(steps))
            && s.now < e.storedAt + TTL)
      && (Remembered(s).Some? ==>
            Remembered(s).value.version >= ClearedAt(steps) && s.now < Remembered(s).value.storedAt + TTL)
  {
    RunKeepsInv(steps);
    HistoryIsKept(steps);
    hide Run, ClearedAt;
    var s := Run(steps);
    if Lookup(s, key, useCache).Some? {
      assert EntryOk(s, s.cache[key]);
    }
  }

  predicate NoClears(steps: seq<Step>) {
    forall i | 0 <= i < |steps| :: !steps[i].Clears?
  }

  predicate NoEnd(steps: seq<Step>, id: nat) {
    forall i | 0 <= i < |steps| :: steps[i] != EndsScan(id)
  }

  /** What the scan finds at the files it reads: how often they had changed by then. */
  function ReadBy(before: seq<Step>, between: seq<Step>, id: nat): seq<nat>
    decreases |between|
  {
    if between == [] then []
    else
      var front, last := between[..|between| - 1], between[|between| - 1];
      ReadBy(before, front, id) + if last == ReadsFile(id) then [Changed(before + front)] else []
  }

  lemma {:induction false} ScanWaits(before: seq<Step>, between: seq<Step>, id: nat)
    requires id in Run(before).scans && NoEnd(between, id)
    ensures var scan, end := Run(before).scans[id], Run(before + between);
      && id in end.scans && end.scans[id] == scan.(seen := scan.seen + ReadBy(before, between, id))
      && end.generation >= Run(before).generation
      && (end.generation == Run(before).generation <==> NoClears(between))
    decreases |between|
  {
    hide Apply, Run, ReadBy, Changed;
    if between == [] {
      NothingRead(before, id);
    } else {
      var front, last := between[..|between| - 1], between[|between| - 1];
      StepsSplit(between, id);
      ScanWaits(before, front, id);
      OneMoreRead(before, between, id);
      OneStepWaits(Run(before + front), last, id);
      HistoryIsKept(before + front);
    }
  }

  lemma NothingRead(before: seq<Step>, id: nat)
    ensures before + [] == before && ReadBy(before, [], id) == [] && NoClears([])
  {
  }

  lemma StepsSplit(steps: seq<Step>, id: nat)
    requires steps != []
    ensures var front, last := steps[..|steps| - 1], steps[|steps| - 1];
      && (NoEnd(steps, id) <==> NoEnd(front, id) && last != EndsScan(id))
      && (NoClears(steps) <==> NoClears(front) && !last.Clears?)
  {
    assert steps == steps[..|steps| - 1] + [steps[|steps| - 1]];
  }

  lemma OneMoreRead(before: seq<Step>, between: seq<Step>, id: nat)
    requires between != []
    ensures var front, last := between[..|between| - 1], between[|between| - 1];
      && Run(before + between) == Apply(Run(before + front), last)
      && ReadBy(before, between, id) ==
           ReadBy(before, front, id) + if last == ReadsFile(id) then [Changed(before + front)] else []
  {
    hide Apply, Changed;
    assert (before + between)[..|before + between| - 1] == before + between[..|between| - 1];
  }

  lemma OneStepWaits(s: State, step: Step, id: nat)
    requires id in s.scans && step != EndsScan(id)
    ensures var s', scan := Apply(s, step), s.scans[id];
      && id in s'.scans
      && s'.scans[id] == scan.(seen := scan.seen + if step == ReadsFile(id) then [s.version] else [])
      && s'.generation == s.generation + if step.Clears? then 1 else 0
  {
  }

  /** A scan is stored if and only if no invalidation fell between its begin and its end. */
  lemma StoredIffUndisturbed(before: seq<Step>, id: nat, key: string, between: seq<Step>)
    requires id !in Run(before).scans && Lookup(Run(before), key, true).None? && NoEnd(between, id)
    ensures var begun := before + [BeginsScan(id, key, true)];
      var end := Run(begun + between);
      var found := Cached(end.now + TTL, Changed(before), ReadBy(begun, between, id), end.now);
      && id !in EndScan(end, id).scans
      && EndScan(end, id).cache == if NoClears(between) then end.cache[key := found] else end.cache
  {
    var begun := before + [BeginsScan(id, key, true)];
    assert begun[..|begun| - 1] == before;
    ScanWaits(begun, between, id);
    HistoryIsKept(before);
    assert [] + ReadBy(begun, between, id) == ReadBy(begun, between, id);
  }

  predicate NoEndOf(s: State, steps: seq<Step>, key: string)
    decreases |steps|
  {
    steps == [] || (var step := steps[0];
                    && (step.EndsScan? && step.id in s.scans ==> s.scans[step.id].key != key)
                    && NoEndOf(Apply(s, step), steps[1..], key))
  }

  function RunFrom(s: State, steps: seq<Step>): State
    decreases |steps|
  {
    if steps == [] then s else RunFrom(Apply(s, steps[0]), steps[1..])
  }

  lemma {:induction false} TimeGoesOn(s: State, steps: seq<Step>)
    ensures RunFrom(s, steps).now >= s.now && RunFrom(s, steps).generation >= s.generation
    decreases |steps|
  {
    if steps != [] { TimeGoesOn(Apply(s, steps[0]), steps[1..]); }
  }

  /** A stored answer is given again, without a scan, until it is invalidated or too old, unless a later scan of
      the same roots replaces it; after an invalidation there is no answer. */
  lemma {:induction false} StoredAnswersAgain(s: State, key: string, steps: seq<Step>)
    requires key in s.cache && NoEndOf(s, steps, key)
    ensures var end := RunFrom(s, steps);
      && (Lookup(end, key, true) ==
            if NoClears(steps) && end.now < s.cache[key].expiresAt then Some(s.cache[key]) else None)
      && (NoClears(steps) ==> key in end.cache && end.cache[key] == s.cache[key])
    decreases |steps|
  {
    if steps != [] {
      var step := steps[0];
      assert NoClears(steps) <==> !step.Clears? && NoClears(steps[1..]) by {
        assert forall i | 0 <= i < |steps| - 1 :: steps[1..][i] == steps[i + 1];
      }
      if step.Clears? {
        NoAnswerLeft(Apply(s, step), key, steps[1..]);
      } else {
        StoredAnswersAgain(Apply(s, step), key, steps[1..]);
      }
    }
  }

  lemma {:induction false} NoAnswerLeft(s: State, key: string, steps: seq<Step>)
    requires key !in s.cache && NoEndOf(s, steps, key)
    ensures key !in RunFrom(s, steps).cache
    decreases |steps|
  {
    if steps != [] { NoAnswerLeft(Apply(s, steps[0]), key, steps[1..]); }
  }

  /** A probe that reads is remembered until the next invalidation or until it is too old, and is not read again
      before that. */
  lemma {:induction false} ProbeIsRemembered(s: State, steps: seq<Step>)
    requires Remembered(s).Some?
    ensures var end := RunFrom(s, steps);
      Remembered(end) == Remembered(s) <==> NoClears(steps) && end.now < Remembered(s).value.expiresAt
    decreases |steps|
  {
    if steps != [] {
      var step := steps[0];
      assert NoClears(steps) <==> !step.Clears? && NoClears(steps[1..]) by {
        assert forall i | 0 <= i < |steps| - 1 :: steps[1..][i] == steps[i + 1];
      }
      TimeGoesOn(Apply(s, step), steps[1..]);
      if Remembered(Apply(s, step)) == Remembered(s) {
        ProbeIsRemembered(Apply(s, step), steps[1..]);
      }
    }
  }

  lemma ProbeReads(s: State)
    ensures Remembered(s).None? ==> Remembered(Probe(s)) == Some(Memo(s.generation, s.now + TTL, s.version, s.now))
    ensures Remembered(s).Some? ==> Probe(s) == s
  {
  }

  /** A cached answer saves the scan; without one a scan begins, unless it has begun already. */
  lemma ScanBeginsIff(s: State, id: nat, key: string, useCache: bool)
    requires id !in s.scans
    ensures var s' := BeginScan(s, id, key, useCache);
      if Lookup(s, key, useCache).Some? then s' == s
      else s' == s.(scans := s'.scans) && s'.scans.Keys == s.scans.Keys + {id} && s'.scans[id].key == key
  {
  }

  /** The module's variables, updated in place. */
  class DefinitionStore {
    var now: nat
    var cacheGeneration: nat
    var cache: map<string, Cached>
    var readyProbeMemo: Option<Memo>
    var scans: map<nat, Scan>
    ghost var version: nat
    ghost var cleared: nat

    ghost function Model(): State
      reads this
    {
      State(now, cacheGeneration, cache, readyProbeMemo, scans, version, cleared)
    }

    ghost predicate Valid()
      reads this
    {
      Inv(Model())
    }

    constructor ()
      ensures Valid() && Model() == INITIAL
    {
      now, cacheGeneration, cache, readyProbeMemo, scans, version, cleared := 0, 0, map[], None, map[], 0, 0;
    }

    method ClearAgentDefinitionCache()
      requires Valid()
      modifies this
      ensures Valid() && Model() == Apply(old(Model()), Clears)
    {
      StepKeepsInv(Model(), Clears);
      cacheGeneration := cacheGeneration + 1;
      cache := map[];
      cleared := version;
    }

    /** The end of a scan: store its result unless the generation has moved on. */
    method StoreResult(id: nat)
      requires Valid() && id in scans
      modifies this
      ensures Valid() && Model() == Apply(old(Model()), EndsScan(id))
    {
      StepKeepsInv(Model(), EndsScan(id));
      var scan := scans[id];
      scans := scans - {id};
      if scan.useCache && scan.generation == cacheGeneration {
        cache := cache[scan.key := Cached(now + TTL, scan.began, scan.seen, now)];
      }
    }
  }
}

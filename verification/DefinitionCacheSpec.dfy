/** The discovery cache of agent definitions and the memo of the readiness probe, guarded by a
    generation counter, under any interleaving of scans, file changes and invalidations.

    `version` counts the changes of the agent files and `cleared` is its value at the last
    invalidation; a scan records the version it found at each file it read. These and `storedAt`
    are history. */
module DefinitionCacheSpec {
  import opened Options

  datatype Cached = Cached(expiresAt: nat, began: nat, seen: seq<nat>, storedAt: nat)

  datatype Scan = Scan(key: string, generation: nat, useCache: bool, began: nat, seen: seq<nat>)

  datatype Memo = Memo(generation: nat, expiresAt: nat, version: nat, storedAt: nat)

  datatype State = State(
    now: nat, generation: nat, cache: map<string, Cached>, memo: Option<Memo>, scans: map<nat, Scan>, version: nat,
      cleared: nat)

  const TTL := 30000

  const INITIAL := State(0, 0, map[], None, map[], 0, 0)

  /** The entry that answers a discovery without a scan. */
  function Lookup(s: State, key: string, useCache: bool): Option<Cached> {
    if useCache && key in s.cache && s.cache[key].expiresAt > s.now then Some(s.cache[key]) else None
  }

  /** The memo that answers a probe without reading. */
  function Remembered(s: State): Option<Memo> {
    if s.memo.Some? && s.memo.value.generation == s.generation && s.memo.value.expiresAt > s.now then s.memo else None
  }

  function BeginScan(s: State, id: nat, key: string, useCache: bool): State {
    if id in s.scans || Lookup(s, key, useCache).Some? then s
    else s.(scans := s.scans[id := Scan(key, s.generation, useCache, s.version, [])])
  }

  function ReadFile(s: State, id: nat): State {
    if id !in s.scans then s else s.(scans := s.scans[id := s.scans[id].(seen := s.scans[id].seen + [s.version])])
  }

  /** A finished scan is stored only if nothing was invalidated since it began. */
  function EndScan(s: State, id: nat): State {
    if id !in s.scans then s
    else
      var scan := s.scans[id];
      s.(scans := s.scans - {id},
         cache := if scan.useCache && scan.generation == s.generation
           then s.cache[scan.key := Cached(s.now + TTL, scan.began, scan.seen, s.now)] else s.cache)
  }

  function Clear(s: State): State {
    s.(generation := s.generation + 1, cache := map[], cleared := s.version)
  }

  function Probe(s: State): State {
    if Remembered(s).Some? then s else s.(memo := Some(Memo(s.generation, s.now + TTL, s.version, s.now)))
  }

  datatype Step =
    | Changes
    | Clears
    | BeginsScan(id: nat, key: string, useCache: bool)
    | ReadsFile(id: nat)
    | EndsScan(id: nat)
    | Probes
    | TimePasses(ms: nat)

  function Apply(s: State, step: Step): State {
    match step
    case Changes => s.(version := s.version + 1)
    case Clears => Clear(s)
    case BeginsScan(id, key, useCache) => BeginScan(s, id, key, useCache)
    case ReadsFile(id) => ReadFile(s, id)
    case EndsScan(id) => EndScan(s, id)
    case Probes => Probe(s)
    case TimePasses(ms) => s.(now := s.now + ms)
  }

  function Run(steps: seq<Step>): State {
    if steps == [] then INITIAL else Apply(Run(steps[..|steps| - 1]), steps[|steps| - 1])
  }
}

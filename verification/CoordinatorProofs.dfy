/** What every operation of the artifact coordinator keeps, and what its event stream tells a client. */
module CoordinatorProofs {
  import opened CoordinatorSpec
  import opened Options

  // ---------- index coherence ----------

  lemma EmitPatchKeepsInv(c: Coord, id: string, patch: Patch)
    requires CoordInv(c) && id in c.records
    ensures CoordInv(EmitPatch(c, id, patch))
    ensures EmitPatch(c, id, patch).records.Keys == c.records.Keys
    ensures EmitPatch(c, id, patch).pathIndex.Keys == c.pathIndex.Keys
  {
    hide PatchRecord, NormalizePatch, IsTerminal;
    var c' := EmitPatch(c, id, patch);
    assert RecordOk(c, id);
    PatchKeepsRecordOk(c.records[id], patch);
    forall k | k in c'.records
      ensures RecordOk(c', k)
    {
      assert RecordOk(c, k);
    }
  }

  lemma PatchKeepsRecordOk(r: Record, patch: Patch)
    requires r.terminal == IsTerminal(r.status)
    ensures var r' := PatchRecord(r, patch);
      r'.artifactId == r.artifactId && r'.paths == r.paths && r'.terminal == IsTerminal(r'.status)
  {
  }

  lemma ApplySeedKeepsInv(c: Coord, id: string, seed: Seed)
    requires CoordInv(c) && id in c.records
    ensures CoordInv(ApplySeed(c, id, seed))
    ensures ApplySeed(c, id, seed).records.Keys == c.records.Keys
    ensures ApplySeed(c, id, seed).pathIndex.Keys == c.pathIndex.Keys
  {
    match PatchFromSeed(c.records[id], seed)
    case None =>
    case Some(patch) => EmitPatchKeepsInv(c, id, patch);
  }

  lemma NewRecordNames(id: string, key: string, seed: Seed, status: Status, paths: set<string>)
    ensures NewRecord(id, key, seed, status, paths).artifactId == id
    ensures NewRecord(id, key, seed, status, paths).paths == paths
  {
  }

  /** A new record under a new id, with its paths indexed. */
  lemma AddRecordKeepsInv(c: Coord, tool: string, record: Record)
    requires CoordInv(c) && record.artifactId != "" && record.artifactId !in c.records
    requires record.terminal == IsTerminal(record.status)
    ensures CoordInv(AddRecord(c, tool, record).(pathIndex := IndexPaths(c.pathIndex, record.paths, record.artifactId)))
  {
    var c' := AddRecord(c, tool, record).(pathIndex := IndexPaths(c.pathIndex, record.paths, record.artifactId));
    forall k | k in c'.records
      ensures RecordOk(c', k)
    {
      if k != record.artifactId { assert RecordOk(c, k); }
    }
    assert c'.recordOrder == c.recordOrder + [record.artifactId];
    forall k | k in c'.records
      ensures k in c'.recordOrder
    {
      assert k == c'.recordOrder[|c.recordOrder|] || k in c.recordOrder;
    }
  }

  /** Pending paths and events are not part of the invariant. */
  lemma InvIgnoresRest(c: Coord, c': Coord)
    requires CoordInv(c) && c'.records == c.records && c'.recordOrder == c.recordOrder
    requires c'.byTool == c.byTool && c'.pathIndex == c.pathIndex
    ensures CoordInv(c')
  {
    forall k | k in c'.records
      ensures RecordOk(c', k)
    {
      assert RecordOk(c, k);
    }
  }

  lemma OpenNewKeepsInv(c: Coord, tool: string, seed: Seed, freshId: string)
    requires CoordInv(c) && freshId != "" && freshId !in c.records
    ensures CoordInv(OpenNew(c, tool, seed, freshId))
    ensures OpenNew(c, tool, seed, freshId).pathIndex.Keys >= c.pathIndex.Keys
  {
    var paths := if tool in c.pending then c.pending[tool] else {};
    var record := NewRecord(freshId, tool, seed, seed.status.Or(Running), paths);
    AddRecordKeepsInv(c, tool, record);
    InvIgnoresRest(AddRecord(c, tool, record).(pathIndex := IndexPaths(c.pathIndex, paths, freshId)),
                   OpenNew(c, tool, seed, freshId));
  }

  /** Changing one record in place and indexing one path for it. */
  lemma UpdateRecordKeepsInv(c: Coord, id: string, record: Record, path: string)
    requires CoordInv(c) && id in c.records && record.artifactId == id && record.terminal == IsTerminal(record.status)
    requires record.paths <= c.records[id].paths + {path}
    ensures CoordInv(c.(records := c.records[id := record], pathIndex := c.pathIndex[path := id]))
  {
    var c' := c.(records := c.records[id := record], pathIndex := c.pathIndex[path := id]);
    assert RecordOk(c, id);
    forall k | k in c'.records
      ensures RecordOk(c', k)
    {
      assert RecordOk(c, k);
    }
  }

  lemma BindPathKeepsInv(c: Coord, id: string, path: string)
    requires CoordInv(c)
    ensures CoordInv(BindPath(c, id, path))
    ensures BindPath(c, id, path).pathIndex.Keys >= c.pathIndex.Keys
  {
    if id in c.records {
      assert RecordOk(c, id);
      UpdateRecordKeepsInv(c, id, c.records[id].(paths := c.records[id].paths + {path}), path);
    }
  }

  lemma BindToolKeepsInv(c: Coord, tool: string, id: string)
    requires CoordInv(c) && id in c.records
    ensures CoordInv(c.(byTool := c.byTool[tool := id]))
  {
    var c' := c.(byTool := c.byTool[tool := id]);
    forall k | k in c'.records
      ensures RecordOk(c', k)
    {
      assert RecordOk(c, k);
    }
  }

  lemma ReviveKeepsInv(c: Coord, tool: string, id: string, path: string, seed: Seed)
    requires CoordInv(c) && id in c.records
    ensures CoordInv(AdoptToolCallByPath(c, tool, id, path, seed))
  {
    var record := c.records[id];
    assert RecordOk(c, id);
    var revived := record.(status := Running, terminal := false, paths := record.paths + {path},
                           persistedPath := seed.persistedPath.Else(record.persistedPath));
    UpdateRecordKeepsInv(c, id, revived, path);
    BindToolKeepsInv(c.(records := c.records[id := revived], pathIndex := c.pathIndex[path := id]), tool, id);
  }

  lemma AdoptToolCallKeepsInv(c: Coord, tool: string, id: string, path: string, seed: Seed)
    requires CoordInv(c) && id != ""
    ensures CoordInv(AdoptToolCallByPath(c, tool, id, path, seed))
    ensures AdoptToolCallByPath(c, tool, id, path, seed).pathIndex.Keys >= c.pathIndex.Keys
  {
    if id in c.records {
      ReviveKeepsInv(c, tool, id, path, seed);
    } else {
      AddWithPathKeepsInv(c, tool, NewRecord(id, tool, seed, Running, {path}), path);
    }
  }

  lemma AdoptFileKeepsInv(c: Coord, id: string, path: string, seed: Seed)
    requires CoordInv(c) && id != ""
    ensures CoordInv(AdoptFileByPath(c, id, path, seed))
    ensures AdoptFileByPath(c, id, path, seed).pathIndex.Keys >= c.pathIndex.Keys
  {
    if id in c.records {
      ReindexKeepsInv(c, id, path);
    } else {
      AddWithPathKeepsInv(c, FileTool(path), NewRecord(id, FileTool(path), seed, seed.status.Or(Completed), {path}),
        path);
    }
  }

  lemma ReindexKeepsInv(c: Coord, id: string, path: string)
    requires CoordInv(c) && id in c.records
    ensures CoordInv(c.(pathIndex := c.pathIndex[path := id]))
  {
    var c' := c.(pathIndex := c.pathIndex[path := id]);
    forall k | k in c'.records
      ensures RecordOk(c', k)
    {
      assert RecordOk(c, k);
    }
  }

  lemma AddWithPathKeepsInv(c: Coord, tool: string, record: Record, path: string)
    requires CoordInv(c) && record.artifactId != "" && record.artifactId !in c.records
    requires record.terminal == IsTerminal(record.status) && record.paths == {path}
    ensures CoordInv(AddRecord(c, tool, record).(pathIndex := c.pathIndex[path := record.artifactId]))
  {
    hide CoordInv, AddRecord, IsTerminal;
    AddRecordKeepsInv(c, tool, record);
    assert IndexPaths(c.pathIndex, {path}, record.artifactId) == c.pathIndex[path := record.artifactId];
  }

  /** One step of the loop over the live records. */
  lemma TerminalPatchShape(c: Coord, id: string, turnId: string, status: Status, fallbackText: Option<string>)
    requires CoordInv(c) && id in c.records
    ensures var c' := EmitPatch(c, id, TerminalPatch(c.records[id], turnId, status, fallbackText));
      && CoordInv(c') && c'.recordOrder == c.recordOrder && c'.records.Keys == c.records.Keys
      && |c'.events| == |c.events| + 1 && c'.records[id].terminal == IsTerminal(status)
      && forall k | k in c.records && k != id :: c'.records[k] == c.records[k]
  {
    hide CoordInv, IsTerminal;
    EmitPatchKeepsInv(c, id, TerminalPatch(c.records[id], turnId, status, fallbackText));
  }

  lemma {:induction false} TerminateFromKeepsInv(
      c: Coord, i: nat, turnId: string, status: Status, fallbackText: Option<string>)
    requires CoordInv(c)
    ensures CoordInv(TerminateFrom(c, i, turnId, status, fallbackText))
    ensures TerminateFrom(c, i, turnId, status, fallbackText).pathIndex.Keys == c.pathIndex.Keys
    ensures TerminateFrom(c, i, turnId, status, fallbackText).records.Keys == c.records.Keys
    decreases |c.recordOrder| - i
  {
    hide CoordInv, IndexPaths, PatchRecord;
    if i < |c.recordOrder| {
      var id := c.recordOrder[i];
      if Active(c, id) {
        var patch := TerminalPatch(c.records[id], turnId, status, fallbackText);
        EmitPatchKeepsInv(c, id, patch);
        TerminateFromKeepsInv(EmitPatch(c, id, patch), i + 1, turnId, status, fallbackText);
      } else {
        TerminateFromKeepsInv(c, i + 1, turnId, status, fallbackText);
      }
    }
  }

  lemma PatchByToolKeepsInv(c: Coord, tool: string, patch: Patch)
    requires CoordInv(c)
    ensures CoordInv(PatchByTool(c, tool, patch))
    ensures PatchByTool(c, tool, patch).records.Keys == c.records.Keys
    ensures PatchByTool(c, tool, patch).pathIndex.Keys == c.pathIndex.Keys
  {
    hide EmitPatch;
    if tool in c.byTool { EmitPatchKeepsInv(c, c.byTool[tool], patch); }
  }

  lemma RegisterFileWriteKeepsInv(c: Coord, tool: string, path: string)
    requires CoordInv(c)
    ensures CoordInv(RegisterFileWrite(c, tool, path))
    ensures c.pathIndex.Keys <= RegisterFileWrite(c, tool, path).pathIndex.Keys
    ensures RegisterFileWrite(c, tool, path).records.Keys == c.records.Keys
  {
    if tool in c.byTool {
      BindPathKeepsInv(c, c.byTool[tool], path);
    } else {
      InvIgnoresRest(c, RegisterFileWrite(c, tool, path));
    }
  }

  lemma OpenOrGetKeepsInv(c: Coord, tool: string, seed: Seed, freshId: string)
    requires CoordInv(c) && freshId != "" && freshId !in c.records
    ensures CoordInv(OpenOrGet(c, tool, seed, freshId))
    ensures c.pathIndex.Keys <= OpenOrGet(c, tool, seed, freshId).pathIndex.Keys
    ensures c.records.Keys <= OpenOrGet(c, tool, seed, freshId).records.Keys <= c.records.Keys + {freshId}
    ensures tool in OpenOrGet(c, tool, seed, freshId).byTool
  {
    hide ApplySeed;
    if tool in c.byTool {
      ApplySeedKeepsInv(c, c.byTool[tool], seed);
      ApplySeedKeepsTools(c, c.byTool[tool], seed);
    } else {
      OpenNewKeepsInv(c, tool, seed, freshId);
    }
  }

  lemma ApplySeedKeepsTools(c: Coord, id: string, seed: Seed)
    requires id in c.records
    ensures ApplySeed(c, id, seed).byTool == c.byTool
  {
  }

  /** Every operation keeps the indexes coherent and never forgets a path. */
  lemma OpKeepsInv(c: Coord, op: Op)
    requires CoordInv(c) && IdsOk(c, op)
    ensures CoordInv(ApplyOp(c, op))
    ensures c.pathIndex.Keys <= ApplyOp(c, op).pathIndex.Keys
    ensures c.records.Keys <= ApplyOp(c, op).records.Keys
  {
    hide CoordInv, OpenOrGet, PatchByTool, RegisterFileWrite, OpenFileByPath, TerminateFrom, EmitPatch;
    match op
    case OpOpenOrGet(tool, seed, freshId) => OpenOrGetKeepsInv(c, tool, seed, freshId);
    case OpPatch(tool, patch) => PatchByToolKeepsInv(c, tool, patch);
    case OpComplete(tool, patch) => PatchByToolKeepsInv(c, tool, patch.(status := Some(patch.status.Or(Completed))));
    case OpRegisterFileWrite(tool, path) => RegisterFileWriteKeepsInv(c, tool, path);
    case OpBindPath(id, path) => BindPathKeepsInv(c, id, path);
    case OpAdoptToolCall(tool, id, path, seed) => AdoptToolCallKeepsInv(c, tool, id, path, seed);
    case OpAdoptFile(id, path, seed) => AdoptFileKeepsInv(c, id, path, seed);
    case OpOpenFile(path, seed, freshId) => OpenFileKeepsInv(c, path, seed, freshId);
    case OpPatchArtifact(id, patch) =>
      if id in c.records { EmitPatchKeepsInv(c, id, patch); }
    case OpTerminateAll(turnId, status, fallbackText) => TerminateFromKeepsInv(c, 0, turnId, status, fallbackText);
  }

  lemma OpenFileKeepsInv(c: Coord, path: string, seed: Seed, freshId: string)
    requires CoordInv(c) && freshId != "" && freshId !in c.records
    ensures CoordInv(OpenFileByPath(c, path, seed, freshId))
    ensures c.pathIndex.Keys <= OpenFileByPath(c, path, seed, freshId).pathIndex.Keys
    ensures path in OpenFileByPath(c, path, seed, freshId).pathIndex
    ensures c.records.Keys <= OpenFileByPath(c, path, seed, freshId).records.Keys <= c.records.Keys + {freshId}
  {
    hide OpenOrGet, ApplySeed;
    if path in c.pathIndex {
      ApplySeedKeepsInv(c, c.pathIndex[path], seed);
    } else {
      var tool := FileTool(path);
      OpenOrGetKeepsInv(c, tool, seed, freshId);
      var c1 := OpenOrGet(c, tool, seed, freshId);
      BindPathKeepsInv(c1, c1.byTool[tool], path);
    }
  }

  // ---------- the client ----------

  /** A card as a client keeps it: later values override, data is merged key by key. */
  datatype Card = Card(
    pluginId: string, title: string, status: Status, fallbackText: string, data: Data, persistedPath: Option<string>,
    parentId: Option<string>, versionNumber: Option<int>, changeDescription: Option<string>)

  function OpenCard(e: Envelope): Card {
    Card(e.pluginId, e.title, e.status, e.fallbackText, e.data, e.persistedPath, e.parentId, e.versionNumber,
      e.changeDescription)
  }

  function PatchCard(card: Card, p: Patch): Card {
    Card(p.pluginId.Or(card.pluginId), p.title.Or(card.title), p.status.Or(card.status),
         p.fallbackText.Or(card.fallbackText), card.data + p.data.Or(map[]), p.persistedPath.Else(card.persistedPath),
         p.parentId.Else(card.parentId), p.versionNumber.Else(card.versionNumber),
         p.changeDescription.Else(card.changeDescription))
  }

  function FoldEvent(cards: map<string, Card>, e: Event): map<string, Card> {
    match e
    case Opened(artifact) => cards[artifact.id := OpenCard(artifact)]
    case Patched(id, patch) => if id in cards then cards[id := PatchCard(cards[id], patch)] else cards
  }

  function Fold(events: seq<Event>): map<string, Card> {
    if events == [] then map[] else FoldEvent(Fold(events[..|events| - 1]), events[|events| - 1])
  }

  lemma FoldOne(events: seq<Event>, e: Event)
    ensures Fold(events + [e]) == FoldEvent(Fold(events), e)
  {
    assert (events + [e])[..|events|] == events;
  }

  predicate Agrees(card: Card, r: Record) {
    && card.pluginId == r.pluginId && card.title == r.title && card.status == r.status
    && card.fallbackText == r.fallbackText && card.persistedPath == r.persistedPath && card.parentId == r.parentId
    && card.versionNumber == r.versionNumber && card.changeDescription == r.changeDescription
  }

  predicate RoleStamped(card: Card, role: DocumentRole) {
    PluginCarriesRole(card.pluginId, role) ==> "role" in card.data
  }

  ghost predicate CardOk(c: Coord, id: string) {
    id in Fold(c.events) ==>
      id in c.records && Agrees(Fold(c.events)[id], c.records[id]) && RoleStamped(Fold(c.events)[id], c.role)
  }

  /** The folded event stream shows every opened artifact as the coordinator records it. */
  ghost predicate Replays(c: Coord) {
    forall id :: CardOk(c, id)
  }

  predicate NotEmptyText(s: Option<string>) { s.Some? ==> s.value != "" }

  /** No field of the patch is the empty text. */
  predicate PatchTextOk(p: Patch) {
    NotEmptyText(p.pluginId) && NotEmptyText(p.title) && NotEmptyText(p.fallbackText)
  }

  predicate SeedTextOk(s: Seed) {
    s.pluginId != "" && s.title != "" && NotEmptyText(s.fallbackText) && NotEmptyText(s.persistedPath)
      && NotEmptyText(s.parentId) && NotEmptyText(s.changeDescription)
  }

  /** Reviving a published card by path tells the client nothing: it stays in step only if the
      client never saw the card, or nothing it shows changes. */
  predicate AdoptionVisible(c: Coord, id: string, seed: Seed) {
    id in c.records && id in Fold(c.events) &&
      (!c.records[id].status.Running?
       || (seed.persistedPath.Some? && seed.persistedPath != c.records[id].persistedPath))
  }

  predicate TextOk(op: Op) {
    match op
    case OpOpenOrGet(_, seed, _) => SeedTextOk(seed)
    case OpPatch(_, patch) => PatchTextOk(patch)
    case OpComplete(_, patch) => PatchTextOk(patch)
    case OpRegisterFileWrite(_, _) => true
    case OpBindPath(_, _) => true
    case OpAdoptToolCall(_, _, _, seed) => true
    case OpAdoptFile(_, _, seed) => true
    case OpOpenFile(_, seed, _) => SeedTextOk(seed)
    case OpPatchArtifact(_, patch) => PatchTextOk(patch)
    case OpTerminateAll(_, _, fallbackText) => NotEmptyText(fallbackText)
  }

  lemma EmitPatchReplays(c: Coord, id: string, patch: Patch)
    requires CoordInv(c) && id in c.records && Replays(c) && PatchTextOk(patch)
    ensures Replays(EmitPatch(c, id, patch))
  {
    var c' := EmitPatch(c, id, patch);
    var emitted := NormalizePatch(c.role, patch);
    FoldOne(c.events, Patched(id, emitted));
    forall k
      ensures CardOk(c', k)
    {
      assert CardOk(c, k);
    }
  }

  lemma SeedPatchTextOk(r: Record, seed: Seed)
    requires SeedTextOk(seed)
    ensures PatchFromSeed(r, seed).Some? ==> PatchTextOk(PatchFromSeed(r, seed).value)
  {
  }

  lemma ApplySeedReplays(c: Coord, id: string, seed: Seed)
    requires CoordInv(c) && id in c.records && Replays(c) && SeedTextOk(seed)
    ensures Replays(ApplySeed(c, id, seed))
  {
    SeedPatchTextOk(c.records[id], seed);
    match PatchFromSeed(c.records[id], seed)
    case None =>
    case Some(patch) => EmitPatchReplays(c, id, patch);
  }

  lemma OpenNewReplays(c: Coord, tool: string, seed: Seed, freshId: string)
    requires CoordInv(c) && freshId !in c.records && Replays(c) && SeedTextOk(seed)
    ensures Replays(OpenNew(c, tool, seed, freshId))
  {
    var c' := OpenNew(c, tool, seed, freshId);
    FoldOne(c.events, c'.events[|c.events|]);
    forall k
      ensures CardOk(c', k)
    {
      assert CardOk(c, k);
    }
  }

  /** An operation without an event that leaves every shown field alone. */
  lemma SilentReplays(c: Coord, c': Coord)
    requires Replays(c) && c'.events == c.events && c'.role == c.role && c.records.Keys <= c'.records.Keys
    requires forall id | id in c.records ::
      c'.records[id].(paths := {}, terminal := false) == c.records[id].(paths := {}, terminal := false)
    ensures Replays(c')
  {
    forall k
      ensures CardOk(c', k)
    {
      assert CardOk(c, k);
      if k in c.records {
        assert c'.records[k].(paths := {}, terminal := false) == c.records[k].(paths := {}, terminal := false);
      }
    }
  }

  lemma BindPathReplays(c: Coord, id: string, path: string)
    requires Replays(c)
    ensures Replays(BindPath(c, id, path))
  {
    SilentReplays(c, BindPath(c, id, path));
  }

  lemma PatchByToolReplays(c: Coord, tool: string, patch: Patch)
    requires CoordInv(c) && Replays(c) && PatchTextOk(patch)
    ensures Replays(PatchByTool(c, tool, patch))
  {
    if tool in c.byTool && !c.records[c.byTool[tool]].terminal {
      EmitPatchReplays(c, c.byTool[tool], patch);
    }
  }

  lemma CompleteReplays(c: Coord, tool: string, patch: Patch)
    requires CoordInv(c) && Replays(c) && PatchTextOk(patch)
    ensures Replays(Complete(c, tool, patch))
  {
    hide CoordInv, Replays, PatchByTool;
    PatchByToolReplays(c, tool, patch.(status := Some(patch.status.Or(Completed))));
  }

  lemma RegisterFileWriteReplays(c: Coord, tool: string, path: string)
    requires CoordInv(c) && Replays(c)
    ensures Replays(RegisterFileWrite(c, tool, path))
  {
    SilentReplays(c, RegisterFileWrite(c, tool, path));
  }

  lemma AdoptFileReplays(c: Coord, id: string, path: string, seed: Seed)
    requires Replays(c)
    ensures Replays(AdoptFileByPath(c, id, path, seed))
  {
    NewRecordNames(id, FileTool(path), seed, seed.status.Or(Completed), {path});
    SilentReplays(c, AdoptFileByPath(c, id, path, seed));
  }

  lemma OpenOrGetReplays(c: Coord, tool: string, seed: Seed, freshId: string)
    requires CoordInv(c) && freshId != "" && freshId !in c.records && Replays(c) && SeedTextOk(seed)
    ensures Replays(OpenOrGet(c, tool, seed, freshId))
  {
    if tool in c.byTool { ApplySeedReplays(c, c.byTool[tool], seed); } else { OpenNewReplays(c, tool, seed, freshId); }
  }

  lemma OpenFileReplays(c: Coord, path: string, seed: Seed, freshId: string)
    requires CoordInv(c) && freshId != "" && freshId !in c.records && Replays(c) && SeedTextOk(seed)
    ensures Replays(OpenFileByPath(c, path, seed, freshId))
  {
    if path in c.pathIndex && c.pathIndex[path] != "" {
      ApplySeedReplays(c, c.pathIndex[path], seed);
    } else {
      var tool := FileTool(path);
      OpenOrGetReplays(c, tool, seed, freshId);
      var c1 := OpenOrGet(c, tool, seed, freshId);
      if tool in c1.byTool {
        BindPathReplays(c1, c1.byTool[tool], path);
      }
    }
  }

  lemma TerminalPatchTextOk(record: Record, turnId: string, status: Status, fallbackText: Option<string>)
    requires NotEmptyText(fallbackText)
    ensures PatchTextOk(TerminalPatch(record, turnId, status, fallbackText))
  {
  }

  lemma {:induction false} TerminateFromReplays(
      c: Coord, i: nat, turnId: string, status: Status, fallbackText: Option<string>)
    requires CoordInv(c) && Replays(c) && NotEmptyText(fallbackText)
    ensures Replays(TerminateFrom(c, i, turnId, status, fallbackText))
    decreases |c.recordOrder| - i
  {
    hide CoordInv, Replays, EmitPatch, TerminalPatch;
    if i < |c.recordOrder| {
      var id := c.recordOrder[i];
      if Active(c, id) {
        var patch := TerminalPatch(c.records[id], turnId, status, fallbackText);
        TerminalPatchTextOk(c.records[id], turnId, status, fallbackText);
        TerminalPatchShape(c, id, turnId, status, fallbackText);
        EmitPatchReplays(c, id, patch);
        TerminateFromReplays(EmitPatch(c, id, patch), i + 1, turnId, status, fallbackText);
      } else {
        TerminateFromReplays(c, i + 1, turnId, status, fallbackText);
      }
    }
  }

  /** Every operation with non-empty texts keeps client and coordinator in step; adopting a tool call
      does so exactly when the client cannot see what it changes. */
  lemma OpReplays(c: Coord, op: Op)
    requires CoordInv(c) && IdsOk(c, op) && TextOk(op) && Replays(c)
    ensures Replays(ApplyOp(c, op)) <==> !(op.OpAdoptToolCall? && AdoptionVisible(c, op.id, op.seed))
  {
    hide CoordInv, Replays, SeedTextOk, PatchTextOk, AdoptionVisible, OpenOrGet, PatchByTool, OpenFileByPath;
    hide AdoptToolCallByPath, AdoptFileByPath, RegisterFileWrite, BindPath, EmitPatch, TerminateFrom;
    match op
    case OpOpenOrGet(tool, seed, freshId) => OpenOrGetReplays(c, tool, seed, freshId);
    case OpPatch(tool, patch) => PatchByToolReplays(c, tool, patch);
    case OpComplete(tool, patch) => CompleteReplays(c, tool, patch);
    case OpRegisterFileWrite(tool, path) => RegisterFileWriteReplays(c, tool, path);
    case OpBindPath(id, path) => BindPathReplays(c, id, path);
    case OpAdoptToolCall(tool, id, path, seed) => AdoptToolCallReplays(c, tool, id, path, seed);
    case OpAdoptFile(id, path, seed) => AdoptFileReplays(c, id, path, seed);
    case OpOpenFile(path, seed, freshId) => OpenFileReplays(c, path, seed, freshId);
    case OpPatchArtifact(id, patch) =>
      if id in c.records { EmitPatchReplays(c, id, patch); }
    case OpTerminateAll(turnId, status, fallbackText) => TerminateFromReplays(c, 0, turnId, status, fallbackText);
  }

  lemma AdoptToolCallReplays(c: Coord, tool: string, id: string, path: string, seed: Seed)
    requires CoordInv(c) && id != "" && Replays(c)
    ensures Replays(AdoptToolCallByPath(c, tool, id, path, seed)) <==> !AdoptionVisible(c, id, seed)
  {
    var c' := AdoptToolCallByPath(c, tool, id, path, seed);
    assert CardOk(c, id);
    if AdoptionVisible(c, id, seed) {
      assert !CardOk(c', id);
    } else {
      forall k
        ensures CardOk(c', k)
      {
        assert CardOk(c, k);
      }
    }
  }

  /** Exactly which patches of an opened artifact keep client and record in step: an empty text is
      sent but not recorded. */
  lemma PatchReplaysIff(c: Coord, id: string, patch: Patch)
    requires CoordInv(c) && Replays(c) && id in Fold(c.events)
    ensures id in c.records
    ensures Replays(EmitPatch(c, id, patch)) <==>
      && (patch.pluginId == Some("") ==> c.records[id].pluginId == "")
      && (patch.title == Some("") ==> c.records[id].title == "")
      && (patch.fallbackText == Some("") ==> c.records[id].fallbackText == "")
  {
    assert CardOk(c, id);
    var c' := EmitPatch(c, id, patch);
    FoldOne(c.events, Patched(id, NormalizePatch(c.role, patch)));
    if Agrees(Fold(c'.events)[id], c'.records[id]) {
      forall k
        ensures CardOk(c', k)
      {
        assert CardOk(c, k);
      }
    } else {
      assert !CardOk(c', id);
    }
  }

  // ---------- runs ----------

  ghost predicate ValidOps(c: Coord, ops: seq<Op>)
    requires CoordInv(c)
    decreases |ops|
  {
    ops != [] ==>
      IdsOk(c, ops[0]) && (OpKeepsInv(c, ops[0]); ValidOps(ApplyOp(c, ops[0]), ops[1..]))
  }

  ghost function RunOps(c: Coord, ops: seq<Op>): (r: Coord)
    requires CoordInv(c) && ValidOps(c, ops)
    ensures CoordInv(r)
    decreases |ops|
  {
    if ops == [] then c else (OpKeepsInv(c, ops[0]); RunOps(ApplyOp(c, ops[0]), ops[1..]))
  }

  lemma {:induction false} RunReplays(c: Coord, ops: seq<Op>)
    requires CoordInv(c) && ValidOps(c, ops) && Replays(c)
    requires forall i: nat | i < |ops| :: TextOk(ops[i]) && !ops[i].OpAdoptToolCall?
    ensures Replays(RunOps(c, ops))
    decreases |ops|
  {
    if ops != [] {
      OpKeepsInv(c, ops[0]);
      OpReplays(c, ops[0]);
      RunReplays(ApplyOp(c, ops[0]), ops[1..]);
    }
  }

  /** From an empty turn, over every sequence of operations with non-empty texts and no silent
      revival, the client fold shows exactly the recorded fields and every role-carrying card has a role. */
  lemma ReplayOfEveryTurn(role: DocumentRole, ops: seq<Op>)
    requires ValidOps(InitialCoord(role), ops)
    requires forall i: nat | i < |ops| :: TextOk(ops[i]) && !ops[i].OpAdoptToolCall?
    ensures var c := RunOps(InitialCoord(role), ops);
      forall id | id in Fold(c.events) ::
        id in c.records && Agrees(Fold(c.events)[id], c.records[id]) && RoleStamped(Fold(c.events)[id], c.role)
  {
    var c0 := InitialCoord(role);
    assert forall id :: CardOk(c0, id);
    RunReplays(c0, ops);
    var c := RunOps(c0, ops);
    forall id | id in Fold(c.events)
      ensures id in c.records && Agrees(Fold(c.events)[id], c.records[id]) && RoleStamped(Fold(c.events)[id], c.role)
    {
      assert CardOk(c, id);
    }
  }

  // ---------- identity: one open per id, before all its patches ----------

  predicate Names(e: Event, id: string) {
    match e
    case Opened(artifact) => artifact.id == id
    case Patched(artifactId, _) => artifactId == id
  }

  ghost predicate StreamInv(c: Coord) {
    && (forall i: nat | i < |c.events| && c.events[i].Opened? :: c.events[i].artifact.id in c.records)
    && (forall i: nat | i < |c.events| && c.events[i].Patched? :: c.events[i].artifactId in c.records)
    && (forall i: nat, j: nat | i < j < |c.events| && c.events[j].Opened? ::
        !Names(c.events[i], c.events[j].artifact.id))
  }

  lemma EmitPatchKeepsStream(c: Coord, id: string, patch: Patch)
    requires StreamInv(c) && id in c.records
    ensures StreamInv(EmitPatch(c, id, patch))
  {
  }

  lemma OpenNewKeepsStream(c: Coord, tool: string, seed: Seed, freshId: string)
    requires StreamInv(c) && freshId !in c.records
    ensures StreamInv(OpenNew(c, tool, seed, freshId))
  {
  }

  lemma ApplySeedKeepsStream(c: Coord, id: string, seed: Seed)
    requires StreamInv(c) && id in c.records
    ensures StreamInv(ApplySeed(c, id, seed))
  {
    match PatchFromSeed(c.records[id], seed)
    case None =>
    case Some(patch) => EmitPatchKeepsStream(c, id, patch);
  }

  lemma {:induction false} TerminateFromKeepsStream(
      c: Coord, i: nat, turnId: string, status: Status, fallbackText: Option<string>)
    requires StreamInv(c)
    ensures StreamInv(TerminateFrom(c, i, turnId, status, fallbackText))
    decreases |c.recordOrder| - i
  {
    if i < |c.recordOrder| {
      var id := c.recordOrder[i];
      if Active(c, id) {
        var patch := TerminalPatch(c.records[id], turnId, status, fallbackText);
        EmitPatchKeepsStream(c, id, patch);
        TerminateFromKeepsStream(EmitPatch(c, id, patch), i + 1, turnId, status, fallbackText);
      } else {
        TerminateFromKeepsStream(c, i + 1, turnId, status, fallbackText);
      }
    }
  }

  lemma OpenOrGetKeepsStream(c: Coord, tool: string, seed: Seed, freshId: string)
    requires CoordInv(c) && StreamInv(c) && freshId !in c.records
    ensures StreamInv(OpenOrGet(c, tool, seed, freshId))
  {
    if tool in c.byTool {
      ApplySeedKeepsStream(c, c.byTool[tool], seed);
    } else {
      OpenNewKeepsStream(c, tool, seed, freshId);
    }
  }

  lemma OpenFileKeepsStream(c: Coord, path: string, seed: Seed, freshId: string)
    requires CoordInv(c) && StreamInv(c) && freshId !in c.records
    ensures StreamInv(OpenFileByPath(c, path, seed, freshId))
  {
    if path in c.pathIndex && c.pathIndex[path] != "" {
      ApplySeedKeepsStream(c, c.pathIndex[path], seed);
    } else {
      OpenOrGetKeepsStream(c, FileTool(path), seed, freshId);
    }
  }

  lemma PatchByToolKeepsStream(c: Coord, tool: string, patch: Patch)
    requires CoordInv(c) && StreamInv(c)
    ensures StreamInv(PatchByTool(c, tool, patch))
  {
    if tool in c.byTool { EmitPatchKeepsStream(c, c.byTool[tool], patch); }
  }

  lemma SilentOpKeepsStream(c: Coord, op: Op)
    requires CoordInv(c) && StreamInv(c)
    requires op.OpRegisterFileWrite? || op.OpBindPath? || op.OpAdoptToolCall? || op.OpAdoptFile?
    ensures StreamInv(ApplyOp(c, op))
  {
    hide CoordInv;
    assert ApplyOp(c, op).events == c.events && c.records.Keys <= ApplyOp(c, op).records.Keys;
  }

  /** No operation opens an id twice or after a patch of it. */
  lemma OpKeepsStream(c: Coord, op: Op)
    requires CoordInv(c) && IdsOk(c, op) && StreamInv(c)
    ensures StreamInv(ApplyOp(c, op))
  {
    hide CoordInv, StreamInv, OpenOrGet, PatchByTool, OpenFileByPath, TerminateFrom, EmitPatch, BindPath;
    hide RegisterFileWrite, AdoptFileByPath, AdoptToolCallByPath;
    match op
    case OpOpenOrGet(tool, seed, freshId) => OpenOrGetKeepsStream(c, tool, seed, freshId);
    case OpPatch(tool, patch) => PatchByToolKeepsStream(c, tool, patch);
    case OpComplete(tool, patch) => PatchByToolKeepsStream(c, tool, patch.(status := Some(patch.status.Or(Completed))));
    case OpOpenFile(path, seed, freshId) => OpenFileKeepsStream(c, path, seed, freshId);
    case OpPatchArtifact(id, patch) =>
      if id in c.records { EmitPatchKeepsStream(c, id, patch); }
    case OpTerminateAll(turnId, status, fallbackText) => TerminateFromKeepsStream(c, 0, turnId, status, fallbackText);
    case _ => SilentOpKeepsStream(c, op);
  }

  lemma {:induction false} RunKeepsStream(c: Coord, ops: seq<Op>)
    requires CoordInv(c) && ValidOps(c, ops) && StreamInv(c)
    ensures StreamInv(RunOps(c, ops))
    decreases |ops|
  {
    if ops != [] {
      OpKeepsInv(c, ops[0]);
      OpKeepsStream(c, ops[0]);
      RunKeepsStream(ApplyOp(c, ops[0]), ops[1..]);
    }
  }

  // ---------- terminal records ----------

  /** Equal in everything but the set of paths. */
  predicate SameButPaths(a: Record, b: Record) {
    a.(paths := {}) == b.(paths := {})
  }

  lemma {:induction false} TerminateFromSparesTerminal(
      c: Coord, i: nat, turnId: string, status: Status, fallbackText: Option<string>, id: string)
    requires id in c.records && c.records[id].terminal
    ensures var c' := TerminateFrom(c, i, turnId, status, fallbackText);
      id in c'.records && c'.records[id] == c.records[id]
    decreases |c.recordOrder| - i
  {
    if i < |c.recordOrder| {
      var k := c.recordOrder[i];
      var c1 := if Active(c, k) then EmitPatch(c, k, TerminalPatch(c.records[k], turnId, status, fallbackText)) else c;
      TerminateFromSparesTerminal(c1, i + 1, turnId, status, fallbackText, id);
    }
  }

  lemma ApplySeedSparesTerminal(c: Coord, target: string, seed: Seed, id: string)
    requires target in c.records && id in c.records && c.records[id].terminal
    ensures id in ApplySeed(c, target, seed).records && ApplySeed(c, target, seed).records[id] == c.records[id]
  {
  }

  lemma OpenOrGetSparesTerminal(c: Coord, tool: string, seed: Seed, freshId: string, id: string)
    requires CoordInv(c) && freshId !in c.records && id in c.records && c.records[id].terminal
    ensures id in OpenOrGet(c, tool, seed, freshId).records
    ensures OpenOrGet(c, tool, seed, freshId).records[id] == c.records[id]
  {
    if tool in c.byTool { ApplySeedSparesTerminal(c, c.byTool[tool], seed, id); }
  }

  lemma OpenFileSparesTerminal(c: Coord, path: string, seed: Seed, freshId: string, id: string)
    requires CoordInv(c) && freshId !in c.records && id in c.records && c.records[id].terminal
    ensures id in OpenFileByPath(c, path, seed, freshId).records
    ensures SameButPaths(OpenFileByPath(c, path, seed, freshId).records[id], c.records[id])
  {
    hide ApplySeed, OpenOrGet;
    if path in c.pathIndex && c.pathIndex[path] != "" {
      ApplySeedSparesTerminal(c, c.pathIndex[path], seed, id);
    } else {
      OpenOrGetSparesTerminal(c, FileTool(path), seed, freshId, id);
    }
  }

  lemma PatchByToolSparesTerminal(c: Coord, tool: string, patch: Patch, id: string)
    requires CoordInv(c) && id in c.records && c.records[id].terminal
    ensures id in PatchByTool(c, tool, patch).records && PatchByTool(c, tool, patch).records[id] == c.records[id]
  {
    hide PatchRecord, NormalizePatch;
  }

  lemma BindPathSparesRecords(c: Coord, target: string, path: string, id: string)
    requires id in c.records
    ensures id in BindPath(c, target, path).records
    ensures SameButPaths(BindPath(c, target, path).records[id], c.records[id])
  {
  }

  /** Only `patchArtifact` and `adoptToolCallByPath` can change a terminal record. */
  lemma TerminalRecordsStay(c: Coord, op: Op, id: string)
    requires CoordInv(c) && IdsOk(c, op) && id in c.records && c.records[id].terminal
    requires !op.OpPatchArtifact? && !op.OpAdoptToolCall?
    ensures id in ApplyOp(c, op).records && SameButPaths(ApplyOp(c, op).records[id], c.records[id])
  {
    hide CoordInv, OpenOrGet, PatchByTool, OpenFileByPath, TerminateFrom, BindPath, NewRecord;
    match op
    case OpOpenOrGet(tool, seed, freshId) => OpenOrGetSparesTerminal(c, tool, seed, freshId, id);
    case OpPatch(tool, patch) => PatchByToolSparesTerminal(c, tool, patch, id);
    case OpComplete(tool, patch) =>
      PatchByToolSparesTerminal(c, tool, patch.(status := Some(patch.status.Or(Completed))), id);
    case OpRegisterFileWrite(tool, path) =>
      if tool in c.byTool { BindPathSparesRecords(c, c.byTool[tool], path, id); }
    case OpBindPath(target, path) => BindPathSparesRecords(c, target, path, id);
    case OpAdoptFile(target, path, seed) =>
      NewRecordNames(target, FileTool(path), seed, seed.status.Or(Completed), {path});
    case OpOpenFile(path, seed, freshId) => OpenFileSparesTerminal(c, path, seed, freshId, id);
    case OpTerminateAll(turnId, status, fallbackText) =>
      TerminateFromSparesTerminal(c, 0, turnId, status, fallbackText, id);
  }

  ghost predicate ActiveFrom(c: Coord, i: nat) {
    exists j: nat :: i <= j < |c.recordOrder| && Active(c, c.recordOrder[j])
  }

  lemma {:induction false} TerminateFromShape(
      c: Coord, i: nat, turnId: string, status: Status, fallbackText: Option<string>)
    requires CoordInv(c)
    ensures var c' := TerminateFrom(c, i, turnId, status, fallbackText);
      && c'.recordOrder == c.recordOrder && c'.records.Keys == c.records.Keys && |c'.events| >= |c.events|
      && (ActiveFrom(c, i) <==> |c'.events| > |c.events|)
      && (!ActiveFrom(c, i) ==> c' == c)
    decreases |c.recordOrder| - i
  {
    hide CoordInv, EmitPatch, TerminalPatch, IsTerminal;
    if i < |c.recordOrder| {
      var id := c.recordOrder[i];
      if Active(c, id) {
        var patch := TerminalPatch(c.records[id], turnId, status, fallbackText);
        TerminalPatchShape(c, id, turnId, status, fallbackText);
        TerminateFromShape(EmitPatch(c, id, patch), i + 1, turnId, status, fallbackText);
      } else {
        TerminateFromShape(c, i + 1, turnId, status, fallbackText);
        assert ActiveFrom(c, i) <==> ActiveFrom(c, i + 1);
      }
    }
  }

  lemma OrderIsDistinct(c: Coord, i: nat, j: nat)
    requires CoordInv(c) && i < |c.recordOrder| && j < |c.recordOrder|
    ensures c.recordOrder[i] in c.records && c.recordOrder[j] in c.records
    ensures i != j ==> c.recordOrder[i] != c.recordOrder[j]
  {
  }

  /** The loop leaves ended records and the entries before `i` alone, and ends the others as asked. */
  lemma {:induction false} TerminateFromReaches(
      c: Coord, i: nat, turnId: string, status: Status, fallbackText: Option<string>, j: nat)
    requires CoordInv(c) && j < |c.recordOrder|
    ensures var c' := TerminateFrom(c, i, turnId, status, fallbackText);
      var id := c.recordOrder[j];
      && id in c'.records
      && (if i <= j && Active(c, id) then c'.records[id].terminal == IsTerminal(status)
          else c'.records[id] == c.records[id])
    decreases |c.recordOrder| - i
  {
    hide CoordInv, EmitPatch, TerminalPatch, IsTerminal;
    OrderIsDistinct(c, j, j);
    if i < |c.recordOrder| {
      OrderIsDistinct(c, i, j);
      var id := c.recordOrder[i];
      if Active(c, id) {
        var patch := TerminalPatch(c.records[id], turnId, status, fallbackText);
        TerminalPatchShape(c, id, turnId, status, fallbackText);
        TerminateFromReaches(EmitPatch(c, id, patch), i + 1, turnId, status, fallbackText, j);
      } else {
        TerminateFromReaches(c, i + 1, turnId, status, fallbackText, j);
      }
    }
  }

  ghost predicate SomeActive(c: Coord) {
    exists id :: Active(c, id)
  }

  lemma LiveRecordsAreListed(c: Coord)
    requires CoordInv(c)
    ensures SomeActive(c) <==> ActiveFrom(c, 0)
  {
    if SomeActive(c) {
      var id :| Active(c, id);
      assert id in c.recordOrder;
    }
  }

  lemma LiveAfterTermination(c: Coord, turnId: string, status: Status, fallbackText: Option<string>, j: nat)
    requires CoordInv(c) && j < |c.recordOrder|
    ensures var id := c.recordOrder[j];
      Active(TerminateAll(c, turnId, status, fallbackText), id) <==> Active(c, id) && !IsTerminal(status)
  {
    hide CoordInv, TerminateFrom, IsTerminal;
    OrderIsDistinct(c, j, j);
    TerminateFromReaches(c, 0, turnId, status, fallbackText, j);
  }

  /** A second `terminateAll` is silent exactly when the first one used a terminal status or had
      nothing to end. */
  lemma TerminateAllTwice(
      c: Coord, turnId: string, status: Status, fallbackText: Option<string>, turnId2: string, status2: Status,
      fallbackText2: Option<string>)
    requires CoordInv(c)
    ensures var once := TerminateAll(c, turnId, status, fallbackText);
      TerminateAll(once, turnId2, status2, fallbackText2).events == once.events <==>
        IsTerminal(status) || !SomeActive(c)
  {
    hide CoordInv, TerminateFrom, IsTerminal, Active;
    var once := TerminateAll(c, turnId, status, fallbackText);
    TerminateFromKeepsInv(c, 0, turnId, status, fallbackText);
    TerminateFromShape(c, 0, turnId, status, fallbackText);
    TerminateFromShape(once, 0, turnId2, status2, fallbackText2);
    forall j: nat | j < |c.recordOrder|
      ensures Active(once, once.recordOrder[j]) <==> Active(c, c.recordOrder[j]) && !IsTerminal(status)
    {
      LiveAfterTermination(c, turnId, status, fallbackText, j);
    }
    LiveRecordsAreListed(c);
  }

  // ---------- what a seed and an early write achieve ----------

  function SeedContentType(seed: Seed): Option<string> { seed.contentType.Else(DataContentType(seed.data)) }

  /** The content type of the seed and the one in its data do not contradict each other. */
  predicate OneContentType(seed: Seed) {
    seed.contentType.Some? && DataContentType(seed.data).Some? ==> seed.contentType == DataContentType(seed.data)
  }

  /** The record shows what the seed says, field by field; what the seed leaves out stays. */
  predicate ShowsSeed(before: Record, after: Record, seed: Seed) {
    && after.title == (if seed.title != "" then seed.title else before.title)
    && after.pluginId == (if seed.pluginId != "" then seed.pluginId else before.pluginId)
    && after.status == seed.status.Or(before.status)
    && after.fallbackText == (if NonEmpty(seed.fallbackText) then seed.fallbackText.value else before.fallbackText)
    && after.persistedPath == seed.persistedPath.Else(before.persistedPath)
    && after.parentId == seed.parentId.Else(before.parentId)
    && after.versionNumber == seed.versionNumber.Else(before.versionNumber)
    && after.changeDescription == seed.changeDescription.Else(before.changeDescription)
    && (OneContentType(seed) ==>
          after.contentType == if NonEmpty(SeedContentType(seed)) then SeedContentType(seed) else before.contentType)
    && after.paths == before.paths && after.artifactId == before.artifactId && after.key == before.key
  }

  lemma PatchShowsSeed(record: Record, seed: Seed)
    ensures match PatchFromSeed(record, seed)
      case None => ShowsSeed(record, record, seed)
      case Some(patch) => ShowsSeed(record, PatchRecord(record, patch), seed)
  {
  }

  function Absorbed(record: Record, seed: Seed): Record {
    match PatchFromSeed(record, seed)
    case None => record
    case Some(patch) => PatchRecord(record, patch)
  }

  /** A seed that contradicts itself flips the record between its two content types. */
  lemma ContradictingSeedFlips(record: Record, seed: Seed)
    requires NonEmpty(seed.contentType) && NonEmpty(DataContentType(seed.data)) && !OneContentType(seed)
    ensures Absorbed(record.(contentType := seed.contentType), seed).contentType == DataContentType(seed.data)
    ensures Absorbed(record.(contentType := DataContentType(seed.data)), seed).contentType == seed.contentType
  {
  }

  /** Opening a live artifact again brings its record to what the seed says. */
  lemma SeedIsAbsorbed(c: Coord, tool: string, seed: Seed, freshId: string)
    requires CoordInv(c) && tool in c.byTool && !c.records[c.byTool[tool]].terminal
    ensures var id := c.byTool[tool];
      ShowsSeed(c.records[id], OpenOrGet(c, tool, seed, freshId).records[id], seed)
  {
    hide PatchFromSeed, PatchRecord, ShowsSeed;
    PatchShowsSeed(c.records[c.byTool[tool]], seed);
  }

  /** A seed that is repeated after it was absorbed. */
  predicate SaysNothingNew(record: Record, seed: Seed) {
    seed.data.None? && !(seed.fallbackText == Some("") && record.fallbackText != "")
  }

  lemma AbsorbedSeedPatch(before: Record, after: Record, seed: Seed)
    requires ShowsSeed(before, after, seed)
    ensures PatchFromSeed(after, seed).None? <==> SaysNothingNew(after, seed)
  {
    if seed.data.None? {
      assert OneContentType(seed);
    }
  }

  /** The same call again emits no event if and only if the first one ended the artifact, or the seed
      carries no data and does not ask for an empty fallback text that the record refuses. */
  lemma OpeningTwiceIsSilentIff(c: Coord, tool: string, seed: Seed, freshId: string, freshId2: string)
    requires CoordInv(c) && tool in c.byTool && !c.records[c.byTool[tool]].terminal
    ensures var once := OpenOrGet(c, tool, seed, freshId);
      var id := c.byTool[tool];
      && CoordInv(once) && id in once.records && tool in once.byTool && once.byTool[tool] == id
      && (OpenOrGet(once, tool, seed, freshId2).events == once.events <==>
            once.records[id].terminal || SaysNothingNew(once.records[id], seed))
  {
    var id := c.byTool[tool];
    SeedIsAbsorbed(c, tool, seed, freshId);
    ApplySeedKeepsInv(c, id, seed);
    ApplySeedKeepsTools(c, id, seed);
    var once := OpenOrGet(c, tool, seed, freshId);
    AbsorbedSeedPatch(c.records[id], once.records[id], seed);
    hide PatchFromSeed, ShowsSeed, SaysNothingNew, PatchRecord, NormalizePatch, CoordInv;
    ApplySeedSpeaksIff(once, id, seed);
  }

  lemma ApplySeedSpeaksIff(c: Coord, id: string, seed: Seed)
    requires id in c.records
    ensures ApplySeed(c, id, seed).events == c.events <==>
      c.records[id].terminal || PatchFromSeed(c.records[id], seed).None?
  {
    hide PatchFromSeed, PatchRecord, NormalizePatch;
    match PatchFromSeed(c.records[id], seed)
    case None =>
    case Some(patch) => assert |EmitPatch(c, id, patch).events| == |c.events| + 1;
  }

  /** A path written before its tool call has a card is claimed by the card when it opens. */
  lemma EarlyWriteIsClaimed(c: Coord, tool: string, path: string, seed: Seed, freshId: string)
    requires CoordInv(c) && tool !in c.byTool && freshId != "" && freshId !in c.records
    ensures var written := RegisterFileWrite(c, tool, path);
      && CoordInv(written)
      && var c' := OpenOrGet(written, tool, seed, freshId);
      && path in c'.pathIndex && c'.pathIndex[path] == freshId
      && freshId in c'.records && path in c'.records[freshId].paths && tool !in c'.pending
  {
    RegisterFileWriteKeepsInv(c, tool, path);
    var written := RegisterFileWrite(c, tool, path);
    assert path in written.pending[tool];
  }
}

/** Coordinator calls between the scans of a turn: calls that name none of the turn's files do not
    notice its cards, and leave them alone. */
module FileTrackerCalls {
  import opened CoordinatorProofs
  import opened CoordinatorSpec
  import opened FileTrackerProofs
  import opened FileTrackerRoles
  import opened FileTrackerSpec
  import opened Options

  /** The call names no path, card or tool of the files. */
  predicate Aside(files: map<string, Candidate>, cards: set<string>, op: Op) {
    match op
    case OpOpenOrGet(tool, _, _) => !IsFileTool(files, tool)
    case OpPatch(tool, _) => !IsFileTool(files, tool)
    case OpComplete(tool, _) => !IsFileTool(files, tool)
    case OpRegisterFileWrite(tool, path) => !IsFileTool(files, tool) && path !in files
    case OpBindPath(id, path) => id !in cards && path !in files
    case OpAdoptToolCall(tool, id, path, _) => !IsFileTool(files, tool) && id !in cards && path !in files
    case OpAdoptFile(id, path, _) => id !in cards && path !in files
    case OpOpenFile(path, _, _) => path !in files
    case OpPatchArtifact(id, _) => id !in cards
    case OpTerminateAll(_, _, _) => true
  }

  /** The second coordinator is the first one without the cards, events apart. */
  predicate Beside(files: map<string, Candidate>, cards: set<string>, c: Coord, d: Coord) {
    && d.role == c.role && d.pending == c.pending
    && d.records == RecordsBut(c.records, cards) && d.recordOrder == Without(c.recordOrder, cards)
    && d.byTool == ToolsBut(files, c.byTool) && d.pathIndex == PathsBut(files, c.pathIndex)
  }

  /** No early write waits for one of the files. */
  ghost predicate Fenced(files: map<string, Candidate>, d: Coord) {
    forall tool | tool in d.pending :: d.pending[tool] !! files.Keys
  }

  ghost predicate EntriesAlone(files: map<string, Candidate>, c: Coord, c': Coord) {
    forall key | key in files ::
      && (key in c'.pathIndex <==> key in c.pathIndex)
      && (key in c.pathIndex ==> c'.pathIndex[key] == c.pathIndex[key])
      && (FileTool(key) in c'.byTool <==> FileTool(key) in c.byTool)
      && (FileTool(key) in c'.pending <==> FileTool(key) in c.pending)
  }

  ghost predicate RecordsAlone(cards: set<string>, c: Coord, c': Coord) {
    forall id | id in cards :: id in c.records && id in c'.records && c'.records[id] == c.records[id]
  }

  ghost predicate ShownAlone(cards: set<string>, c: Coord, c': Coord) {
    forall id | id in cards && id in Fold(c.events) ::
      id in Fold(c'.events) && Fold(c'.events)[id] == Fold(c.events)[id]
  }

  /** Cards, their paths and what the client sees of them stay. */
  ghost predicate CardsAlone(files: map<string, Candidate>, cards: set<string>, c: Coord, c': Coord) {
    EntriesAlone(files, c, c') && RecordsAlone(cards, c, c') && ShownAlone(cards, c, c')
  }

  lemma AloneTwice(files: map<string, Candidate>, cards: set<string>, c: Coord, c1: Coord, c2: Coord)
    requires CardsAlone(files, cards, c, c1) && CardsAlone(files, cards, c1, c2)
    ensures CardsAlone(files, cards, c, c2)
  {
    hide Fold, FileTool;
  }

  lemma SameEvents(cards: set<string>, c: Coord, c': Coord)
    requires c'.events == c.events
    ensures ShownAlone(cards, c, c')
  {
  }

  lemma OtherEvent(cards: set<string>, c: Coord, c': Coord, e: CoordinatorSpec.Event)
    requires c'.events == c.events + [e]
    requires forall id | id in cards :: !Names(e, id)
    ensures ShownAlone(cards, c, c')
  {
    FoldOne(c.events, e);
    hide Fold;
  }

  /** A record beside the cards has no path of the files. */
  lemma OwnPaths(files: map<string, Candidate>, cards: set<string>, c: Coord, d: Coord, id: string)
    requires CoordInv(d) && Beside(files, cards, c, d) && id in c.records && id !in cards
    ensures id in d.records && d.records[id] == c.records[id] && c.records[id].paths !! files.Keys
  {
    hide Without, ToolsBut;
    assert id in d.records && RecordOk(d, id);
  }

  lemma IndexedBeside(files: map<string, Candidate>, index: map<string, string>, paths: set<string>, id: string)
    requires paths !! files.Keys
    ensures PathsBut(files, IndexPaths(index, paths, id)) == IndexPaths(PathsBut(files, index), paths, id)
  {
  }

  lemma PatchAside(files: map<string, Candidate>, cards: set<string>, c: Coord, d: Coord, id: string, patch: Patch)
    requires CoordInv(d) && Beside(files, cards, c, d) && id in c.records && id !in cards && cards <= c.records.Keys
    ensures id in d.records && Beside(files, cards, EmitPatch(c, id, patch), EmitPatch(d, id, patch))
    ensures CardsAlone(files, cards, c, EmitPatch(c, id, patch))
  {
    hide PatchRecord, NormalizePatch, Fold, Without, ToolsBut, PathsBut, CoordInv, IsFileTool;
    OwnPaths(files, cards, c, d, id);
    IndexedBeside(files, c.pathIndex, c.records[id].paths, id);
    OtherEvent(cards, c, EmitPatch(c, id, patch), Patched(id, NormalizePatch(c.role, patch)));
  }

  lemma SeedAside(files: map<string, Candidate>, cards: set<string>, c: Coord, d: Coord, id: string, seed: Seed)
    requires CoordInv(d) && Beside(files, cards, c, d) && id in c.records && id !in cards && cards <= c.records.Keys
    ensures id in d.records && Beside(files, cards, ApplySeed(c, id, seed), ApplySeed(d, id, seed))
    ensures CardsAlone(files, cards, c, ApplySeed(c, id, seed))
  {
    hide EmitPatch, PatchFromSeed, Beside, CoordInv, Fold;
    OwnPaths(files, cards, c, d, id);
    SameEvents(cards, c, c);
    match PatchFromSeed(c.records[id], seed)
    case None =>
    case Some(patch) => PatchAside(files, cards, c, d, id, patch);
  }

  lemma ToolAside(files: map<string, Candidate>, byTool: map<string, string>, tool: string, id: string)
    requires !IsFileTool(files, tool)
    ensures ToolsBut(files, byTool[tool := id]) == ToolsBut(files, byTool)[tool := id]
  {
    hide IsFileTool;
  }

  lemma PathAside(files: map<string, Candidate>, index: map<string, string>, path: string, id: string)
    requires path !in files
    ensures PathsBut(files, index[path := id]) == PathsBut(files, index)[path := id]
  {
  }

  lemma RecordAside(records: map<string, Record>, cards: set<string>, id: string, record: Record)
    requires id !in cards
    ensures RecordsBut(records[id := record], cards) == RecordsBut(records, cards)[id := record]
  {
  }

  /** A new record beside the cards, with the paths it claims. */
  lemma AddAside(files: map<string, Candidate>, cards: set<string>, c: Coord, d: Coord, tool: string, record: Record)
    requires Beside(files, cards, c, d) && cards <= c.records.Keys && record.artifactId !in c.records
    requires !IsFileTool(files, tool) && record.paths !! files.Keys
    ensures var c' := AddRecord(c, tool, record).(
        pathIndex := IndexPaths(c.pathIndex, record.paths, record.artifactId));
      var d' := AddRecord(d, tool, record).(pathIndex := IndexPaths(d.pathIndex, record.paths, record.artifactId));
      Beside(files, cards, c', d') && CardsAlone(files, cards, c, c')
  {
    hide Without, Fold, ToolsBut, PathsBut;
    var id := record.artifactId;
    WithoutLast(c.recordOrder, id, cards);
    RecordAside(c.records, cards, id, record);
    ToolAside(files, c.byTool, tool, id);
    IndexedBeside(files, c.pathIndex, record.paths, id);
    SameEvents(cards, c, AddRecord(c, tool, record).(pathIndex := IndexPaths(c.pathIndex, record.paths, id)));
  }

  lemma OpenNewAside(
    files: map<string, Candidate>, cards: set<string>, c: Coord, d: Coord, tool: string, seed: Seed, freshId: string)
    requires Beside(files, cards, c, d) && Fenced(files, d) && cards <= c.records.Keys && freshId !in c.records
    requires !IsFileTool(files, tool)
    ensures Beside(files, cards, OpenNew(c, tool, seed, freshId), OpenNew(d, tool, seed, freshId))
    ensures CardsAlone(files, cards, c, OpenNew(c, tool, seed, freshId))
  {
    hide Fold, EnvelopeOf, NewRecord, RecordsBut, Without, ToolsBut, PathsBut, IndexPaths;
    var paths := if tool in c.pending then c.pending[tool] else {};
    var record := NewRecord(freshId, tool, seed, seed.status.Or(Running), paths);
    NewRecordNames(freshId, tool, seed, seed.status.Or(Running), paths);
    AddAside(files, cards, c, d, tool, record);
    var c' := OpenNew(c, tool, seed, freshId);
    EnvelopeNames(c.role, record, seed);
    OtherEvent(cards, c, c', Opened(EnvelopeOf(c.role, record, seed)));
    PendingAside(files, c, tool);
    assert EntriesAlone(files, c, c');
  }

  lemma EnvelopeNames(role: DocumentRole, record: Record, seed: Seed)
    ensures EnvelopeOf(role, record, seed).id == record.artifactId
  {
  }

  lemma PendingAside(files: map<string, Candidate>, c: Coord, tool: string)
    requires !IsFileTool(files, tool)
    ensures forall key | key in files :: FileTool(key) in c.pending - {tool} <==> FileTool(key) in c.pending
  {
  }

  lemma OpenOrGetAside(
    files: map<string, Candidate>, cards: set<string>, c: Coord, d: Coord, tool: string, seed: Seed, freshId: string)
    requires CoordInv(c) && CoordInv(d) && Beside(files, cards, c, d) && Fenced(files, d)
    requires cards <= c.records.Keys && freshId !in c.records && !IsFileTool(files, tool)
    ensures Beside(files, cards, OpenOrGet(c, tool, seed, freshId), OpenOrGet(d, tool, seed, freshId))
    ensures CardsAlone(files, cards, c, OpenOrGet(c, tool, seed, freshId))
  {
    hide ApplySeed, OpenNew, CardsAlone, IsFileTool, Fenced, Without;
    if tool in c.byTool {
      ToolNamesOther(files, cards, c, d, tool);
      SeedAside(files, cards, c, d, c.byTool[tool], seed);
    } else {
      OpenNewAside(files, cards, c, d, tool, seed, freshId);
    }
  }

  /** A tool beside the files has a record beside the cards. */
  lemma ToolNamesOther(files: map<string, Candidate>, cards: set<string>, c: Coord, d: Coord, tool: string)
    requires CoordInv(d) && Beside(files, cards, c, d) && !IsFileTool(files, tool) && tool in c.byTool
    ensures tool in d.byTool && d.byTool[tool] == c.byTool[tool]
    ensures c.byTool[tool] in c.records && c.byTool[tool] !in cards
  {
    hide Without, IsFileTool;
    assert tool in d.byTool && d.byTool[tool] in d.records;
  }

  lemma PathNamesOther(files: map<string, Candidate>, cards: set<string>, c: Coord, d: Coord, path: string)
    requires CoordInv(d) && Beside(files, cards, c, d) && path !in files && path in c.pathIndex
    ensures path in d.pathIndex && d.pathIndex[path] == c.pathIndex[path]
    ensures c.pathIndex[path] in c.records && c.pathIndex[path] !in cards
  {
    hide Without, IsFileTool;
    assert path in d.pathIndex && d.pathIndex[path] in d.records;
  }

  lemma PatchByToolAside(
    files: map<string, Candidate>, cards: set<string>, c: Coord, d: Coord, tool: string, patch: Patch)
    requires CoordInv(c) && CoordInv(d) && Beside(files, cards, c, d) && cards <= c.records.Keys
    requires !IsFileTool(files, tool)
    ensures Beside(files, cards, PatchByTool(c, tool, patch), PatchByTool(d, tool, patch))
    ensures CardsAlone(files, cards, c, PatchByTool(c, tool, patch))
  {
    hide EmitPatch, IsFileTool, Without;
    NothingChanged(files, cards, c);
    if tool in c.byTool {
      ToolNamesOther(files, cards, c, d, tool);
      PatchAside(files, cards, c, d, c.byTool[tool], patch);
    }
  }

  lemma NothingChanged(files: map<string, Candidate>, cards: set<string>, c: Coord)
    requires cards <= c.records.Keys
    ensures CardsAlone(files, cards, c, c)
  {
  }

  lemma BindAside(files: map<string, Candidate>, cards: set<string>, c: Coord, d: Coord, id: string, path: string)
    requires Beside(files, cards, c, d) && cards <= c.records.Keys && id !in cards && path !in files
    ensures Beside(files, cards, BindPath(c, id, path), BindPath(d, id, path))
    ensures CardsAlone(files, cards, c, BindPath(c, id, path))
  {
    hide Fold, Without, IsFileTool, ToolsBut;
    SameEvents(cards, c, BindPath(c, id, path));
    PathAside(files, c.pathIndex, path, id);
    if id in c.records {
      RecordAside(c.records, cards, id, c.records[id].(paths := c.records[id].paths + {path}));
    }
  }

  lemma RegisterAside(files: map<string, Candidate>, cards: set<string>, c: Coord, d: Coord, tool: string, path: string)
    requires CoordInv(c) && CoordInv(d) && Beside(files, cards, c, d) && cards <= c.records.Keys
    requires !IsFileTool(files, tool) && path !in files
    ensures Beside(files, cards, RegisterFileWrite(c, tool, path), RegisterFileWrite(d, tool, path))
    ensures CardsAlone(files, cards, c, RegisterFileWrite(c, tool, path))
  {
    hide BindPath, Fold, Without, CoordInv;
    SameEvents(cards, c, c);
    if tool in c.byTool {
      ToolNamesOther(files, cards, c, d, tool);
      BindAside(files, cards, c, d, c.byTool[tool], path);
    } else {
      SameEvents(cards, c, RegisterFileWrite(c, tool, path));
    }
  }

  lemma AdoptToolAside(
    files: map<string, Candidate>, cards: set<string>, c: Coord, d: Coord, tool: string, id: string, path: string,
    seed: Seed)
    requires Beside(files, cards, c, d) && cards <= c.records.Keys
    requires !IsFileTool(files, tool) && id !in cards && path !in files
    ensures Beside(files, cards, AdoptToolCallByPath(c, tool, id, path, seed),
      AdoptToolCallByPath(d, tool, id, path, seed))
    ensures CardsAlone(files, cards, c, AdoptToolCallByPath(c, tool, id, path, seed))
  {
    hide Fold, Without, ToolsBut, PathsBut, NewRecord;
    if id in c.records {
      var record := c.records[id];
      var revived := record.(status := Running, terminal := false, paths := record.paths + {path},
                             persistedPath := seed.persistedPath.Else(record.persistedPath));
      SameEvents(cards, c, AdoptToolCallByPath(c, tool, id, path, seed));
      RecordAside(c.records, cards, id, revived);
      ToolAside(files, c.byTool, tool, id);
      PathAside(files, c.pathIndex, path, id);
    } else {
      NewRecordNames(id, tool, seed, Running, {path});
      AddAside(files, cards, c, d, tool, NewRecord(id, tool, seed, Running, {path}));
      OnePath(c.pathIndex, path, id);
      OnePath(d.pathIndex, path, id);
    }
  }

  lemma OnePath(index: map<string, string>, path: string, id: string)
    ensures IndexPaths(index, {path}, id) == index[path := id]
  {
  }

  lemma FileToolAside(files: map<string, Candidate>, path: string)
    requires path !in files
    ensures !IsFileTool(files, FileTool(path))
  {
    forall key | key in files
      ensures FileTool(key) != FileTool(path)
    {
      if FileTool(key) == FileTool(path) { FileToolInjective(key, path); }
    }
  }

  lemma AdoptFileAside(
    files: map<string, Candidate>, cards: set<string>, c: Coord, d: Coord, id: string, path: string, seed: Seed)
    requires Beside(files, cards, c, d) && cards <= c.records.Keys && id !in cards && path !in files
    ensures Beside(files, cards, AdoptFileByPath(c, id, path, seed), AdoptFileByPath(d, id, path, seed))
    ensures CardsAlone(files, cards, c, AdoptFileByPath(c, id, path, seed))
  {
    hide Fold, Without, ToolsBut, PathsBut, NewRecord, FileTool;
    if id in c.records {
      SameEvents(cards, c, AdoptFileByPath(c, id, path, seed));
      PathAside(files, c.pathIndex, path, id);
    } else {
      var tool := FileTool(path);
      FileToolAside(files, path);
      NewRecordNames(id, tool, seed, seed.status.Or(Completed), {path});
      AddAside(files, cards, c, d, tool, NewRecord(id, tool, seed, seed.status.Or(Completed), {path}));
      OnePath(c.pathIndex, path, id);
      OnePath(d.pathIndex, path, id);
    }
  }

  lemma OpenFileAside(
    files: map<string, Candidate>, cards: set<string>, c: Coord, d: Coord, path: string, seed: Seed, freshId: string)
    requires CoordInv(c) && CoordInv(d) && Beside(files, cards, c, d) && Fenced(files, d)
    requires cards <= c.records.Keys && freshId != "" && freshId !in c.records && path !in files
    ensures Beside(files, cards, OpenFileByPath(c, path, seed, freshId), OpenFileByPath(d, path, seed, freshId))
    ensures CardsAlone(files, cards, c, OpenFileByPath(c, path, seed, freshId))
  {
    hide ApplySeed, OpenOrGet, BindPath, CardsAlone, Without, IsFileTool, CoordInv, FileTool, Fenced;
    SamePaths(files, cards, c, d, path);
    PathsResolve(c, path);
    if path in c.pathIndex {
      PathNamesOther(files, cards, c, d, path);
      SeedAside(files, cards, c, d, c.pathIndex[path], seed);
    } else {
      var tool := FileTool(path);
      FileToolAside(files, path);
      OpenOrGetAside(files, cards, c, d, tool, seed, freshId);
      var c1, d1 := OpenOrGet(c, tool, seed, freshId), OpenOrGet(d, tool, seed, freshId);
      OpenOrGetKeepsInv(c, tool, seed, freshId);
      OpenOrGetKeepsInv(d, tool, seed, freshId);
      ToolNamesOther(files, cards, c1, d1, tool);
      BindAside(files, cards, c1, d1, c1.byTool[tool], path);
      AloneTwice(files, cards, c, c1, BindPath(c1, c1.byTool[tool], path));
    }
  }

  lemma SamePaths(files: map<string, Candidate>, cards: set<string>, c: Coord, d: Coord, path: string)
    requires Beside(files, cards, c, d) && path !in files
    ensures path in c.pathIndex <==> path in d.pathIndex
  {
    hide Without, ToolsBut;
  }

  // ---------- ending everything ----------

  lemma {:induction false} WithoutAppend(a: seq<string>, b: seq<string>, cards: set<string>)
    ensures Without(a + b, cards) == Without(a, cards) + Without(b, cards)
  {
    if b == [] {
      assert a + b == a;
    } else {
      assert (a + b)[..|a + b| - 1] == a + b[..|b| - 1];
      WithoutAppend(a, b[..|b| - 1], cards);
    }
  }

  /** Where the next entry of the order stands once the cards are taken out. */
  lemma WithoutAt(ids: seq<string>, i: nat, cards: set<string>)
    requires i < |ids|
    ensures |Without(ids[..i], cards)| <= |Without(ids, cards)|
    ensures Without(ids[..i + 1], cards) == Without(ids[..i], cards) + if ids[i] in cards then [] else [ids[i]]
    ensures ids[i] !in cards ==>
      |Without(ids[..i], cards)| < |Without(ids, cards)| && Without(ids, cards)[|Without(ids[..i], cards)|] == ids[i]
  {
    assert ids == ids[..i + 1] + ids[i + 1..];
    assert ids[..i + 1] == ids[..i] + [ids[i]];
    WithoutLast(ids[..i], ids[i], cards);
    WithoutAppend(ids[..i + 1], ids[i + 1..], cards);
    hide Without;
  }

  /** Cards are complete, so ending everything passes over them. */
  ghost predicate CardsEnded(cards: set<string>, c: Coord) {
    forall id | id in cards :: id in c.records && c.records[id].terminal
  }

  lemma StillEnded(files: map<string, Candidate>, cards: set<string>, c: Coord, c': Coord)
    requires CardsEnded(cards, c) && CardsAlone(files, cards, c, c')
    ensures CardsEnded(cards, c')
  {
    hide EntriesAlone, ShownAlone;
  }

  lemma {:induction false} TerminateAside(
    files: map<string, Candidate>, cards: set<string>, c: Coord, d: Coord, i: nat, j: nat, turnId: string,
    status: Status, fallbackText: Option<string>)
    requires CoordInv(c) && CoordInv(d) && Beside(files, cards, c, d) && CardsEnded(cards, c)
    requires i <= |c.recordOrder| && j == |Without(c.recordOrder[..i], cards)|
    ensures Beside(files, cards, TerminateFrom(c, i, turnId, status, fallbackText),
                   TerminateFrom(d, j, turnId, status, fallbackText))
    ensures CardsAlone(files, cards, c, TerminateFrom(c, i, turnId, status, fallbackText))
    decreases |c.recordOrder| - i
  {
    hide EmitPatch, TerminalPatch, CoordInv, CardsAlone, RecordsBut, PathsBut, ToolsBut, Without, CardsEnded;
    CardsKnown(cards, c);
    NothingChanged(files, cards, c);
    if i == |c.recordOrder| {
      assert c.recordOrder[..i] == c.recordOrder;
    } else {
      var id := c.recordOrder[i];
      WithoutAt(c.recordOrder, i, cards);
      if id in cards {
        CardIsEnded(cards, c, id);
        TerminateAside(files, cards, c, d, i + 1, j, turnId, status, fallbackText);
      } else {
        OrderIsDistinct(c, i, i);
        OwnPaths(files, cards, c, d, id);
        if Active(c, id) {
          var patch := TerminalPatch(c.records[id], turnId, status, fallbackText);
          var c1, d1 := EmitPatch(c, id, patch), EmitPatch(d, id, patch);
          PatchAside(files, cards, c, d, id, patch);
          EmitPatchKeepsInv(c, id, patch);
          EmitPatchKeepsInv(d, id, patch);
          StillEnded(files, cards, c, c1);
          SameOrder(c, id, patch);
          TerminateAside(files, cards, c1, d1, i + 1, j + 1, turnId, status, fallbackText);
          AloneTwice(files, cards, c, c1, TerminateFrom(c1, i + 1, turnId, status, fallbackText));
        } else {
          TerminateAside(files, cards, c, d, i + 1, j + 1, turnId, status, fallbackText);
        }
      }
    }
  }

  lemma SameOrder(c: Coord, id: string, patch: Patch)
    requires id in c.records
    ensures EmitPatch(c, id, patch).recordOrder == c.recordOrder
  {
  }

  lemma CardsKnown(cards: set<string>, c: Coord)
    requires CardsEnded(cards, c)
    ensures cards <= c.records.Keys
  {
  }

  lemma CardIsEnded(cards: set<string>, c: Coord, id: string)
    requires CardsEnded(cards, c) && id in cards
    ensures id in c.records && !Active(c, id)
  {
  }

  // ---------- any call ----------

  /** A call beside the files does the same whether their cards are there or not, and leaves them alone. */
  lemma CallAside(files: map<string, Candidate>, cards: set<string>, c: Coord, d: Coord, op: Op)
    requires CoordInv(c) && CoordInv(d) && Beside(files, cards, c, d) && Fenced(files, d) && CardsEnded(cards, c)
    requires IdsOk(c, op) && Aside(files, cards, op)
    ensures Beside(files, cards, ApplyOp(c, op), ApplyOp(d, op)) && CardsAlone(files, cards, c, ApplyOp(c, op))
  {
    hide CoordInv, Fenced, IsFileTool, CardsAlone, OpenOrGet, PatchByTool, RegisterFileWrite, OpenFileByPath;
    hide BindPath, AdoptToolCallByPath, AdoptFileByPath, EmitPatch, CardsEnded, Without, RecordsBut, PathsBut;
    CardsKnown(cards, c);
    match op
    case OpOpenOrGet(tool, seed, freshId) => OpenOrGetAside(files, cards, c, d, tool, seed, freshId);
    case OpPatch(tool, patch) => PatchByToolAside(files, cards, c, d, tool, patch);
    case OpComplete(tool, patch) =>
      PatchByToolAside(files, cards, c, d, tool, patch.(status := Some(patch.status.Or(Completed))));
    case OpRegisterFileWrite(tool, path) => RegisterAside(files, cards, c, d, tool, path);
    case OpBindPath(id, path) => BindAside(files, cards, c, d, id, path);
    case OpAdoptToolCall(tool, id, path, seed) => AdoptToolAside(files, cards, c, d, tool, id, path, seed);
    case OpAdoptFile(id, path, seed) => AdoptFileAside(files, cards, c, d, id, path, seed);
    case OpOpenFile(path, seed, freshId) => OpenFileAside(files, cards, c, d, path, seed, freshId);
    case OpPatchArtifact(id, patch) => PatchArtifactAside(files, cards, c, d, id, patch);
    case OpTerminateAll(turnId, status, fallbackText) =>
      TerminateAllAside(files, cards, c, d, turnId, status, fallbackText);
  }

  lemma PatchArtifactAside(
    files: map<string, Candidate>, cards: set<string>, c: Coord, d: Coord, id: string, patch: Patch)
    requires CoordInv(d) && Beside(files, cards, c, d) && cards <= c.records.Keys && id !in cards
    ensures Beside(files, cards, PatchArtifact(c, id, patch), PatchArtifact(d, id, patch))
    ensures CardsAlone(files, cards, c, PatchArtifact(c, id, patch))
  {
    hide EmitPatch, Without, CardsAlone;
    NothingChanged(files, cards, c);
    if id in c.records { PatchAside(files, cards, c, d, id, patch); }
  }

  lemma TerminateAllAside(
    files: map<string, Candidate>, cards: set<string>, c: Coord, d: Coord, turnId: string, status: Status,
    fallbackText: Option<string>)
    requires CoordInv(c) && CoordInv(d) && Beside(files, cards, c, d) && CardsEnded(cards, c)
    ensures Beside(files, cards, TerminateAll(c, turnId, status, fallbackText),
                   TerminateAll(d, turnId, status, fallbackText))
    ensures CardsAlone(files, cards, c, TerminateAll(c, turnId, status, fallbackText))
  {
    hide CoordInv, Beside, CardsAlone, CardsEnded;
    assert c.recordOrder[..0] == [];
    TerminateAside(files, cards, c, d, 0, 0, turnId, status, fallbackText);
  }

  lemma {:induction false} TerminateKeepsPending(
      c: Coord, i: nat, turnId: string, status: Status, fallbackText: Option<string>)
    ensures TerminateFrom(c, i, turnId, status, fallbackText).pending == c.pending
    decreases |c.recordOrder| - i
  {
    hide TerminalPatch;
    if i < |c.recordOrder| {
      var id := c.recordOrder[i];
      var c1 := if Active(c, id) then EmitPatch(c, id, TerminalPatch(c.records[id], turnId, status, fallbackText))
        else c;
      TerminateKeepsPending(c1, i + 1, turnId, status, fallbackText);
    }
  }

  lemma SeedKeepsPending(d: Coord, id: string, seed: Seed)
    requires id in d.records
    ensures ApplySeed(d, id, seed).pending == d.pending
  {
    hide PatchFromSeed, PatchRecord;
  }

  lemma OpenKeepsFence(files: map<string, Candidate>, d: Coord, tool: string, seed: Seed, freshId: string)
    requires CoordInv(d) && Fenced(files, d)
    ensures Fenced(files, OpenOrGet(d, tool, seed, freshId))
  {
    hide ApplySeed;
    if tool in d.byTool { SeedKeepsPending(d, d.byTool[tool], seed); }
  }

  lemma CallKeepsFence(files: map<string, Candidate>, cards: set<string>, d: Coord, op: Op)
    requires CoordInv(d) && IdsOk(d, op) && Fenced(files, d) && Aside(files, cards, op)
    ensures Fenced(files, ApplyOp(d, op))
  {
    hide ApplySeed, OpenOrGet, PatchRecord, NewRecord, NormalizePatch, TerminateFrom, IsFileTool;
    match op
    case OpOpenOrGet(tool, seed, freshId) => OpenKeepsFence(files, d, tool, seed, freshId);
    case OpOpenFile(path, seed, freshId) =>
      OpenKeepsFence(files, d, FileTool(path), seed, freshId);
      if path in d.pathIndex { SeedKeepsPending(d, d.pathIndex[path], seed); }
    case OpTerminateAll(turnId, status, fallbackText) => TerminateKeepsPending(d, 0, turnId, status, fallbackText);
    case _ =>
  }
}

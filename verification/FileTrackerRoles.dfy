/** Final roles do not depend on how a turn's files are batched into scans. */
module FileTrackerRoles {
  import opened CoordinatorProofs
  import opened CoordinatorSpec
  import opened FileTrackerProofs
  import opened FileTrackerSpec
  import opened Options
  import opened Sequences

  // ---------- scans ----------

  ghost predicate AllIdsOk(c: Coord, cands: seq<Candidate>) {
    && (forall i: nat | i < |cands| :: CandidateIdsOk(c, cands[i]))
    && (forall i: nat, j: nat | i < |cands| && j < |cands| && i != j :: cands[i].freshId != cands[j].freshId)
    && (forall i: nat, j: nat | i < |cands| && j < |cands| && cands[i].published.Some? ::
          cands[i].published.value.artifactId != cands[j].freshId)
  }

  lemma RestIdsOk(w: World, cands: seq<Candidate>, explicit: bool)
    requires TrackerInv(w) && AllIdsOk(w.c, cands) && cands != []
    ensures TrackerInv(EmitOne(w, cands[0], explicit)) && AllIdsOk(EmitOne(w, cands[0], explicit).c, cands[1..])
  {
    hide EmitOne, CoordInv;
    EmitOneKeeps(w, cands[0], explicit);
    var w1 := EmitOne(w, cands[0], explicit);
    forall i: nat | i < |cands[1..]|
      ensures CandidateIdsOk(w1.c, cands[1..][i])
    {
      assert cands[1..][i] == cands[i + 1];
      assert CandidateIdsOk(w.c, cands[i + 1]) && cands[i + 1].freshId != cands[0].freshId;
    }
  }

  function EmitAll(w: World, cands: seq<Candidate>, explicit: bool): World
    requires TrackerInv(w) && AllIdsOk(w.c, cands)
    decreases |cands|
  {
    if cands == [] then w
    else (RestIdsOk(w, cands, explicit); EmitAll(EmitOne(w, cands[0], explicit), cands[1..], explicit))
  }

  // ---------- the files of the turn ----------

  /** Files of the delivery directory produced in this turn, with different contents. */
  ghost predicate FilesOk(files: map<string, Candidate>, t: Tracker) {
    && (forall key | key in files ::
          var f := files[key];
          && f.data.path == key && f.data.role.None? && !f.data.missing
          && f.servable && f.rootKind.Output? && f.published.None?
          && (f.mtimeMs >= t.turnStartedAtMs || f.ctimeMs >= t.turnStartedAtMs)
          && !SameAs(t.baseline, key, FingerprintOf(f)))
    && (forall a, b | a in files && b in files && a != b && files[a].content.Some? ::
        files[a].content != files[b].content)
  }

  predicate SameFile(cand: Candidate, file: Candidate) {
    cand.(freshId := "") == file.(freshId := "")
  }

  ghost predicate FromFiles(files: map<string, Candidate>, cands: seq<Candidate>) {
    forall i: nat | i < |cands| :: cands[i].data.path in files && SameFile(cands[i], files[cands[i].data.path])
  }

  // ---------- cards of the turn ----------

  predicate RoleShown(data: Data, role: Option<FileRole>) {
    if role.Some? then "role" in data && data["role"] == Text(RoleText(role.value)) else "role" !in data
  }

  predicate MissingShown(data: Data, missing: bool) {
    "missing" in data && (IsTruthy(data["missing"]) <==> missing)
  }

  /** The client is shown the role of the file and whether it has vanished. */
  predicate FileShown(data: Data, file: FileData) { RoleShown(data, file.role) && MissingShown(data, file.missing) }

  /** A file card is complete from the start. */
  predicate IsFileCard(r: Record) { r.pluginId == "file_v1" && r.status.Completed? }

  /** An emitted file has a file card of its own, and the client shows the recorded role. */
  ghost predicate CardOfFile(files: map<string, Candidate>, w: World, key: string)
    requires key in w.t.emitted
  {
    var e := w.t.emitted[key];
    && key in files && e.fingerprint == FingerprintOf(files[key])
    && e.data.path == key && e.data.ext == files[key].data.ext && e.data.kind == files[key].data.kind
    && e.artifactId in w.c.records && IsFileCard(w.c.records[e.artifactId])
    && w.c.records[e.artifactId].paths <= {key}
    && key in w.c.pathIndex && w.c.pathIndex[key] == e.artifactId
    && e.artifactId in Fold(w.c.events) && FileShown(Fold(w.c.events)[e.artifactId].data, e.data)
  }

  ghost predicate Unseen(c: Coord, key: string) {
    key !in c.pathIndex && FileTool(key) !in c.byTool && FileTool(key) !in c.pending
  }

  ghost predicate CardsInv(files: map<string, Candidate>, w: World) {
    && TrackerInv(w)
    && (forall key | key in w.t.emitted :: CardOfFile(files, w, key))
    && (forall a, b | a in w.t.emitted && b in w.t.emitted && a != b ::
        w.t.emitted[a].artifactId != w.t.emitted[b].artifactId)
    && (forall key | key in files && key !in w.t.emitted :: Unseen(w.c, key))
    && (forall ck | ck in w.t.emittedByContent :: exists key ::
        key in w.t.emitted && key in files && files[key].content == Some(ck))
  }

  // ---------- the coordinator without the tracker's cards ----------

  function CardIds(t: Tracker): set<string> {
    set key | key in t.emitted :: t.emitted[key].artifactId
  }

  predicate IsFileTool(files: map<string, Candidate>, tool: string) {
    exists key :: key in files && tool == FileTool(key)
  }

  function Without(ids: seq<string>, cards: set<string>): seq<string> {
    if ids == [] then []
    else
      var front, last := Without(ids[..|ids| - 1], cards), ids[|ids| - 1];
      if last in cards then front else front + [last]
  }

  function RecordsBut(records: map<string, Record>, cards: set<string>): map<string, Record> {
    map id | id in records && id !in cards :: records[id]
  }

  function ToolsBut(files: map<string, Candidate>, byTool: map<string, string>): map<string, string> {
    map tool | tool in byTool && !IsFileTool(files, tool) :: byTool[tool]
  }

  function PathsBut(files: map<string, Candidate>, pathIndex: map<string, string>): map<string, string> {
    map path | path in pathIndex && path !in files :: pathIndex[path]
  }

  /** What is left of a coordinator when some cards, the paths and tools of the files, and the events
      are taken out. */
  function RestBut(files: map<string, Candidate>, cards: set<string>, c: Coord): Coord {
    Coord(c.role, RecordsBut(c.records, cards), Without(c.recordOrder, cards), ToolsBut(files, c.byTool),
          PathsBut(files, c.pathIndex), c.pending, [])
  }

  function RestOf(files: map<string, Candidate>, w: World): Coord { RestBut(files, CardIds(w.t), w.c) }

  lemma {:induction false} WithoutNewCard(ids: seq<string>, cards: set<string>, id: string)
    requires id !in ids
    ensures Without(ids, cards + {id}) == Without(ids, cards)
  {
    if ids != [] {
      WithoutNewCard(ids[..|ids| - 1], cards, id);
      assert ids == ids[..|ids| - 1] + [ids[|ids| - 1]];
    }
  }

  lemma WithoutLast(ids: seq<string>, last: string, cards: set<string>)
    ensures Without(ids + [last], cards) == Without(ids, cards) + if last in cards then [] else [last]
  {
    assert (ids + [last])[..|ids|] == ids;
  }

  // ---------- roles ----------

  function RoleNow(data: FileData, deliverable: bool, rich: bool): Option<FileRole> {
    if !deliverable && !rich then None
    else Some(if EligibleAsPrimary(data, rich) then Lead else Supporting)
  }

  /** Every emitted file has the role the latches imply, and a leading file has set the latch. */
  ghost predicate RolesInv(files: map<string, Candidate>, w: World, deliverable: bool, rich: bool) {
    forall key | key in w.t.emitted ::
      && key in files
      && w.t.emitted[key].data.role == RoleNow(files[key].data, deliverable, rich)
      && (EligibleAsPrimary(files[key].data, rich) ==> deliverable)
  }

  // ---------- patching one file card ----------

  lemma PatchedFold(c: Coord, id: string, data: FileData)
    requires id in c.records && id in Fold(c.events)
    ensures var c' := PatchArtifact(c, id, FilePatch(data));
      && Fold(c'.events) == Fold(c.events)[id := PatchCard(Fold(c.events)[id], FilePatch(data))]
      && c'.byTool == c.byTool && c'.pending == c.pending
      && c'.recordOrder == c.recordOrder && c'.role == c.role
      && c'.records.Keys == c.records.Keys && IsFileCard(c'.records[id])
      && c'.records[id].paths == c.records[id].paths
      && (forall k | k in c.records && k != id :: c'.records[k] == c.records[k])
      && c'.pathIndex == IndexPaths(c.pathIndex, c.records[id].paths, id)
  {
    FoldOne(c.events, Patched(id, FilePatch(data)));
  }

  lemma MergedFile(before: Data, data: FileData)
    requires data.role.Some? || RoleShown(before, None)
    ensures FileShown(before + FileJson(data), data)
  {
  }

  /** The coordinator after a patch of one card: the others, and all indexes, are as before. */
  ghost predicate CardPatched(c: Coord, c': Coord, id: string, data: FileData) {
    && id in c.records && id in Fold(c.events)
    && Fold(c'.events) == Fold(c.events)[id := PatchCard(Fold(c.events)[id], FilePatch(data))]
    && c'.byTool == c.byTool && c'.pending == c.pending && c'.pathIndex == c.pathIndex
    && c'.recordOrder == c.recordOrder && c'.role == c.role
    && c'.records.Keys == c.records.Keys && IsFileCard(c'.records[id])
    && c'.records[id].paths == c.records[id].paths
    && (forall k | k in c.records && k != id :: c'.records[k] == c.records[k])
  }

  lemma OneCardPatched(files: map<string, Candidate>, w: World, w': World, key: string, data: FileData, k: string)
    requires key in w.t.emitted && k in w.t.emitted && CardOfFile(files, w, key) && CardOfFile(files, w, k)
    requires k != key ==> w.t.emitted[k].artifactId != w.t.emitted[key].artifactId
    requires data.role.Some? || data.role == w.t.emitted[key].data.role
    requires data.path == key && data.ext == w.t.emitted[key].data.ext && data.kind == w.t.emitted[key].data.kind
    requires CardPatched(w.c, w'.c, w.t.emitted[key].artifactId, data)
    requires w'.t == w.t.(emitted := w.t.emitted[key := w.t.emitted[key].(data := data)])
    ensures CardOfFile(files, w', k)
  {
    hide FilePatch, Fold, FileJson;
    MergedFile(Fold(w.c.events)[w.t.emitted[key].artifactId].data, data);
    FilePatchData(data);
  }

  lemma FileCardPatched(files: map<string, Candidate>, w: World, key: string, data: FileData)
    requires key in w.t.emitted && CardOfFile(files, w, key)
    ensures CardPatched(w.c, PatchArtifact(w.c, w.t.emitted[key].artifactId, FilePatch(data)),
      w.t.emitted[key].artifactId, data)
  {
    hide PatchArtifact, FilePatch, Fold;
    var id := w.t.emitted[key].artifactId;
    PatchedFold(w.c, id, data);
    assert IndexPaths(w.c.pathIndex, w.c.records[id].paths, id) == w.c.pathIndex;
  }

  lemma PatchKeepsRest(files: map<string, Candidate>, w: World, w': World, key: string, data: FileData)
    requires key in w.t.emitted && CardPatched(w.c, w'.c, w.t.emitted[key].artifactId, data)
    requires w'.t == w.t.(emitted := w.t.emitted[key := w.t.emitted[key].(data := data)])
    ensures RestOf(files, w') == RestOf(files, w)
  {
    hide IsFileTool, Fold, FilePatch, Without;
    assert forall k | k in w'.t.emitted :: w'.t.emitted[k].artifactId == w.t.emitted[k].artifactId;
    assert CardIds(w'.t) == CardIds(w.t);
  }

  lemma PatchFileCard(files: map<string, Candidate>, w: World, key: string, data: FileData)
    requires CardsInv(files, w) && key in w.t.emitted
    requires data.role.Some? || data.role == w.t.emitted[key].data.role
    requires data.path == key && data.ext == w.t.emitted[key].data.ext && data.kind == w.t.emitted[key].data.kind
    ensures var w' := World(w.t.(emitted := w.t.emitted[key := w.t.emitted[key].(data := data)]),
                            PatchArtifact(w.c, w.t.emitted[key].artifactId, FilePatch(data)));
      CardsInv(files, w') && RestOf(files, w') == RestOf(files, w)
  {
    hide PatchArtifact, FilePatch, TrackerInv, Fold, CardPatched, Unseen, CardOfFile, RestOf;
    var e := w.t.emitted[key];
    var c' := PatchArtifact(w.c, e.artifactId, FilePatch(data));
    var w' := World(w.t.(emitted := w.t.emitted[key := e.(data := data)]), c');
    EntryPatchKeeps(w, key, data);
    FileCardPatched(files, w, key, data);
    PatchKeepsRest(files, w, w', key, data);
    forall k | k in w'.t.emitted
      ensures CardOfFile(files, w', k)
      ensures k in w.t.emitted && w'.t.emitted[k].artifactId == w.t.emitted[k].artifactId
    {
      OneCardPatched(files, w, w', key, data, k);
    }
    forall k | k in files && k !in w'.t.emitted
      ensures Unseen(w'.c, k)
    {
      PatchKeepsUnseen(w.c, c', e.artifactId, data, k);
    }
    assert w'.t.emitted.Keys == w.t.emitted.Keys;
  }

  lemma PatchKeepsUnseen(c: Coord, c': Coord, id: string, data: FileData, key: string)
    requires CardPatched(c, c', id, data) && Unseen(c, key)
    ensures Unseen(c', key)
  {
  }

  lemma FilePatchData(data: FileData)
    ensures FilePatch(data).data == Some(FileJson(data))
  {
  }

  // ---------- demotion ----------

  /** From position `i` on, exactly the files that must not lead become supporting. */
  lemma {:induction false} DemoteFromRoles(files: map<string, Candidate>, w: World, i: nat, patched: set<string>)
    requires CardsInv(files, w)
    requires forall j: nat | i <= j < |w.t.emittedOrder| :: w.t.emitted[w.t.emittedOrder[j]].artifactId !in patched
    ensures var w' := DemoteFrom(w, i, patched);
      && CardsInv(files, w') && w'.t.emitted.Keys == w.t.emitted.Keys
      && w'.t == w.t.(emitted := w'.t.emitted) && RestOf(files, w') == RestOf(files, w)
      && forall j: nat | j < |w.t.emittedOrder| ::
           var key := w.t.emittedOrder[j];
           w'.t.emitted[key].data.role ==
             if j >= i && MustDemote(w.t, w.t.emitted[key].data) then Some(Supporting) else w.t.emitted[key].data.role
    decreases |w.t.emittedOrder| - i
  {
    hide PatchArtifact, FilePatch, MustDemote, CardsInv, RestOf;
    if i < |w.t.emittedOrder| {
      var key := w.t.emittedOrder[i];
      EmittedAt(files, w, i);
      var record := w.t.emitted[key];
      if !MustDemote(w.t, record.data) {
        DemoteFromRoles(files, w, i + 1, patched);
      } else {
        var data := record.data.(role := Some(Supporting));
        PatchFileCard(files, w, key, data);
        var w1 := World(w.t.(emitted := w.t.emitted[key := record.(data := data)]),
                        PatchArtifact(w.c, record.artifactId, FilePatch(data)));
        DemoteFromRoles(files, w1, i + 1, patched + {record.artifactId});
        SameMustDemote(w.t, w1.t);
        assert w1.t.emitted.Keys == w.t.emitted.Keys;
      }
    }
  }

  lemma EmittedAt(files: map<string, Candidate>, w: World, i: nat)
    requires CardsInv(files, w) && i < |w.t.emittedOrder|
    ensures forall j: nat | j < |w.t.emittedOrder| :: w.t.emittedOrder[j] in w.t.emitted
    ensures w.t.emitted[w.t.emittedOrder[i]].data.path == w.t.emittedOrder[i]
    ensures forall j: nat | j < |w.t.emittedOrder| && j != i ::
      w.t.emittedOrder[j] != w.t.emittedOrder[i]
      && w.t.emitted[w.t.emittedOrder[j]].artifactId != w.t.emitted[w.t.emittedOrder[i]].artifactId
  {
    assert CardOfFile(files, w, w.t.emittedOrder[i]);
  }

  lemma SameMustDemote(a: Tracker, b: Tracker)
    requires a.turnHasRichDeliverable == b.turnHasRichDeliverable
    ensures forall d :: MustDemote(a, d) == MustDemote(b, d)
  {
  }

  // ---------- opening one file ----------

  /** The coordinator after opening a card for a file: the rest is as before. */
  ghost predicate FreshCard(c: Coord, c': Coord, data: FileData, id: string) {
    && c'.records.Keys == c.records.Keys + {id} && IsFileCard(c'.records[id]) && c'.records[id].paths == {data.path}
    && (forall k | k in c.records :: c'.records[k] == c.records[k])
    && c'.pathIndex == c.pathIndex[data.path := id]
    && c'.byTool == c.byTool[FileTool(data.path) := id] && c'.pending == c.pending
    && c'.recordOrder == c.recordOrder + [id] && c'.role == c.role
    && id in Fold(c'.events) && FileShown(Fold(c'.events)[id].data, data)
    && (forall k | k in Fold(c.events) && k != id :: k in Fold(c'.events) && Fold(c'.events)[k] == Fold(c.events)[k])
  }

  lemma OpenFreshFile(c: Coord, data: FileData, freshId: string)
    requires CoordInv(c) && freshId != "" && freshId !in c.records && Unseen(c, data.path)
    ensures FreshCard(c, OpenFileByPath(c, data.path, FileSeed(data), freshId), data, freshId)
  {
    hide FileSeed, BindPath, OpenNew, FreshCard;
    FreshCardAdded(c, data, freshId);
    OpenNewNames(c, FileTool(data.path), FileSeed(data), freshId);
  }

  lemma OpenNewNames(c: Coord, tool: string, seed: Seed, freshId: string)
    ensures var c1 := OpenNew(c, tool, seed, freshId);
      tool in c1.byTool && c1.byTool[tool] == freshId
  {
  }

  lemma FreshCardAdded(c: Coord, data: FileData, freshId: string)
    requires freshId !in c.records && Unseen(c, data.path)
    ensures FreshCard(c, BindPath(OpenNew(c, FileTool(data.path), FileSeed(data), freshId), freshId, data.path), data,
                      freshId)
  {
    hide FileJson, Fold, FileShown;
    var tool := FileTool(data.path);
    FreshCardShown(c, data, freshId);
    assert IndexPaths(c.pathIndex, {}, freshId) == c.pathIndex;
    assert c.pending - {tool} == c.pending;
  }

  lemma FreshCardShown(c: Coord, data: FileData, freshId: string)
    requires Unseen(c, data.path)
    ensures var events := OpenNew(c, FileTool(data.path), FileSeed(data), freshId).events;
      && freshId in Fold(events) && FileShown(Fold(events)[freshId].data, data)
      && (forall id | id in Fold(c.events) && id != freshId ::
          id in Fold(events) && Fold(events)[id] == Fold(c.events)[id])
  {
    hide FileJson, FileShown;
    var c1 := OpenNew(c, FileTool(data.path), FileSeed(data), freshId);
    FoldOne(c.events, c1.events[|c.events|]);
    JsonShown(data);
  }

  lemma JsonShown(data: FileData)
    ensures FileShown(FileJson(data), data) && "content_type" !in FileJson(data)
  {
  }

  lemma FileToolInjective(a: string, b: string)
    requires FileTool(a) == FileTool(b)
    ensures a == b
  {
    assert FileTool(a)[5..] == a && FileTool(b)[5..] == b;
  }

  // ---------- one pass ----------

  /** A candidate of the file, whatever role the curation gave it. */
  predicate RoledFile(cand: Candidate, file: Candidate) {
    SameFile(cand.(data := cand.data.(role := None)), file)
  }

  /** What a pass over one file does: nothing if it has a card, a new card with the curated role otherwise. */
  ghost predicate Passed(w: World, w': World, cand: Candidate) {
    var key := cand.data.path;
    && w'.t.emitted.Keys == w.t.emitted.Keys + {key}
    && (forall k | k in w.t.emitted :: w'.t.emitted[k] == w.t.emitted[k])
    && (key !in w.t.emitted ==> w'.t.emitted[key].data.role == cand.data.role)
    && w'.t == w.t.(emitted := w'.t.emitted, emittedOrder := w'.t.emittedOrder,
        emittedByContent := w'.t.emittedByContent)
  }

  lemma NewCardRecords(records: map<string, Record>, records': map<string, Record>, cards: set<string>, id: string)
    requires id !in records && records'.Keys == records.Keys + {id}
    requires forall k | k in records :: records'[k] == records[k]
    ensures RecordsBut(records', cards + {id}) == RecordsBut(records, cards)
  {
  }

  lemma NewCardTools(files: map<string, Candidate>, byTool: map<string, string>, key: string, id: string)
    requires key in files
    ensures ToolsBut(files, byTool[FileTool(key) := id]) == ToolsBut(files, byTool)
    ensures PathsBut(files, byTool[key := id]) == PathsBut(files, byTool)
  {
    FileToolOf(files, key);
    hide IsFileTool;
  }

  lemma OrderNames(c: Coord, id: string)
    requires CoordInv(c)
    ensures id in c.recordOrder <==> id in c.records
  {
  }

  /** A new card with its path and file tool does not show in the rest. */
  lemma NewCardKeepsRest(
    files: map<string, Candidate>, cards: set<string>, c: Coord, c': Coord, key: string, id: string)
    requires CoordInv(c) && key in files && id !in c.records
    requires c'.records.Keys == c.records.Keys + {id} && forall k | k in c.records :: c'.records[k] == c.records[k]
    requires c'.recordOrder == c.recordOrder + [id] && c'.role == c.role && c'.pending == c.pending
    requires c'.byTool == c.byTool[FileTool(key) := id] && c'.pathIndex == c.pathIndex[key := id]
    ensures RestBut(files, cards + {id}, c') == RestBut(files, cards, c)
  {
    hide CoordInv, IsFileTool, Without, RecordsBut, ToolsBut, PathsBut;
    OrderNames(c, id);
    WithoutLast(c.recordOrder, id, cards + {id});
    WithoutNewCard(c.recordOrder, cards, id);
    NewCardRecords(c.records, c'.records, cards, id);
    NewCardTools(files, c.byTool, key, id);
    NewCardTools(files, c.pathIndex, key, id);
  }

  lemma FileToolOf(files: map<string, Candidate>, key: string)
    requires key in files
    ensures IsFileTool(files, FileTool(key))
  {
  }

  lemma AddedCardIds(w: World, w': World, cand: Candidate, data: FileData)
    requires CardAdded(w, w', cand, data)
    ensures CardIds(w'.t) == CardIds(w.t) + {cand.freshId}
  {
    hide Fold, FileShown;
    assert forall k | k in w.t.emitted :: w'.t.emitted[k] == w.t.emitted[k];
    assert w'.t.emitted[cand.data.path].artifactId == cand.freshId;
  }

  lemma AddedKeepsRest(files: map<string, Candidate>, w: World, w': World, cand: Candidate, data: FileData)
    requires CoordInv(w.c) && CardAdded(w, w', cand, data) && cand.data.path in files
    ensures RestOf(files, w') == RestOf(files, w)
  {
    hide Fold, FileShown, CoordInv, RestBut, CardIds;
    AddedCardIds(w, w', cand, data);
    NewCardKeepsRest(files, CardIds(w.t), w.c, w'.c, cand.data.path, cand.freshId);
  }

  lemma KnownFilePass(files: map<string, Candidate>, w: World, cand: Candidate, explicit: bool)
    requires CardsInv(files, w) && CandidateIdsOk(w.c, cand)
    requires cand.data.path in w.t.emitted && cand.data.path in files && RoledFile(cand, files[cand.data.path])
    ensures EmitOne(w, cand, explicit) == w
  {
    hide EmitOne, CoordInv;
    assert CardOfFile(files, w, cand.data.path);
    UnchangedFileIsSilent(w, cand, explicit);
  }

  lemma NewFileBranch(files: map<string, Candidate>, w: World, cand: Candidate, explicit: bool)
    requires CardsInv(files, w) && FilesOk(files, w.t) && CandidateIdsOk(w.c, cand)
    requires cand.data.path !in w.t.emitted && cand.data.path in files && RoledFile(cand, files[cand.data.path])
    ensures EmitOne(w, cand, explicit) == EmitNewPath(w, cand, WithSkill(w.t, cand.data))
    ensures !(cand.content.Some? && cand.content.value in w.t.emittedByContent)
    ensures Unseen(w.c, cand.data.path)
  {
    hide CoordInv, EmitNewPath, EmitPage, EmitOnCard, EmitUnresolved;
    var key := cand.data.path;
    assert Unseen(w.c, key);
    assert files[key].data.path == key;
  }

  /** The world after opening a card for a new file. */
  ghost predicate CardAdded(w: World, w': World, cand: Candidate, data: FileData) {
    var key, id := cand.data.path, cand.freshId;
    && data.path == key && data.role == cand.data.role && data.ext == cand.data.ext && data.kind == cand.data.kind
    && key !in w.t.emitted && id !in w.c.records
    && key in w'.t.emitted && w'.t.emitted == w.t.emitted[key := w'.t.emitted[key]]
    && w'.t.emitted[key].artifactId == id && w'.t.emitted[key].fingerprint == FingerprintOf(cand)
        && w'.t.emitted[key].data == data
    && w'.t == w.t.(emitted := w'.t.emitted, emittedOrder := w'.t.emittedOrder,
        emittedByContent := w'.t.emittedByContent)
    && (w'.t.emittedByContent == w.t.emittedByContent
        || (cand.content.Some?
            && w'.t.emittedByContent == w.t.emittedByContent[cand.content.value := ContentArtifact(id, cand)]))
    && FreshCard(w.c, w'.c, data, id)
  }

  lemma NewFileAdded(files: map<string, Candidate>, w: World, cand: Candidate, explicit: bool)
    requires CardsInv(files, w) && FilesOk(files, w.t) && CandidateIdsOk(w.c, cand)
    requires cand.data.path !in w.t.emitted && cand.data.path in files && RoledFile(cand, files[cand.data.path])
    ensures CardAdded(w, EmitOne(w, cand, explicit), cand, WithSkill(w.t, cand.data))
  {
    hide EmitOne, EmitNewPath, CoordInv, FilesOk, CardAdded;
    NewFileBranch(files, w, cand, explicit);
    NewPathAdds(w, cand, WithSkill(w.t, cand.data));
  }

  lemma NewPathAdds(w: World, cand: Candidate, data: FileData)
    requires CoordInv(w.c) && CandidateIdsOk(w.c, cand) && Unseen(w.c, data.path) && data.path !in w.t.emitted
    requires !(cand.content.Some? && cand.content.value in w.t.emittedByContent)
    requires data.path == cand.data.path && data.role == cand.data.role
    requires data.ext == cand.data.ext && data.kind == cand.data.kind
    ensures CardAdded(w, EmitNewPath(w, cand, data), cand, data)
  {
    hide OpenFileByPath, FileSeed, CoordInv, FreshCard;
    var c' := OpenFileByPath(w.c, data.path, FileSeed(data), cand.freshId);
    OpenFreshFile(w.c, data, cand.freshId);
    FreshCardNamed(w.c, c', data, cand.freshId);
  }

  lemma FreshCardNamed(c: Coord, c': Coord, data: FileData, id: string)
    requires FreshCard(c, c', data, id)
    ensures data.path in c'.pathIndex && c'.pathIndex[data.path] == id
  {
  }

  lemma AddedKeepsCard(files: map<string, Candidate>, w: World, w': World, cand: Candidate, data: FileData, k: string)
    requires CardAdded(w, w', cand, data) && k in w'.t.emitted
    requires cand.data.path in files && RoledFile(cand, files[cand.data.path])
    requires k in w.t.emitted ==> CardOfFile(files, w, k)
    ensures CardOfFile(files, w', k)
  {
    hide Fold, FileShown;
  }

  lemma AddedKeepsUnseen(files: map<string, Candidate>, w: World, w': World, cand: Candidate, data: FileData, k: string)
    requires CardAdded(w, w', cand, data) && k != cand.data.path && Unseen(w.c, k)
    ensures Unseen(w'.c, k)
  {
    hide Fold;
    if FileTool(k) == FileTool(cand.data.path) {
      FileToolInjective(k, cand.data.path);
    }
  }

  lemma AddedKeepsCards(files: map<string, Candidate>, w: World, w': World, cand: Candidate, data: FileData)
    requires CardsInv(files, w) && TrackerInv(w') && CardAdded(w, w', cand, data)
    requires cand.data.path in files && RoledFile(cand, files[cand.data.path])
    ensures CardsInv(files, w')
  {
    hide Fold, FileShown, TrackerInv, CardOfFile, Unseen;
    var key := cand.data.path;
    forall k | k in w'.t.emitted
      ensures CardOfFile(files, w', k)
      ensures k != key ==> w'.t.emitted[k].artifactId != cand.freshId
    {
      AddedKeepsCard(files, w, w', cand, data, k);
      if k != key { CardIdKnown(files, w, k); }
    }
    forall k | k in files && k !in w'.t.emitted
      ensures Unseen(w'.c, k)
    {
      AddedKeepsUnseen(files, w, w', cand, data, k);
    }
    forall ck | ck in w'.t.emittedByContent
      ensures exists k :: k in w'.t.emitted && k in files && files[k].content == Some(ck)
    {
      if ck in w.t.emittedByContent {
        var k :| k in w.t.emitted && k in files && files[k].content == Some(ck);
        assert k in w'.t.emitted;
      } else {
        assert files[key].content == Some(ck);
      }
    }
  }

  lemma CardIdKnown(files: map<string, Candidate>, w: World, k: string)
    requires k in w.t.emitted && CardOfFile(files, w, k)
    ensures w.t.emitted[k].artifactId in w.c.records
  {
  }

  lemma FilePass(files: map<string, Candidate>, w: World, cand: Candidate, explicit: bool)
    requires CardsInv(files, w) && FilesOk(files, w.t) && CandidateIdsOk(w.c, cand)
    requires cand.data.path in files && RoledFile(cand, files[cand.data.path])
    ensures CardsInv(files, EmitOne(w, cand, explicit)) && Passed(w, EmitOne(w, cand, explicit), cand)
    ensures RestOf(files, EmitOne(w, cand, explicit)) == RestOf(files, w)
  {
    hide EmitOne, CoordInv, FilesOk, CardAdded, Fold, RestOf;
    var w' := EmitOne(w, cand, explicit);
    if cand.data.path in w.t.emitted {
      KnownFilePass(files, w, cand, explicit);
    } else {
      EmitOneKeeps(w, cand, explicit);
      NewFileAdded(files, w, cand, explicit);
      AddedKeepsCards(files, w, w', cand, WithSkill(w.t, cand.data));
      AddedPasses(w, w', cand, WithSkill(w.t, cand.data));
      AddedKeepsRest(files, w, w', cand, WithSkill(w.t, cand.data));
    }
  }

  lemma AddedPasses(w: World, w': World, cand: Candidate, data: FileData)
    requires CardAdded(w, w', cand, data)
    ensures Passed(w, w', cand)
  {
    hide Fold, FileShown;
  }

  // ---------- one batch ----------

  function PathsOf(cands: seq<Candidate>): set<string> {
    if cands == [] then {} else {cands[0].data.path} + PathsOf(cands[1..])
  }

  lemma {:induction false} EmitAllRoles(
      files: map<string, Candidate>, w: World, cands: seq<Candidate>, explicit: bool, deliverable: bool, rich: bool)
    requires CardsInv(files, w) && FilesOk(files, w.t) && AllIdsOk(w.c, cands) && RolesInv(files, w, deliverable, rich)
    requires forall i: nat | i < |cands| :: RoledAs(files, cands[i], deliverable, rich)
    ensures var w' := EmitAll(w, cands, explicit);
      && CardsInv(files, w') && RolesInv(files, w', deliverable, rich) && RestOf(files, w') == RestOf(files, w)
      && w'.t.emitted.Keys == w.t.emitted.Keys + PathsOf(cands)
      && w'.t == w.t.(emitted := w'.t.emitted, emittedOrder := w'.t.emittedOrder,
          emittedByContent := w'.t.emittedByContent)
    decreases |cands|
  {
    hide EmitOne, CardsInv, AllIdsOk, RestOf, RolesInv, RoledAs, FilesOk, TrackerInv;
    if cands != [] {
      FirstIdsOk(w.c, cands);
      CardsTracker(files, w);
      var w1 := EmitOne(w, cands[0], explicit);
      PassKeepsRoles(files, w, cands[0], explicit, deliverable, rich);
      RestIdsOk(w, cands, explicit);
      EmitAllRoles(files, w1, cands[1..], explicit, deliverable, rich);
    }
  }

  /** The candidate is a file of the turn with the role the latches give it. */
  ghost predicate RoledAs(files: map<string, Candidate>, cand: Candidate, deliverable: bool, rich: bool) {
    && cand.data.path in files && RoledFile(cand, files[cand.data.path])
    && cand.data.role == RoleNow(files[cand.data.path].data, deliverable, rich)
    && (EligibleAsPrimary(files[cand.data.path].data, rich) ==> deliverable)
  }

  lemma PassKeepsRoles(
      files: map<string, Candidate>, w: World, cand: Candidate, explicit: bool, deliverable: bool, rich: bool)
    requires CardsInv(files, w) && FilesOk(files, w.t) && CandidateIdsOk(w.c, cand)
    requires RolesInv(files, w, deliverable, rich) && RoledAs(files, cand, deliverable, rich)
    ensures CoordInv(w.c)
    ensures var w' := EmitOne(w, cand, explicit);
      && CardsInv(files, w') && FilesOk(files, w'.t) && RolesInv(files, w', deliverable, rich)
      && RestOf(files, w') == RestOf(files, w) && w'.t.emitted.Keys == w.t.emitted.Keys + {cand.data.path}
      && w'.t == w.t.(emitted := w'.t.emitted, emittedOrder := w'.t.emittedOrder,
          emittedByContent := w'.t.emittedByContent)
  {
    hide EmitOne, CardsInv, RestOf, EligibleAsPrimary, RoledFile, TrackerInv, FilesOk;
    CardsTracker(files, w);
    FilePass(files, w, cand, explicit);
    SameFilesOk(files, w.t, EmitOne(w, cand, explicit).t);
  }

  lemma CardsTracker(files: map<string, Candidate>, w: World)
    requires CardsInv(files, w)
    ensures TrackerInv(w) && CoordInv(w.c)
  {
  }

  lemma FirstIdsOk(c: Coord, cands: seq<Candidate>)
    requires AllIdsOk(c, cands) && cands != []
    ensures CandidateIdsOk(c, cands[0])
  {
  }

  // ---------- the latches ----------

  /** The recorded latches are the ones the roles follow. */
  ghost predicate InStep(files: map<string, Candidate>, w: World) {
    CardsInv(files, w) && RolesInv(files, w, w.t.turnHasPrimaryDoc, w.t.turnHasRichDeliverable)
  }

  /** Setting a latch and demoting gives every emitted file the role of the new latches. */
  lemma DemoteFollowsLatches(files: map<string, Candidate>, w: World, deliverable: bool, rich: bool)
    requires CardsInv(files, w) && RolesInv(files, w, deliverable, rich)
    requires deliverable ==> w.t.turnHasPrimaryDoc
    requires rich ==> w.t.turnHasRichDeliverable
    requires w.t.turnHasPrimaryDoc || w.t.turnHasRichDeliverable
    ensures InStep(files, Demote(w)) && Demote(w).t.emitted.Keys == w.t.emitted.Keys
    ensures Demote(w).t == w.t.(emitted := Demote(w).t.emitted) && RestOf(files, Demote(w)) == RestOf(files, w)
  {
    hide Fold, PatchArtifact, CardsInv, DemoteFrom, RestOf;
    DemoteFromRoles(files, w, 0, {});
    var w' := Demote(w);
    forall key | key in w'.t.emitted
      ensures w'.t.emitted[key].data.role ==
        RoleNow(files[key].data, w'.t.turnHasPrimaryDoc, w'.t.turnHasRichDeliverable)
      ensures EligibleAsPrimary(files[key].data, w'.t.turnHasRichDeliverable) ==> w'.t.turnHasPrimaryDoc
    {
      var j := PositionOf(files, w, key);
    }
  }

  lemma PositionOf(files: map<string, Candidate>, w: World, key: string) returns (j: nat)
    requires CardsInv(files, w) && key in w.t.emitted
    ensures j < |w.t.emittedOrder| && w.t.emittedOrder[j] == key && key in files
    ensures w.t.emitted[key].data.ext == files[key].data.ext && w.t.emitted[key].data.kind == files[key].data.kind
  {
    assert CardOfFile(files, w, key);
    j :| j < |w.t.emittedOrder| && w.t.emittedOrder[j] == key;
  }

  lemma LatchRichInStep(files: map<string, Candidate>, w: World, rich: bool)
    requires InStep(files, w)
    ensures var w' := LatchRich(w, rich);
      && InStep(files, w') && w'.t.emitted.Keys == w.t.emitted.Keys
      && w'.t == w.t.(emitted := w'.t.emitted, turnHasRichDeliverable := w.t.turnHasRichDeliverable || rich)
      && RestOf(files, w') == RestOf(files, w)
  {
    hide Demote, CoordInv, CardOfFile, Unseen, RestOf;
    if rich && !w.t.turnHasRichDeliverable {
      var w1 := World(w.t.(turnHasRichDeliverable := true), w.c);
      LatchKeepsCards(files, w, w1);
      DemoteFollowsLatches(files, w1, w.t.turnHasPrimaryDoc, false);
    }
  }

  lemma LatchPrimaryInStep(files: map<string, Candidate>, w: World, mintable: seq<Candidate>, document: bool)
    requires InStep(files, w)
    ensures var w' := LatchPrimary(w, mintable, document);
      && InStep(files, w') && w'.t.emitted.Keys == w.t.emitted.Keys
      && w'.t == w.t.(emitted := w'.t.emitted,
           turnHasPrimaryDoc := w.t.turnHasPrimaryDoc || document || SomeEligible(mintable, w.t.turnHasRichDeliverable))
      && RestOf(files, w') == RestOf(files, w)
  {
    hide Demote, CoordInv, CardOfFile, Unseen, SomeEligible, RestOf;
    if (SomeEligible(mintable, w.t.turnHasRichDeliverable) || document) && !w.t.turnHasPrimaryDoc {
      var w1 := World(w.t.(turnHasPrimaryDoc := true), w.c);
      LatchKeepsCards(files, w, w1);
      DemoteFollowsLatches(files, w1, false, w.t.turnHasRichDeliverable);
    }
  }

  lemma LatchKeepsCards(files: map<string, Candidate>, w: World, w1: World)
    requires CardsInv(files, w) && w1.c == w.c
    requires w1.t.emitted == w.t.emitted && w1.t.emittedOrder == w.t.emittedOrder
      && w1.t.emittedByContent == w.t.emittedByContent
    ensures CardsInv(files, w1) && RestOf(files, w1) == RestOf(files, w)
  {
    hide CoordInv, Fold;
    forall key | key in w1.t.emitted
      ensures CardOfFile(files, w1, key)
    {
      assert CardOfFile(files, w, key);
    }
  }

  // ---------- vanished files ----------

  lemma {:induction false} SweepFromCards(files: map<string, Candidate>, w: World, i: nat, existing: set<string>)
    requires CardsInv(files, w)
    ensures var w' := SweepFrom(w, i, existing);
      CardsInv(files, w') && RestOf(files, w') == RestOf(files, w)
    decreases |w.t.emittedOrder| - i
  {
    hide PatchArtifact, FilePatch, Misreported, CardsInv, RestOf;
    if i < |w.t.emittedOrder| {
      var key := w.t.emittedOrder[i];
      EmittedAt(files, w, i);
      var record := w.t.emitted[key];
      if !Misreported(existing, key, record.data) {
        SweepFromCards(files, w, i + 1, existing);
      } else {
        var data := record.data.(missing := key !in existing);
        PatchFileCard(files, w, key, data);
        SweepFromCards(files, World(w.t.(emitted := w.t.emitted[key := record.(data := data)]),
                                    PatchArtifact(w.c, record.artifactId, FilePatch(data))), i + 1, existing);
      }
    }
  }

  /** A sweep changes no role, and the client is shown which files are there. */
  lemma SweepInStep(files: map<string, Candidate>, w: World, existing: set<string>)
    requires InStep(files, w)
    ensures var w' := Sweep(w, existing);
      && InStep(files, w') && RestOf(files, w') == RestOf(files, w)
      && w'.t == w.t.(emitted := w'.t.emitted) && w'.t.emitted.Keys == w.t.emitted.Keys
      && forall key | key in w'.t.emitted :: w'.t.emitted[key].data.missing == (key !in existing)
  {
    hide CardsInv, SweepFrom, RestOf, TrackerInv;
    CardsTracker(files, w);
    SweepFromCards(files, w, 0, existing);
    SweepTellsTheTruth(w, existing);
    var w' := Sweep(w, existing);
    forall key | key in w'.t.emitted
      ensures w'.t.emitted[key].data.role == w.t.emitted[key].data.role
      ensures w'.t.emitted[key].data.missing == (key !in existing)
    {
      assert FlagOnly(w.t.emitted[key], w'.t.emitted[key], key !in existing);
    }
  }

  // ---------- scans ----------

  /** The latched world and the curated candidates a scan goes over. */
  function Prepared(w: World, b: Batch): (World, seq<Candidate>) {
    var w1 := LatchRich(w, HasCompletedPage(w.c));
    var mintable := Mint(w1.t, b.candidates, b.explicit);
    var w2 := LatchPrimary(w1, mintable, HasPrimaryDocument(w1.c));
    (w2, CurateDeliverables(b.pathOrder, mintable, w2.t.turnHasPrimaryDoc, w2.t.turnHasRichDeliverable))
  }

  ghost predicate ScanReady(w: World, b: Batch) {
    TrackerInv(Prepared(w, b).0) && AllIdsOk(Prepared(w, b).0.c, Prepared(w, b).1)
  }

  function EmitCandidates(w: World, b: Batch): World
    requires ScanReady(w, b)
  {
    EmitAll(Prepared(w, b).0, Prepared(w, b).1, b.explicit)
  }

  lemma {:induction false} MintAll(t: Tracker, cands: seq<Candidate>, explicit: bool)
    requires forall i: nat | i < |cands| :: cands[i].rootKind.Output?
    ensures Mint(t, cands, explicit) == cands
  {
    if cands != [] { MintAll(t, cands[1..], explicit); }
  }

  lemma FilesAreOutput(files: map<string, Candidate>, t: Tracker, cands: seq<Candidate>)
    requires FilesOk(files, t) && FromFiles(files, cands)
    ensures forall i: nat | i < |cands| :: cands[i].rootKind.Output? && cands[i].data == files[cands[i].data.path].data
    ensures forall i: nat | i < |cands| :: RoledFile(cands[i], files[cands[i].data.path])
  {
    forall i: nat | i < |cands|
      ensures cands[i].rootKind.Output?
      ensures cands[i].data == files[cands[i].data.path].data && RoledFile(cands[i], files[cands[i].data.path])
    {
      assert SameFile(cands[i], files[cands[i].data.path]);
    }
  }

  lemma CuratedIdsOk(c: Coord, c': Coord, cands: seq<Candidate>, deliverable: bool, rich: bool)
    requires AllIdsOk(c, cands) && c'.records.Keys == c.records.Keys
    ensures AllIdsOk(c', CurateRoles(cands, deliverable, rich))
  {
    hide EligibleAsPrimary, SomeEligible;
    var curated := CurateRoles(cands, deliverable, rich);
    forall i: nat | i < |curated|
      ensures CandidateIdsOk(c', curated[i])
    {
      assert CandidateIdsOk(c, cands[i]);
    }
  }

  lemma {:induction false} CuratedPaths(
      cands: seq<Candidate>, hasDeliverable: bool, rich: bool, curated: seq<Candidate>)
    requires |curated| == |cands| && forall i: nat | i < |cands| ::
      curated[i] == Curated(cands[i], hasDeliverable, rich)
    ensures PathsOf(curated) == PathsOf(cands)
  {
    if cands != [] { CuratedPaths(cands[1..], hasDeliverable, rich, curated[1..]); }
  }

  lemma {:induction false} PlacedElements(le: PathOrder, cand: Candidate, arranged: seq<Candidate>)
    ensures multiset(Place(le, cand, arranged)) == multiset(arranged) + multiset{cand}
  {
    if !(arranged == [] || ShownBefore(le, cand, arranged[0])) {
      PlacedElements(le, cand, arranged[1..]);
      assert arranged == [arranged[0]] + arranged[1..];
    }
  }

  /** Arranging for display permutes the batch. */
  lemma {:induction false} ArrangedElements(le: PathOrder, cands: seq<Candidate>)
    ensures multiset(Arrange(le, cands)) == multiset(cands)
  {
    hide Place;
    if cands != [] {
      ArrangedElements(le, cands[1..]);
      PlacedElements(le, cands[0], Arrange(le, cands[1..]));
      assert cands == [cands[0]] + cands[1..];
    }
  }

  lemma {:induction false} PathsAreMembers(cands: seq<Candidate>, path: string)
    ensures path in PathsOf(cands) <==> exists cand :: cand in cands && cand.data.path == path
  {
    if cands != [] {
      PathsAreMembers(cands[1..], path);
      assert cands == [cands[0]] + cands[1..];
    }
  }

  lemma ArrangedPaths(a: seq<Candidate>, b: seq<Candidate>)
    requires multiset(a) == multiset(b)
    ensures PathsOf(a) == PathsOf(b)
  {
    SameMembers(a, b);
    forall path
      ensures path in PathsOf(a) <==> path in PathsOf(b)
    {
      PathsAreMembers(a, path);
      PathsAreMembers(b, path);
    }
  }

  /** No two candidates of the batch are drawn the same id. */
  lemma {:induction false} DistinctCounts(cands: seq<Candidate>)
    requires forall i: nat, j: nat | i < |cands| && j < |cands| && i != j :: cands[i].freshId != cands[j].freshId
    ensures forall x :: multiset(cands)[x] <= 1
  {
    if cands != [] {
      var rest := cands[1..];
      assert forall i: nat | i < |rest| :: rest[i] == cands[i + 1];
      DistinctCounts(rest);
      assert cands == [cands[0]] + rest;
      assert cands[0] !in rest;
    }
  }

  lemma ArrangedIdsOk(c: Coord, a: seq<Candidate>, b: seq<Candidate>)
    requires AllIdsOk(c, a) && multiset(b) == multiset(a)
    ensures AllIdsOk(c, b)
  {
    hide CandidateIdsOk;
    SameMembers(a, b);
    DistinctCounts(a);
    forall i: nat | i < |b|
      ensures CandidateIdsOk(c, b[i])
    {
      assert b[i] in a;
    }
    forall i: nat, j: nat | i < |b| && j < |b| && i != j
      ensures b[i].freshId != b[j].freshId
    {
      CountedTwice(b, if i < j then i else j, if i < j then j else i);
      assert b[i] in a && b[j] in a;
    }
    forall i: nat, j: nat | i < |b| && j < |b| && b[i].published.Some?
      ensures b[i].published.value.artifactId != b[j].freshId
    {
      assert b[i] in a && b[j] in a;
    }
  }

  lemma LatchesKeepRecords(w: World, b: Batch)
    requires TrackerInv(w)
    ensures TrackerInv(Prepared(w, b).0) && Prepared(w, b).0.c.records.Keys == w.c.records.Keys
  {
    hide TrackerInv, HasCompletedPage, HasPrimaryDocument, Mint, CurateDeliverables, LatchRich, LatchPrimary;
    var w1 := LatchRich(w, HasCompletedPage(w.c));
    RichLatched(w, HasCompletedPage(w.c));
    PrimaryLatched(w1, Mint(w1.t, b.candidates, b.explicit), HasPrimaryDocument(w1.c));
  }

  lemma CardRecord(files: map<string, Candidate>, w: World, id: string)
    requires CardsInv(files, w) && id in CardIds(w.t)
    ensures id in w.c.records && IsFileCard(w.c.records[id])
  {
    var key :| key in w.t.emitted && w.t.emitted[key].artifactId == id;
    assert CardOfFile(files, w, key);
  }

  /** The two signals come from the rest of the coordinator: a file card is neither page nor document. */
  lemma SignalsFromRest(files: map<string, Candidate>, w: World)
    requires CardsInv(files, w)
    ensures HasCompletedPage(w.c) == HasCompletedPage(RestOf(files, w))
    ensures HasPrimaryDocument(w.c) == HasPrimaryDocument(RestOf(files, w))
  {
    hide CardsInv, Without, IsFileTool;
    forall id | id in w.c.records && (IsFinishedPage(w.c.records[id]) || IsFinishedDocument(w.c.records[id]))
      ensures id !in CardIds(w.t)
    {
      if id in CardIds(w.t) { CardRecord(files, w, id); }
    }
    var rest := RestOf(files, w);
    assert forall id | id in rest.records :: id in w.c.records && rest.records[id] == w.c.records[id];
    assert forall id | id in w.c.records && id !in CardIds(w.t) :: id in rest.records;
  }

  /** The latched world is in step, and the curated candidates carry the roles of its latches. */
  ghost predicate PreparedOk(
    files: map<string, Candidate>, w: World, b: Batch, w2: World, curated: seq<Candidate>)
  {
    var page, document := HasCompletedPage(RestOf(files, w)), HasPrimaryDocument(RestOf(files, w));
    && InStep(files, w2) && FilesOk(files, w2.t) && AllIdsOk(w2.c, curated)
    && w2.t.emitted.Keys == w.t.emitted.Keys && PathsOf(curated) == PathsOf(b.candidates)
    && RestOf(files, w2) == RestOf(files, w)
    && w2.t.turnHasRichDeliverable == (w.t.turnHasRichDeliverable || page)
    && w2.t.turnHasPrimaryDoc ==
         (w.t.turnHasPrimaryDoc || document || SomeEligible(b.candidates, w.t.turnHasRichDeliverable || page))
    && forall cand | cand in curated :: CuratedOk(files, w2.t, cand)
  }

  /** A candidate of the turn with the role the latches give it. */
  predicate CuratedOk(files: map<string, Candidate>, t: Tracker, cand: Candidate) {
    && cand.data.path in files && RoledFile(cand, files[cand.data.path])
    && cand.data.role == RoleNow(files[cand.data.path].data, t.turnHasPrimaryDoc, t.turnHasRichDeliverable)
    && (EligibleAsPrimary(files[cand.data.path].data, t.turnHasRichDeliverable) ==> t.turnHasPrimaryDoc)
  }

  lemma CuratedRoles(files: map<string, Candidate>, t: Tracker, cands: seq<Candidate>, i: nat)
    requires FilesOk(files, t) && FromFiles(files, cands) && i < |cands|
    requires SomeEligible(cands, t.turnHasRichDeliverable) ==> t.turnHasPrimaryDoc
    ensures CuratedOk(files, t, CurateRoles(cands, t.turnHasPrimaryDoc, t.turnHasRichDeliverable)[i])
  {
    FilesAreOutput(files, t, cands);
    assert files[cands[i].data.path].data == cands[i].data;
    assert EligibleAsPrimary(cands[i].data, t.turnHasRichDeliverable) ==> SomeEligible(cands, t.turnHasRichDeliverable);
  }

  lemma SameFilesOk(files: map<string, Candidate>, t: Tracker, t': Tracker)
    requires FilesOk(files, t) && t'.baseline == t.baseline && t'.turnStartedAtMs == t.turnStartedAtMs
    ensures FilesOk(files, t')
  {
  }

  lemma CuratedLength(cands: seq<Candidate>, deliverable: bool, rich: bool)
    ensures |CurateRoles(cands, deliverable, rich)| == |cands|
    ensures PathsOf(CurateRoles(cands, deliverable, rich)) == PathsOf(cands)
  {
    CuratedPaths(cands, deliverable || rich || SomeEligible(cands, rich), rich, CurateRoles(cands, deliverable, rich));
  }

  /** Curating a batch: roles by the latches, ids and paths kept, order for display. */
  lemma CuratedBatch(files: map<string, Candidate>, c: Coord, t: Tracker, c': Coord, b: Batch)
    requires FilesOk(files, t) && FromFiles(files, b.candidates) && AllIdsOk(c, b.candidates)
    requires c'.records.Keys == c.records.Keys
    requires SomeEligible(b.candidates, t.turnHasRichDeliverable) ==> t.turnHasPrimaryDoc
    ensures var curated :=
        CurateDeliverables(b.pathOrder, b.candidates, t.turnHasPrimaryDoc, t.turnHasRichDeliverable);
      && AllIdsOk(c', curated) && PathsOf(curated) == PathsOf(b.candidates)
      && forall cand | cand in curated :: CuratedOk(files, t, cand)
  {
    hide CurateRoles, Arrange, AllIdsOk, FilesOk, FromFiles, SomeEligible, CuratedOk;
    var roled := CurateRoles(b.candidates, t.turnHasPrimaryDoc, t.turnHasRichDeliverable);
    CuratedIdsOk(c, c', b.candidates, t.turnHasPrimaryDoc, t.turnHasRichDeliverable);
    CuratedLength(b.candidates, t.turnHasPrimaryDoc, t.turnHasRichDeliverable);
    forall i: nat | i < |roled|
      ensures CuratedOk(files, t, roled[i])
    {
      CuratedRoles(files, t, b.candidates, i);
    }
    ArrangedElements(b.pathOrder, roled);
    ArrangedIdsOk(c', roled, Arrange(b.pathOrder, roled));
    ArrangedPaths(roled, Arrange(b.pathOrder, roled));
    SameMembers(roled, Arrange(b.pathOrder, roled));
  }

  lemma ScanPrepares(files: map<string, Candidate>, w: World, b: Batch)
    requires InStep(files, w) && FilesOk(files, w.t) && FromFiles(files, b.candidates) && AllIdsOk(w.c, b.candidates)
    ensures PreparedOk(files, w, b, Prepared(w, b).0, Prepared(w, b).1)
  {
    hide CoordInv, EligibleAsPrimary, AllIdsOk, CardsInv, RolesInv, Demote, SomeEligible, LatchRich, LatchPrimary;
    hide CurateDeliverables, FromFiles, FilesOk, RestOf, CuratedOk, HasCompletedPage, HasPrimaryDocument;
    CardsTracker(files, w);
    LatchesKeepRecords(w, b);
    SignalsFromRest(files, w);
    LatchRichInStep(files, w, HasCompletedPage(w.c));
    var w1 := LatchRich(w, HasCompletedPage(w.c));
    SignalsFromRest(files, w1);
    FilesAreOutput(files, w.t, b.candidates);
    MintAll(w1.t, b.candidates, b.explicit);
    LatchPrimaryInStep(files, w1, b.candidates, HasPrimaryDocument(w1.c));
    var w2 := Prepared(w, b).0;
    SameFilesOk(files, w.t, w2.t);
    CuratedBatch(files, w.c, w2.t, w2.c, b);
  }

  /** One scan of unchanged delivery files: their cards exist, all roles follow the latches, the
      latches follow the signals, and the rest of the coordinator is left alone. */
  lemma ScanInStep(files: map<string, Candidate>, w: World, b: Batch)
    requires InStep(files, w) && FilesOk(files, w.t) && FromFiles(files, b.candidates) && AllIdsOk(w.c, b.candidates)
    ensures ScanReady(w, b)
    ensures var w' := EmitCandidates(w, b);
      var page, document := HasCompletedPage(RestOf(files, w)), HasPrimaryDocument(RestOf(files, w));
      && InStep(files, w') && FilesOk(files, w'.t) && RestOf(files, w') == RestOf(files, w)
      && w'.t.turnHasRichDeliverable == (w.t.turnHasRichDeliverable || page)
      && w'.t.turnHasPrimaryDoc ==
           (w.t.turnHasPrimaryDoc || document || SomeEligible(b.candidates, w.t.turnHasRichDeliverable || page))
      && w'.t.emitted.Keys == w.t.emitted.Keys + PathsOf(b.candidates)
  {
    hide CoordInv, EligibleAsPrimary, AllIdsOk, CardsInv, TrackerInv, Demote, CurateDeliverables, LatchRich;
    hide LatchPrimary, EmitOne, RestOf, HasCompletedPage, HasPrimaryDocument, FilesOk;
    ScanPrepares(files, w, b);
    var w2, curated := Prepared(w, b).0, Prepared(w, b).1;
    CardsTracker(files, w2);
    forall i: nat | i < |curated|
      ensures CuratedOk(files, w2.t, curated[i])
    {
      assert curated[i] in curated;
    }
    EmitAllRoles(files, w2, curated, b.explicit, w2.t.turnHasPrimaryDoc, w2.t.turnHasRichDeliverable);
    SameFilesOk(files, w2.t, EmitCandidates(w, b).t);
  }
}

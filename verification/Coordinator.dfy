/** The artifact coordinator with its maps of shared mutable records. `Model()` is the value the
    specification speaks about; every method does to it what the specification operation does. */
module Coordinator {
  import opened CoordinatorProofs
  import opened CoordinatorSpec
  import opened Options

  class ArtifactRecord {
    const artifactId: string
    var fields: Record

    constructor (fields: Record)
      ensures this.fields == fields && artifactId == fields.artifactId
    {
      this.artifactId := fields.artifactId;
      this.fields := fields;
    }

    /** Back to running, with one more path; no event tells the client. */
    method Revive(path: string, persistedPath: Option<string>)
      modifies this
      ensures fields == old(fields).(status := Running, terminal := false, paths := old(fields).paths + {path},
                                     persistedPath := persistedPath.Else(old(fields).persistedPath))
    {
      fields := fields.(status := Running, terminal := false, paths := fields.paths + {path});
      if persistedPath.Some? {
        fields := fields.(persistedPath := persistedPath);
      }
    }

    /** The field updates of one patch, in the order of the assignments. */
    method Absorb(patch: Patch)
      modifies this
      ensures fields == PatchRecord(old(fields), patch)
    {
      fields := PatchTexts(fields, patch);
      fields := PatchVersion(fields, patch);
      fields := PatchStatus(fields, patch);
    }
  }

  lemma OpenNewShape(
      c: Coord, tool: string, seed: Seed, freshId: string, paths: set<string>, fields: Record, first: Event)
    requires paths == if tool in c.pending then c.pending[tool] else {}
    requires fields == NewRecord(freshId, tool, seed, seed.status.Or(Running), paths)
    requires first == Opened(EnvelopeOf(c.role, fields, seed))
    ensures OpenNew(c, tool, seed, freshId) == AddRecord(c, tool, fields).(
      pathIndex := IndexPaths(c.pathIndex, paths, freshId), pending := c.pending - {tool}, events := c.events + [first])
  {
  }

  lemma ReviveShape(c: Coord, tool: string, id: string, path: string, seed: Seed, revived: Record)
    requires id in c.records
    requires revived == c.records[id].(status := Running, terminal := false, paths := c.records[id].paths + {path},
                                       persistedPath := seed.persistedPath.Else(c.records[id].persistedPath))
    ensures AdoptToolCallByPath(c, tool, id, path, seed) ==
      c.(records := c.records[id := revived], byTool := c.byTool[tool := id], pathIndex := c.pathIndex[path := id])
  {
  }

  lemma AddedKeepsIndex(c: Coord, tool: string, record: Record)
    ensures AddRecord(c, tool, record).pathIndex == c.pathIndex
  {
  }

  ghost predicate Holds(c: Coord, id: string, pluginId: string, status: Status)
    requires id in c.records
  {
    c.records[id].pluginId == pluginId && c.records[id].status == status
  }

  class ArtifactCoordinator {
    const turnId: string
    const documentRole: DocumentRole
    var recordsByToolCallId: map<string, ArtifactRecord>
    var recordsByArtifactId: map<string, ArtifactRecord>
    var recordOrder: seq<string>
    var artifactIdByPath: map<string, string>
    var pendingPathsByToolCallId: map<string, set<string>>
    var emitted: seq<Event>

    ghost function Model(): Coord
      reads this, recordsByArtifactId.Values
    {
      Coord(documentRole, map id | id in recordsByArtifactId :: recordsByArtifactId[id].fields, recordOrder,
            map t | t in recordsByToolCallId :: recordsByToolCallId[t].artifactId,
            artifactIdByPath, pendingPathsByToolCallId, emitted)
    }

    /** Each record object sits under its own id, and both maps share the objects. */
    ghost predicate Shared()
      reads this
    {
      && (forall id | id in recordsByArtifactId :: recordsByArtifactId[id].artifactId == id)
      && (forall t | t in recordsByToolCallId ::
            recordsByToolCallId[t].artifactId in recordsByArtifactId
            && recordsByArtifactId[recordsByToolCallId[t].artifactId] == recordsByToolCallId[t])
    }

    ghost predicate Valid()
      reads this, recordsByArtifactId.Values
    {
      Shared() && CoordInv(Model())
    }

    constructor (turnId: string, documentRole: DocumentRole)
      ensures Valid() && Model() == InitialCoord(documentRole) && this.turnId == turnId
    {
      this.turnId := turnId;
      this.documentRole := documentRole;
      recordsByToolCallId, recordsByArtifactId, recordOrder := map[], map[], [];
      artifactIdByPath, pendingPathsByToolCallId, emitted := map[], map[], [];
      new;
      assert Model() == InitialCoord(documentRole);
    }

    /** Writing to one record object changes one entry of the model. */
    twostate lemma OneRecordChanged(record: ArtifactRecord)
      requires old(Shared()) && recordsByArtifactId == old(recordsByArtifactId)
      requires record.artifactId in recordsByArtifactId && recordsByArtifactId[record.artifactId] == record
      requires forall r | r in recordsByArtifactId.Values && r != record :: r.fields == old(r.fields)
      ensures Model().records == old(Model()).records[record.artifactId := record.fields]
    {
      forall id | id in recordsByArtifactId && id != record.artifactId
        ensures recordsByArtifactId[id].fields == old(recordsByArtifactId[id].fields)
      {
        assert recordsByArtifactId[id] in recordsByArtifactId.Values;
      }
    }

    /** Point every path of a record back at it. */
    method IndexAll(paths: set<string>, artifactId: string)
      modifies this`artifactIdByPath
      ensures artifactIdByPath == IndexPaths(old(artifactIdByPath), paths, artifactId)
    {
      var left := paths;
      while left != {}
        invariant left <= paths
        invariant artifactIdByPath == IndexPaths(old(artifactIdByPath), paths - left, artifactId)
        decreases left
      {
        var path :| path in left;
        artifactIdByPath := artifactIdByPath[path := artifactId];
        left := left - {path};
      }
      assert paths - left == paths;
    }

    method EmitPatchTo(record: ArtifactRecord, patch: Patch)
      requires Shared() && record.artifactId in recordsByArtifactId && recordsByArtifactId[record.artifactId] == record
      modifies this`artifactIdByPath, this`emitted, record
      ensures Shared() && Model() == EmitPatch(old(Model()), record.artifactId, patch)
    {
      var normalized := NormalizePatch(documentRole, patch);
      record.Absorb(patch);
      emitted := emitted + [Patched(record.artifactId, normalized)];
      IndexAll(record.fields.paths, record.artifactId);
      OneRecordChanged(record);
    }

    method ApplySeedTo(record: ArtifactRecord, seed: Seed)
      requires Valid() && record.artifactId in recordsByArtifactId && recordsByArtifactId[record.artifactId] == record
      modifies this`artifactIdByPath, this`emitted, record
      ensures Valid() && Model() == ApplySeed(old(Model()), record.artifactId, seed)
    {
      if record.fields.terminal {
        return;
      }
      var patch := PatchFromSeed(record.fields, seed);
      if patch.Some? {
        EmitPatchKeepsInv(Model(), record.artifactId, patch.value);
        EmitPatchTo(record, patch.value);
      }
    }

    /** File a new record object under its id. */
    method FileRecord(record: ArtifactRecord)
      requires Shared() && record.artifactId !in recordsByArtifactId
      modifies this`recordsByArtifactId, this`recordOrder
      ensures Shared() && recordsByArtifactId == old(recordsByArtifactId)[record.artifactId := record]
      ensures Model() == old(Model()).(records := old(Model()).records[record.artifactId := record.fields],
                                       recordOrder := old(recordOrder) + [record.artifactId])
    {
      recordsByArtifactId := recordsByArtifactId[record.artifactId := record];
      recordOrder := recordOrder + [record.artifactId];
      assert Model().records == old(Model()).records[record.artifactId := record.fields];
    }

    /** Let a tool call name a record object. */
    method BindTool(toolCallId: string, record: ArtifactRecord)
      requires Shared() && record.artifactId in recordsByArtifactId && recordsByArtifactId[record.artifactId] == record
      modifies this`recordsByToolCallId
      ensures Shared() && recordsByToolCallId == old(recordsByToolCallId)[toolCallId := record]
      ensures Model() == old(Model()).(byTool := old(Model()).byTool[toolCallId := record.artifactId])
    {
      recordsByToolCallId := recordsByToolCallId[toolCallId := record];
      assert Model().byTool == old(Model()).byTool[toolCallId := record.artifactId];
    }

    /** Register a new record under its id and a tool call. */
    method AddRecordObject(toolCallId: string, fields: Record) returns (record: ArtifactRecord)
      requires Shared() && fields.artifactId !in recordsByArtifactId
      modifies this`recordsByToolCallId, this`recordsByArtifactId, this`recordOrder
      ensures fresh(record) && Shared() && record.fields == fields && record.artifactId == fields.artifactId
      ensures recordsByArtifactId == old(recordsByArtifactId)[fields.artifactId := record]
      ensures recordsByToolCallId == old(recordsByToolCallId)[toolCallId := record]
      ensures Model() == AddRecord(old(Model()), toolCallId, fields)
    {
      record := new ArtifactRecord(fields);
      FileRecord(record);
      BindTool(toolCallId, record);
    }

    method OpenOrGetArtifact(toolCallId: string, seed: Seed, freshId: string) returns (artifactId: string)
      requires Valid() && freshId != "" && freshId !in recordsByArtifactId
      modifies this, recordsByArtifactId.Values
      ensures Valid() && Model() == OpenOrGet(old(Model()), toolCallId, seed, freshId)
      ensures fresh(recordsByArtifactId.Values - old(recordsByArtifactId.Values))
      ensures Model().byTool[toolCallId] == artifactId
    {
      if toolCallId in recordsByToolCallId {
        var existing := recordsByToolCallId[toolCallId];
        ApplySeedTo(existing, seed);
        return existing.artifactId;
      }
      OpenNewKeepsInv(Model(), toolCallId, seed, freshId);
      OpenNewArtifact(toolCallId, seed, freshId);
      return freshId;
    }

    method OpenNewArtifact(toolCallId: string, seed: Seed, freshId: string)
      requires Shared() && freshId !in recordsByArtifactId
      modifies this
      ensures Shared() && Model() == OpenNew(old(Model()), toolCallId, seed, freshId)
      ensures fresh(recordsByArtifactId.Values - old(recordsByArtifactId.Values))
    {
      ghost var before := Model();
      var paths := if toolCallId in pendingPathsByToolCallId then pendingPathsByToolCallId[toolCallId] else {};
      var fields := NewRecord(freshId, toolCallId, seed, seed.status.Or(Running), paths);
      var first := Opened(EnvelopeOf(documentRole, fields, seed));
      OpenNewShape(before, toolCallId, seed, freshId, paths, fields, first);
      var record := AddRecordObject(toolCallId, fields);
      Publish(toolCallId, paths, freshId, first);
    }

    /** Index the paths written before the card existed, and send the first event. */
    method Publish(toolCallId: string, paths: set<string>, artifactId: string, first: Event)
      modifies this`artifactIdByPath, this`pendingPathsByToolCallId, this`emitted
      ensures Model() == old(Model()).(
        pathIndex := IndexPaths(old(artifactIdByPath), paths, artifactId),
        pending := old(pendingPathsByToolCallId) - {toolCallId}, events := old(emitted) + [first])
    {
      IndexAll(paths, artifactId);
      pendingPathsByToolCallId := pendingPathsByToolCallId - {toolCallId};
      emitted := emitted + [first];
    }

    method PatchToolCall(toolCallId: string, patch: Patch)
      requires Valid()
      modifies this, recordsByArtifactId.Values
      ensures Valid() && Model() == PatchByTool(old(Model()), toolCallId, patch)
    {
      if toolCallId !in recordsByToolCallId || recordsByToolCallId[toolCallId].fields.terminal {
        return;
      }
      EmitPatchKeepsInv(Model(), recordsByToolCallId[toolCallId].artifactId, patch);
      EmitPatchTo(recordsByToolCallId[toolCallId], patch);
    }

    method CompleteToolCall(toolCallId: string, finalPatch: Patch)
      requires Valid()
      modifies this, recordsByArtifactId.Values
      ensures Valid() && Model() == Complete(old(Model()), toolCallId, finalPatch)
    {
      PatchToolCall(toolCallId, finalPatch.(status := Some(finalPatch.status.Or(Completed))));
    }

    method BindPathToArtifact(artifactId: string, path: string)
      requires Valid()
      modifies this`artifactIdByPath, recordsByArtifactId.Values
      ensures Valid() && Model() == BindPath(old(Model()), artifactId, path)
    {
      if artifactId in recordsByArtifactId {
        BindPathKeepsInv(Model(), artifactId, path);
        BindPathTo(recordsByArtifactId[artifactId], path);
      }
    }

    method BindPathTo(record: ArtifactRecord, path: string)
      requires Shared() && record.artifactId in recordsByArtifactId && recordsByArtifactId[record.artifactId] == record
      modifies this`artifactIdByPath, record
      ensures Shared() && Model() == BindPath(old(Model()), record.artifactId, path)
    {
      record.fields := record.fields.(paths := record.fields.paths + {path});
      artifactIdByPath := artifactIdByPath[path := record.artifactId];
      OneRecordChanged(record);
    }

    method RegisterWrite(toolCallId: string, path: string)
      requires Valid()
      modifies this, recordsByArtifactId.Values
      ensures Valid() && Model() == RegisterFileWrite(old(Model()), toolCallId, path)
    {
      if toolCallId in recordsByToolCallId {
        BindPathToArtifact(recordsByToolCallId[toolCallId].artifactId, path);
        return;
      }
      ghost var before := Model();
      var pending := if toolCallId in pendingPathsByToolCallId then pendingPathsByToolCallId[toolCallId] else {};
      pendingPathsByToolCallId := pendingPathsByToolCallId[toolCallId := pending + {path}];
      InvIgnoresRest(before, Model());
    }

    /** Point one path at an artifact. */
    method IndexPath(path: string, artifactId: string)
      modifies this`artifactIdByPath
      ensures Model() == old(Model()).(pathIndex := old(artifactIdByPath)[path := artifactId])
    {
      artifactIdByPath := artifactIdByPath[path := artifactId];
    }

    method AdoptToolCall(toolCallId: string, artifactId: string, path: string, seed: Seed)
      requires Valid() && artifactId != ""
      modifies this, recordsByArtifactId.Values
      ensures Valid() && Model() == AdoptToolCallByPath(old(Model()), toolCallId, artifactId, path, seed)
    {
      hide CoordInv;
      if artifactId in recordsByArtifactId {
        ReviveKeepsInv(Model(), toolCallId, artifactId, path, seed);
        ReviveArtifact(toolCallId, recordsByArtifactId[artifactId], path, seed);
      } else {
        AdoptToolCallKeepsInv(Model(), toolCallId, artifactId, path, seed);
        var _ := AddRecordObject(toolCallId, NewRecord(artifactId, toolCallId, seed, Running, {path}));
        IndexPath(path, artifactId);
      }
    }

    method ReviveArtifact(toolCallId: string, record: ArtifactRecord, path: string, seed: Seed)
      requires Shared() && record.artifactId in recordsByArtifactId && recordsByArtifactId[record.artifactId] == record
      modifies this`recordsByToolCallId, this`artifactIdByPath, record
      ensures Shared() && Model() == AdoptToolCallByPath(old(Model()), toolCallId, record.artifactId, path, seed)
    {
      hide AdoptToolCallByPath;
      ghost var before := Model();
      record.Revive(path, seed.persistedPath);
      OneRecordChanged(record);
      ReviveShape(before, toolCallId, record.artifactId, path, seed, record.fields);
      BindTool(toolCallId, record);
      IndexPath(path, record.artifactId);
    }

    method AdoptFile(artifactId: string, path: string, seed: Seed)
      requires Valid() && artifactId != ""
      modifies this, recordsByArtifactId.Values
      ensures Valid() && Model() == AdoptFileByPath(old(Model()), artifactId, path, seed)
    {
      hide CoordInv, NewRecord, AddRecord;
      AdoptFileKeepsInv(Model(), artifactId, path, seed);
      if artifactId !in recordsByArtifactId {
        var tool := FileTool(path);
        var fields := NewRecord(artifactId, tool, seed, seed.status.Or(Completed), {path});
        assert fields.artifactId == artifactId by {
          NewRecordNames(artifactId, tool, seed, seed.status.Or(Completed), {path});
        }
        AddedKeepsIndex(Model(), tool, fields);
        var _ := AddRecordObject(tool, fields);
      }
      IndexPath(path, artifactId);
    }

    method OpenFile(path: string, seed: Seed, freshId: string) returns (artifactId: string)
      requires Valid() && freshId != "" && freshId !in recordsByArtifactId
      modifies this, recordsByArtifactId.Values
      ensures Valid() && Model() == OpenFileByPath(old(Model()), path, seed, freshId)
    {
      if path in artifactIdByPath && artifactIdByPath[path] != "" {
        artifactId := artifactIdByPath[path];
        ApplySeedTo(recordsByArtifactId[artifactId], seed);
        return;
      }
      var tool := FileTool(path);
      artifactId := OpenOrGetArtifact(tool, seed, freshId);
      if tool in recordsByToolCallId {
        BindPathToArtifact(recordsByToolCallId[tool].artifactId, path);
      }
    }

    method PatchById(artifactId: string, patch: Patch)
      requires Valid()
      modifies this, recordsByArtifactId.Values
      ensures Valid() && Model() == PatchArtifact(old(Model()), artifactId, patch)
    {
      if artifactId in recordsByArtifactId {
        EmitPatchKeepsInv(Model(), artifactId, patch);
        EmitPatchTo(recordsByArtifactId[artifactId], patch);
      }
    }

    method TerminateEverything(status: Status, fallbackText: Option<string>)
      requires Valid()
      modifies this, recordsByArtifactId.Values
      ensures Valid() && Model() == TerminateAll(old(Model()), turnId, status, fallbackText)
    {
      hide CoordInv, EmitPatch;
      var i := 0;
      while i < |recordOrder|
        invariant Valid() && i <= |recordOrder|
        invariant recordsByArtifactId == old(recordsByArtifactId) && recordOrder == old(recordOrder)
        invariant TerminateFrom(Model(), i, turnId, status, fallbackText) ==
          TerminateAll(old(Model()), turnId, status, fallbackText)
        decreases |recordOrder| - i
      {
        var id := recordOrder[i];
        OrderIsDistinct(Model(), i, i);
        var record := recordsByArtifactId[id];
        if id != "" && !record.fields.terminal {
          var patch := TerminalPatch(record.fields, turnId, status, fallbackText);
          EmitPatchKeepsInv(Model(), id, patch);
          EmitPatchTo(record, patch);
        }
        i := i + 1;
      }
    }

    /** The latch signal of the file tracker: a completed document, in foreground mode only. */
    method FindPrimaryDocument() returns (found: bool)
      requires Valid()
      ensures found <==> HasPrimaryDocument(Model())
      ensures found <==>
        documentRole == Primary && exists id :: id in Model().records && Holds(Model(), id, "document_v1", Completed)
    {
      if !documentRole.Primary? {
        return false;
      }
      for i := 0 to |recordOrder|
        invariant forall j: nat | j < i ::
          recordOrder[j] in recordsByArtifactId && !IsFinishedDocument(recordsByArtifactId[recordOrder[j]].fields)
      {
        assert recordOrder[i] in Model().records;
        if IsFinishedDocument(recordsByArtifactId[recordOrder[i]].fields) {
          assert IsFinishedDocument(Model().records[recordOrder[i]]);
          return true;
        }
      }
      forall id | id in Model().records
        ensures !IsFinishedDocument(Model().records[id])
      {
        assert id in recordOrder;
      }
      return false;
    }

    /** The other latch signal: a completed page, in any mode. */
    method FindCompletedPage() returns (found: bool)
      requires Valid()
      ensures found <==> HasCompletedPage(Model())
      ensures found <==> exists id :: id in Model().records && Holds(Model(), id, "sandpack_v1", Completed)
    {
      for i := 0 to |recordOrder|
        invariant forall j: nat | j < i ::
          recordOrder[j] in recordsByArtifactId && !IsFinishedPage(recordsByArtifactId[recordOrder[j]].fields)
      {
        assert recordOrder[i] in Model().records;
        if IsFinishedPage(recordsByArtifactId[recordOrder[i]].fields) {
          assert IsFinishedPage(Model().records[recordOrder[i]]);
          return true;
        }
      }
      forall id | id in Model().records
        ensures !IsFinishedPage(Model().records[id])
      {
        assert id in recordOrder;
      }
      return false;
    }
  }
}

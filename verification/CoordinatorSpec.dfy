/** The artifact coordinator on values: records, indexes and the stream of open/patch events.

    Paths are already normalised keys and ids are drawn by the caller; timestamps are left out.
    `recordOrder` is the insertion order of the record map, which `terminateAll` iterates. */
module CoordinatorSpec {
  import opened Options

  // ---------- values ----------

  datatype Status = Running | Completed | Failed | Closed

  datatype DocumentRole = Primary | Workspace

  /** A JSON member: text, an object named by its text, or anything else, told apart by its truth value. */
  datatype Val = Text(text: string) | Object(text: string) | Falsy(tag: int) | Truthy(tag: int)

  type Data = map<string, Val>

  datatype Seed = Seed(
    pluginId: string, title: string, contentType: Option<string>, status: Option<Status>, collapsed: Option<bool>,
    fallbackText: Option<string>, data: Option<Data>, persistedPath: Option<string>, parentId: Option<string>,
    versionNumber: Option<int>, changeDescription: Option<string>)

  datatype Patch = Patch(
    pluginId: Option<string>, title: Option<string>, status: Option<Status>, fallbackText: Option<string>,
    data: Option<Data>, persistedPath: Option<string>, parentId: Option<string>, versionNumber: Option<int>,
    changeDescription: Option<string>)

  const EMPTY_PATCH := Patch(None, None, None, None, None, None, None, None, None)

  datatype Record = Record(
    artifactId: string, key: string, title: string, pluginId: string, contentType: Option<string>, status: Status,
    fallbackText: string, terminal: bool, paths: set<string>, persistedPath: Option<string>, parentId: Option<string>,
    versionNumber: Option<int>, changeDescription: Option<string>)

  datatype Envelope = Envelope(
    id: string, pluginId: string, title: string, status: Status, collapsed: bool, fallbackText: string, data: Data,
    persistedPath: Option<string>, parentId: Option<string>, versionNumber: Option<int>,
      changeDescription: Option<string>)

  datatype Event = Opened(artifact: Envelope) | Patched(artifactId: string, patch: Patch)

  datatype Coord = Coord(
    role: DocumentRole,
    records: map<string, Record>,
    recordOrder: seq<string>,
    byTool: map<string, string>,
    pathIndex: map<string, string>,
    pending: map<string, set<string>>,
    events: seq<Event>)

  function InitialCoord(role: DocumentRole): Coord {
    Coord(role, map[], [], map[], map[], map[], [])
  }

  // ---------- helpers ----------

  predicate IsTerminal(status: Status) { status.Completed? || status.Failed? || status.Closed? }

  function RoleName(role: DocumentRole): string {
    if role.Primary? then "primary" else "workspace"
  }

  predicate PluginCarriesRole(pluginId: string, role: DocumentRole) {
    pluginId == "document_v1" || (pluginId == "sandpack_v1" && role.Workspace?)
  }

  predicate IsTruthy(v: Val) {
    match v
    case Text(text) => text != ""
    case Falsy(_) => false
    case Object(_) => true
    case Truthy(_) => true
  }

  function DataContentType(data: Option<Data>): Option<string> {
    if data.Some? && "content_type" in data.value && data.value["content_type"].Text?
    then Some(data.value["content_type"].text) else None
  }

  function WithDocumentRole(data: Option<Data>, role: DocumentRole): Data {
    var base := data.Or(map[]);
    if "role" in base then base else base["role" := Text(RoleName(role))]
  }

  predicate NonEmpty(s: Option<string>) { s.Some? && s.value != "" }

  /** Present only when it names a change. */
  function Changed<T(==)>(next: Option<T>, current: Option<T>): Option<T> {
    if next.Some? && next != current then next else None
  }

  function PatchFromSeed(record: Record, seed: Seed): Option<Patch> {
    var next := seed.contentType.Else(DataContentType(seed.data));
    var patch := Patch(
      if seed.pluginId != "" && seed.pluginId != record.pluginId then Some(seed.pluginId) else None,
      if seed.title != "" && seed.title != record.title then Some(seed.title) else None,
      Changed(seed.status, Some(record.status)),
      Changed(seed.fallbackText, Some(record.fallbackText)),
      if NonEmpty(next) && next != record.contentType
        then Some(seed.data.Or(map[])["content_type" := Text(next.value)]) else seed.data,
      Changed(seed.persistedPath, record.persistedPath),
      Changed(seed.parentId, record.parentId),
      Changed(seed.versionNumber, record.versionNumber),
      Changed(seed.changeDescription, record.changeDescription));
    if patch == EMPTY_PATCH then None else Some(patch)
  }

  /** The patch as emitted: a reclassification to a role-carrying plugin stamps the role. */
  function NormalizePatch(role: DocumentRole, patch: Patch): Patch {
    if NonEmpty(patch.pluginId) && PluginCarriesRole(patch.pluginId.value, role)
    then patch.(data := Some(WithDocumentRole(patch.data, role)))
    else patch
  }

  function PatchTexts(record: Record, patch: Patch): Record {
    var contentType := DataContentType(patch.data);
    record.(
      contentType := if NonEmpty(contentType) then contentType else record.contentType,
      pluginId := if NonEmpty(patch.pluginId) then patch.pluginId.value else record.pluginId,
      title := if NonEmpty(patch.title) then patch.title.value else record.title,
      fallbackText := if NonEmpty(patch.fallbackText) then patch.fallbackText.value else record.fallbackText)
  }

  function PatchVersion(record: Record, patch: Patch): Record {
    record.(
      persistedPath := patch.persistedPath.Else(record.persistedPath),
      parentId := patch.parentId.Else(record.parentId),
      versionNumber := patch.versionNumber.Else(record.versionNumber),
      changeDescription := patch.changeDescription.Else(record.changeDescription))
  }

  function PatchStatus(record: Record, patch: Patch): Record {
    if patch.status.Some?
    then record.(status := patch.status.value, terminal := IsTerminal(patch.status.value))
    else record
  }

  /** What a patch does to the record: empty texts are ignored, undefined fields kept. */
  function PatchRecord(record: Record, patch: Patch): Record {
    PatchStatus(PatchVersion(PatchTexts(record, patch), patch), patch)
  }

  function IndexPaths(index: map<string, string>, paths: set<string>, artifactId: string): map<string, string> {
    index + map path | path in paths :: artifactId
  }

  function EmitPatch(c: Coord, id: string, patch: Patch): Coord
    requires id in c.records
  {
    c.(records := c.records[id := PatchRecord(c.records[id], patch)],
       events := c.events + [Patched(id, NormalizePatch(c.role, patch))],
       pathIndex := IndexPaths(c.pathIndex, c.records[id].paths, id))
  }

  function ApplySeed(c: Coord, id: string, seed: Seed): Coord
    requires id in c.records
  {
    if c.records[id].terminal then c
    else
      match PatchFromSeed(c.records[id], seed)
      case None => c
      case Some(patch) => EmitPatch(c, id, patch)
  }

  function NewRecord(id: string, key: string, seed: Seed, status: Status, paths: set<string>): Record {
    Record(id, key, seed.title, seed.pluginId, seed.contentType.Else(DataContentType(seed.data)), status,
           seed.fallbackText.Or(seed.title), IsTerminal(status), paths, seed.persistedPath, seed.parentId,
           seed.versionNumber, seed.changeDescription)
  }

  /** Empty text is dropped from the envelope. */
  function WhenNonEmpty(s: Option<string>): Option<string> {
    if NonEmpty(s) then s else None
  }

  function EnvelopeOf(role: DocumentRole, record: Record, seed: Seed): Envelope {
    var base := seed.data.Or(map[]);
    var typed := if NonEmpty(record.contentType) && !("content_type" in base && IsTruthy(base["content_type"]))
      then base["content_type" := Text(record.contentType.value)] else base;
    var data := if PluginCarriesRole(seed.pluginId, role) then WithDocumentRole(Some(typed), role) else typed;
    Envelope(record.artifactId, record.pluginId, record.title, record.status, seed.collapsed.Or(false),
             record.fallbackText, data, WhenNonEmpty(record.persistedPath), WhenNonEmpty(record.parentId),
             record.versionNumber, WhenNonEmpty(record.changeDescription))
  }

  /** Insert a record under an id that the map may already hold (insertion order then stays). */
  function AddRecord(c: Coord, tool: string, record: Record): Coord {
    c.(records := c.records[record.artifactId := record],
       recordOrder := if record.artifactId in c.records then c.recordOrder else c.recordOrder + [record.artifactId],
       byTool := c.byTool[tool := record.artifactId])
  }

  // ---------- operations ----------

  function OpenNew(c: Coord, tool: string, seed: Seed, freshId: string): Coord {
    var paths := if tool in c.pending then c.pending[tool] else {};
    var record := NewRecord(freshId, tool, seed, seed.status.Or(Running), paths);
    var c1 := AddRecord(c, tool, record);
    c1.(pathIndex := IndexPaths(c.pathIndex, paths, freshId),
        pending := c.pending - {tool},
        events := c.events + [Opened(EnvelopeOf(c.role, record, seed))])
  }

  function OpenOrGet(c: Coord, tool: string, seed: Seed, freshId: string): Coord
    requires CoordInv(c)
  {
    if tool in c.byTool then ApplySeed(c, c.byTool[tool], seed) else OpenNew(c, tool, seed, freshId)
  }

  function PatchByTool(c: Coord, tool: string, patch: Patch): Coord
    requires CoordInv(c)
  {
    if tool !in c.byTool || c.records[c.byTool[tool]].terminal then c
    else EmitPatch(c, c.byTool[tool], patch)
  }

  function Complete(c: Coord, tool: string, finalPatch: Patch): Coord
    requires CoordInv(c)
  {
    PatchByTool(c, tool, finalPatch.(status := Some(finalPatch.status.Or(Completed))))
  }

  function BindPath(c: Coord, id: string, path: string): Coord {
    if id !in c.records then c
    else
      c.(records := c.records[id := c.records[id].(paths := c.records[id].paths + {path})],
         pathIndex := c.pathIndex[path := id])
  }

  function RegisterFileWrite(c: Coord, tool: string, path: string): Coord
    requires CoordInv(c)
  {
    if tool in c.byTool then BindPath(c, c.byTool[tool], path)
    else c.(pending := c.pending[tool := (if tool in c.pending then c.pending[tool] else {}) + {path}])
  }

  function AdoptToolCallByPath(c: Coord, tool: string, id: string, path: string, seed: Seed): Coord {
    if id !in c.records then
      var c1 := AddRecord(c, tool, NewRecord(id, tool, seed, Running, {path}));
      c1.(pathIndex := c.pathIndex[path := id])
    else
      var record := c.records[id];
      var revived := record.(status := Running, terminal := false, paths := record.paths + {path},
                             persistedPath := seed.persistedPath.Else(record.persistedPath));
      c.(records := c.records[id := revived], byTool := c.byTool[tool := id], pathIndex := c.pathIndex[path := id])
  }

  function FileTool(path: string): string { "file:" + path }

  function AdoptFileByPath(c: Coord, id: string, path: string, seed: Seed): Coord {
    var c1 := if id in c.records then c
      else AddRecord(c, FileTool(path), NewRecord(id, FileTool(path), seed, seed.status.Or(Completed), {path}));
    c1.(pathIndex := c1.pathIndex[path := id])
  }

  function OpenFileByPath(c: Coord, path: string, seed: Seed, freshId: string): Coord
    requires CoordInv(c)
  {
    if path in c.pathIndex && c.pathIndex[path] != "" then ApplySeed(c, c.pathIndex[path], seed)
    else
      var c1 := OpenOrGet(c, FileTool(path), seed, freshId);
      if FileTool(path) in c1.byTool then BindPath(c1, c1.byTool[FileTool(path)], path) else c1
  }

  function PatchArtifact(c: Coord, id: string, patch: Patch): Coord {
    if id in c.records then EmitPatch(c, id, patch) else c
  }

  function TerminalPatch(record: Record, turnId: string, status: Status, fallbackText: Option<string>): Patch {
    var base: Data := map["live_preview" := Truthy(1), "phase" := Text(if status.Failed? then "failed" else "done"),
                          "meta" := Object("turn_id: " + turnId)];
    EMPTY_PATCH.(
      title := WhenNonEmpty(Some(record.title)), status := Some(status), fallbackText := fallbackText,
      data := Some(if record.contentType.Some? then base["content_type" := Text(record.contentType.value)] else base))
  }

  predicate Active(c: Coord, id: string) {
    id in c.records && id != "" && !c.records[id].terminal
  }

  /** The loop over the record map, from its `i`-th entry on. */
  function TerminateFrom(c: Coord, i: nat, turnId: string, status: Status, fallbackText: Option<string>): Coord
    decreases |c.recordOrder| - i
  {
    if i >= |c.recordOrder| then c
    else
      var id := c.recordOrder[i];
      var c1 := if Active(c, id) then EmitPatch(c, id, TerminalPatch(c.records[id], turnId, status, fallbackText))
        else c;
      TerminateFrom(c1, i + 1, turnId, status, fallbackText)
  }

  function TerminateAll(c: Coord, turnId: string, status: Status, fallbackText: Option<string>): Coord {
    TerminateFrom(c, 0, turnId, status, fallbackText)
  }

  // ---------- questions the file tracker asks ----------

  predicate IsFinishedDocument(r: Record) { r.pluginId == "document_v1" && r.status.Completed? }

  /** A finished page. */
  predicate IsFinishedPage(r: Record) { r.pluginId == "sandpack_v1" && r.status.Completed? }

  predicate HasCompletedPage(c: Coord) {
    exists id :: id in c.records && IsFinishedPage(c.records[id])
  }

  /** Working notes of a plan step do not count: only a foreground turn has a primary document. */
  predicate HasPrimaryDocument(c: Coord) {
    c.role.Primary? && exists id :: id in c.records && IsFinishedDocument(c.records[id])
  }

  predicate IsRenderablePlugin(pluginId: string) { pluginId == "sandpack_v1" || pluginId == "live_work_v1" }

  predicate Resolves(c: Coord, path: string) { path in c.pathIndex && c.pathIndex[path] != "" }

  predicate IsRenderableArtifactPath(c: Coord, path: string) {
    Resolves(c, path) && c.pathIndex[path] in c.records && IsRenderablePlugin(c.records[c.pathIndex[path]].pluginId)
  }

  // ---------- coherence of the indexes ----------

  ghost predicate RecordOk(c: Coord, id: string)
    requires id in c.records
  {
    var r := c.records[id];
    && r.artifactId == id
    && r.terminal == IsTerminal(r.status)
    && r.paths <= c.pathIndex.Keys
  }

  /** No id is empty, every value of the tool-call and path maps names a record, each record is listed once in the
      insertion order, `terminal` mirrors the status, and every path of a record resolves. */
  ghost predicate CoordInv(c: Coord) {
    && "" !in c.records
    && (forall id | id in c.records :: RecordOk(c, id))
    && (forall t | t in c.byTool :: c.byTool[t] in c.records)
    && (forall p | p in c.pathIndex :: c.pathIndex[p] in c.records)
    && (forall i: nat | i < |c.recordOrder| :: c.recordOrder[i] in c.records)
    && (forall id | id in c.records :: id in c.recordOrder)
    && (forall i: nat, j: nat | i < j < |c.recordOrder| :: c.recordOrder[i] != c.recordOrder[j])
  }

  // ---------- runs ----------

  datatype Op =
    | OpOpenOrGet(tool: string, seed: Seed, freshId: string)
    | OpPatch(tool: string, patch: Patch)
    | OpComplete(tool: string, patch: Patch)
    | OpRegisterFileWrite(tool: string, path: string)
    | OpBindPath(id: string, path: string)
    | OpAdoptToolCall(tool: string, id: string, path: string, seed: Seed)
    | OpAdoptFile(id: string, path: string, seed: Seed)
    | OpOpenFile(path: string, seed: Seed, freshId: string)
    | OpPatchArtifact(id: string, patch: Patch)
    | OpTerminateAll(turnId: string, status: Status, fallbackText: Option<string>)

  /** Drawn ids are new, given ids are not empty. */
  predicate IdsOk(c: Coord, op: Op) {
    match op
    case OpOpenOrGet(_, _, freshId) => freshId != "" && freshId !in c.records
    case OpOpenFile(_, _, freshId) => freshId != "" && freshId !in c.records
    case OpAdoptToolCall(_, id, _, _) => id != ""
    case OpAdoptFile(id, _, _) => id != ""
    case _ => true
  }

  function ApplyOp(c: Coord, op: Op): Coord
    requires CoordInv(c)
  {
    match op
    case OpOpenOrGet(tool, seed, freshId) => OpenOrGet(c, tool, seed, freshId)
    case OpPatch(tool, patch) => PatchByTool(c, tool, patch)
    case OpComplete(tool, patch) => Complete(c, tool, patch)
    case OpRegisterFileWrite(tool, path) => RegisterFileWrite(c, tool, path)
    case OpBindPath(id, path) => BindPath(c, id, path)
    case OpAdoptToolCall(tool, id, path, seed) => AdoptToolCallByPath(c, tool, id, path, seed)
    case OpAdoptFile(id, path, seed) => AdoptFileByPath(c, id, path, seed)
    case OpOpenFile(path, seed, freshId) => OpenFileByPath(c, path, seed, freshId)
    case OpPatchArtifact(id, patch) => PatchArtifact(c, id, patch)
    case OpTerminateAll(turnId, status, fallbackText) => TerminateAll(c, turnId, status, fallbackText)
  }
}

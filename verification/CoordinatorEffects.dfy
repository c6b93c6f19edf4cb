/** What each operation of the coordinator brings about: on the card the client shows, on the records, and on where
    paths and tool calls lead from then on. */
module CoordinatorEffects {
  import opened CoordinatorProofs
  import opened CoordinatorSpec
  import opened Options

  // ---------- ending a turn ----------

  /** A live record that was ended: its status, and its fallback text if there is one; nothing else. */
  function EndedRecord(r: Record, status: Status, fallbackText: Option<string>): Record {
    r.(status := status, terminal := status != Running,
       fallbackText := if NonEmpty(fallbackText) then fallbackText.value else r.fallbackText)
  }

  /** The last patch of a card: the status, the phase that goes with it, the turn, and what the record knows. */
  predicate EndsCard(patch: Patch, r: Record, turnId: string, status: Status, fallbackText: Option<string>) {
    && patch.status == Some(status) && patch.fallbackText == fallbackText && patch.pluginId.None?
    && patch.title == (if r.title == "" then None else Some(r.title))
    && patch.persistedPath.None? && patch.parentId.None? && patch.versionNumber.None? && patch.changeDescription.None?
    && patch.data.Some?
    && var data := patch.data.value;
    && data.Keys == {"live_preview", "phase", "meta"} + (if r.contentType.Some? then {"content_type"} else {})
    && data["phase"] == Text(if status == Failed then "failed" else "done") && IsTruthy(data["live_preview"])
    && data["meta"] == Object("turn_id: " + turnId)
    && (r.contentType.Some? ==> data["content_type"] == Text(r.contentType.value))
  }

  lemma EndingPatch(c: Coord, id: string, turnId: string, status: Status, fallbackText: Option<string>)
    requires id in c.records && c.records[id].terminal == IsTerminal(c.records[id].status)
    ensures var patch := TerminalPatch(c.records[id], turnId, status, fallbackText);
      && EndsCard(patch, c.records[id], turnId, status, fallbackText)
      && EmitPatch(c, id, patch).events == c.events + [Patched(id, patch)]
      && EmitPatch(c, id, patch).records == c.records[id := EndedRecord(c.records[id], status, fallbackText)]
  {
    hide IndexPaths, EndedRecord, EndsCard, PatchRecord;
    EndingPatchIs(c.records[id], turnId, status, fallbackText);
  }

  lemma EndingPatchIs(r: Record, turnId: string, status: Status, fallbackText: Option<string>)
    requires r.terminal == IsTerminal(r.status)
    ensures var patch := TerminalPatch(r, turnId, status, fallbackText);
      EndsCard(patch, r, turnId, status, fallbackText) && patch.pluginId.None?
      && PatchRecord(r, patch) == EndedRecord(r, status, fallbackText)
  {
  }

  function LiveOf(c: Coord, ids: seq<string>): seq<string> {
    if ids == [] then [] else (if Active(c, ids[0]) then [ids[0]] else []) + LiveOf(c, ids[1..])
  }

  /** One patch for each of the ids, in their order. */
  ghost predicate EndsCards(
    c: Coord, events: seq<Event>, ids: seq<string>, turnId: string, status: Status, fallbackText: Option<string>)
  {
    |events| == |ids| && forall k | 0 <= k < |ids| ::
      && ids[k] in c.records && events[k].Patched? && events[k].artifactId == ids[k]
      && EndsCard(events[k].patch, c.records[ids[k]], turnId, status, fallbackText)
  }

  lemma LiveSplit(c: Coord, id: string, ids: seq<string>)
    ensures LiveOf(c, [id] + ids) == if Active(c, id) then [id] + LiveOf(c, ids) else LiveOf(c, ids)
  {
    assert ([id] + ids)[1..] == ids;
  }

  lemma {:induction false} SameLive(c: Coord, c': Coord, ids: seq<string>)
    requires forall id | id in ids :: id in c.records && id in c'.records && c'.records[id] == c.records[id]
    ensures LiveOf(c', ids) == LiveOf(c, ids)
    decreases |ids|
  {
    if ids != [] {
      assert ids[0] in ids && forall id | id in ids[1..] :: id in ids;
      SameLive(c, c', ids[1..]);
    }
  }

  lemma {:induction false} LiveAreThese(c: Coord, ids: seq<string>)
    ensures forall id | id in LiveOf(c, ids) :: id in ids && Active(c, id)
    decreases |ids|
  {
    if ids != [] { LiveAreThese(c, ids[1..]); }
  }

  lemma EndsOneMore(
      c: Coord, c1: Coord, id: string, patch: Patch, events: seq<Event>, ids: seq<string>, turnId: string,
      status: Status, fallbackText: Option<string>)
    requires id in c.records && EndsCard(patch, c.records[id], turnId, status, fallbackText)
    requires EndsCards(c1, events, ids, turnId, status, fallbackText)
    requires forall k | k in ids :: k in c.records && k in c1.records && c1.records[k] == c.records[k]
    ensures EndsCards(c, [Patched(id, patch)] + events, [id] + ids, turnId, status, fallbackText)
  {
    hide EndsCard;
    forall k | 0 <= k < |ids|
      ensures ids[k] in c.records && c1.records[ids[k]] == c.records[ids[k]]
    {
      assert ids[k] in ids;
    }
  }

  lemma {:induction false} TerminateFromEnds(
      c: Coord, i: nat, turnId: string, status: Status, fallbackText: Option<string>)
    requires CoordInv(c) && i <= |c.recordOrder|
    ensures var c' := TerminateFrom(c, i, turnId, status, fallbackText);
      && c.events <= c'.events
      && EndsCards(c, c'.events[|c.events|..], LiveOf(c, c.recordOrder[i..]), turnId, status, fallbackText)
    decreases |c.recordOrder| - i, 1
  {
    hide CoordInv, EndsCard, EndsCards, EmitPatch, TerminalPatch, Active;
    var order := c.recordOrder;
    if i >= |order| {
      NothingEnds(c, turnId, status, fallbackText);
      assert order[i..] == [];
    } else {
      OrderIsDistinct(c, i, i);
      assert order[i..] == [order[i]] + order[i + 1..];
      LiveSplit(c, order[i], order[i + 1..]);
      if Active(c, order[i]) {
        TerminateOneEnds(c, i, turnId, status, fallbackText);
      } else {
        TerminateFromEnds(c, i + 1, turnId, status, fallbackText);
      }
    }
  }

  lemma NothingEnds(c: Coord, turnId: string, status: Status, fallbackText: Option<string>)
    ensures EndsCards(c, c.events[|c.events|..], [], turnId, status, fallbackText)
  {
  }

  lemma {:induction false} TerminateOneEnds(
      c: Coord, i: nat, turnId: string, status: Status, fallbackText: Option<string>)
    requires CoordInv(c) && i < |c.recordOrder| && Active(c, c.recordOrder[i])
    ensures var c' := TerminateFrom(c, i, turnId, status, fallbackText);
      && c.events <= c'.events
      && EndsCards(c, c'.events[|c.events|..], [c.recordOrder[i]] + LiveOf(c, c.recordOrder[i + 1..]), turnId, status,
                   fallbackText)
    decreases |c.recordOrder| - i, 0
  {
    hide CoordInv, EndsCard, EndsCards, EmitPatch, TerminalPatch, LiveOf;
    var id, rest := c.recordOrder[i], c.recordOrder[i + 1..];
    var patch := TerminalPatch(c.records[id], turnId, status, fallbackText);
    var c1 := EmitPatch(c, id, patch);
    RecordIsOk(c, id);
    EndingPatch(c, id, turnId, status, fallbackText);
    TerminalPatchShape(c, id, turnId, status, fallbackText);
    TerminateFromEnds(c1, i + 1, turnId, status, fallbackText);
    LaterAreOthers(c, i);
    SameLive(c, c1, rest);
    LiveAreThese(c, rest);
    var c' := TerminateFrom(c1, i + 1, turnId, status, fallbackText);
    EndsOneMore(c, c1, id, patch, c'.events[|c1.events|..], LiveOf(c, rest), turnId, status, fallbackText);
    assert c'.events[|c.events|..] == [Patched(id, patch)] + c'.events[|c1.events|..];
  }

  lemma RecordIsOk(c: Coord, id: string)
    requires CoordInv(c) && id in c.records
    ensures c.records[id].terminal == IsTerminal(c.records[id].status) && c.records[id].artifactId == id
    ensures c.records[id].paths <= c.pathIndex.Keys
  {
    assert RecordOk(c, id);
  }

  lemma LaterAreOthers(c: Coord, i: nat)
    requires CoordInv(c) && i < |c.recordOrder|
    ensures forall id | id in c.recordOrder[i + 1..] :: id in c.records && id != c.recordOrder[i]
  {
  }

  lemma {:induction false} TerminateFromRecords(
      c: Coord, i: nat, turnId: string, status: Status, fallbackText: Option<string>, j: nat)
    requires CoordInv(c) && j < |c.recordOrder|
    ensures var c' := TerminateFrom(c, i, turnId, status, fallbackText);
      var id := c.recordOrder[j];
      && id in c.records && id in c'.records
      && c'.records[id] ==
           if i <= j && Active(c, id) then EndedRecord(c.records[id], status, fallbackText) else c.records[id]
    decreases |c.recordOrder| - i
  {
    hide CoordInv, EmitPatch, TerminalPatch, EndedRecord, EndsCard;
    OrderIsDistinct(c, j, j);
    if i < |c.recordOrder| {
      OrderIsDistinct(c, i, j);
      var id := c.recordOrder[i];
      if Active(c, id) {
        var patch := TerminalPatch(c.records[id], turnId, status, fallbackText);
        RecordIsOk(c, id);
        EndingPatch(c, id, turnId, status, fallbackText);
        TerminalPatchShape(c, id, turnId, status, fallbackText);
        TerminateFromRecords(EmitPatch(c, id, patch), i + 1, turnId, status, fallbackText, j);
      } else {
        TerminateFromRecords(c, i + 1, turnId, status, fallbackText, j);
      }
    }
  }

  /** Every live record is ended with exactly the status asked for and keeps the rest; ended ones stay as they are;
      and the client is sent one patch for each live record, in the order in which they were opened. */
  lemma TerminateAllEnds(c: Coord, turnId: string, status: Status, fallbackText: Option<string>)
    requires CoordInv(c)
    ensures var c' := TerminateAll(c, turnId, status, fallbackText);
      && c'.records.Keys == c.records.Keys
      && (forall id | id in c.records :: c'.records[id] ==
            if c.records[id].terminal then c.records[id] else EndedRecord(c.records[id], status, fallbackText))
      && c.events <= c'.events
      && EndsCards(c, c'.events[|c.events|..], LiveOf(c, c.recordOrder), turnId, status, fallbackText)
  {
    hide TerminateFrom, EndedRecord, EndsCards;
    TerminateFromKeepsInv(c, 0, turnId, status, fallbackText);
    TerminateFromEnds(c, 0, turnId, status, fallbackText);
    assert c.recordOrder[0..] == c.recordOrder;
    var c' := TerminateAll(c, turnId, status, fallbackText);
    forall id | id in c.records
      ensures c'.records[id] ==
        if c.records[id].terminal then c.records[id] else EndedRecord(c.records[id], status, fallbackText)
    {
      var j: nat :| j < |c.recordOrder| && c.recordOrder[j] == id;
      TerminateFromRecords(c, 0, turnId, status, fallbackText, j);
    }
  }

  // ---------- patching a card ----------

  /** Nothing is touched but one record, the events, and where the paths of that record lead. */
  ghost predicate OnlyRecord(c: Coord, c': Coord, id: string) {
    && c'.role == c.role && c'.recordOrder == c.recordOrder && c'.byTool == c.byTool && c'.pending == c.pending
    && c'.records.Keys == c.records.Keys && (forall k | k in c.records && k != id :: c'.records[k] == c.records[k])
    && (forall k | k in Fold(c.events) && k != id ::
          k in Fold(c'.events) && Fold(c'.events)[k] == Fold(c.events)[k])
  }

  /** Documents show a role, and so do the pages of a plan step. */
  predicate ShowsRole(pluginId: string, role: DocumentRole) {
    pluginId == "document_v1" || (pluginId == "sandpack_v1" && role == Workspace)
  }

  /** The role the client is told: what the data says, else that of the coordinator. */
  function StampedData(role: DocumentRole, pluginId: Option<string>, data: Data): Data {
    if pluginId.Some? && ShowsRole(pluginId.value, role) && "role" !in data
    then data["role" := Text(if role.Primary? then "primary" else "workspace")] else data
  }

  /** A patch shows on the card with every value it names, empty ones too, and its data is merged key by key; if it
      names a plugin that carries a role the card gets one unless the data has it. */
  predicate ShowsPatch(role: DocumentRole, before: Card, after: Card, patch: Patch) {
    && after.pluginId == (if patch.pluginId.Some? then patch.pluginId.value else before.pluginId)
    && after.title == (if patch.title.Some? then patch.title.value else before.title)
    && after.status == (if patch.status.Some? then patch.status.value else before.status)
    && after.fallbackText == (if patch.fallbackText.Some? then patch.fallbackText.value else before.fallbackText)
    && after.persistedPath == (if patch.persistedPath.Some? then patch.persistedPath else before.persistedPath)
    && after.parentId == (if patch.parentId.Some? then patch.parentId else before.parentId)
    && after.versionNumber == (if patch.versionNumber.Some? then patch.versionNumber else before.versionNumber)
    && after.changeDescription ==
         (if patch.changeDescription.Some? then patch.changeDescription else before.changeDescription)
    && Merged(before.data, after.data, StampedData(role, patch.pluginId, Given(patch.data)))
  }

  function Given(data: Option<Data>): Data { if data.Some? then data.value else map[] }

  predicate Merged(before: Data, after: Data, sent: Data) {
    && after.Keys == before.Keys + sent.Keys
    && forall k | k in after :: after[k] == if k in sent then sent[k] else before[k]
  }

  /** A patch that is sent to an artifact: its card shows it, its record keeps what is not an empty text, and the paths
      of the record lead to it. */
  lemma PatchReachesCard(c: Coord, id: string, patch: Patch)
    requires CoordInv(c) && id in c.records && id in Fold(c.events)
    ensures var c' := PatchArtifact(c, id, patch);
      && OnlyRecord(c, c', id) && |c'.events| == |c.events| + 1 && c.events <= c'.events
      && id in Fold(c'.events) && ShowsPatch(c.role, Fold(c.events)[id], Fold(c'.events)[id], patch)
      && RecordsPatch(c.records[id], c'.records[id], patch)
      && c'.pathIndex.Keys == c.pathIndex.Keys
      && (forall p | p in c.pathIndex ::
            c'.pathIndex[p] == if p in c.records[id].paths then id else c.pathIndex[p])
  {
    hide CoordInv, Fold, NormalizePatch, PatchRecord, ShowsPatch, RecordsPatch, IndexPaths;
    RecordIsOk(c, id);
    var sent := Patched(id, NormalizePatch(c.role, patch));
    FoldOne(c.events, sent);
    PatchShows(c.role, Fold(c.events)[id], patch);
    PatchRecords(c.records[id], patch);
    PathsLead(c.pathIndex, c.records[id].paths, id);
    assert (c.events + [sent])[..|c.events|] == c.events;
  }

  lemma PathsLead(index: map<string, string>, paths: set<string>, id: string)
    requires paths <= index.Keys
    ensures IndexPaths(index, paths, id).Keys == index.Keys
    ensures forall p | p in index :: IndexPaths(index, paths, id)[p] == if p in paths then id else index[p]
  {
  }

  lemma PatchShows(role: DocumentRole, card: Card, patch: Patch)
    ensures ShowsPatch(role, card, PatchCard(card, NormalizePatch(role, patch)), patch)
  {
    hide StampedData, Merged;
    DataMerges(role, card.data, patch);
  }

  lemma DataMerges(role: DocumentRole, before: Data, patch: Patch)
    ensures Merged(before, before + NormalizePatch(role, patch).data.Or(map[]),
                   StampedData(role, patch.pluginId, Given(patch.data)))
    ensures var sent := NormalizePatch(role, patch);
      sent == patch.(data := sent.data)
  {
  }

  predicate RecordsPatch(r: Record, r': Record, patch: Patch) {
    && r'.pluginId == (if NonEmpty(patch.pluginId) then patch.pluginId.value else r.pluginId)
    && r'.title == (if NonEmpty(patch.title) then patch.title.value else r.title)
    && r'.fallbackText == (if NonEmpty(patch.fallbackText) then patch.fallbackText.value else r.fallbackText)
    && r'.status == (if patch.status.Some? then patch.status.value else r.status)
    && r'.terminal == (if patch.status.Some? then patch.status != Some(Running) else r.terminal)
    && r'.contentType == (if NonEmpty(DataContentType(patch.data)) then DataContentType(patch.data) else r.contentType)
    && r'.persistedPath == (if patch.persistedPath.Some? then patch.persistedPath else r.persistedPath)
    && r'.parentId == (if patch.parentId.Some? then patch.parentId else r.parentId)
    && r'.versionNumber == (if patch.versionNumber.Some? then patch.versionNumber else r.versionNumber)
    && r'.changeDescription ==
         (if patch.changeDescription.Some? then patch.changeDescription else r.changeDescription)
    && r'.artifactId == r.artifactId && r'.key == r.key && r'.paths == r.paths
  }

  lemma PatchRecords(r: Record, patch: Patch)
    ensures RecordsPatch(r, PatchRecord(r, patch), patch)
  {
  }

  /** By tool call only a live artifact is patched; completing it without a status completes it. */
  lemma ToolPatchesIff(c: Coord, tool: string, patch: Patch)
    requires CoordInv(c)
    ensures var live := tool in c.byTool && c.records[c.byTool[tool]].status.Running?;
      && PatchByTool(c, tool, patch) == (if live then PatchArtifact(c, c.byTool[tool], patch) else c)
      && Complete(c, tool, patch) ==
           if live
           then PatchArtifact(c, c.byTool[tool],
             if patch.status.Some? then patch else patch.(status := Some(Completed)))
           else c
  {
    hide EmitPatch;
    if tool in c.byTool { RecordIsOk(c, c.byTool[tool]); }
    assert patch.status.Some? ==> patch.(status := Some(patch.status.Or(Completed))) == patch;
  }

  // ---------- opening a card ----------

  /** The content type of a new artifact. */
  function TypeOf(seed: Seed): Option<string> {
    if seed.contentType.Some? then seed.contentType
    else if seed.data.Some? && "content_type" in seed.data.value && seed.data.value["content_type"].Text?
    then Some(seed.data.value["content_type"].text)
    else None
  }

  /** The record of a new artifact says what its seed says; without a fallback text it has its title. */
  predicate RecordsSeed(r: Record, id: string, key: string, seed: Seed, status: Status) {
    && r.artifactId == id && r.key == key && r.title == seed.title && r.pluginId == seed.pluginId
    && r.contentType == TypeOf(seed) && r.status == status && r.terminal == (status != Running)
    && r.fallbackText == (if seed.fallbackText.Some? then seed.fallbackText.value else seed.title)
    && r.persistedPath == seed.persistedPath && r.parentId == seed.parentId
    && r.versionNumber == seed.versionNumber && r.changeDescription == seed.changeDescription
  }

  /** The card of a new artifact shows what its seed says. */
  predicate CardShowsSeed(role: DocumentRole, e: Envelope, id: string, seed: Seed, status: Status) {
    && e.id == id && e.pluginId == seed.pluginId && e.title == seed.title && e.status == status
    && e.collapsed == (seed.collapsed == Some(true))
    && e.fallbackText == (if seed.fallbackText.Some? then seed.fallbackText.value else seed.title)
    && e.persistedPath == (if seed.persistedPath == Some("") then None else seed.persistedPath)
    && e.parentId == (if seed.parentId == Some("") then None else seed.parentId)
    && e.changeDescription == (if seed.changeDescription == Some("") then None else seed.changeDescription)
    && e.versionNumber == seed.versionNumber
    && var own := if seed.data.Some? then seed.data.value else map[];
    && var typed := NonEmpty(TypeOf(seed)) && !("content_type" in own && IsTruthy(own["content_type"]));
    && var stamped := ShowsRole(seed.pluginId, role) && "role" !in own;
    && e.data.Keys == own.Keys + (if typed then {"content_type"} else {}) + (if stamped then {"role"} else {})
    && (forall k | k in own && (k != "content_type" || !typed) :: e.data[k] == own[k])
    && (typed ==> e.data["content_type"] == Text(TypeOf(seed).value))
    && (stamped ==> e.data["role"] == Text(if role.Primary? then "primary" else "workspace"))
  }

  /** The first call of a tool opens one card that shows its seed, running unless the seed says otherwise, and the paths
      written before lead to it. */
  lemma NewCardShowsSeed(c: Coord, tool: string, seed: Seed, freshId: string)
    requires CoordInv(c) && tool !in c.byTool && freshId != "" && freshId !in c.records
    ensures var c' := OpenOrGet(c, tool, seed, freshId);
      var status := if seed.status.Some? then seed.status.value else Running;
      var early := if tool in c.pending then c.pending[tool] else {};
      && |c'.events| == |c.events| + 1 && c.events <= c'.events && c'.events[|c.events|].Opened?
      && CardShowsSeed(c.role, c'.events[|c.events|].artifact, freshId, seed, status)
      && freshId in c'.records && RecordsSeed(c'.records[freshId], freshId, tool, seed, status)
      && c'.records == c.records[freshId := c'.records[freshId]] && c'.recordOrder == c.recordOrder + [freshId]
      && c'.records[freshId].paths == early && c'.byTool == c.byTool[tool := freshId] && c'.role == c.role
      && c'.pending == c.pending - {tool}
      && c'.pathIndex.Keys == c.pathIndex.Keys + early
      && (forall p | p in c'.pathIndex :: c'.pathIndex[p] == if p in early then freshId else c.pathIndex[p])
  {
    hide RecordsSeed, CardShowsSeed, EnvelopeOf, NewRecord;
    var paths := if tool in c.pending then c.pending[tool] else {};
    NewRecordNames(freshId, tool, seed, seed.status.Or(Running), paths);
    NewRecordShows(c.role, freshId, tool, seed, seed.status.Or(Running), paths);
    var c' := OpenOrGet(c, tool, seed, freshId);
    assert c'.events[..|c.events|] == c.events;
  }

  lemma NewRecordShows(role: DocumentRole, id: string, key: string, seed: Seed, status: Status, paths: set<string>)
    ensures var r := NewRecord(id, key, seed, status, paths);
      RecordsSeed(r, id, key, seed, status) && CardShowsSeed(role, EnvelopeOf(role, r, seed), id, seed, status)
  {
    hide RecordsSeed, CardShowsSeed, NewRecord, EnvelopeOf;
    NewRecordSays(id, key, seed, status, paths);
    NewCardSays(role, NewRecord(id, key, seed, status, paths), id, key, seed, status);
  }

  lemma NewRecordSays(id: string, key: string, seed: Seed, status: Status, paths: set<string>)
    ensures RecordsSeed(NewRecord(id, key, seed, status, paths), id, key, seed, status)
  {
  }

  lemma NewCardSays(role: DocumentRole, r: Record, id: string, key: string, seed: Seed, status: Status)
    requires RecordsSeed(r, id, key, seed, status)
    ensures CardShowsSeed(role, EnvelopeOf(role, r, seed), id, seed, status)
  {
    hide TypeOf;
  }

  /** An ended artifact ignores a seed. A live one is sent what the seed says and it does not know, in one patch, or
      nothing when there is nothing to say. */
  ghost predicate GetsSeed(c: Coord, c': Coord, id: string, seed: Seed)
    requires id in c.records
  {
    var r := c.records[id];
    if !r.status.Running? then c' == c
    else
      exists patch ::
        SaysSeed(r, seed, patch) && c' == if patch == EMPTY_PATCH then c else PatchArtifact(c, id, patch)
  }

  lemma SeedReaches(c: Coord, id: string, seed: Seed)
    requires CoordInv(c) && id in c.records
    ensures GetsSeed(c, ApplySeed(c, id, seed), id, seed)
  {
    hide EmitPatch, SaysSeed, PatchFromSeed;
    var r := c.records[id];
    RecordIsOk(c, id);
    SeedPatchSays(r, seed);
    if r.status.Running? {
      match PatchFromSeed(r, seed)
      case None => assert SaysSeed(r, seed, EMPTY_PATCH) && ApplySeed(c, id, seed) == c;
      case Some(patch) => assert SaysSeed(r, seed, patch) && ApplySeed(c, id, seed) == PatchArtifact(c, id, patch);
    }
  }

  /** Every further call of a tool gives its seed to the artifact of the first one. */
  lemma KnownCardGetsSeed(c: Coord, tool: string, seed: Seed, freshId: string)
    requires CoordInv(c) && tool in c.byTool
    ensures GetsSeed(c, OpenOrGet(c, tool, seed, freshId), c.byTool[tool], seed)
  {
    SeedReaches(c, c.byTool[tool], seed);
  }

  /** The patch names exactly what the seed says and the record does not know. */
  predicate SaysSeed(r: Record, seed: Seed, patch: Patch) {
    && patch.pluginId == (if seed.pluginId != "" && seed.pluginId != r.pluginId then Some(seed.pluginId) else None)
    && patch.title == (if seed.title != "" && seed.title != r.title then Some(seed.title) else None)
    && patch.status == (if seed.status == Some(r.status) then None else seed.status)
    && patch.fallbackText == (if seed.fallbackText == Some(r.fallbackText) then None else seed.fallbackText)
    && patch.persistedPath == (if seed.persistedPath == r.persistedPath then None else seed.persistedPath)
    && patch.parentId == (if seed.parentId == r.parentId then None else seed.parentId)
    && patch.versionNumber == (if seed.versionNumber == r.versionNumber then None else seed.versionNumber)
    && patch.changeDescription ==
         (if seed.changeDescription == r.changeDescription then None else seed.changeDescription)
    && var known := !NonEmpty(TypeOf(seed)) || TypeOf(seed) == r.contentType;
    if known then patch.data == seed.data
    else
      && patch.data.Some? && "content_type" in patch.data.value
      && patch.data.value["content_type"] == Text(TypeOf(seed).value)
      && var own := if seed.data.Some? then seed.data.value else map[];
      && patch.data.value.Keys == own.Keys + {"content_type"}
      && forall k | k in own && k != "content_type" :: patch.data.value[k] == own[k]
  }

  lemma SeedPatchSays(r: Record, seed: Seed)
    ensures PatchFromSeed(r, seed).Some? ==>
      SaysSeed(r, seed, PatchFromSeed(r, seed).value) && PatchFromSeed(r, seed).value != EMPTY_PATCH
    ensures PatchFromSeed(r, seed).None? ==> SaysSeed(r, seed, EMPTY_PATCH)
  {
  }

  // ---------- paths ----------

  /** A bound path leads to its artifact; nothing is sent. */
  lemma BoundPathLeads(c: Coord, id: string, path: string)
    ensures var c' := BindPath(c, id, path);
      if id !in c.records then c' == c
      else
        && c'.pathIndex == c.pathIndex[path := id] && c'.events == c.events && c'.role == c.role
        && c'.byTool == c.byTool && c'.pending == c.pending && c'.recordOrder == c.recordOrder
        && c'.records == c.records[id := c.records[id].(paths := c.records[id].paths + {path})]
  {
  }

  /** A written path leads to the artifact of its tool call, or waits for it. */
  lemma WrittenPathLeads(c: Coord, tool: string, path: string)
    requires CoordInv(c)
    ensures var c' := RegisterFileWrite(c, tool, path);
      if tool in c.byTool then
        path in c'.pathIndex && c'.pathIndex[path] == c.byTool[tool] && path in c'.records[c.byTool[tool]].paths
        && c' == BindPath(c, c.byTool[tool], path)
      else
        && tool in c'.pending && c' == c.(pending := c'.pending) && c'.pending.Keys == c.pending.Keys + {tool}
        && c'.pending[tool] == (if tool in c.pending then c.pending[tool] else {}) + {path}
        && forall t | t in c.pending && t != tool :: c'.pending[t] == c.pending[t]
  {
  }

  /** A write to a published path takes its artifact over: the tool call and the path lead to it, and it runs. Nothing
      is sent, and a known record keeps everything but its status and, if the seed names one, its file. */
  lemma RevivedArtifactRuns(c: Coord, tool: string, id: string, path: string, seed: Seed)
    requires CoordInv(c) && id != ""
    ensures var c' := AdoptToolCallByPath(c, tool, id, path, seed);
      && c'.events == c.events && c'.pathIndex == c.pathIndex[path := id] && c'.byTool == c.byTool[tool := id]
      && c'.pending == c.pending && c'.role == c.role && id in c'.records
      && c'.records == c.records[id := c'.records[id]]
      && c'.recordOrder == (if id in c.records then c.recordOrder else c.recordOrder + [id])
      && if id in c.records
         then c'.records[id] == c.records[id].(
           status := Running, terminal := false, paths := c.records[id].paths + {path},
           persistedPath := if seed.persistedPath.Some? then seed.persistedPath else c.records[id].persistedPath)
         else RecordsSeed(c'.records[id], id, tool, seed, Running) && c'.records[id].paths == {path}
  {
    hide RecordsSeed, NewRecord;
    NewRecordNames(id, tool, seed, Running, {path});
    NewRecordShows(c.role, id, tool, seed, Running, {path});
  }

  /** A file of an earlier turn is taken over with its card: its path leads there and nothing is sent. */
  lemma PublishedFileLeads(c: Coord, id: string, path: string, seed: Seed)
    requires CoordInv(c) && id != ""
    ensures var c' := AdoptFileByPath(c, id, path, seed);
      && c'.events == c.events && c'.pathIndex == c.pathIndex[path := id] && c'.pending == c.pending
      && c'.role == c.role && id in c'.records
      && if id in c.records then c'.records == c.records && c'.recordOrder == c.recordOrder && c'.byTool == c.byTool
         else
           && c'.records == c.records[id := c'.records[id]] && c'.recordOrder == c.recordOrder + [id]
           && c'.byTool == c.byTool[FileTool(path) := id] && c'.records[id].paths == {path}
           && RecordsSeed(c'.records[id], id, FileTool(path), seed,
                          if seed.status.Some? then seed.status.value else Completed)
  {
    hide RecordsSeed, NewRecord;
    NewRecordNames(id, FileTool(path), seed, seed.status.Or(Completed), {path});
    NewRecordShows(c.role, id, FileTool(path), seed, seed.status.Or(Completed), {path});
  }

  /** Opening a file gives the seed to the artifact its path leads to, if there is one, and otherwise to that of its own
      tool call, to which the path then leads. */
  lemma OpenedFileLeads(c: Coord, path: string, seed: Seed, freshId: string)
    requires CoordInv(c) && freshId != "" && freshId !in c.records
    ensures var c', tool := OpenFileByPath(c, path, seed, freshId), "file:" + path;
      if path in c.pathIndex then c.pathIndex[path] in c.records && GetsSeed(c, c', c.pathIndex[path], seed)
      else
        && tool in OpenOrGet(c, tool, seed, freshId).byTool
        && c' == BindPath(OpenOrGet(c, tool, seed, freshId), OpenOrGet(c, tool, seed, freshId).byTool[tool], path)
  {
    hide GetsSeed, ApplySeed, BindPath, OpenOrGet;
    if path in c.pathIndex {
      SeedReaches(c, c.pathIndex[path], seed);
    } else {
      OpenOrGetKeepsInv(c, FileTool(path), seed, freshId);
    }
  }

  /** A path is that of an interactive page exactly when the artifact it leads to is a page or a live work. */
  lemma PagePathIff(c: Coord, path: string)
    requires CoordInv(c)
    ensures IsRenderableArtifactPath(c, path) <==>
      path in c.pathIndex && c.records[c.pathIndex[path]].pluginId in {"sandpack_v1", "live_work_v1"}
  {
  }
}

/** What a pass over one file shows on the card it belongs to, and which of several equal files a card shows. */
module FileTrackerEffects {
  import opened CoordinatorEffects
  import opened CoordinatorProofs
  import opened CoordinatorSpec
  import opened FileTrackerOrder
  import opened FileTrackerProofs
  import opened FileTrackerRoles
  import opened FileTrackerSpec
  import opened Options

  // ---------- files that are left alone ----------

  /** A file is left alone if and only if it cannot be served, is as it was when the turn began, or is older than the
      turn and neither declared nor on a card of the turn. */
  predicate LeftAlone(t: Tracker, cand: Candidate, explicit: bool) {
    var path := cand.data.path;
    || !cand.servable
    || (path in t.baseline && t.baseline[path].size == cand.data.size && t.baseline[path].mtimeMs == cand.mtimeMs
        && t.baseline[path].ctimeMs == cand.ctimeMs)
    || (!explicit && path !in t.emitted && cand.mtimeMs < t.turnStartedAtMs && cand.ctimeMs < t.turnStartedAtMs)
  }

  lemma LeftAloneIff(w: World, cand: Candidate, explicit: bool)
    requires CoordInv(w.c) && CandidateIdsOk(w.c, cand)
    ensures Skipped(w.t, cand, explicit) <==> LeftAlone(w.t, cand, explicit)
    ensures LeftAlone(w.t, cand, explicit) ==> EmitOne(w, cand, explicit) == w
  {
    hide CoordInv, Adopted, EmitPage, EmitOnCard, EmitNewPath, EmitUnresolved;
  }

  // ---------- patches that a pass sends ----------

  /** The patch of a file: complete, and with everything that is known of the file. */
  predicate SaysFile(patch: Patch, data: FileData) {
    && patch.pluginId == Some("file_v1") && patch.title == Some(data.filename) && patch.status == Some(Completed)
    && patch.fallbackText == Some("File ready: " + data.filename) && patch.persistedPath.None? && patch.parentId.None?
    && patch.versionNumber.None? && patch.changeDescription.None?
    && patch.data.Some? && ShowsFile(patch.data.value, data)
  }

  /** The patch of a page: published unless it is blocked, and previewed live if it is. */
  predicate SaysPage(patch: Patch, data: FileData, blocked: bool) {
    && patch.pluginId == Some("sandpack_v1") && patch.title == Some(data.filename)
    && patch.status == Some(if blocked then Running else Completed)
    && patch.fallbackText ==
         Some(if blocked then "Artifact staged but not published" else "File ready: " + data.filename)
    && patch.persistedPath == Some(data.path) && patch.parentId.None? && patch.versionNumber.None?
    && patch.changeDescription.None? && patch.data.Some?
    && var page := patch.data.value;
    && page.Keys == {"persisted_path", "content_type", "live_preview"} && page["persisted_path"] == Text(data.path)
    && page["content_type"] == Text(if data.ext == "svg" then "svg" else "html")
    && (IsTruthy(page["live_preview"]) <==> blocked)
  }

  lemma FilePatchSays(data: FileData)
    ensures SaysFile(FilePatch(data), data)
  {
    hide ShowsFile, FileJson;
    JsonShowsFile(data);
  }

  lemma PagePatchSays(data: FileData, blocked: bool)
    ensures SaysPage(PagePatch(data, blocked), data, blocked)
  {
  }

  /** A page whose bytes have not been published yet: one patch on the card its path leads to, and the bytes are
      remembered; a page whose bytes have been is left alone. */
  lemma PagePublishes(w: World, cand: Candidate, explicit: bool)
    requires TrackerInv(w) && CandidateIdsOk(w.c, cand) && !LeftAlone(w.t, cand, explicit)
    requires cand.data.path in w.c.pathIndex
    requires w.c.records[w.c.pathIndex[cand.data.path]].pluginId in ["sandpack_v1", "live_work_v1"]
    ensures var path, fp := cand.data.path, FingerprintOf(cand);
      var w', data := EmitOne(w, cand, explicit), WithSkill(w.t, cand.data);
      if path in w.t.reconciledRich && w.t.reconciledRich[path] == fp then w' == w
      else
        && w'.t == w.t.(reconciledRich := w.t.reconciledRich[path := fp])
        && exists patch :: SaysPage(patch, data, cand.blocked) && w'.c == PatchArtifact(w.c, w.c.pathIndex[path], patch)
  {
    hide CoordInv, PatchArtifact, PagePatch, EmitOnCard, EmitNewPath, EmitUnresolved, Enumerates, LeftAlone, Skipped;
    hide SaysPage;
    IndexedIdExists(w.c, cand.data.path);
    PathsResolve(w.c, cand.data.path);
    LeftAloneIff(w, cand, explicit);
    var data := WithSkill(w.t, cand.data);
    PagePatchSays(data, cand.blocked);
    assert BranchOf(w, cand, explicit).Page?;
  }

  /** A file that changed, or that has a card not opened for it: one patch on that card. */
  lemma CardIsRefreshed(w: World, cand: Candidate, explicit: bool)
    requires TrackerInv(w) && CandidateIdsOk(w.c, cand) && !LeftAlone(w.t, cand, explicit)
    requires cand.data.path in w.c.pathIndex
    requires w.c.records[w.c.pathIndex[cand.data.path]].pluginId !in ["sandpack_v1", "live_work_v1"]
    ensures var path := cand.data.path;
      var w', data := EmitOne(w, cand, explicit), WithSkill(w.t, cand.data);
      if path in w.t.emitted && w.t.emitted[path].fingerprint == FingerprintOf(cand) then w' == w
      else Refreshed(w, w', cand, data, w.c.pathIndex[path])
  {
    hide CoordInv, EmitPage, EmitOnCard, EmitNewPath, EmitUnresolved, Enumerates, LeftAlone, Skipped, Refreshed;
    IndexedIdExists(w.c, cand.data.path);
    PathsResolve(w.c, cand.data.path);
    LeftAloneIff(w, cand, explicit);
    OnCardRefreshes(w, cand, WithSkill(w.t, cand.data));
    assert BranchOf(w, cand, explicit).OnCard?;
  }

  /** The entry of the path shows the file, and its card got one patch that says what the file is. */
  ghost predicate Refreshed(w: World, w': World, cand: Candidate, data: FileData, card: string) {
    && data.path in w'.t.emitted && w'.t.emitted == w.t.emitted[data.path := w'.t.emitted[data.path]]
    && w'.t.emitted[data.path].artifactId == card && w'.t.emitted[data.path].fingerprint == FingerprintOf(cand)
    && w'.t.emitted[data.path].data == data
    && exists patch :: SaysFile(patch, data) && w'.c == PatchArtifact(w.c, card, patch)
  }

  lemma OnCardRefreshes(w: World, cand: Candidate, data: FileData)
    requires data.path in w.c.pathIndex
    ensures
      if data.path in w.t.emitted && w.t.emitted[data.path].fingerprint == FingerprintOf(cand)
      then EmitOnCard(w, cand, data) == w
      else Refreshed(w, EmitOnCard(w, cand, data), cand, data, w.c.pathIndex[data.path])
  {
    hide PatchArtifact, FilePatch, SaysFile;
    FilePatchSays(data);
  }

  // ---------- files of earlier turns ----------

  /** A file that an earlier turn published, and that this turn and its coordinator do not know: its path leads to the
      published card, nothing is opened, and that card gets one patch, of a page if it is one and of a file if not. */
  lemma PublishedCardIsTaken(w: World, cand: Candidate, explicit: bool)
    requires TrackerInv(w) && CandidateIdsOk(w.c, cand) && !LeftAlone(w.t, cand, explicit)
    requires cand.data.path !in w.t.emitted && cand.data.path !in w.c.pathIndex && cand.published.Some?
    requires cand.published.value.artifactId !in w.c.records && cand.data.path !in w.t.reconciledRich
    ensures var w', data := EmitOne(w, cand, explicit), WithSkill(w.t, cand.data);
      TakesCard(w.c, w'.c, cand, data)
  {
    hide CoordInv, EmitPage, EmitOnCard, EmitNewPath, EmitUnresolved, Enumerates, LeftAlone, Skipped, TakesCard;
    hide RecordsSeed;
    LeftAloneIff(w, cand, explicit);
    PathsResolve(w.c, cand.data.path);
    var data, p := WithSkill(w.t, cand.data), cand.published.value;
    var w1 := World(w.t, AdoptFileByPath(w.c, p.artifactId, data.path, AdoptSeed(data, p)));
    PublishedFileLeads(w.c, p.artifactId, data.path, AdoptSeed(data, p));
    AdoptedPlugin(w.c, data, p);
    if p.pluginId in ["sandpack_v1", "live_work_v1"] {
      assert BranchOf(w, cand, explicit).Page?;
      TakenPage(w.c, w1, cand, data);
    } else {
      assert BranchOf(w, cand, explicit).OnCard?;
      TakenFile(w.c, w1, cand, data);
    }
  }

  ghost predicate TakesCard(c: Coord, c': Coord, cand: Candidate, data: FileData) {
    cand.published.Some? &&
    var p := cand.published.value;
    exists c1: Coord, patch: Patch ::
      && c1.events == c.events && c1.pathIndex == c.pathIndex[data.path := p.artifactId] && p.artifactId in c1.records
      && c' == PatchArtifact(c1, p.artifactId, patch)
      && if p.pluginId in ["sandpack_v1", "live_work_v1"] then SaysPage(patch, data, cand.blocked)
         else SaysFile(patch, data)
  }

  lemma AdoptedPlugin(c: Coord, data: FileData, p: Published)
    requires p.artifactId !in c.records
    ensures var c1 := AdoptFileByPath(c, p.artifactId, data.path, AdoptSeed(data, p));
      p.artifactId in c1.records && c1.records[p.artifactId].pluginId == p.pluginId
  {
    hide FileJson;
  }

  lemma TakenPage(c: Coord, w1: World, cand: Candidate, data: FileData)
    requires cand.published.Some? && cand.published.value.pluginId in ["sandpack_v1", "live_work_v1"]
    requires data.path !in w1.t.reconciledRich && w1.c.events == c.events
    requires w1.c.pathIndex == c.pathIndex[data.path := cand.published.value.artifactId]
    requires cand.published.value.artifactId in w1.c.records
    ensures TakesCard(c, EmitPage(w1, cand, data).c, cand, data)
  {
    hide PatchArtifact, PagePatch, SaysPage, SaysFile;
    PagePatchSays(data, cand.blocked);
  }

  lemma TakenFile(c: Coord, w1: World, cand: Candidate, data: FileData)
    requires cand.published.Some? && cand.published.value.pluginId !in ["sandpack_v1", "live_work_v1"]
    requires data.path !in w1.t.emitted && w1.c.events == c.events
    requires w1.c.pathIndex == c.pathIndex[data.path := cand.published.value.artifactId]
    requires cand.published.value.artifactId in w1.c.records
    ensures data.path in w1.c.pathIndex && TakesCard(c, EmitOnCard(w1, cand, data).c, cand, data)
  {
    hide PatchArtifact, FilePatch, SaysPage, SaysFile;
    FilePatchSays(data);
  }

  // ---------- equal files ----------

  function Later(a: int, b: int): int { if a < b then b else a }

  /** `a` was changed later than `b`, or at the same time and has the better name. */
  predicate Preferred(a: Candidate, b: Candidate) {
    var ta, tb := Later(a.mtimeMs, a.ctimeMs), Later(b.mtimeMs, b.ctimeMs);
    ta > tb || (ta == tb && a.nameQuality > b.nameQuality)
  }

  lemma PreferredIs(a: Candidate, b: Candidate)
    ensures PreferCandidate(a, b) <==> Preferred(a, b)
  {
  }

  /** A new path whose content has a card joins that card and opens none: the card shows the new file if it is preferred
      to the one shown, and is not touched otherwise. */
  lemma EqualFileJoins(w: World, cand: Candidate, explicit: bool)
    requires TrackerInv(w) && CandidateIdsOk(w.c, cand) && !LeftAlone(w.t, cand, explicit)
    requires cand.data.path !in w.t.emitted && cand.data.path !in w.c.pathIndex && cand.published.None?
    requires cand.content.Some? && cand.content.value in w.t.emittedByContent
    ensures Joined(w, EmitOne(w, cand, explicit), cand, WithSkill(w.t, cand.data))
  {
    hide CoordInv, EmitPage, EmitOnCard, EmitNewPath, EmitUnresolved, Enumerates, LeftAlone, Skipped, Joined;
    LeftAloneIff(w, cand, explicit);
    PathsResolve(w.c, cand.data.path);
    assert BranchOf(w, cand, explicit).NewPath?;
    NewPathJoins(w, cand, WithSkill(w.t, cand.data));
  }

  ghost predicate Joined(w: World, w': World, cand: Candidate, data: FileData) {
    && cand.content.Some? && cand.content.value in w.t.emittedByContent
    && var shown := w.t.emittedByContent[cand.content.value];
    && JoinedEntry(w.t, w'.t, cand, data, shown) && JoinedCard(w.c, w'.c, cand, data, shown)
  }

  /** The entry of the path names the card of the content, and the content the preferred file. */
  ghost predicate JoinedEntry(t: Tracker, t': Tracker, cand: Candidate, data: FileData, shown: ContentArtifact) {
    && data.path in t'.emitted && t'.emitted == t.emitted[data.path := t'.emitted[data.path]]
    && t'.emitted[data.path].artifactId == shown.artifactId && t'.emitted[data.path].data == data
    && t'.emitted[data.path].fingerprint == FingerprintOf(cand)
    && (cand.content.Some? ==>
          cand.content.value in t'.emittedByContent
          && t'.emittedByContent == t.emittedByContent[cand.content.value := t'.emittedByContent[cand.content.value]]
          && t'.emittedByContent[cand.content.value].artifactId == shown.artifactId
          && t'.emittedByContent[cand.content.value].candidate ==
               if Preferred(cand, shown.candidate) then cand else shown.candidate)
    && t' == t.(emitted := t'.emitted, emittedOrder := t'.emittedOrder, emittedByContent := t'.emittedByContent)
  }

  /** The path leads to the card of the content, which is patched if the file is preferred. */
  ghost predicate JoinedCard(c: Coord, c': Coord, cand: Candidate, data: FileData, shown: ContentArtifact) {
    var c1 := BindPath(c, shown.artifactId, data.path);
    if Preferred(cand, shown.candidate)
    then exists patch :: SaysFile(patch, data) && c' == PatchArtifact(c1, shown.artifactId, patch)
    else c' == c1
  }

  lemma NewPathJoins(w: World, cand: Candidate, data: FileData)
    requires CoordInv(w.c) && cand.content.Some? && cand.content.value in w.t.emittedByContent
    ensures Joined(w, EmitNewPath(w, cand, data), cand, data)
  {
    hide CoordInv, PatchArtifact, BindPath, FilePatch, SaysFile, PreferCandidate, Preferred;
    var shown := w.t.emittedByContent[cand.content.value];
    PreferredIs(cand, shown.candidate);
    FilePatchSays(data);
    var t' := EmitNewPath(w, cand, data).t;
    assert t'.emittedByContent == w.t.emittedByContent[cand.content.value := t'.emittedByContent[cand.content.value]];
  }

  /** New files of one content: paths of their own that nobody knows. */
  ghost predicate EqualFiles(w: World, cands: seq<Candidate>, content: string, explicit: bool) {
    && (forall x | x in cands ::
          && x.content == Some(content) && x.published.None? && !LeftAlone(w.t, x, explicit)
          && x.data.path !in w.t.emitted && x.data.path !in w.c.pathIndex)
    && (forall i, j | 0 <= i < j < |cands| :: cands[i].data.path != cands[j].data.path)
  }

  /** The file the card of a content shows. */
  function ShownFile(t: Tracker, content: string): Option<ContentArtifact> {
    if content in t.emittedByContent then Some(t.emittedByContent[content]) else None
  }

  lemma JoinedFacts(w: World, w': World, cand: Candidate, data: FileData, content: string)
    requires CoordInv(w.c) && Joined(w, w', cand, data) && cand.content == Some(content)
    ensures ShownFile(w.t, content).Some? && ShownFile(w'.t, content).Some?
    ensures var shown, shown' := ShownFile(w.t, content).value, ShownFile(w'.t, content).value;
      && shown'.artifactId == shown.artifactId
      && shown'.candidate == if Preferred(cand, shown.candidate) then cand else shown.candidate
    ensures w'.t.emitted.Keys == w.t.emitted.Keys + {data.path} && OnlyPatchesAdded(w.c, w'.c)
    ensures w'.c.pathIndex.Keys <= w.c.pathIndex.Keys + {data.path}
    ensures w'.t.baseline == w.t.baseline && w'.t.turnStartedAtMs == w.t.turnStartedAtMs
  {
    hide Preferred, CoordInv, OnlyPatchesAdded, JoinedCard;
    JoinedCardFacts(w.c, w'.c, cand, data, w.t.emittedByContent[content]);
  }

  lemma JoinedCardFacts(c: Coord, c': Coord, cand: Candidate, data: FileData, shown: ContentArtifact)
    requires CoordInv(c) && JoinedCard(c, c', cand, data, shown)
    ensures OnlyPatchesAdded(c, c') && c'.pathIndex.Keys <= c.pathIndex.Keys + {data.path}
  {
    hide Preferred, SaysFile, CoordInv, PatchArtifact, OnlyPatchesAdded, BindPath;
    var id := shown.artifactId;
    var c1 := BindPath(c, id, data.path);
    BindPathKeepsInv(c, id, data.path);
    BindingIsSilent(c, id, data.path);
    if Preferred(cand, shown.candidate) {
      var patch :| SaysFile(patch, data) && c' == PatchArtifact(c1, id, patch);
      PatchArtifactKeeps(c1, id, patch);
      PatchAddsPatch(c1, id, patch);
      OnlyPatchesTransitive(c, c1, c');
    }
  }

  lemma BindingIsSilent(c: Coord, id: string, path: string)
    ensures OnlyPatchesAdded(c, BindPath(c, id, path))
    ensures BindPath(c, id, path).pathIndex.Keys <= c.pathIndex.Keys + {path}
  {
  }

  /** Further files of a content that has a card open none, whatever their number: the card ends up with one that no
      other is preferred to, and shows the earlier file unless a later one is preferred. */
  lemma {:induction false} PreferredFileIsShown(w: World, cands: seq<Candidate>, content: string, explicit: bool)
    requires TrackerInv(w) && AllIdsOk(w.c, cands) && EqualFiles(w, cands, content, explicit)
    requires ShownFile(w.t, content).Some?
    ensures var w' := EmitAll(w, cands, explicit);
      && OnlyPatchesAdded(w.c, w'.c) && ShownFile(w'.t, content).Some?
      && var shown, shown' := ShownFile(w.t, content).value, ShownFile(w'.t, content).value;
      && shown'.artifactId == shown.artifactId
      && (shown'.candidate == shown.candidate || shown'.candidate in cands)
      && !Preferred(shown.candidate, shown'.candidate) && forall x | x in cands :: !Preferred(x, shown'.candidate)
    decreases |cands|
  {
    hide TrackerInv, AllIdsOk, EmitOne, EqualFiles, Preferred, OnlyPatchesAdded, Joined, ShownFile, CandidateIdsOk;
    OnlyPatchesRefl(w.c);
    NotPreferredToItself(ShownFile(w.t, content).value.candidate);
    if cands != [] {
      InvOfTracker(w);
      FirstIdsOk(w.c, cands);
      RestIdsOk(w, cands, explicit);
      var w1 := EmitOne(w, cands[0], explicit);
      FirstEqualJoins(w, cands, content, explicit);
      PreferredFileIsShown(w1, cands[1..], content, explicit);
      var w' := EmitAll(w1, cands[1..], explicit);
      OnlyPatchesTransitive(w.c, w1.c, w'.c);
      var first, shown, shown1, last := cands[0], ShownFile(w.t, content).value.candidate,
        ShownFile(w1.t, content).value.candidate, ShownFile(w'.t, content).value.candidate;
      BestOfThree(first, shown, shown1, last);
      assert forall x | x in cands :: x == first || x in cands[1..];
    }
  }

  lemma NotPreferredToItself(a: Candidate)
    ensures !Preferred(a, a)
  {
  }

  lemma BestOfThree(first: Candidate, shown: Candidate, shown1: Candidate, last: Candidate)
    requires shown1 == (if Preferred(first, shown) then first else shown) && !Preferred(shown1, last)
    ensures !Preferred(first, last) && !Preferred(shown, last)
  {
  }

  lemma FirstEqualJoins(w: World, cands: seq<Candidate>, content: string, explicit: bool)
    requires TrackerInv(w) && CoordInv(w.c) && cands != [] && CandidateIdsOk(w.c, cands[0])
    requires EqualFiles(w, cands, content, explicit) && ShownFile(w.t, content).Some?
    ensures var w1 := EmitOne(w, cands[0], explicit);
      && OnlyPatchesAdded(w.c, w1.c) && ShownFile(w1.t, content).Some?
      && var shown, shown1 := ShownFile(w.t, content).value, ShownFile(w1.t, content).value;
      && shown1.artifactId == shown.artifactId
      && shown1.candidate == (if Preferred(cands[0], shown.candidate) then cands[0] else shown.candidate)
      && EqualFiles(w1, cands[1..], content, explicit)
  {
    hide TrackerInv, EmitOne, Preferred, OnlyPatchesAdded, Joined, LeftAlone, CoordInv;
    var cand := cands[0];
    EqualFileJoins(w, cand, explicit);
    JoinedFacts(w, EmitOne(w, cand, explicit), cand, WithSkill(w.t, cand.data), content);
    forall x | x in cands[1..]
      ensures x.data.path != cand.data.path && !LeftAlone(EmitOne(w, cand, explicit).t, x, explicit)
    {
      var i :| 0 <= i < |cands[1..]| && cands[1..][i] == x;
      assert cands[i + 1] == x;
      StillTouched(w.t, EmitOne(w, cand, explicit).t, x, explicit);
    }
  }

  lemma StillTouched(t: Tracker, t': Tracker, x: Candidate, explicit: bool)
    requires t'.baseline == t.baseline && t'.turnStartedAtMs == t.turnStartedAtMs && t.emitted.Keys <= t'.emitted.Keys
    requires !LeftAlone(t, x, explicit)
    ensures !LeftAlone(t', x, explicit)
  {
  }
}

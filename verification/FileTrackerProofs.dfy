/** What scans, demotions and foreign coordinator operations keep together: every emitted path keeps
    its card, so the tracker never reaches its last branch and opens each path once. */
module FileTrackerProofs {
  import opened CoordinatorProofs
  import opened CoordinatorSpec
  import opened FileTrackerSpec
  import opened Options

  ghost predicate Enumerates(order: seq<string>, keys: set<string>) {
    && (forall i: nat | i < |order| :: order[i] in keys)
    && (forall k | k in keys :: k in order)
    && (forall i: nat, j: nat | i < j < |order| :: order[i] != order[j])
  }

  /** Every emitted path resolves to a card, and content entries name existing cards. */
  ghost predicate TrackerInv(w: World) {
    && CoordInv(w.c)
    && Enumerates(w.t.emittedOrder, w.t.emitted.Keys)
    && w.t.emitted.Keys <= w.c.pathIndex.Keys
    && (forall ck | ck in w.t.emittedByContent :: w.t.emittedByContent[ck].artifactId in w.c.records)
  }

  /** Growth of the two worlds: no path, record or emitted entry disappears. */
  ghost predicate Grows(w: World, w': World) {
    && w.c.pathIndex.Keys <= w'.c.pathIndex.Keys
    && w.c.records.Keys <= w'.c.records.Keys
    && w.t.emitted.Keys <= w'.t.emitted.Keys
  }

  lemma PathsResolve(c: Coord, path: string)
    requires CoordInv(c)
    ensures Resolves(c, path) <==> path in c.pathIndex
  {
  }

  lemma PutEmittedEnumerates(t: Tracker, key: string, record: Emitted)
    requires Enumerates(t.emittedOrder, t.emitted.Keys)
    ensures Enumerates(PutEmitted(t, key, record).emittedOrder, PutEmitted(t, key, record).emitted.Keys)
  {
    var t' := PutEmitted(t, key, record);
    if key !in t.emitted {
      forall k | k in t'.emitted.Keys
        ensures k in t'.emittedOrder
      {
        assert k == t'.emittedOrder[|t.emittedOrder|] || k in t.emittedOrder;
      }
    }
  }

  lemma PatchArtifactKeeps(c: Coord, id: string, patch: Patch)
    requires CoordInv(c)
    ensures CoordInv(PatchArtifact(c, id, patch))
    ensures PatchArtifact(c, id, patch).pathIndex.Keys == c.pathIndex.Keys
    ensures PatchArtifact(c, id, patch).records.Keys == c.records.Keys
  {
    if id in c.records {
      EmitPatchKeepsInv(c, id, patch);
    }
  }

  lemma PatchAddsPatch(c: Coord, id: string, patch: Patch)
    ensures OnlyPatchesAdded(c, PatchArtifact(c, id, patch))
  {
  }

  lemma OnlyPatchesRefl(c: Coord)
    ensures OnlyPatchesAdded(c, c)
  {
  }

  lemma OnlyPatchesTransitive(c0: Coord, c1: Coord, c2: Coord)
    requires OnlyPatchesAdded(c0, c1) && OnlyPatchesAdded(c1, c2)
    ensures OnlyPatchesAdded(c0, c2)
  {
    forall i: nat | |c0.events| <= i < |c2.events|
      ensures c2.events[i].Patched?
    {
      if i < |c1.events| { assert c2.events[..|c1.events|][i] == c1.events[i]; }
    }
    assert c2.events[..|c0.events|] == c2.events[..|c1.events|][..|c0.events|];
  }

  lemma AdoptedKeeps(w: World, cand: Candidate, data: FileData)
    requires CoordInv(w.c) && (cand.published.Some? ==> cand.published.value.artifactId != "")
    ensures var c := Adopted(w, cand, data);
      && CoordInv(c) && w.c.pathIndex.Keys <= c.pathIndex.Keys
      && w.c.records.Keys <= c.records.Keys && (CandidateIdsOk(w.c, cand) ==> cand.freshId !in c.records)
      && (c != w.c ==> Resolves(c, data.path))
      && (forall id | id in c.records ::
            id in w.c.records || (cand.published.Some? && id == cand.published.value.artifactId))
  {
    if cand.published.Some? {
      AdoptFileKeepsInv(w.c, cand.published.value.artifactId, data.path, AdoptSeed(data, cand.published.value));
    }
  }

  /** The branch for an emitted file whose path resolves to no card is dead. */
  lemma UnresolvedIsUnreachable(w: World, cand: Candidate, explicit: bool)
    requires TrackerInv(w)
    ensures !BranchOf(w, cand, explicit).Unresolved?
  {
    PathsResolve(w.c, cand.data.path);
  }

  lemma BranchFacts(w: World, cand: Candidate, explicit: bool)
    requires TrackerInv(w)
    ensures var key, c := cand.data.path, Adopted(w, cand, WithSkill(w.t, cand.data));
      && (BranchOf(w, cand, explicit).OnCard? ==> key in c.pathIndex)
      && (BranchOf(w, cand, explicit).NewPath? ==> key !in w.t.emitted && !Resolves(c, key))
      && (BranchOf(w, cand, explicit).Page? ==> IsRenderableArtifactPath(c, key))
      && (BranchOf(w, cand, explicit).Skip? <==> Skipped(w.t, cand, explicit))
  {
  }

  lemma IndexedIdExists(c: Coord, path: string)
    requires CoordInv(c) && path in c.pathIndex
    ensures c.pathIndex[path] in c.records
  {
  }

  lemma RefreshCardKeeps(w: World, cand: Candidate, data: FileData, id: string)
    requires TrackerInv(w) && data.path in w.c.pathIndex && id in w.c.records
    ensures var w' := RefreshCard(w, cand, data, id);
      TrackerInv(w') && Grows(w, w') && w'.c.records.Keys == w.c.records.Keys
  {
    hide PatchArtifact, CoordInv, FilePatch, Enumerates;
    PatchArtifactKeeps(w.c, id, FilePatch(data));
    PutEmittedEnumerates(w.t, data.path, Emitted(id, FingerprintOf(cand), cand.content.Or("path:" + data.path), data));
  }

  lemma EmitOnCardKeeps(w: World, cand: Candidate, data: FileData)
    requires TrackerInv(w) && data.path in w.c.pathIndex
    ensures var w' := EmitOnCard(w, cand, data);
      TrackerInv(w') && Grows(w, w') && w'.c.records.Keys == w.c.records.Keys
  {
    hide RefreshCard, CoordInv, Enumerates;
    IndexedIdExists(w.c, data.path);
    RefreshCardKeeps(w, cand, data, w.c.pathIndex[data.path]);
  }

  lemma BindPathFacts(c: Coord, id: string, path: string)
    requires id in c.records
    ensures path in BindPath(c, id, path).pathIndex && BindPath(c, id, path).records.Keys == c.records.Keys
  {
  }

  lemma EmitNewPathKeeps(w: World, cand: Candidate, data: FileData)
    requires TrackerInv(w) && cand.freshId != "" && cand.freshId !in w.c.records
    ensures TrackerInv(EmitNewPath(w, cand, data)) && Grows(w, EmitNewPath(w, cand, data))
    ensures EmitNewPath(w, cand, data).c.records.Keys <= w.c.records.Keys + {cand.freshId}
  {
    if cand.content.Some? && cand.content.value in w.t.emittedByContent {
      JoinCardKeeps(w, cand, data);
    } else {
      OpenCardKeeps(w, cand, data);
    }
  }

  lemma JoinCardKeeps(w: World, cand: Candidate, data: FileData)
    requires TrackerInv(w) && cand.content.Some? && cand.content.value in w.t.emittedByContent
    ensures TrackerInv(EmitNewPath(w, cand, data)) && Grows(w, EmitNewPath(w, cand, data))
    ensures EmitNewPath(w, cand, data).c.records.Keys == w.c.records.Keys
  {
    hide PatchArtifact, BindPath, CoordInv, FilePatch, Enumerates, EmitNewPath, PutEmitted;
    var key, ck, fp := data.path, cand.content.value, FingerprintOf(cand);
    var id := w.t.emittedByContent[ck].artifactId;
    BindPathKeepsInv(w.c, id, key);
    BindPathFacts(w.c, id, key);
    PutEmittedEnumerates(w.t, key, Emitted(id, fp, ck, data));
    PatchArtifactKeeps(BindPath(w.c, id, key), id, FilePatch(data));
    JoinCardShape(w, cand, data);
    GrownKeeps(w, EmitNewPath(w, cand, data), key);
  }

  lemma JoinCardShape(w: World, cand: Candidate, data: FileData)
    requires CoordInv(w.c) && cand.content.Some? && cand.content.value in w.t.emittedByContent
    ensures var w' := EmitNewPath(w, cand, data);
      var ck, id := cand.content.value, w.t.emittedByContent[cand.content.value].artifactId;
      && w'.t.emitted.Keys == w.t.emitted.Keys + {data.path}
      && w'.t.emitted.Keys == PutEmitted(w.t, data.path, Emitted(id, FingerprintOf(cand), ck, data)).emitted.Keys
      && w'.t.emittedOrder == PutEmitted(w.t, data.path, Emitted(id, FingerprintOf(cand), ck, data)).emittedOrder
      && (forall k | k in w'.t.emittedByContent ::
            k in w.t.emittedByContent && w'.t.emittedByContent[k].artifactId == w.t.emittedByContent[k].artifactId)
      && (w'.c == BindPath(w.c, id, data.path)
          || w'.c == PatchArtifact(BindPath(w.c, id, data.path), id, FilePatch(data)))
  {
    hide PatchArtifact, BindPath, CoordInv, FilePatch, PreferCandidate;
  }

  /** One more emitted path, indexed by a coherent coordinator that forgot nothing. */
  lemma GrownKeeps(w: World, w': World, key: string)
    requires TrackerInv(w) && CoordInv(w'.c)
    requires w.c.pathIndex.Keys <= w'.c.pathIndex.Keys && key in w'.c.pathIndex.Keys
    requires w.c.records.Keys <= w'.c.records.Keys
    requires w'.t.emitted.Keys == w.t.emitted.Keys + {key} && Enumerates(w'.t.emittedOrder, w'.t.emitted.Keys)
    requires forall ck | ck in w'.t.emittedByContent :: w'.t.emittedByContent[ck].artifactId in w'.c.records
    ensures TrackerInv(w') && Grows(w, w')
  {
    hide CoordInv, Enumerates;
  }

  lemma OpenCardKeeps(w: World, cand: Candidate, data: FileData)
    requires TrackerInv(w) && cand.freshId != "" && cand.freshId !in w.c.records
    requires !(cand.content.Some? && cand.content.value in w.t.emittedByContent)
    ensures TrackerInv(EmitNewPath(w, cand, data)) && Grows(w, EmitNewPath(w, cand, data))
    ensures EmitNewPath(w, cand, data).c.records.Keys <= w.c.records.Keys + {cand.freshId}
  {
    hide OpenFileByPath, FileSeed, Enumerates;
    var key, fp := data.path, FingerprintOf(cand);
    OpenFileKeepsInv(w.c, key, FileSeed(data), cand.freshId);
    var c1 := OpenFileByPath(w.c, key, FileSeed(data), cand.freshId);
    PutEmittedEnumerates(w.t, key, Emitted(c1.pathIndex[key], fp, cand.content.Or("path:" + key), data));
  }

  /** One pass of the emit loop keeps the invariant and forgets nothing. */
  lemma EmitOneKeeps(w: World, cand: Candidate, explicit: bool)
    requires TrackerInv(w) && CandidateIdsOk(w.c, cand)
    ensures var w' := EmitOne(w, cand, explicit);
      && TrackerInv(w') && Grows(w, w')
      && (forall id | id in w'.c.records ::
            id in w.c.records || id == cand.freshId || (cand.published.Some? && id == cand.published.value.artifactId))
  {
    hide CoordInv, EmitPage, EmitOnCard, EmitNewPath, EmitUnresolved, Adopted, Skipped, BranchOf, Enumerates;
    var data := WithSkill(w.t, cand.data);
    AdoptedKeeps(w, cand, data);
    UnresolvedIsUnreachable(w, cand, explicit);
    BranchFacts(w, cand, explicit);
    var w1 := World(w.t, Adopted(w, cand, data));
    match BranchOf(w, cand, explicit)
    case Skip =>
    case Page => EmitPageKeeps(w1, cand, data);
    case OnCard => EmitOnCardKeeps(w1, cand, data);
    case NewPath => EmitNewPathKeeps(w, cand, data);
    case Unresolved =>
  }

  lemma EmitPageKeeps(w: World, cand: Candidate, data: FileData)
    requires TrackerInv(w)
    ensures var w' := EmitPage(w, cand, data);
      TrackerInv(w') && Grows(w, w') && w'.c.records.Keys == w.c.records.Keys
  {
    hide CoordInv, PatchArtifact, PagePatch, Enumerates;
    if data.path in w.c.pathIndex { PatchArtifactKeeps(w.c, w.c.pathIndex[data.path], PagePatch(data, cand.blocked)); }
  }

  // ---------- silence and single opening ----------

  ghost predicate OnlyPatchesAdded(c: Coord, c': Coord) {
    && |c.events| <= |c'.events| && c'.events[..|c.events|] == c.events
    && forall i: nat | |c.events| <= i < |c'.events| :: c'.events[i].Patched?
  }

  /** A file whose fingerprint is known emits nothing: not on its own card, nor on a page's. */
  lemma UnchangedFileIsSilent(w: World, cand: Candidate, explicit: bool)
    requires TrackerInv(w) && CandidateIdsOk(w.c, cand) && cand.data.path in w.c.pathIndex
    requires if IsRenderableArtifactPath(w.c, cand.data.path)
      then SameAs(w.t.reconciledRich, cand.data.path, FingerprintOf(cand))
      else Remembers(w.t, cand.data.path, FingerprintOf(cand))
    ensures EmitOne(w, cand, explicit) == w
  {
    PathsResolve(w.c, cand.data.path);
  }

  /** Whatever a pass does not skip, it remembers under the fingerprint it saw. */
  lemma PassRemembersFingerprint(w: World, cand: Candidate, explicit: bool)
    requires TrackerInv(w) && CandidateIdsOk(w.c, cand) && !Skipped(w.t, cand, explicit)
    ensures var w' := EmitOne(w, cand, explicit);
      var key := cand.data.path;
      || SameAs(w'.t.reconciledRich, key, FingerprintOf(cand))
      || Remembers(w'.t, key, FingerprintOf(cand))
  {
    hide PatchArtifact, CoordInv, Adopted, Skipped, PagePatch, EmitOnCard, EmitNewPath, EmitUnresolved, BranchOf;
    var data := WithSkill(w.t, cand.data);
    AdoptedKeeps(w, cand, data);
    UnresolvedIsUnreachable(w, cand, explicit);
    BranchFacts(w, cand, explicit);
    match BranchOf(w, cand, explicit)
    case OnCard => CardRemembers(World(w.t, Adopted(w, cand, data)), cand, data);
    case NewPath => NewPathRemembers(w, cand, data);
    case _ =>
  }

  lemma CardRemembers(w: World, cand: Candidate, data: FileData)
    requires data.path in w.c.pathIndex
    ensures Remembers(EmitOnCard(w, cand, data).t, data.path, FingerprintOf(cand))
  {
    hide PatchArtifact, FilePatch;
  }

  lemma NewPathRemembers(w: World, cand: Candidate, data: FileData)
    requires CoordInv(w.c)
    ensures Remembers(EmitNewPath(w, cand, data).t, data.path, FingerprintOf(cand))
  {
    hide PatchArtifact, CoordInv, OpenFileByPath, BindPath, PreferCandidate;
  }

  // ---------- whole turns ----------

  /** New data of an emitted file, in its entry and on its card. */
  lemma EntryPatchKeeps(w: World, key: string, data: FileData)
    requires TrackerInv(w) && key in w.t.emitted
    ensures var record := w.t.emitted[key];
      var w' := World(w.t.(emitted := w.t.emitted[key := record.(data := data)]),
                      PatchArtifact(w.c, record.artifactId, FilePatch(data)));
      && TrackerInv(w') && Grows(w, w') && w'.c.records.Keys == w.c.records.Keys && OnlyPatchesAdded(w.c, w'.c)
  {
    hide PatchArtifact, CoordInv, FilePatch, OnlyPatchesAdded, Enumerates;
    var record := w.t.emitted[key];
    PatchArtifactKeeps(w.c, record.artifactId, FilePatch(data));
    PatchAddsPatch(w.c, record.artifactId, FilePatch(data));
    assert w.t.emitted[key := record.(data := data)].Keys == w.t.emitted.Keys;
  }

  lemma {:induction false} DemoteFromKeeps(w: World, i: nat, patched: set<string>)
    requires TrackerInv(w)
    ensures var w' := DemoteFrom(w, i, patched);
      TrackerInv(w') && Grows(w, w') && w'.c.records.Keys == w.c.records.Keys && OnlyPatchesAdded(w.c, w'.c)
    decreases |w.t.emittedOrder| - i
  {
    hide PatchArtifact, FilePatch, OnlyPatchesAdded, MustDemote, TrackerInv;
    OnlyPatchesRefl(w.c);
    if i < |w.t.emittedOrder| {
      var key := w.t.emittedOrder[i];
      if key !in w.t.emitted || w.t.emitted[key].artifactId in patched || !MustDemote(w.t, w.t.emitted[key].data) {
        DemoteFromKeeps(w, i + 1, patched);
      } else {
        var record := w.t.emitted[key];
        var data := record.data.(role := Some(Supporting));
        var w1 := World(w.t.(emitted := w.t.emitted[key := record.(data := data)]),
                        PatchArtifact(w.c, record.artifactId, FilePatch(data)));
        EntryPatchKeeps(w, key, data);
        DemoteFromKeeps(w1, i + 1, patched + {record.artifactId});
        OnlyPatchesTransitive(w.c, w1.c, DemoteFrom(w1, i + 1, patched + {record.artifactId}).c);
      }
    }
  }

  lemma {:induction false} SweepFromKeeps(w: World, i: nat, existing: set<string>)
    requires TrackerInv(w)
    ensures var w' := SweepFrom(w, i, existing);
      TrackerInv(w') && Grows(w, w') && w'.c.records.Keys == w.c.records.Keys && OnlyPatchesAdded(w.c, w'.c)
    decreases |w.t.emittedOrder| - i
  {
    hide PatchArtifact, FilePatch, OnlyPatchesAdded, Misreported, TrackerInv;
    OnlyPatchesRefl(w.c);
    if i < |w.t.emittedOrder| {
      var key := w.t.emittedOrder[i];
      if key !in w.t.emitted || !Misreported(existing, key, w.t.emitted[key].data) {
        SweepFromKeeps(w, i + 1, existing);
      } else {
        var record := w.t.emitted[key];
        var data := record.data.(missing := key !in existing);
        var w1 := World(w.t.(emitted := w.t.emitted[key := record.(data := data)]),
                        PatchArtifact(w.c, record.artifactId, FilePatch(data)));
        EntryPatchKeeps(w, key, data);
        SweepFromKeeps(w1, i + 1, existing);
        OnlyPatchesTransitive(w.c, w1.c, SweepFrom(w1, i + 1, existing).c);
      }
    }
  }

  lemma {:induction false} DemoteShape(w: World, i: nat, patched: set<string>)
    requires TrackerInv(w)
    ensures var w' := DemoteFrom(w, i, patched);
      && w'.t == w.t.(emitted := w'.t.emitted) && w'.t.emitted.Keys == w.t.emitted.Keys
      && w'.c.pathIndex.Keys == w.c.pathIndex.Keys
    decreases |w.t.emittedOrder| - i
  {
    hide PatchArtifact, CoordInv, FilePatch, MustDemote, Enumerates;
    if i < |w.t.emittedOrder| {
      var key := w.t.emittedOrder[i];
      if key !in w.t.emitted || w.t.emitted[key].artifactId in patched || !MustDemote(w.t, w.t.emitted[key].data) {
        DemoteShape(w, i + 1, patched);
      } else {
        var record := w.t.emitted[key];
        var data := record.data.(role := Some(Supporting));
        PatchArtifactKeeps(w.c, record.artifactId, FilePatch(data));
        assert (w.t.emitted[key := record.(data := data)]).Keys == w.t.emitted.Keys;
        DemoteShape(World(w.t.(emitted := w.t.emitted[key := record.(data := data)]),
                          PatchArtifact(w.c, record.artifactId, FilePatch(data))),
                    i + 1, patched + {record.artifactId});
      }
    }
  }

  /** Only the entries, their cards and the latch change. */
  lemma RichLatched(w: World, rich: bool)
    requires TrackerInv(w)
    ensures var w' := LatchRich(w, rich);
      && TrackerInv(w') && Grows(w, w') && w'.t.emitted.Keys == w.t.emitted.Keys
      && w'.c.pathIndex.Keys == w.c.pathIndex.Keys && w'.c.records.Keys == w.c.records.Keys
      && w'.t == w.t.(emitted := w'.t.emitted, turnHasRichDeliverable := w.t.turnHasRichDeliverable || rich)
  {
    hide CoordInv, DemoteFrom, Enumerates;
    var w1 := World(w.t.(turnHasRichDeliverable := true), w.c);
    DemoteFromKeeps(w1, 0, {});
    DemoteShape(w1, 0, {});
  }

  lemma PrimaryLatched(w: World, mintable: seq<Candidate>, document: bool)
    requires TrackerInv(w)
    ensures var w' := LatchPrimary(w, mintable, document);
      && TrackerInv(w') && Grows(w, w') && w'.t.emitted.Keys == w.t.emitted.Keys
      && w'.c.pathIndex.Keys == w.c.pathIndex.Keys && w'.c.records.Keys == w.c.records.Keys
      && w'.t == w.t.(emitted := w'.t.emitted, turnHasPrimaryDoc := w'.t.turnHasPrimaryDoc)
  {
    hide CoordInv, DemoteFrom, Enumerates, SomeEligible;
    var w1 := World(w.t.(turnHasPrimaryDoc := true), w.c);
    DemoteFromKeeps(w1, 0, {});
    DemoteShape(w1, 0, {});
  }

  /** A changed file of an emitted path is published again: one patch with its new data, on its card. */
  lemma ChangedFileIsRepublished(w: World, cand: Candidate, explicit: bool)
    requires TrackerInv(w) && CandidateIdsOk(w.c, cand) && cand.data.path in w.t.emitted
    requires BranchOf(w, cand, explicit).OnCard? && w.t.emitted[cand.data.path].fingerprint != FingerprintOf(cand)
    ensures var w' := EmitOne(w, cand, explicit);
      var key, data := cand.data.path, WithSkill(w.t, cand.data);
      && key in w.c.pathIndex
      && w'.c.events == w.c.events + [Patched(w.c.pathIndex[key], NormalizePatch(w.c.role, FilePatch(data)))]
      && key in w'.t.emitted && w'.t.emitted[key].data == data && w'.t.emitted[key].fingerprint == FingerprintOf(cand)
      && w'.t.emitted[key].artifactId == w.c.pathIndex[key]
  {
    hide CoordInv, Enumerates, BranchOf, EmitPage, EmitOnCard, EmitNewPath, EmitUnresolved, PatchArtifact;
    var data := WithSkill(w.t, cand.data);
    BranchFacts(w, cand, explicit);
    IndexedIdExists(w.c, data.path);
    assert Adopted(w, cand, data) == w.c;
    RefreshSends(w, cand, data, w.c.pathIndex[data.path]);
    OtherFingerprintRefreshes(w, cand, data);
  }

  lemma OtherFingerprintRefreshes(w: World, cand: Candidate, data: FileData)
    requires data.path in w.c.pathIndex && !Remembers(w.t, data.path, FingerprintOf(cand))
    ensures EmitOnCard(w, cand, data) == RefreshCard(w, cand, data, w.c.pathIndex[data.path])
  {
  }

  lemma RefreshSends(w: World, cand: Candidate, data: FileData, card: string)
    requires card in w.c.records
    ensures var w' := RefreshCard(w, cand, data, card);
      && w'.c.events == w.c.events + [Patched(card, NormalizePatch(w.c.role, FilePatch(data)))]
      && data.path in w'.t.emitted && w'.t.emitted[data.path].data == data
      && w'.t.emitted[data.path].fingerprint == FingerprintOf(cand) && w'.t.emitted[data.path].artifactId == card
  {
    hide FilePatch, NormalizePatch, PatchRecord, IndexPaths;
  }

  lemma {:induction false} DemoteRemembers(w: World, i: nat, patched: set<string>, path: string, fp: Fingerprint)
    requires Remembers(w.t, path, fp)
    ensures Remembers(DemoteFrom(w, i, patched).t, path, fp)
    decreases |w.t.emittedOrder| - i
  {
    hide PatchArtifact, FilePatch, MustDemote;
    if i < |w.t.emittedOrder| {
      var key := w.t.emittedOrder[i];
      if key !in w.t.emitted || w.t.emitted[key].artifactId in patched || !MustDemote(w.t, w.t.emitted[key].data) {
        DemoteRemembers(w, i + 1, patched, path, fp);
      } else {
        var record := w.t.emitted[key];
        var data := record.data.(role := Some(Supporting));
        var w1 := World(w.t.(emitted := w.t.emitted[key := record.(data := data)]),
                        PatchArtifact(w.c, record.artifactId, FilePatch(data)));
        DemoteRemembers(w1, i + 1, patched + {record.artifactId}, path, fp);
      }
    }
  }

  lemma {:induction false} SweepRemembers(w: World, i: nat, existing: set<string>, path: string, fp: Fingerprint)
    requires Remembers(w.t, path, fp)
    ensures Remembers(SweepFrom(w, i, existing).t, path, fp)
    decreases |w.t.emittedOrder| - i
  {
    hide PatchArtifact, FilePatch, Misreported;
    if i < |w.t.emittedOrder| {
      var key := w.t.emittedOrder[i];
      if key !in w.t.emitted || !Misreported(existing, key, w.t.emitted[key].data) {
        SweepRemembers(w, i + 1, existing, path, fp);
      } else {
        var record := w.t.emitted[key];
        var data := record.data.(missing := key !in existing);
        var w1 := World(w.t.(emitted := w.t.emitted[key := record.(data := data)]),
                        PatchArtifact(w.c, record.artifactId, FilePatch(data)));
        SweepRemembers(w1, i + 1, existing, path, fp);
      }
    }
  }

  // ---------- vanished files ----------

  /** The same entry but for the flag. */
  predicate FlagOnly(before: Emitted, after: Emitted, missing: bool) {
    after == before.(data := before.data.(missing := missing))
  }

  lemma {:induction false} SweepFromShape(w: World, i: nat, existing: set<string>)
    ensures var w' := SweepFrom(w, i, existing);
      w'.t == w.t.(emitted := w'.t.emitted) && w'.t.emitted.Keys == w.t.emitted.Keys
    decreases |w.t.emittedOrder| - i
  {
    hide PatchArtifact, FilePatch, Misreported;
    if i < |w.t.emittedOrder| {
      var key := w.t.emittedOrder[i];
      if key !in w.t.emitted || !Misreported(existing, key, w.t.emitted[key].data) {
        SweepFromShape(w, i + 1, existing);
      } else {
        var record := w.t.emitted[key];
        var data := record.data.(missing := key !in existing);
        assert (w.t.emitted[key := record.(data := data)]).Keys == w.t.emitted.Keys;
        SweepFromShape(World(w.t.(emitted := w.t.emitted[key := record.(data := data)]),
                             PatchArtifact(w.c, record.artifactId, FilePatch(data))), i + 1, existing);
      }
    }
  }

  /** From position `i` on, each record ends with the flag its file calls for. */
  lemma {:induction false} SweepFromFlag(w: World, i: nat, existing: set<string>, j: nat)
    requires Enumerates(w.t.emittedOrder, w.t.emitted.Keys) && j < |w.t.emittedOrder|
    ensures var key := w.t.emittedOrder[j];
      && key in SweepFrom(w, i, existing).t.emitted
      && FlagOnly(w.t.emitted[key], SweepFrom(w, i, existing).t.emitted[key],
                  if j >= i then key !in existing else w.t.emitted[key].data.missing)
    decreases |w.t.emittedOrder| - i
  {
    hide PatchArtifact, FilePatch;
    if i < |w.t.emittedOrder| {
      var key := w.t.emittedOrder[i];
      if !Misreported(existing, key, w.t.emitted[key].data) {
        SweepFromFlag(w, i + 1, existing, j);
      } else {
        var record := w.t.emitted[key];
        var data := record.data.(missing := key !in existing);
        assert (w.t.emitted[key := record.(data := data)]).Keys == w.t.emitted.Keys;
        SweepFromFlag(World(w.t.(emitted := w.t.emitted[key := record.(data := data)]),
                            PatchArtifact(w.c, record.artifactId, FilePatch(data))), i + 1, existing, j);
        assert j != i ==> w.t.emittedOrder[j] != key;
      }
    }
  }

  lemma {:induction false} NothingToSweep(w: World, i: nat, existing: set<string>)
    requires forall key | key in w.t.emitted :: !Misreported(existing, key, w.t.emitted[key].data)
    ensures SweepFrom(w, i, existing) == w
    decreases |w.t.emittedOrder| - i
  {
    hide Misreported;
    if i < |w.t.emittedOrder| { NothingToSweep(w, i + 1, existing); }
  }

  /** After a sweep each record says whether its file is there, nothing else of it changed, and a second sweep
      finds nothing to do. */
  lemma SweepTellsTheTruth(w: World, existing: set<string>)
    requires TrackerInv(w)
    ensures var w' := Sweep(w, existing);
      && w'.t == w.t.(emitted := w'.t.emitted) && w'.t.emitted.Keys == w.t.emitted.Keys
      && (forall key | key in w.t.emitted :: FlagOnly(w.t.emitted[key], w'.t.emitted[key], key !in existing))
      && Sweep(w', existing) == w'
      && (w' == w <==> forall key | key in w.t.emitted :: !Misreported(existing, key, w.t.emitted[key].data))
  {
    hide CoordInv, SweepFrom;
    SweepFromShape(w, 0, existing);
    var w' := Sweep(w, existing);
    forall key | key in w.t.emitted
      ensures FlagOnly(w.t.emitted[key], w'.t.emitted[key], key !in existing)
      ensures !Misreported(existing, key, w'.t.emitted[key].data)
    {
      var j: nat :| j < |w.t.emittedOrder| && w.t.emittedOrder[j] == key;
      SweepFromFlag(w, 0, existing, j);
    }
    NothingToSweep(w', 0, existing);
    if forall key | key in w.t.emitted :: !Misreported(existing, key, w.t.emitted[key].data) {
      NothingToSweep(w, 0, existing);
    }
  }
}

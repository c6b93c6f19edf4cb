/** The file tracker with the maps and latches that its loops update in place. The coordinator it
    publishes through is the value that `Coordinator.dfy` proves its class against. */
module FileTracker {
  import opened CoordinatorProofs
  import opened CoordinatorSpec
  import opened FileTrackerProofs
  import opened FileTrackerRoles
  import opened FileTrackerSpec
  import opened Options

  class TurnFileTracker {
    const turnStartedAtMs: int
    var baseline: map<string, Fingerprint>
    var emitted: map<string, Emitted>
    var emittedOrder: seq<string>
    var emittedByContent: map<string, ContentArtifact>
    var reconciledRich: map<string, Fingerprint>
    var lastSkillName: Option<string>
    var turnHasPrimaryDoc: bool
    var turnHasRichDeliverable: bool
    var coordinator: Coord

    ghost function State(): Tracker
      reads this
    {
      Tracker(turnStartedAtMs, baseline, emitted, emittedOrder, emittedByContent, reconciledRich, lastSkillName,
              turnHasPrimaryDoc, turnHasRichDeliverable)
    }

    ghost function Model(): World
      reads this
    {
      World(State(), coordinator)
    }

    constructor (turnStartedAtMs: int, coordinator: Coord)
      ensures Model() == World(Tracker(turnStartedAtMs, map[], map[], [], map[], map[], None, false, false),
        coordinator)
    {
      this.turnStartedAtMs, this.coordinator := turnStartedAtMs, coordinator;
      baseline, emitted, emittedOrder, emittedByContent, reconciledRich := map[], map[], [], map[], map[];
      lastSkillName, turnHasPrimaryDoc, turnHasRichDeliverable := None, false, false;
    }

    /** Set an entry of the ordered map of emitted files. */
    method SetEmitted(key: string, record: Emitted)
      modifies this`emitted, this`emittedOrder
      ensures State() == PutEmitted(old(State()), key, record)
    {
      if key !in emitted {
        emittedOrder := emittedOrder + [key];
      }
      emitted := emitted[key := record];
    }

    method SetContent(content: Option<string>, id: string, cand: Candidate)
      modifies this`emittedByContent
      ensures emittedByContent == if content.Some?
        then old(emittedByContent)[content.value := ContentArtifact(id, cand)] else old(emittedByContent)
    {
      if content.Some? {
        emittedByContent := emittedByContent[content.value := ContentArtifact(id, cand)];
      }
    }

    method PublishPage(cand: Candidate, data: FileData)
      modifies this
      ensures Model() == EmitPage(old(Model()), cand, data)
    {
      var key, next := data.path, FingerprintOf(cand);
      if SameAs(reconciledRich, key, next) || key !in coordinator.pathIndex {
        return;
      }
      reconciledRich := reconciledRich[key := next];
      coordinator := PatchArtifact(coordinator, coordinator.pathIndex[key], PagePatch(data, cand.blocked));
    }

    method RefreshCard(cand: Candidate, data: FileData)
      requires data.path in coordinator.pathIndex
      modifies this
      ensures Model() == EmitOnCard(old(Model()), cand, data)
    {
      var key, next := data.path, FingerprintOf(cand);
      if key in emitted && emitted[key].fingerprint == next {
        return;
      }
      var id := coordinator.pathIndex[key];
      SetEmitted(key, Emitted(id, next, cand.content.Or("path:" + key), data));
      if cand.content.Some? && cand.content.value !in emittedByContent {
        SetContent(cand.content, id, cand);
      }
      coordinator := PatchArtifact(coordinator, id, FilePatch(data));
    }

    method EmitPath(cand: Candidate, data: FileData)
      requires CoordInv(coordinator)
      modifies this
      ensures Model() == EmitNewPath(old(Model()), cand, data)
    {
      hide CoordInv, OpenFileByPath, BindPath, PatchArtifact, FilePatch, FileSeed, PreferCandidate;
      var key, next := data.path, FingerprintOf(cand);
      if cand.content.Some? && cand.content.value in emittedByContent {
        var duplicate := emittedByContent[cand.content.value];
        coordinator := BindPath(coordinator, duplicate.artifactId, key);
        SetEmitted(key, Emitted(duplicate.artifactId, next, cand.content.value, data));
        if PreferCandidate(cand, duplicate.candidate) {
          SetContent(cand.content, duplicate.artifactId, cand);
          coordinator := PatchArtifact(coordinator, duplicate.artifactId, FilePatch(data));
        }
        return;
      }
      coordinator := OpenFileByPath(coordinator, key, FileSeed(data), cand.freshId);
      var id := if key in coordinator.pathIndex then coordinator.pathIndex[key] else "";
      SetEmitted(key, Emitted(id, next, cand.content.Or("path:" + key), data));
      SetContent(cand.content, id, cand);
    }

    /** The body of the emit loop. Its last branch, an emitted file without a card, is dead. */
    method EmitCandidate(cand: Candidate, explicit: bool)
      requires TrackerInv(Model()) && CandidateIdsOk(coordinator, cand)
      modifies this
      ensures Model() == EmitOne(old(Model()), cand, explicit)
    {
      hide CoordInv, EmitPage, EmitOnCard, EmitNewPath, EmitUnresolved, AdoptFileByPath, AdoptSeed;
      UnresolvedIsUnreachable(Model(), cand, explicit);
      var key := cand.data.path;
      if !cand.servable || SameAs(baseline, key, FingerprintOf(cand)) {
        return;
      }
      if !explicit && cand.mtimeMs < turnStartedAtMs && cand.ctimeMs < turnStartedAtMs && key !in emitted {
        return;
      }
      var data := if lastSkillName.Some? then cand.data.(skillName := lastSkillName) else cand.data;
      if key !in emitted && !Resolves(coordinator, key) && cand.published.Some? {
        coordinator := AdoptFileByPath(coordinator, cand.published.value.artifactId, key,
          AdoptSeed(data, cand.published.value));
      }
      if IsRenderableArtifactPath(coordinator, key) {
        PublishPage(cand, data);
      } else if Resolves(coordinator, key) {
        RefreshCard(cand, data);
      } else {
        AdoptionResolves(old(Model()), cand, data);
        EmitPath(cand, data);
      }
    }

    /** One pass over the emitted files, patching each card at most once. */
    method DemoteEmittedToSupporting()
      modifies this`emitted, this`coordinator
      ensures Model() == Demote(old(Model()))
    {
      hide PatchArtifact, FilePatch, EligibleAsPrimary;
      var patched: set<string> := {};
      for i := 0 to |emittedOrder|
        invariant DemoteFrom(Model(), i, patched) == Demote(old(Model()))
      {
        var key := emittedOrder[i];
        if key in emitted {
          var record := emitted[key];
          if record.artifactId in patched || EligibleAsPrimary(record.data, turnHasRichDeliverable)
            || record.data.role == Some(Supporting) {
            continue;
          }
          patched := patched + {record.artifactId};
          var data := record.data.(role := Some(Supporting));
          emitted := emitted[key := record.(data := data)];
          coordinator := PatchArtifact(coordinator, record.artifactId, FilePatch(data));
        }
      }
    }

    /** One pass over the emitted files, patching those whose card is wrong about whether there is a file. */
    method SweepMissingEmitted(existing: set<string>)
      modifies this`emitted, this`coordinator
      ensures Model() == Sweep(old(Model()), existing)
    {
      hide PatchArtifact, FilePatch;
      for i := 0 to |emittedOrder|
        invariant SweepFrom(Model(), i, existing) == Sweep(old(Model()), existing)
      {
        var key := emittedOrder[i];
        if key in emitted {
          var record := emitted[key];
          var isThere := key in existing;
          if isThere == !record.data.missing { continue; }
          var data := record.data.(missing := !isThere);
          emitted := emitted[key := record.(data := data)];
          coordinator := PatchArtifact(coordinator, record.artifactId, FilePatch(data));
        }
      }
    }

    method MintFrom(candidates: seq<Candidate>, explicit: bool) returns (mintable: seq<Candidate>)
      ensures mintable == Mint(State(), candidates, explicit)
    {
      hide Mint;
      mintable := [];
      assert candidates[0..] == candidates;
      for i := 0 to |candidates|
        invariant mintable + Mint(State(), candidates[i..], explicit) == Mint(State(), candidates, explicit)
      {
        MintStep(State(), candidates, i, explicit);
        if explicit || candidates[i].rootKind.Output? || EligibleAsPrimary(candidates[i].data, turnHasRichDeliverable)
          || candidates[i].data.path in emitted {
          mintable := mintable + [candidates[i]];
        }
      }
      NothingToMint(State(), candidates[|candidates|..], explicit);
    }

    /** Both latches, the demotions they cause, and the curated candidates. */
    method PrepareBatch(b: Batch) returns (curated: seq<Candidate>)
      modifies this
      ensures (Model(), curated) == Prepared(old(Model()), b)
    {
      hide Demote, EligibleAsPrimary, Mint;
      if !turnHasRichDeliverable && HasCompletedPage(coordinator) {
        turnHasRichDeliverable := true;
        DemoteEmittedToSupporting();
      }
      var mintable := MintFrom(b.candidates, b.explicit);
      var someEligible := exists i: nat | i < |mintable| :: EligibleAsPrimary(mintable[i].data, turnHasRichDeliverable);
      if (someEligible || HasPrimaryDocument(coordinator)) && !turnHasPrimaryDoc {
        turnHasPrimaryDoc := true;
        DemoteEmittedToSupporting();
      }
      curated := CurateDeliverables(b.pathOrder, mintable, turnHasPrimaryDoc, turnHasRichDeliverable);
    }

    /** One scan: prepare the batch, then emit its candidates one by one. */
    method EmitBatch(b: Batch)
      requires ScanReady(Model(), b)
      modifies this
      ensures Model() == FileTrackerRoles.EmitCandidates(old(Model()), b)
    {
      var curated := PrepareBatch(b);
      ghost var start := Model();
      hide CoordInv, EmitOne, TrackerInv, AllIdsOk;
      for i := 0 to |curated|
        invariant TrackerInv(Model()) && AllIdsOk(coordinator, curated[i..])
        invariant EmitAll(Model(), curated[i..], b.explicit) == EmitAll(start, curated, b.explicit)
      {
        assert curated[i..][0] == curated[i] && curated[i..][1..] == curated[i + 1..];
        RestIdsOk(Model(), curated[i..], b.explicit);
        FirstIdsOk(coordinator, curated[i..]);
        EmitCandidate(curated[i], b.explicit);
      }
    }
  }

  /** One round of the loop over the candidates. */
  lemma MintStep(t: Tracker, candidates: seq<Candidate>, i: nat, explicit: bool)
    requires i < |candidates|
    ensures Mint(t, candidates[i..], explicit) ==
      (if Mintable(t, candidates[i], explicit) then [candidates[i]] else []) + Mint(t, candidates[i + 1..], explicit)
  {
    assert candidates[i..][1..] == candidates[i + 1..];
  }

  lemma NothingToMint(t: Tracker, candidates: seq<Candidate>, explicit: bool)
    requires candidates == []
    ensures Mint(t, candidates, explicit) == []
  {
  }

  /** Adopting a published card makes the path resolve; without a card the file is new to the turn. */
  lemma AdoptionResolves(w: World, cand: Candidate, data: FileData)
    requires TrackerInv(w) && CandidateIdsOk(w.c, cand) && data.path == cand.data.path
    ensures CoordInv(Adopted(w, cand, data))
    ensures !Resolves(Adopted(w, cand, data), data.path) ==> Adopted(w, cand, data) == w.c && data.path !in w.t.emitted
  {
    AdoptedKeeps(w, cand, data);
    PathsResolve(w.c, data.path);
  }
}

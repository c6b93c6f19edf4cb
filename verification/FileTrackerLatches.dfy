/** The roles of a batch, and what finding a page or a document does to the files that are on cards already. */
module FileTrackerLatches {
  import opened CoordinatorEffects
  import opened CoordinatorProofs
  import opened CoordinatorSpec
  import opened FileTrackerEffects
  import opened FileTrackerOrder
  import opened FileTrackerProofs
  import opened FileTrackerSpec
  import opened Options

  /** Something leads this turn: a page, a document, or a file of the batch. */
  ghost predicate SomethingLeads(cands: seq<Candidate>, primary: bool, rich: bool) {
    primary || rich || exists i: nat :: i < |cands| && MayLead(cands[i].data, rich)
  }

  /** Where something leads, each file of the batch that may lead does and every other supports it; otherwise roles stay
      as they were. Nothing else of a file changes and none is lost. */
  lemma RolesOfBatch(cands: seq<Candidate>, primary: bool, rich: bool, i: nat)
    requires i < |cands|
    ensures var curated := CurateRoles(cands, primary, rich);
      && |curated| == |cands|
      && curated[i].data.role ==
           (if SomethingLeads(cands, primary, rich) then Some(if MayLead(cands[i].data, rich) then Lead else Supporting)
            else cands[i].data.role)
      && curated[i] == cands[i].(data := cands[i].data.(role := curated[i].data.role))
  {
    forall j: nat | j < |cands|
      ensures EligibleAsPrimary(cands[j].data, rich) <==> MayLead(cands[j].data, rich)
    {
      EligibleIs(cands[j].data, rich);
    }
    hide EligibleAsPrimary, MayLead;
    assert SomeEligible(cands, rich) <==> exists j: nat :: j < |cands| && MayLead(cands[j].data, rich);
  }

  lemma EligibleIs(data: FileData, rich: bool)
    ensures EligibleAsPrimary(data, rich) <==> MayLead(data, rich)
  {
  }

  /** The emitted file leads or has no role, and may not lead. */
  predicate Yields(t: Tracker, key: string) {
    key in t.emitted && t.emitted[key].data.role != Some(Supporting)
      && !MayLead(t.emitted[key].data, t.turnHasRichDeliverable)
  }

  /** The file is the first of its card, in the order of emission, that yields. */
  predicate IsDemoted(t: Tracker, i: nat) {
    && i < |t.emittedOrder| && Yields(t, t.emittedOrder[i])
    && forall j: nat | j < i && Yields(t, t.emittedOrder[j]) ::
         t.emitted[t.emittedOrder[j]].artifactId != t.emitted[t.emittedOrder[i]].artifactId
  }

  function Supported(e: Emitted): Emitted { e.(data := e.data.(role := Some(Supporting))) }

  /** The entries to be demoted, from the `i`-th on. */
  function Demotions(t: Tracker, i: nat): seq<Emitted>
    decreases |t.emittedOrder| - i
  {
    if i >= |t.emittedOrder| then []
    else (if IsDemoted(t, i) then [Supported(t.emitted[t.emittedOrder[i]])] else []) + Demotions(t, i + 1)
  }

  /** Each of the cards is sent one patch that says what its file is, in this order, and nothing else is sent. */
  ghost predicate SentEach(c: Coord, c': Coord, entries: seq<Emitted>)
    decreases |entries|
  {
    if entries == [] then c' == c
    else
      exists patch ::
        SaysFile(patch, entries[0].data) && SentEach(PatchArtifact(c, entries[0].artifactId, patch), c', entries[1..])
  }

  /** From the `i`-th entry on, the entries to be demoted support, and all others are as they were. */
  ghost predicate EntriesDemoted(t: Tracker, t': Tracker, i: nat) {
    && t'.emitted.Keys == t.emitted.Keys && t' == t.(emitted := t'.emitted)
    && forall j: nat | i <= j < |t.emittedOrder| && t.emittedOrder[j] in t.emitted ::
         var key := t.emittedOrder[j];
         t'.emitted[key] == if IsDemoted(t, j) then Supported(t.emitted[key]) else t.emitted[key]
  }

  /** The loop so far: entries from the `i`-th on are untouched, and `patched` are the cards of those that yielded. */
  ghost predicate DemotedUpTo(t: Tracker, t': Tracker, i: nat, patched: set<string>) {
    && Enumerates(t.emittedOrder, t.emitted.Keys)
    && t'.emitted.Keys == t.emitted.Keys && t' == t.(emitted := t'.emitted)
    && (forall j: nat | i <= j < |t.emittedOrder| :: t'.emitted[t.emittedOrder[j]] == t.emitted[t.emittedOrder[j]])
    && CardsYielded(t, i, patched)
  }

  ghost predicate CardsYielded(t: Tracker, i: nat, patched: set<string>) {
    forall id :: id in patched <==> exists j: nat :: j < i && YieldsCard(t, j, id)
  }

  predicate YieldsCard(t: Tracker, j: nat, id: string) {
    j < |t.emittedOrder| && Yields(t, t.emittedOrder[j]) && t.emitted[t.emittedOrder[j]].artifactId == id
  }

  lemma DemotedIff(t: Tracker, t': Tracker, i: nat, patched: set<string>)
    requires DemotedUpTo(t, t', i, patched) && i < |t.emittedOrder|
    ensures var key := t.emittedOrder[i];
      && key in t.emitted && key in t'.emitted
      && (IsDemoted(t, i) <==> t'.emitted[key].artifactId !in patched && MustDemote(t', t'.emitted[key].data))
  {
    var key := t.emittedOrder[i];
    EligibleIs(t.emitted[key].data, t.turnHasRichDeliverable);
    hide EligibleAsPrimary, MayLead;
    var id := t.emitted[key].artifactId;
    if id in patched {
      var j: nat :| j < i && YieldsCard(t, j, id);
    } else {
      forall j: nat | j < i && Yields(t, t.emittedOrder[j])
        ensures t.emitted[t.emittedOrder[j]].artifactId != id
      {
        assert YieldsCard(t, j, t.emitted[t.emittedOrder[j]].artifactId);
      }
    }
  }

  lemma NextUpTo(t: Tracker, t': Tracker, t2: Tracker, i: nat, patched: set<string>, patched2: set<string>)
    requires DemotedUpTo(t, t', i, patched) && i < |t.emittedOrder|
    requires var key := t.emittedOrder[i];
      if IsDemoted(t, i)
      then t2 == t'.(emitted := t'.emitted[key := Supported(t.emitted[key])])
           && patched2 == patched + {t.emitted[key].artifactId}
      else t2 == t' && patched2 == patched
    ensures DemotedUpTo(t, t2, i + 1, patched2)
  {
    OthersByIndex(t, i);
    KeysByIndex(t);
    YieldedSoFar(t, i, patched, patched2);
    hide IsDemoted, YieldsCard, Enumerates, Yields, CardsYielded;
  }

  lemma YieldedSoFar(t: Tracker, i: nat, patched: set<string>, patched2: set<string>)
    requires i < |t.emittedOrder| && CardsYielded(t, i, patched)
    requires t.emittedOrder[i] in t.emitted
    requires patched2 == patched + if IsDemoted(t, i) then {t.emitted[t.emittedOrder[i]].artifactId} else {}
    ensures CardsYielded(t, i + 1, patched2)
  {
    hide MayLead;
    forall id
      ensures id in patched2 <==> exists j: nat :: j < i + 1 && YieldsCard(t, j, id)
    {
      if id in patched {
        var j: nat :| j < i && YieldsCard(t, j, id);
        assert j < i + 1 && YieldsCard(t, j, id);
      }
      if YieldsCard(t, i, id) && !IsDemoted(t, i) {
        var j: nat :| j < i && Yields(t, t.emittedOrder[j]) && t.emitted[t.emittedOrder[j]].artifactId == id;
        assert YieldsCard(t, j, id);
      }
      if IsDemoted(t, i) && id == t.emitted[t.emittedOrder[i]].artifactId { assert YieldsCard(t, i, id); }
    }
  }

  lemma SentOneMore(c: Coord, c': Coord, e: Emitted, entries: seq<Emitted>, patch: Patch)
    requires SaysFile(patch, e.data) && SentEach(PatchArtifact(c, e.artifactId, patch), c', entries)
    ensures SentEach(c, c', [e] + entries)
  {
    hide SaysFile, PatchArtifact;
    var all := [e] + entries;
    assert all[0] == e && all[1..] == entries;
    assert SaysFile(patch, all[0].data) && SentEach(PatchArtifact(c, all[0].artifactId, patch), c', all[1..]);
  }

  lemma {:induction false} DemoteFromDoes(t: Tracker, w: World, i: nat, patched: set<string>)
    requires DemotedUpTo(t, w.t, i, patched)
    ensures var w' := DemoteFrom(w, i, patched);
      && EntriesDemoted(t, w'.t, i) && SentEach(w.c, w'.c, Demotions(t, i))
      && forall j: nat | j < i && j < |t.emittedOrder| ::
           w'.t.emitted[t.emittedOrder[j]] == w.t.emitted[t.emittedOrder[j]]
    decreases |t.emittedOrder| - i
  {
    hide IsDemoted, MustDemote, PatchArtifact, FilePatch, SaysFile, CardsYielded, Enumerates;
    if i < |t.emittedOrder| {
      var key := t.emittedOrder[i];
      DemotedIff(t, w.t, i, patched);
      OthersByIndex(t, i);
      if IsDemoted(t, i) {
        var entry := Supported(t.emitted[key]);
        var w1 := World(w.t.(emitted := w.t.emitted[key := entry]),
                        PatchArtifact(w.c, entry.artifactId, FilePatch(entry.data)));
        NextUpTo(t, w.t, w1.t, i, patched, patched + {entry.artifactId});
        DemoteFromDoes(t, w1, i + 1, patched + {entry.artifactId});
        FilePatchSays(entry.data);
        assert w.t.emitted[key].(data := entry.data) == entry;
        SentOneMore(w.c, DemoteFrom(w, i, patched).c, entry, Demotions(t, i + 1), FilePatch(entry.data));
      } else {
        assert Demotions(t, i) == Demotions(t, i + 1);
        NextUpTo(t, w.t, w.t, i, patched, patched);
        DemoteFromDoes(t, w, i + 1, patched);
      }
    }
  }

  lemma OthersByIndex(t: Tracker, i: nat)
    requires Enumerates(t.emittedOrder, t.emitted.Keys) && i < |t.emittedOrder|
    ensures forall j: nat | j < |t.emittedOrder| && j != i :: t.emittedOrder[j] != t.emittedOrder[i]
  {
  }

  /** Every file that yields to what leads now supports it, once for each card, and each such card is sent one patch. */
  ghost predicate DemotesAll(t: Tracker, c: Coord, w': World) {
    EntriesDemoted(t, w'.t, 0) && SentEach(c, w'.c, Demotions(t, 0))
  }

  lemma DemoteDoes(w: World)
    requires Enumerates(w.t.emittedOrder, w.t.emitted.Keys)
    ensures DemotesAll(w.t, w.c, Demote(w))
  {
    hide IsDemoted, DemoteFrom, Enumerates, YieldsCard;
    assert DemotedUpTo(w.t, w.t, 0, {});
    DemoteFromDoes(w.t, w, 0, {});
  }

  /** The first page found in a turn is noted and demotes what yields to it; later ones change nothing. */
  lemma PageDemotes(w: World)
    requires Enumerates(w.t.emittedOrder, w.t.emitted.Keys)
    ensures var w' := LatchRich(w, HasCompletedPage(w.c));
      if HasCompletedPage(w.c) && !w.t.turnHasRichDeliverable
      then DemotesAll(w.t.(turnHasRichDeliverable := true), w.c, w')
      else w' == w
  {
    hide DemotesAll, Demote, HasCompletedPage, Enumerates;
    DemoteDoes(World(w.t.(turnHasRichDeliverable := true), w.c));
  }

  /** The first document found in a turn, among the files of a scan or with the coordinator, is noted and demotes what
      yields to it; later ones change nothing. */
  lemma DocumentDemotes(w: World, mintable: seq<Candidate>)
    requires Enumerates(w.t.emittedOrder, w.t.emitted.Keys)
    ensures var w' := LatchPrimary(w, mintable, HasPrimaryDocument(w.c));
      if Found(w, mintable) && !w.t.turnHasPrimaryDoc
      then DemotesAll(w.t.(turnHasPrimaryDoc := true), w.c, w')
      else w' == w
  {
    hide DemotesAll, Demote, HasPrimaryDocument, Enumerates;
    forall j: nat | j < |mintable|
      ensures EligibleAsPrimary(mintable[j].data, w.t.turnHasRichDeliverable) <==>
        MayLead(mintable[j].data, w.t.turnHasRichDeliverable)
    {
      EligibleIs(mintable[j].data, w.t.turnHasRichDeliverable);
    }
    hide EligibleAsPrimary, MayLead;
    DemoteDoes(World(w.t.(turnHasPrimaryDoc := true), w.c));
  }

  ghost predicate Found(w: World, mintable: seq<Candidate>) {
    || HasPrimaryDocument(w.c)
    || exists i: nat :: i < |mintable| && MayLead(mintable[i].data, w.t.turnHasRichDeliverable)
  }

  // ---------- vanished files ----------

  function Corrected(e: Emitted, there: bool): Emitted { e.(data := e.data.(missing := !there)) }

  /** The entries, from the `i`-th on, that say of their file that it is there when it is not or missing when it is. */
  function Corrections(t: Tracker, existing: set<string>, i: nat): seq<Emitted>
    decreases |t.emittedOrder| - i
  {
    if i >= |t.emittedOrder| then []
    else
      var key := t.emittedOrder[i];
      var wrong := key in t.emitted && (t.emitted[key].data.missing <==> key in existing);
      (if wrong then [Corrected(t.emitted[key], key in existing)] else []) + Corrections(t, existing, i + 1)
  }

  lemma {:induction false} SweepFromSends(t: Tracker, w: World, existing: set<string>, i: nat)
    requires Enumerates(t.emittedOrder, t.emitted.Keys) && w.t.emitted.Keys == t.emitted.Keys
    requires w.t.emittedOrder == t.emittedOrder
    requires forall j: nat | i <= j < |t.emittedOrder| ::
      w.t.emitted[t.emittedOrder[j]] == t.emitted[t.emittedOrder[j]]
    ensures SentEach(w.c, SweepFrom(w, i, existing).c, Corrections(t, existing, i))
    decreases |t.emittedOrder| - i
  {
    hide PatchArtifact, FilePatch, SaysFile, Enumerates;
    if i < |t.emittedOrder| {
      var key := t.emittedOrder[i];
      OthersByIndex(t, i);
      KeysByIndex(t);
      if t.emitted[key].data.missing <==> key in existing {
        var entry := Corrected(t.emitted[key], key in existing);
        var w1 := World(w.t.(emitted := w.t.emitted[key := entry]),
                        PatchArtifact(w.c, entry.artifactId, FilePatch(entry.data)));
        SweepFromSends(t, w1, existing, i + 1);
        FilePatchSays(entry.data);
        assert w.t.emitted[key].(data := entry.data) == entry;
        SentOneMore(w.c, SweepFrom(w, i, existing).c, entry, Corrections(t, existing, i + 1), FilePatch(entry.data));
      } else {
        assert Corrections(t, existing, i) == Corrections(t, existing, i + 1);
        SweepFromSends(t, w, existing, i + 1);
      }
    }
  }

  lemma KeysByIndex(t: Tracker)
    requires Enumerates(t.emittedOrder, t.emitted.Keys)
    ensures forall j: nat | j < |t.emittedOrder| :: t.emittedOrder[j] in t.emitted
  {
  }

  /** A sweep sends each card one patch for every file of it that it misreports, with the flag put right, and nothing
      else. */
  lemma SweepSends(w: World, existing: set<string>)
    requires Enumerates(w.t.emittedOrder, w.t.emitted.Keys)
    ensures SentEach(w.c, Sweep(w, existing).c, Corrections(w.t, existing, 0))
  {
    hide SweepFrom, Enumerates;
    KeysByIndex(w.t);
    SweepFromSends(w.t, w, existing, 0);
  }
}

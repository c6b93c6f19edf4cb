/** The cards of a scan are opened in display order. */
module FileTrackerOrder {
  import opened CoordinatorEffects
  import opened CoordinatorProofs
  import opened CoordinatorSpec
  import opened FileTrackerProofs
  import opened FileTrackerRoles
  import opened FileTrackerSpec
  import opened Options

  // ---------- the order ----------

  const DISPLAY_ORDER: seq<Kind> := [Deck, Document, Sheet, Archive, Image, Code, Other]

  /** The kind of `a` is listed no later than that of `b`. */
  predicate KindNoLater(a: Kind, b: Kind) {
    exists i: nat, j: nat :: i <= j < |DISPLAY_ORDER| && DISPLAY_ORDER[i] == a && DISPLAY_ORDER[j] == b
  }

  /** `a` may come before `b`: its kind is listed earlier, or it is the same and the path compares no later. */
  predicate MayPrecede(le: PathOrder, a: Candidate, b: Candidate) {
    KindNoLater(a.data.kind, b.data.kind) && (a.data.kind == b.data.kind ==> le(a.data.path, b.data.path))
  }

  predicate InDisplayOrder(le: PathOrder, cands: seq<Candidate>) {
    forall i, j | 0 <= i < j < |cands| :: MayPrecede(le, cands[i], cands[j])
  }

  /** The comparison of paths is total and transitive; two paths may compare equal. */
  ghost predicate Comparison(le: PathOrder) {
    && (forall a, b :: le(a, b) || le(b, a))
    && (forall a, b, c :: le(a, b) && le(b, c) ==> le(a, c))
  }

  /** The files that the order does not tell apart from `x`. */
  function Ties(le: PathOrder, x: Candidate, cands: seq<Candidate>): seq<Candidate> {
    if cands == [] then []
    else
      (if MayPrecede(le, x, cands[0]) && MayPrecede(le, cands[0], x) then [cands[0]] else []) + Ties(le, x, cands[1..])
  }

  lemma KindsAsListed(a: Kind, b: Kind)
    ensures KindNoLater(a, b) <==> KindRank(a) <= KindRank(b)
  {
    assert DISPLAY_ORDER[KindRank(a)] == a && DISPLAY_ORDER[KindRank(b)] == b;
  }

  lemma ShownBeforeIs(le: PathOrder, a: Candidate, b: Candidate)
    ensures ShownBefore(le, a, b) <==> MayPrecede(le, a, b)
  {
    hide KindNoLater;
    KindsAsListed(a.data.kind, b.data.kind);
    KindsAsListed(b.data.kind, a.data.kind);
  }

  lemma PrecedesTransitive(le: PathOrder, a: Candidate, b: Candidate, c: Candidate)
    requires Comparison(le) && MayPrecede(le, a, b) && MayPrecede(le, b, c)
    ensures MayPrecede(le, a, c)
  {
    hide KindNoLater;
    KindsAsListed(a.data.kind, b.data.kind);
    KindsAsListed(b.data.kind, c.data.kind);
    KindsAsListed(a.data.kind, c.data.kind);
  }

  lemma PrecedesTotal(le: PathOrder, a: Candidate, b: Candidate)
    requires Comparison(le)
    ensures MayPrecede(le, a, b) || MayPrecede(le, b, a)
  {
    hide KindNoLater;
    KindsAsListed(a.data.kind, b.data.kind);
    KindsAsListed(b.data.kind, a.data.kind);
  }

  /** What holds of the first file and of the rest. */
  lemma OrderedMore(le: PathOrder, cand: Candidate, cands: seq<Candidate>)
    requires InDisplayOrder(le, cands) && forall x | x in cands :: MayPrecede(le, cand, x)
    ensures InDisplayOrder(le, [cand] + cands)
  {
    hide MayPrecede;
    var all := [cand] + cands;
    forall i, j | 0 <= i < j < |all|
      ensures MayPrecede(le, all[i], all[j])
    {
      if i > 0 { assert MayPrecede(le, cands[i - 1], cands[j - 1]); } else { assert all[j] in cands; }
    }
  }

  lemma OrderedRest(le: PathOrder, cands: seq<Candidate>)
    requires InDisplayOrder(le, cands) && cands != []
    ensures InDisplayOrder(le, cands[1..]) && forall x | x in cands[1..] :: MayPrecede(le, cands[0], x)
  {
    hide MayPrecede;
  }

  lemma {:induction false} PlacedInOrder(le: PathOrder, cand: Candidate, arranged: seq<Candidate>)
    requires Comparison(le) && InDisplayOrder(le, arranged)
    ensures InDisplayOrder(le, Place(le, cand, arranged))
    ensures forall x | x in Place(le, cand, arranged) :: x == cand || x in arranged
    decreases |arranged|
  {
    hide MayPrecede, ShownBefore, Comparison;
    if arranged == [] {
      assert [cand] + arranged == [cand];
    } else {
      OrderedRest(le, arranged);
      ShownBeforeIs(le, cand, arranged[0]);
      assert arranged == [arranged[0]] + arranged[1..];
      if ShownBefore(le, cand, arranged[0]) {
        forall x | x in arranged
          ensures MayPrecede(le, cand, x)
        {
          if x in arranged[1..] { PrecedesTransitive(le, cand, arranged[0], x); }
        }
        OrderedMore(le, cand, arranged);
      } else {
        PlacedInOrder(le, cand, arranged[1..]);
        PrecedesTotal(le, cand, arranged[0]);
        OrderedMore(le, arranged[0], Place(le, cand, arranged[1..]));
      }
    }
  }

  lemma {:induction false} ArrangedInOrder(le: PathOrder, cands: seq<Candidate>)
    requires Comparison(le)
    ensures InDisplayOrder(le, Arrange(le, cands))
    decreases |cands|
  {
    hide Comparison, MayPrecede, Place;
    if cands != [] {
      ArrangedInOrder(le, cands[1..]);
      PlacedInOrder(le, cands[0], Arrange(le, cands[1..]));
    }
  }

  lemma TiesOne(le: PathOrder, x: Candidate, cand: Candidate, cands: seq<Candidate>)
    ensures Ties(le, x, [cand] + cands) ==
      (if MayPrecede(le, x, cand) && MayPrecede(le, cand, x) then [cand] else []) + Ties(le, x, cands)
  {
    assert ([cand] + cands)[1..] == cands;
  }

  lemma {:induction false} PlacedKeepsTies(le: PathOrder, x: Candidate, cand: Candidate, arranged: seq<Candidate>)
    requires Comparison(le)
    ensures Ties(le, x, Place(le, cand, arranged)) == Ties(le, x, [cand] + arranged)
    decreases |arranged|
  {
    hide MayPrecede, ShownBefore, Comparison;
    if arranged != [] && !ShownBefore(le, cand, arranged[0]) {
      var first, rest := arranged[0], arranged[1..];
      ShownBeforeIs(le, cand, first);
      PlacedKeepsTies(le, x, cand, rest);
      assert arranged == [first] + rest;
      TiesOne(le, x, first, Place(le, cand, rest));
      TiesOne(le, x, cand, rest);
      TiesOne(le, x, cand, arranged);
      TiesOne(le, x, first, rest);
      if MayPrecede(le, x, cand) && MayPrecede(le, cand, x) && MayPrecede(le, x, first) && MayPrecede(le, first, x) {
        PrecedesTransitive(le, cand, x, first);
        assert false;
      }
    }
  }

  /** Arranging files puts them into display order, loses and adds none, and keeps the order of those it does not tell
      apart. */
  lemma {:induction false} ArrangedStably(le: PathOrder, cands: seq<Candidate>, x: Candidate)
    requires Comparison(le)
    ensures InDisplayOrder(le, Arrange(le, cands)) && multiset(Arrange(le, cands)) == multiset(cands)
    ensures Ties(le, x, Arrange(le, cands)) == Ties(le, x, cands)
    decreases |cands|
  {
    hide Comparison, MayPrecede, Place, InDisplayOrder;
    ArrangedInOrder(le, cands);
    ArrangedElements(le, cands);
    if cands != [] {
      var first, rest := cands[0], cands[1..];
      ArrangedStably(le, rest, x);
      PlacedKeepsTies(le, x, first, Arrange(le, rest));
      assert cands == [first] + rest;
      TiesOne(le, x, first, Arrange(le, rest));
      TiesOne(le, x, first, rest);
    }
  }

  // ---------- new files ----------

  /** Neither the turn nor the coordinator knows the file, and no earlier turn published it. */
  ghost predicate NewFile(w: World, cand: Candidate, explicit: bool) {
    && cand.published.None? && !Skipped(w.t, cand, explicit)
    && cand.data.path !in w.t.emitted && Unseen(w.c, cand.data.path)
    && (cand.content.Some? ==> cand.content.value !in w.t.emittedByContent)
  }

  predicate OtherFile(a: Candidate, b: Candidate) {
    a.data.path != b.data.path && (a.content.Some? ==> a.content != b.content)
  }

  /** New files with paths and contents of their own. */
  ghost predicate NewFiles(w: World, cands: seq<Candidate>, explicit: bool) {
    && (forall x | x in cands :: NewFile(w, x, explicit))
    && (forall i, j | 0 <= i < j < |cands| :: OtherFile(cands[i], cands[j]))
  }

  /** The card of a new file: complete, and with what is known of the file. */
  predicate OpensFile(e: Event, cand: Candidate, data: FileData) {
    && e.Opened? && e.artifact.id == cand.freshId && e.artifact.pluginId == "file_v1"
    && e.artifact.title == data.filename && e.artifact.status == Completed && !e.artifact.collapsed
    && e.artifact.fallbackText == "File ready: " + data.filename && ShowsFile(e.artifact.data, data)
  }

  /** Everything that is known of a file. */
  predicate ShowsFile(shown: Data, data: FileData) {
    && shown.Keys == {"path", "filename", "ext", "size", "missing"}
         + (if data.skillName.Some? then {"skillName"} else {}) + (if data.role.Some? then {"role"} else {})
    && shown["path"] == Text(data.path) && shown["filename"] == Text(data.filename) && shown["ext"] == Text(data.ext)
    && shown["size"] == Truthy(data.size) && (IsTruthy(shown["missing"]) <==> data.missing)
    && (data.skillName.Some? ==> shown["skillName"] == Text(data.skillName.value))
    && (data.role.Some? ==> shown["role"] == Text(if data.role == Some(Lead) then "primary" else "supporting"))
  }

  lemma JsonShowsFile(data: FileData)
    ensures ShowsFile(FileJson(data), data)
  {
  }

  lemma NewFileSeed(role: DocumentRole, e: Envelope, id: string, data: FileData)
    requires CardShowsSeed(role, e, id, FileSeed(data), Completed)
    ensures e.pluginId == "file_v1" && e.title == data.filename && e.status == Completed && !e.collapsed
    ensures e.fallbackText == "File ready: " + data.filename && ShowsFile(e.data, data) && e.id == id
  {
    hide FileJson, ShowsFile;
    JsonShown(data);
    JsonShowsFile(data);
    assert e.data == FileJson(data);
  }

  lemma NewFileBranches(w: World, cand: Candidate, explicit: bool)
    requires TrackerInv(w) && CandidateIdsOk(w.c, cand) && NewFile(w, cand, explicit)
    ensures EmitOne(w, cand, explicit) == EmitNewPath(w, cand, WithSkill(w.t, cand.data))
  {
    hide CoordInv, EmitNewPath, EmitPage, EmitOnCard, EmitUnresolved, Skipped, Enumerates;
  }

  lemma NewCardOpens(c: Coord, cand: Candidate, data: FileData)
    requires CoordInv(c) && CandidateIdsOk(c, cand) && Unseen(c, data.path)
    ensures var c' := OpenFileByPath(c, data.path, FileSeed(data), cand.freshId);
      && |c'.events| == |c.events| + 1 && c.events <= c'.events && OpensFile(c'.events[|c.events|], cand, data)
  {
    hide CardShowsSeed, RecordsSeed, FileSeed, OpenOrGet, FileJson;
    var tool := FileTool(data.path);
    FileSeedStatus(data);
    NewCardShowsSeed(c, tool, FileSeed(data), cand.freshId);
    var c1 := OpenOrGet(c, tool, FileSeed(data), cand.freshId);
    NewFileSeed(c.role, c1.events[|c.events|].artifact, cand.freshId, data);
    BoundPathLeads(c1, cand.freshId, data.path);
  }

  lemma FileSeedStatus(data: FileData)
    ensures FileSeed(data).status == Some(Completed)
  {
  }

  /** One new file opens its card, and the other new files stay new. */
  lemma NewFileOpens(w: World, cand: Candidate, explicit: bool)
    requires TrackerInv(w) && CandidateIdsOk(w.c, cand) && NewFile(w, cand, explicit)
    ensures var w' := EmitOne(w, cand, explicit);
      && |w'.c.events| == |w.c.events| + 1 && w.c.events <= w'.c.events
      && OpensFile(w'.c.events[|w.c.events|], cand, WithSkill(w.t, cand.data))
      && w'.t.lastSkillName == w.t.lastSkillName
      && forall x | NewFile(w, x, explicit) && OtherFile(cand, x) :: NewFile(w', x, explicit)
  {
    hide CoordInv, EmitNewPath, EmitOne, OpensFile, CardAdded, Skipped, NewFile, Enumerates;
    var data := WithSkill(w.t, cand.data);
    NewFileFacts(w, cand, explicit);
    NewFileBranches(w, cand, explicit);
    NewPathAdds(w, cand, data);
    NewCardOpens(w.c, cand, data);
    NewPathEvents(w, cand, data);
    forall x | NewFile(w, x, explicit) && OtherFile(cand, x)
      ensures NewFile(EmitOne(w, cand, explicit), x, explicit)
    {
      OthersStayNew(w, EmitOne(w, cand, explicit), cand, data, x, explicit);
    }
    AddedKeepsSkill(w, EmitOne(w, cand, explicit), cand, data);
  }

  lemma NewFileFacts(w: World, cand: Candidate, explicit: bool)
    requires TrackerInv(w) && NewFile(w, cand, explicit)
    ensures CoordInv(w.c) && Unseen(w.c, cand.data.path) && cand.data.path !in w.t.emitted
    ensures !(cand.content.Some? && cand.content.value in w.t.emittedByContent)
    ensures WithSkill(w.t, cand.data).path == cand.data.path
  {
  }

  lemma NewPathEvents(w: World, cand: Candidate, data: FileData)
    requires CoordInv(w.c) && !(cand.content.Some? && cand.content.value in w.t.emittedByContent)
    ensures EmitNewPath(w, cand, data).c.events == OpenFileByPath(w.c, data.path, FileSeed(data), cand.freshId).events
  {
    hide CoordInv, OpenFileByPath;
  }

  lemma AddedKeepsSkill(w: World, w': World, cand: Candidate, data: FileData)
    requires CardAdded(w, w', cand, data)
    ensures w'.t.lastSkillName == w.t.lastSkillName
  {
    hide FreshCard;
  }

  lemma OthersStayNew(w: World, w': World, cand: Candidate, data: FileData, x: Candidate, explicit: bool)
    requires CardAdded(w, w', cand, data) && NewFile(w, x, explicit) && OtherFile(cand, x)
    ensures NewFile(w', x, explicit)
  {
    hide FileShown, Fold, IsFileCard;
    if FileTool(x.data.path) == FileTool(cand.data.path) {
      FileToolInjective(x.data.path, cand.data.path);
    }
  }

  /** Each card is that of the candidate at its place. */
  ghost predicate OpensFiles(events: seq<Event>, cands: seq<Candidate>, skill: Option<string>) {
    |events| == |cands| && forall i | 0 <= i < |cands| ::
      OpensFile(events[i], cands[i], if skill.Some? then cands[i].data.(skillName := skill) else cands[i].data)
  }

  lemma RestAreNew(w: World, cands: seq<Candidate>, explicit: bool)
    requires TrackerInv(w) && cands != [] && CandidateIdsOk(w.c, cands[0]) && NewFiles(w, cands, explicit)
    ensures NewFiles(EmitOne(w, cands[0], explicit), cands[1..], explicit)
  {
    hide TrackerInv, EmitOne, OpensFile, NewFile, OtherFile, CandidateIdsOk;
    InvOfTracker(w);
    NewFileOpens(w, cands[0], explicit);
    forall x | x in cands[1..]
      ensures NewFile(EmitOne(w, cands[0], explicit), x, explicit)
    {
      var i :| 0 <= i < |cands[1..]| && cands[1..][i] == x;
      assert OtherFile(cands[0], cands[i + 1]);
    }
  }

  lemma InvOfTracker(w: World)
    requires TrackerInv(w)
    ensures CoordInv(w.c)
  {
  }

  lemma {:induction false} NewFilesOpen(w: World, cands: seq<Candidate>, explicit: bool)
    requires TrackerInv(w) && AllIdsOk(w.c, cands) && NewFiles(w, cands, explicit)
    ensures var w' := EmitAll(w, cands, explicit);
      w.c.events <= w'.c.events && OpensFiles(w'.c.events[|w.c.events|..], cands, w.t.lastSkillName)
    decreases |cands|
  {
    hide EmitOne, NewFiles, NewFile, OpensFile, AllIdsOk, TrackerInv, CandidateIdsOk;
    if cands != [] {
      InvOfTracker(w);
      FirstIdsOk(w.c, cands);
      RestIdsOk(w, cands, explicit);
      FirstIsNew(w, cands, explicit);
      NewFileOpens(w, cands[0], explicit);
      RestAreNew(w, cands, explicit);
      var w1 := EmitOne(w, cands[0], explicit);
      NewFilesOpen(w1, cands[1..], explicit);
      var w' := EmitAll(w1, cands[1..], explicit);
      assert w'.c.events[|w.c.events|..] == [w1.c.events[|w.c.events|]] + w'.c.events[|w1.c.events|..];
    }
  }

  lemma FirstIsNew(w: World, cands: seq<Candidate>, explicit: bool)
    requires NewFiles(w, cands, explicit) && cands != []
    ensures NewFile(w, cands[0], explicit)
  {
  }

  // ---------- from the scan to the order ----------

  /** Different files whose drawn and published ids do not collide. */
  predicate Unlike(a: Candidate, b: Candidate) {
    && OtherFile(a, b) && a.freshId != b.freshId
    && (a.published.Some? ==> a.published.value.artifactId != b.freshId)
    && (b.published.Some? ==> b.published.value.artifactId != a.freshId)
  }

  ghost predicate AllUnlike(cands: seq<Candidate>) {
    forall i, j | 0 <= i < j < |cands| :: Unlike(cands[i], cands[j])
  }

  lemma UnlikeBothWays(a: Candidate, b: Candidate)
    ensures Unlike(a, b) <==> Unlike(b, a)
  {
  }

  lemma UnlikeMore(cand: Candidate, cands: seq<Candidate>)
    requires AllUnlike(cands) && forall x | x in cands :: Unlike(cand, x)
    ensures AllUnlike([cand] + cands)
  {
    hide Unlike;
    var all := [cand] + cands;
    forall i, j | 0 <= i < j < |all|
      ensures Unlike(all[i], all[j])
    {
      if i > 0 { assert Unlike(cands[i - 1], cands[j - 1]); } else { assert all[j] in cands; }
    }
  }

  lemma UnlikeRest(cands: seq<Candidate>)
    requires AllUnlike(cands) && cands != []
    ensures AllUnlike(cands[1..]) && forall x | x in cands[1..] :: Unlike(cands[0], x)
  {
    hide Unlike;
  }

  lemma {:induction false} MintedUnlike(t: Tracker, cands: seq<Candidate>, explicit: bool)
    requires AllUnlike(cands)
    ensures AllUnlike(Mint(t, cands, explicit))
    ensures forall x :: x in Mint(t, cands, explicit) <==> x in cands && Mintable(t, x, explicit)
    decreases |cands|
  {
    hide Unlike, Mintable;
    if cands != [] {
      UnlikeRest(cands);
      MintedUnlike(t, cands[1..], explicit);
      assert cands == [cands[0]] + cands[1..];
      UnlikeMore(cands[0], Mint(t, cands[1..], explicit));
      assert [] + Mint(t, cands[1..], explicit) == Mint(t, cands[1..], explicit);
    }
  }

  lemma {:induction false} PlacedUnlike(le: PathOrder, cand: Candidate, arranged: seq<Candidate>)
    requires AllUnlike(arranged) && forall x | x in arranged :: Unlike(cand, x)
    ensures AllUnlike(Place(le, cand, arranged))
    ensures forall x :: x in Place(le, cand, arranged) <==> x == cand || x in arranged
    decreases |arranged|
  {
    hide Unlike, ShownBefore;
    if arranged == [] || ShownBefore(le, cand, arranged[0]) {
      UnlikeMore(cand, arranged);
    } else {
      UnlikeRest(arranged);
      assert arranged == [arranged[0]] + arranged[1..];
      PlacedUnlike(le, cand, arranged[1..]);
      UnlikeBothWays(cand, arranged[0]);
      UnlikeMore(arranged[0], Place(le, cand, arranged[1..]));
    }
  }

  lemma {:induction false} ArrangedUnlike(le: PathOrder, cands: seq<Candidate>)
    requires AllUnlike(cands)
    ensures AllUnlike(Arrange(le, cands)) && forall x :: x in Arrange(le, cands) <==> x in cands
    decreases |cands|
  {
    hide Unlike, Place;
    if cands != [] {
      UnlikeRest(cands);
      ArrangedUnlike(le, cands[1..]);
      PlacedUnlike(le, cands[0], Arrange(le, cands[1..]));
      assert cands == [cands[0]] + cands[1..];
    }
  }

  lemma CuratedUnlike(cands: seq<Candidate>, primary: bool, rich: bool)
    requires AllUnlike(cands)
    ensures AllUnlike(CurateRoles(cands, primary, rich))
    ensures forall x | x in CurateRoles(cands, primary, rich) :: exists y :: y in cands && SameButRole(x, y)
    ensures forall y | y in cands :: exists x :: x in CurateRoles(cands, primary, rich) && SameButRole(x, y)
  {
    hide SomeEligible, EligibleAsPrimary;
    var roled := CurateRoles(cands, primary, rich);
    forall i, j | 0 <= i < j < |roled|
      ensures Unlike(roled[i], roled[j])
    {
      assert Unlike(cands[i], cands[j]);
    }
    forall x | x in roled
      ensures exists y :: y in cands && SameButRole(x, y)
    {
      var i :| 0 <= i < |roled| && roled[i] == x;
      assert cands[i] in cands && SameButRole(x, cands[i]);
    }
    forall y | y in cands
      ensures exists x :: x in roled && SameButRole(x, y)
    {
      var i :| 0 <= i < |cands| && cands[i] == y;
      assert roled[i] in roled && SameButRole(roled[i], y);
    }
  }

  predicate SameButRole(x: Candidate, y: Candidate) {
    x.(data := x.data.(role := None)) == y.(data := y.data.(role := None))
  }

  lemma IdsAreUnlike(w: World, cands: seq<Candidate>, explicit: bool)
    requires AllIdsOk(w.c, cands) && NewFiles(w, cands, explicit)
    ensures AllUnlike(cands) && forall x | x in cands :: CandidateIdsOk(w.c, x) && NewFile(w, x, explicit)
  {
    hide NewFile;
  }

  lemma UnlikeIdsOk(c: Coord, cands: seq<Candidate>)
    requires AllUnlike(cands) && forall x | x in cands :: CandidateIdsOk(c, x)
    ensures AllIdsOk(c, cands)
  {
    hide OtherFile;
    forall i: nat, j: nat | i < |cands| && j < |cands|
      ensures i != j ==> cands[i].freshId != cands[j].freshId
      ensures cands[i].published.Some? ==> cands[i].published.value.artifactId != cands[j].freshId
    {
      if i == j {
        assert CandidateIdsOk(c, cands[i]);
      } else {
        assert Unlike(cands[if i < j then i else j], cands[if i < j then j else i]);
      }
    }
  }

  // ---------- whole scans ----------

  lemma {:induction false} DemoteKeepsTools(w: World, i: nat, patched: set<string>)
    ensures var c' := DemoteFrom(w, i, patched).c;
      c'.byTool == w.c.byTool && c'.pending == w.c.pending
    decreases |w.t.emittedOrder| - i
  {
    hide FilePatch, MustDemote, PatchRecord, NormalizePatch, IndexPaths;
    if i < |w.t.emittedOrder| {
      var key := w.t.emittedOrder[i];
      if key !in w.t.emitted || w.t.emitted[key].artifactId in patched || !MustDemote(w.t, w.t.emitted[key].data) {
        DemoteKeepsTools(w, i + 1, patched);
      } else {
        var record := w.t.emitted[key];
        var data := record.data.(role := Some(Supporting));
        DemoteKeepsTools(World(w.t.(emitted := w.t.emitted[key := record.(data := data)]),
                               PatchArtifact(w.c, record.artifactId, FilePatch(data))),
                         i + 1, patched + {record.artifactId});
      }
    }
  }

  /** What the latches leave alone. */
  ghost predicate Latched(w: World, w': World) {
    && TrackerInv(w') && OnlyPatchesAdded(w.c, w'.c)
    && w'.c.records.Keys == w.c.records.Keys && w'.c.pathIndex.Keys == w.c.pathIndex.Keys
    && w'.c.byTool == w.c.byTool && w'.c.pending == w.c.pending && w'.t.emitted.Keys == w.t.emitted.Keys
    && w'.t == w.t.(emitted := w'.t.emitted, turnHasPrimaryDoc := w'.t.turnHasPrimaryDoc,
                    turnHasRichDeliverable := w'.t.turnHasRichDeliverable)
  }

  lemma RichLatchOnly(w: World, rich: bool)
    requires TrackerInv(w)
    ensures Latched(w, LatchRich(w, rich))
  {
    hide TrackerInv, DemoteFrom, OnlyPatchesAdded;
    RichLatched(w, rich);
    OnlyPatchesRefl(w.c);
    if rich && !w.t.turnHasRichDeliverable {
      var w1 := World(w.t.(turnHasRichDeliverable := true), w.c);
      LatchIsNoEntry(w, w1);
      DemoteFromKeeps(w1, 0, {});
      DemoteKeepsTools(w1, 0, {});
    }
  }

  lemma PrimaryLatchOnly(w: World, mintable: seq<Candidate>, document: bool)
    requires TrackerInv(w)
    ensures Latched(w, LatchPrimary(w, mintable, document))
  {
    hide TrackerInv, DemoteFrom, OnlyPatchesAdded, SomeEligible;
    PrimaryLatched(w, mintable, document);
    OnlyPatchesRefl(w.c);
    if LatchPrimary(w, mintable, document) != w {
      var w1 := World(w.t.(turnHasPrimaryDoc := true), w.c);
      LatchIsNoEntry(w, w1);
      DemoteFromKeeps(w1, 0, {});
      DemoteKeepsTools(w1, 0, {});
    }
  }

  lemma LatchIsNoEntry(w: World, w1: World)
    requires TrackerInv(w) && w1.c == w.c && w1.t.emitted == w.t.emitted && w1.t.emittedOrder == w.t.emittedOrder
    requires w1.t.emittedByContent == w.t.emittedByContent
    ensures TrackerInv(w1)
  {
  }

  lemma LatchesOnly(w: World, b: Batch)
    requires TrackerInv(w)
    ensures Latched(w, Prepared(w, b).0)
  {
    hide TrackerInv, HasCompletedPage, HasPrimaryDocument, Mint, CurateDeliverables, LatchRich, LatchPrimary;
    hide OnlyPatchesAdded;
    var w1 := LatchRich(w, HasCompletedPage(w.c));
    RichLatchOnly(w, HasCompletedPage(w.c));
    PrimaryLatchOnly(w1, Mint(w1.t, b.candidates, b.explicit), HasPrimaryDocument(w1.c));
    OnlyPatchesTransitive(w.c, w1.c, Prepared(w, b).0.c);
  }

  lemma LatchedStaysNew(w: World, w': World, x: Candidate, y: Candidate, explicit: bool)
    requires Latched(w, w') && NewFile(w, x, explicit) && CandidateIdsOk(w.c, x) && SameButRole(y, x)
    ensures NewFile(w', y, explicit) && CandidateIdsOk(w'.c, y)
  {
    hide TrackerInv, OnlyPatchesAdded;
  }

  /** A scan of new files opens one card for each file it may card and none for the others, complete and in display
      order; before that it only patches cards. */
  lemma ScanOpensInOrder(w: World, b: Batch)
    requires TrackerInv(w) && AllIdsOk(w.c, b.candidates) && NewFiles(w, b.candidates, b.explicit)
    requires Comparison(b.pathOrder)
    ensures ScanReady(w, b)
    ensures var w2, curated := Prepared(w, b).0, Prepared(w, b).1;
      var events := EmitCandidates(w, b).c.events;
      && OnlyPatchesAdded(w.c, w2.c) && w2.c.events <= events
      && OpensFiles(events[|w2.c.events|..], curated, w.t.lastSkillName)
      && InDisplayOrder(b.pathOrder, curated)
      && (forall x | x in curated ::
            exists y :: y in b.candidates && SameButRole(x, y) && MayBeCarded(w2, y, b.explicit))
      && (forall y | y in b.candidates && MayBeCarded(w2, y, b.explicit) ::
            exists x :: x in curated && SameButRole(x, y))
  {
    hide TrackerInv, NewFile, CandidateIdsOk, AllIdsOk, NewFiles, OpensFiles, InDisplayOrder, Comparison, Latched;
    hide EmitAll, OnlyPatchesAdded, MayBeCarded;
    var w2, curated := Prepared(w, b).0, Prepared(w, b).1;
    LatchesOnly(w, b);
    LatchedFacts(w, w2);
    IdsAreUnlike(w, b.candidates, b.explicit);
    CuratedAreNew(w, b);
    UnlikeIdsOk(w2.c, curated);
    UnlikeAreNew(w2, curated, b.explicit);
    NewFilesOpen(w2, curated, b.explicit);
    CuratedInOrder(w, b);
  }

  lemma LatchedFacts(w: World, w': World)
    requires Latched(w, w')
    ensures TrackerInv(w') && OnlyPatchesAdded(w.c, w'.c) && w'.t.lastSkillName == w.t.lastSkillName
  {
  }

  lemma UnlikeAreNew(w: World, cands: seq<Candidate>, explicit: bool)
    requires AllUnlike(cands) && forall x | x in cands :: NewFile(w, x, explicit)
    ensures NewFiles(w, cands, explicit)
  {
    hide NewFile, OtherFile;
    forall i, j | 0 <= i < j < |cands|
      ensures OtherFile(cands[i], cands[j])
    {
      assert Unlike(cands[i], cands[j]);
    }
  }

  lemma CuratedInOrder(w: World, b: Batch)
    requires Comparison(b.pathOrder)
    ensures InDisplayOrder(b.pathOrder, Prepared(w, b).1)
  {
    hide LatchRich, LatchPrimary, Mint, CurateRoles, HasCompletedPage, HasPrimaryDocument, Arrange, Comparison;
    hide InDisplayOrder;
    var w1 := LatchRich(w, HasCompletedPage(w.c));
    var mintable := Mint(w1.t, b.candidates, b.explicit);
    var t2 := LatchPrimary(w1, mintable, HasPrimaryDocument(w1.c)).t;
    ArrangedInOrder(b.pathOrder, CurateRoles(mintable, t2.turnHasPrimaryDoc, t2.turnHasRichDeliverable));
  }

  /** The file was declared, lies in the delivery directory, may lead, or has a card already. */
  predicate MayBeCarded(w: World, cand: Candidate, explicit: bool) {
    explicit || cand.rootKind == Output || cand.data.path in w.t.emitted
      || MayLead(cand.data, w.t.turnHasRichDeliverable)
  }

  /** Documents asked for by name may lead; beside a finished page only decks and documents do. */
  predicate MayLead(data: FileData, page: bool) {
    data.ext in ["pptx", "key", "docx", "pdf", "rtf", "xlsx", "epub"]
      && (page ==> data.kind == Deck || data.kind == Document)
  }

  lemma MayBeCardedIs(w: World, cand: Candidate, explicit: bool)
    ensures MayBeCarded(w, cand, explicit) <==> Mintable(w.t, cand, explicit)
  {
  }

  lemma CuratedAreNew(w: World, b: Batch)
    requires TrackerInv(w) && AllUnlike(b.candidates)
    requires forall x | x in b.candidates :: CandidateIdsOk(w.c, x) && NewFile(w, x, b.explicit)
    ensures var w2, curated := Prepared(w, b).0, Prepared(w, b).1;
      && AllUnlike(curated)
      && (forall x | x in curated :: CandidateIdsOk(w2.c, x) && NewFile(w2, x, b.explicit))
      && (forall x | x in curated ::
            exists y :: y in b.candidates && SameButRole(x, y) && MayBeCarded(w2, y, b.explicit))
      && (forall y | y in b.candidates && MayBeCarded(w2, y, b.explicit) ::
            exists x :: x in curated && SameButRole(x, y))
  {
    hide TrackerInv, NewFile, CandidateIdsOk, AllUnlike, LatchRich, LatchPrimary, Mint, CurateRoles, Arrange;
    hide SameButRole, HasCompletedPage, HasPrimaryDocument, MayBeCarded, Latched, Mintable;
    var w1 := LatchRich(w, HasCompletedPage(w.c));
    var mintable := Mint(w1.t, b.candidates, b.explicit);
    var w2, curated := Prepared(w, b).0, Prepared(w, b).1;
    MintedUnlike(w1.t, b.candidates, b.explicit);
    CuratedUnlike(mintable, w2.t.turnHasPrimaryDoc, w2.t.turnHasRichDeliverable);
    ArrangedUnlike(b.pathOrder, CurateRoles(mintable, w2.t.turnHasPrimaryDoc, w2.t.turnHasRichDeliverable));
    LatchesOnly(w, b);
    forall y | y in b.candidates
      ensures Mintable(w1.t, y, b.explicit) <==> MayBeCarded(w2, y, b.explicit)
    {
      MintableAfter(w, b, y);
    }
    forall x | x in curated
      ensures CandidateIdsOk(w2.c, x) && NewFile(w2, x, b.explicit)
    {
      var y :| y in mintable && SameButRole(x, y);
      LatchedStaysNew(w, w2, y, x, b.explicit);
    }
  }

  lemma MintableAfter(w: World, b: Batch, y: Candidate)
    requires TrackerInv(w)
    ensures Mintable(LatchRich(w, HasCompletedPage(w.c)).t, y, b.explicit) <==>
      MayBeCarded(Prepared(w, b).0, y, b.explicit)
  {
    hide TrackerInv, LatchRich, LatchPrimary, Mint, HasCompletedPage, HasPrimaryDocument, CurateDeliverables;
    hide MayBeCarded, EligibleAsPrimary;
    var w1 := LatchRich(w, HasCompletedPage(w.c));
    RichLatched(w, HasCompletedPage(w.c));
    PrimaryLatched(w1, Mint(w1.t, b.candidates, b.explicit), HasPrimaryDocument(w1.c));
    MayBeCardedIs(Prepared(w, b).0, y, b.explicit);
  }
}

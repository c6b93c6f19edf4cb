/** Whole turns: scans of the turn's files with coordinator calls between them. The roles shown in the
    end depend on the files scanned and on what the calls made of the coordinator, not on the batching. */
module FileTrackerTurns {
  import opened CoordinatorProofs
  import opened CoordinatorSpec
  import opened FileTrackerCalls
  import opened FileTrackerProofs
  import opened FileTrackerRoles
  import opened FileTrackerSpec
  import opened Options

  /** A sweep is given the paths at which there is a file. */
  datatype Step = Scan(batch: Batch) | Sweeps(existing: set<string>) | Call(op: Op)

  // ---------- one call ----------

  lemma CardsAreEnded(files: map<string, Candidate>, w: World)
    requires CardsInv(files, w)
    ensures CardsEnded(CardIds(w.t), w.c)
  {
    hide CardsInv;
    CardsTracker(files, w);
    forall id | id in CardIds(w.t)
      ensures id in w.c.records && w.c.records[id].terminal
    {
      CardRecord(files, w, id);
      assert RecordOk(w.c, id);
    }
  }

  lemma CallKeepsCard(files: map<string, Candidate>, w: World, c': Coord, key: string)
    requires key in w.t.emitted && CardOfFile(files, w, key) && CardsAlone(files, CardIds(w.t), w.c, c')
    ensures CardOfFile(files, World(w.t, c'), key)
  {
    hide Fold, FileShown, FileTool;
    assert w.t.emitted[key].artifactId in CardIds(w.t);
  }

  lemma CallKeepsUnseen(files: map<string, Candidate>, cards: set<string>, c: Coord, c': Coord, key: string)
    requires key in files && Unseen(c, key) && CardsAlone(files, cards, c, c')
    ensures Unseen(c', key)
  {
    hide RecordsAlone, ShownAlone;
  }

  lemma CallKeepsTracker(w: World, op: Op)
    requires TrackerInv(w) && IdsOk(w.c, op)
    ensures TrackerInv(World(w.t, ApplyOp(w.c, op)))
  {
    hide CoordInv, ApplyOp, Enumerates;
    OpKeepsInv(w.c, op);
  }

  lemma CallKeepsCards(files: map<string, Candidate>, w: World, op: Op)
    requires CardsInv(files, w) && IdsOk(w.c, op) && CardsAlone(files, CardIds(w.t), w.c, ApplyOp(w.c, op))
    ensures CardsInv(files, World(w.t, ApplyOp(w.c, op)))
  {
    hide ApplyOp, CardOfFile, Unseen, CardsAlone, TrackerInv;
    CardsTracker(files, w);
    CallKeepsTracker(w, op);
    var w' := World(w.t, ApplyOp(w.c, op));
    forall key | key in w.t.emitted
      ensures CardOfFile(files, w', key)
    {
      CallKeepsCard(files, w, w'.c, key);
    }
    forall key | key in files && key !in w.t.emitted
      ensures Unseen(w'.c, key)
    {
      CallKeepsUnseen(files, CardIds(w.t), w.c, w'.c, key);
    }
  }

  lemma DrawnBeside(files: map<string, Candidate>, cards: set<string>, c: Coord, d: Coord, op: Op)
    requires Beside(files, cards, c, d) && IdsOk(c, op)
    ensures IdsOk(d, op)
  {
    hide Without, ToolsBut, PathsBut;
  }

  /** In the middle of a turn: cards and roles are in step, and beside the cards the coordinator is
      what the calls alone made of it. */
  ghost predicate TurnInv(files: map<string, Candidate>, w: World, d: Coord) {
    && InStep(files, w) && FilesOk(files, w.t)
    && CoordInv(d) && Fenced(files, d) && Beside(files, CardIds(w.t), w.c, d)
  }

  lemma CallInStep(files: map<string, Candidate>, w: World, d: Coord, op: Op)
    requires TurnInv(files, w, d) && IdsOk(w.c, op) && Aside(files, CardIds(w.t), op)
    ensures IdsOk(d, op) && TurnInv(files, World(w.t, ApplyOp(w.c, op)), ApplyOp(d, op))
  {
    hide CardsInv, FilesOk, Fenced, Beside, CardsAlone, ApplyOp, IdsOk, Aside, CoordInv;
    CardsTracker(files, w);
    DrawnBeside(files, CardIds(w.t), w.c, d, op);
    CardsAreEnded(files, w);
    CallAside(files, CardIds(w.t), w.c, d, op);
    CallKeepsCards(files, w, op);
    CallKeepsFence(files, CardIds(w.t), d, op);
    OpKeepsInv(d, op);
    assert RolesInv(files, World(w.t, ApplyOp(w.c, op)), w.t.turnHasPrimaryDoc, w.t.turnHasRichDeliverable);
  }

  // ---------- turns ----------

  /** The scans see the same unchanged files, any number of times; the calls between them name none of these. */
  ghost predicate TurnOk(files: map<string, Candidate>, w: World, steps: seq<Step>)
    decreases |steps|
  {
    steps != [] ==>
      match steps[0]
      case Scan(b) =>
        && FromFiles(files, b.candidates) && TrackerInv(w) && AllIdsOk(w.c, b.candidates)
        && (ScanReady(w, b) ==> TurnOk(files, EmitCandidates(w, b), steps[1..]))
      case Sweeps(existing) => TurnOk(files, Sweep(w, existing), steps[1..])
      case Call(op) =>
        && CoordInv(w.c) && IdsOk(w.c, op) && Aside(files, CardIds(w.t), op)
        && TurnOk(files, World(w.t, ApplyOp(w.c, op)), steps[1..])
  }

  ghost function AfterTurn(w: World, steps: seq<Step>): World
    decreases |steps|
  {
    if steps == [] then w
    else
      match steps[0]
      case Scan(b) => AfterTurn(if ScanReady(w, b) then EmitCandidates(w, b) else w, steps[1..])
      case Sweeps(existing) => AfterTurn(Sweep(w, existing), steps[1..])
      case Call(op) => AfterTurn(if CoordInv(w.c) then World(w.t, ApplyOp(w.c, op)) else w, steps[1..])
  }

  /** The coordinator after the calls alone. */
  ghost function AfterCalls(d: Coord, steps: seq<Step>): Coord
    decreases |steps|
  {
    if steps == [] then d
    else if steps[0].Call? && CoordInv(d) then AfterCalls(ApplyOp(d, steps[0].op), steps[1..])
    else AfterCalls(d, steps[1..])
  }

  function AllPaths(steps: seq<Step>): set<string> {
    if steps == [] then {}
    else (if steps[0].Scan? then PathsOf(steps[0].batch.candidates) else {}) + AllPaths(steps[1..])
  }

  /** Some scan finds a finished page in what the calls before it made of the coordinator. */
  ghost predicate PageSeen(d: Coord, steps: seq<Step>) {
    exists i: nat :: i < |steps| && steps[i].Scan? && HasCompletedPage(AfterCalls(d, steps[..i]))
  }

  ghost predicate DocumentSeen(d: Coord, steps: seq<Step>) {
    exists i: nat :: i < |steps| && steps[i].Scan? && HasPrimaryDocument(AfterCalls(d, steps[..i]))
  }

  /** Some of the paths is a file that would lead if nothing rich was authored. */
  ghost predicate SomeLeads(files: map<string, Candidate>, paths: set<string>) {
    exists key :: key in paths && key in files && EligibleAsPrimary(files[key].data, false)
  }

  /** The coordinator before the given step, by the first step. */
  lemma CallsBefore(d: Coord, steps: seq<Step>, i: nat)
    requires 0 < i <= |steps|
    ensures steps[..i][0] == steps[0] && steps[..i][1..] == steps[1..][..i - 1]
    ensures AfterCalls(d, steps[..i]) ==
      AfterCalls(if steps[0].Call? && CoordInv(d) then ApplyOp(d, steps[0].op) else d, steps[1..][..i - 1])
  {
    assert steps[..i][1..] == steps[1..][..i - 1];
    hide ApplyOp, CoordInv;
  }

  lemma SeenFirst(d: Coord, steps: seq<Step>)
    requires steps != []
    ensures var d1 := if steps[0].Call? && CoordInv(d) then ApplyOp(d, steps[0].op) else d;
      && (PageSeen(d, steps) <==> (steps[0].Scan? && HasCompletedPage(d)) || PageSeen(d1, steps[1..]))
      && (DocumentSeen(d, steps) <==> (steps[0].Scan? && HasPrimaryDocument(d)) || DocumentSeen(d1, steps[1..]))
  {
    hide ApplyOp, CoordInv, HasCompletedPage, HasPrimaryDocument;
    var d1 := if steps[0].Call? && CoordInv(d) then ApplyOp(d, steps[0].op) else d;
    forall i: nat | 0 < i < |steps|
      ensures AfterCalls(d, steps[..i]) == AfterCalls(d1, steps[1..][..i - 1]) && steps[1..][i - 1] == steps[i]
    {
      CallsBefore(d, steps, i);
    }
    forall i: nat | i < |steps[1..]|
      ensures AfterCalls(d1, steps[1..][..i]) == AfterCalls(d, steps[..i + 1]) && steps[1..][i] == steps[i + 1]
    {
      CallsBefore(d, steps, i + 1);
    }
    assert steps[..0] == [] && AfterCalls(d, []) == d;
  }

  lemma {:induction false} EligiblePath(files: map<string, Candidate>, cands: seq<Candidate>, rich: bool)
    requires FromFiles(files, cands)
    ensures SomeEligible(cands, rich) <==>
      exists key :: key in PathsOf(cands) && key in files && EligibleAsPrimary(files[key].data, rich)
  {
    if cands != [] {
      assert SameFile(cands[0], files[cands[0].data.path]);
      EligiblePath(files, cands[1..], rich);
      if SomeEligible(cands, rich) && !EligibleAsPrimary(cands[0].data, rich) {
        var i: nat :| i < |cands| && EligibleAsPrimary(cands[i].data, rich);
        assert cands[1..][i - 1] == cands[i];
      }
      if SomeEligible(cands[1..], rich) {
        var i: nat :| i < |cands[1..]| && EligibleAsPrimary(cands[1..][i].data, rich);
        assert cands[i + 1] == cands[1..][i];
      }
    }
  }

  lemma LeadsUnion(files: map<string, Candidate>, a: set<string>, b: set<string>)
    ensures SomeLeads(files, a + b) <==> SomeLeads(files, a) || SomeLeads(files, b)
    ensures SomeLeads(files, a) <==> exists key :: key in a && key in files && EligibleAsPrimary(files[key].data, false)
    ensures !SomeLeads(files, {})
  {
  }

  lemma BesideIsRest(files: map<string, Candidate>, w: World, d: Coord)
    ensures Beside(files, CardIds(w.t), w.c, d) <==> RestOf(files, w) == d.(events := [])
  {
    hide RecordsBut, Without, ToolsBut, PathsBut, CardIds;
  }

  lemma SignalsIgnoreEvents(d: Coord)
    ensures HasCompletedPage(d.(events := [])) == HasCompletedPage(d)
    ensures HasPrimaryDocument(d.(events := [])) == HasPrimaryDocument(d)
  {
    assert d.(events := []).records == d.records;
  }

  /** What one scan does in the middle of a turn. */
  lemma ScanOfTurn(files: map<string, Candidate>, w: World, d: Coord, b: Batch)
    requires TurnInv(files, w, d) && FromFiles(files, b.candidates) && AllIdsOk(w.c, b.candidates)
    ensures ScanReady(w, b)
    ensures var w' := EmitCandidates(w, b);
      && TurnInv(files, w', d)
      && w'.t.turnHasRichDeliverable == (w.t.turnHasRichDeliverable || HasCompletedPage(d))
      && (w'.t.turnHasPrimaryDoc || w'.t.turnHasRichDeliverable) ==
           (w.t.turnHasPrimaryDoc || w.t.turnHasRichDeliverable || HasCompletedPage(d) || HasPrimaryDocument(d)
            || SomeLeads(files, PathsOf(b.candidates)))
      && w'.t.emitted.Keys == w.t.emitted.Keys + PathsOf(b.candidates)
  {
    hide InStep, FilesOk, FromFiles, AllIdsOk, ScanReady, EmitCandidates, RestOf, Fenced, CoordInv;
    hide HasCompletedPage, HasPrimaryDocument, SomeEligible, EligibleAsPrimary, Beside;
    ScanInStep(files, w, b);
    BesideIsRest(files, w, d);
    BesideIsRest(files, EmitCandidates(w, b), d);
    SignalsIgnoreEvents(d);
    EligiblePath(files, b.candidates, w.t.turnHasRichDeliverable || HasCompletedPage(d));
    LeadsUnion(files, PathsOf(b.candidates), {});
  }

  lemma SweepOfTurn(files: map<string, Candidate>, w: World, d: Coord, existing: set<string>)
    requires TurnInv(files, w, d)
    ensures var w' := Sweep(w, existing);
      && TurnInv(files, w', d) && w'.t == w.t.(emitted := w'.t.emitted) && w'.t.emitted.Keys == w.t.emitted.Keys
      && forall key | key in w'.t.emitted :: w'.t.emitted[key].data.missing == (key !in existing)
  {
    hide InStep, FilesOk, RestOf, Fenced, CoordInv, Beside, SweepFrom;
    SweepInStep(files, w, existing);
    BesideIsRest(files, w, d);
    BesideIsRest(files, Sweep(w, existing), d);
    SameFilesOk(files, w.t, Sweep(w, existing).t);
  }

  lemma {:induction false} StepsInStep(files: map<string, Candidate>, w: World, d: Coord, steps: seq<Step>)
    requires TurnInv(files, w, d) && TurnOk(files, w, steps)
    ensures var w' := AfterTurn(w, steps);
      && TurnInv(files, w', AfterCalls(d, steps))
      && w'.t.emitted.Keys == w.t.emitted.Keys + AllPaths(steps)
      && w'.t.turnHasRichDeliverable == (w.t.turnHasRichDeliverable || PageSeen(d, steps))
      && (w'.t.turnHasPrimaryDoc || w'.t.turnHasRichDeliverable) ==
           (w.t.turnHasPrimaryDoc || w.t.turnHasRichDeliverable || PageSeen(d, steps) || DocumentSeen(d, steps)
            || SomeLeads(files, AllPaths(steps)))
    decreases |steps|
  {
    hide InStep, FilesOk, FromFiles, AllIdsOk, ScanReady, EmitCandidates, RestOf, Fenced, CoordInv, Beside, ApplyOp;
    hide HasCompletedPage, HasPrimaryDocument, SomeLeads, PageSeen, DocumentSeen, IdsOk, Aside, TrackerInv;
    if steps == [] {
      LeadsUnion(files, {}, {});
      NothingSeen(d);
    } else {
      SeenFirst(d, steps);
      match steps[0]
      case Scan(b) =>
        ScanOfTurn(files, w, d, b);
        StepsInStep(files, EmitCandidates(w, b), d, steps[1..]);
        LeadsUnion(files, PathsOf(b.candidates), AllPaths(steps[1..]));
      case Sweeps(existing) =>
        SweepOfTurn(files, w, d, existing);
        StepsInStep(files, Sweep(w, existing), d, steps[1..]);
        assert AllPaths(steps) == AllPaths(steps[1..]);
      case Call(op) =>
        CallInStep(files, w, d, op);
        StepsInStep(files, World(w.t, ApplyOp(w.c, op)), ApplyOp(d, op), steps[1..]);
        assert AllPaths(steps) == AllPaths(steps[1..]);
    }
  }

  lemma NothingSeen(d: Coord)
    ensures !PageSeen(d, []) && !DocumentSeen(d, [])
  {
  }

  // ---------- from the start of a turn ----------

  /** A turn before its first scan, on a coordinator that knows none of the files. */
  ghost predicate FreshTurn(files: map<string, Candidate>, w: World) {
    && CoordInv(w.c) && FilesOk(files, w.t) && Fenced(files, w.c)
    && w.t.emitted == map[] && w.t.emittedOrder == [] && w.t.emittedByContent == map[]
    && !w.t.turnHasPrimaryDoc && !w.t.turnHasRichDeliverable
    && forall key | key in files :: Unseen(w.c, key)
  }

  lemma {:induction false} WithoutNone(ids: seq<string>)
    ensures Without(ids, {}) == ids
  {
    if ids != [] {
      WithoutNone(ids[..|ids| - 1]);
      assert ids == ids[..|ids| - 1] + [ids[|ids| - 1]];
    }
  }

  lemma FreshBeside(files: map<string, Candidate>, c: Coord)
    requires forall key | key in files :: Unseen(c, key)
    ensures Beside(files, {}, c, c)
  {
    WithoutNone(c.recordOrder);
    hide Without;
    forall key | key in files
      ensures FileTool(key) !in c.byTool && key !in c.pathIndex
    {
      assert Unseen(c, key);
    }
    hide FileTool, Unseen;
    assert forall tool | tool in c.byTool :: !IsFileTool(files, tool);
    assert ToolsBut(files, c.byTool) == c.byTool;
    assert PathsBut(files, c.pathIndex) == c.pathIndex;
    assert RecordsBut(c.records, {}) == c.records;
  }

  lemma FreshInStep(files: map<string, Candidate>, w: World)
    requires FreshTurn(files, w)
    ensures TurnInv(files, w, w.c)
  {
    hide FilesOk, CoordInv, Unseen, Beside;
    FreshBeside(files, w.c);
    assert CardIds(w.t) == {};
  }

  /** The scans of a turn do not change what the calls make of the coordinator: with the cards of the
      files taken out it is what the calls alone would have made of it. */
  lemma ScansLeaveTheRest(files: map<string, Candidate>, w: World, steps: seq<Step>)
    requires FreshTurn(files, w) && TurnOk(files, w, steps)
    ensures RestOf(files, AfterTurn(w, steps)) == AfterCalls(w.c, steps).(events := [])
  {
    hide FreshTurn, TurnOk, Beside, RestOf, InStep, FilesOk, CoordInv, Fenced;
    FreshInStep(files, w);
    StepsInStep(files, w, w.c, steps);
    BesideIsRest(files, AfterTurn(w, steps), AfterCalls(w.c, steps));
  }

  /** The role a file ends with: nothing leads unless something can; then documents lead, and once a
      page was seen only decks and documents do. */
  ghost function FinalRole(files: map<string, Candidate>, d: Coord, steps: seq<Step>, key: string): Option<FileRole>
    requires key in files
  {
    RoleNow(files[key].data, DocumentSeen(d, steps) || SomeLeads(files, AllPaths(steps)), PageSeen(d, steps))
  }

  /** The card of a file in the client's view. */
  ghost function ShownData(w: World, key: string): Data
    requires key in w.t.emitted && w.t.emitted[key].artifactId in Fold(w.c.events)
  {
    Fold(w.c.events)[w.t.emitted[key].artifactId].data
  }

  /** The file has a card, and the client is shown the role that the tracker recorded for it. */
  ghost predicate ShowsRole(w: World, key: string, role: Option<FileRole>) {
    && key in w.t.emitted && w.t.emitted[key].data.role == role
    && w.t.emitted[key].artifactId in Fold(w.c.events) && RoleShown(ShownData(w, key), role)
  }

  lemma ShownInStep(files: map<string, Candidate>, w: World, key: string)
    requires InStep(files, w) && key in w.t.emitted
    ensures key in files
    ensures ShowsRole(w, key, RoleNow(files[key].data, w.t.turnHasPrimaryDoc, w.t.turnHasRichDeliverable))
  {
    hide TrackerInv, Fold, RoleShown;
    assert CardOfFile(files, w, key);
  }

  /** After any turn every scanned file has a card, and the client shows its final role, which mentions
      scans and calls only through the files scanned and the signals found. */
  lemma FinalRoles(files: map<string, Candidate>, w: World, steps: seq<Step>, key: string)
    requires FreshTurn(files, w) && TurnOk(files, w, steps) && key in AllPaths(steps)
    ensures key in files && ShowsRole(AfterTurn(w, steps), key, FinalRole(files, w.c, steps, key))
  {
    hide TurnOk, InStep, FilesOk, CoordInv, Fenced, Beside, ShowsRole, PageSeen, DocumentSeen, SomeLeads;
    FreshInStep(files, w);
    StepsInStep(files, w, w.c, steps);
    ShownInStep(files, AfterTurn(w, steps), key);
  }

  /** Two turns over the same files that find the same signals show the same roles, however their scans
      are batched and wherever their calls fall. */
  lemma RolesIgnoreBatching(
    files: map<string, Candidate>, w: World, steps: seq<Step>, steps': seq<Step>, key: string)
    returns (role: Option<FileRole>)
    requires FreshTurn(files, w) && TurnOk(files, w, steps) && TurnOk(files, w, steps') && key in AllPaths(steps)
    requires AllPaths(steps) == AllPaths(steps')
    requires PageSeen(w.c, steps) == PageSeen(w.c, steps') && DocumentSeen(w.c, steps) == DocumentSeen(w.c, steps')
    ensures ShowsRole(AfterTurn(w, steps), key, role) && ShowsRole(AfterTurn(w, steps'), key, role)
  {
    hide FreshTurn, TurnOk, ShowsRole, PageSeen, DocumentSeen, SomeLeads;
    FinalRoles(files, w, steps, key);
    FinalRoles(files, w, steps', key);
    role := FinalRole(files, w.c, steps, key);
  }

  /** After a turn that ends with a sweep the client is shown of each card whether its file is there. */
  lemma VanishedFilesAreShown(
    files: map<string, Candidate>, w: World, steps: seq<Step>, existing: set<string>, key: string)
    requires FreshTurn(files, w) && TurnOk(files, w, steps) && key in AllPaths(steps)
    ensures var w' := Sweep(AfterTurn(w, steps), existing);
      && key in w'.t.emitted && w'.t.emitted[key].artifactId in Fold(w'.c.events)
      && MissingShown(ShownData(w', key), key !in existing)
  {
    hide FreshTurn, TurnOk, InStep, FilesOk, CoordInv, Fenced, Beside, SweepFrom, PageSeen, DocumentSeen, SomeLeads;
    FreshInStep(files, w);
    StepsInStep(files, w, w.c, steps);
    var w1 := AfterTurn(w, steps);
    SweepOfTurn(files, w1, AfterCalls(w.c, steps), existing);
    FlagInStep(files, Sweep(w1, existing), key);
  }

  lemma FlagInStep(files: map<string, Candidate>, w: World, key: string)
    requires InStep(files, w) && key in w.t.emitted
    ensures w.t.emitted[key].artifactId in Fold(w.c.events)
    ensures MissingShown(ShownData(w, key), w.t.emitted[key].data.missing)
  {
    hide TrackerInv, Fold, RoleShown, MissingShown;
    assert CardOfFile(files, w, key);
  }

  // ---------- signals that last ----------

  /** A direct patch and a revival by path are the only calls that can take a finished page away. */
  predicate SparesFinished(op: Op) { !op.OpPatchArtifact? && !op.OpAdoptToolCall? }

  lemma {:induction false} TerminateKeepsRole(
    c: Coord, i: nat, turnId: string, status: Status, fallbackText: Option<string>)
    ensures TerminateFrom(c, i, turnId, status, fallbackText).role == c.role
    decreases |c.recordOrder| - i
  {
    hide TerminalPatch, PatchRecord;
    if i < |c.recordOrder| {
      var id := c.recordOrder[i];
      var c1 := if Active(c, id)
        then EmitPatch(c, id, TerminalPatch(c.records[id], turnId, status, fallbackText)) else c;
      TerminateKeepsRole(c1, i + 1, turnId, status, fallbackText);
    }
  }

  lemma OpKeepsRole(c: Coord, op: Op)
    requires CoordInv(c)
    ensures ApplyOp(c, op).role == c.role
  {
    hide TerminateFrom, PatchFromSeed, PatchRecord, NewRecord, IndexPaths;
    if op.OpTerminateAll? { TerminateKeepsRole(c, 0, op.turnId, op.status, op.fallbackText); }
  }

  /** A finished record stays finished, with its plugin. */
  lemma FinishedStays(c: Coord, op: Op, id: string)
    requires CoordInv(c) && IdsOk(c, op) && SparesFinished(op) && id in c.records && c.records[id].status.Completed?
    ensures id in ApplyOp(c, op).records && ApplyOp(c, op).records[id].status.Completed?
    ensures ApplyOp(c, op).records[id].pluginId == c.records[id].pluginId
  {
    hide ApplyOp, IdsOk;
    assert RecordOk(c, id);
    TerminalRecordsStay(c, op, id);
  }

  lemma CallKeepsSignals(c: Coord, op: Op)
    requires CoordInv(c) && IdsOk(c, op) && SparesFinished(op)
    ensures HasCompletedPage(c) ==> HasCompletedPage(ApplyOp(c, op))
    ensures HasPrimaryDocument(c) ==> HasPrimaryDocument(ApplyOp(c, op))
  {
    hide ApplyOp, IdsOk, CoordInv, SparesFinished;
    OpKeepsRole(c, op);
    if HasCompletedPage(c) {
      var id :| id in c.records && IsFinishedPage(c.records[id]);
      FinishedStays(c, op, id);
      assert IsFinishedPage(ApplyOp(c, op).records[id]);
    }
    if HasPrimaryDocument(c) {
      var id :| id in c.records && IsFinishedDocument(c.records[id]);
      FinishedStays(c, op, id);
      assert IsFinishedDocument(ApplyOp(c, op).records[id]);
    }
  }

  /** What some scan found is still there when the turn ends. */
  ghost predicate NothingLost(d: Coord, steps: seq<Step>) {
    && (PageSeen(d, steps) ==> HasCompletedPage(AfterCalls(d, steps)))
    && (DocumentSeen(d, steps) ==> HasPrimaryDocument(AfterCalls(d, steps)))
  }

  /** Without direct patches and revivals nothing is lost. */
  lemma {:induction false} CallsLoseNothing(files: map<string, Candidate>, w: World, d: Coord, steps: seq<Step>)
    requires TurnInv(files, w, d) && TurnOk(files, w, steps)
    requires forall i: nat | i < |steps| && steps[i].Call? :: SparesFinished(steps[i].op)
    ensures HasCompletedPage(d) ==> HasCompletedPage(AfterCalls(d, steps))
    ensures HasPrimaryDocument(d) ==> HasPrimaryDocument(AfterCalls(d, steps))
    ensures NothingLost(d, steps)
    decreases |steps|
  {
    hide InStep, FilesOk, FromFiles, AllIdsOk, ScanReady, EmitCandidates, Fenced, CoordInv, Beside, ApplyOp, IdsOk;
    hide HasCompletedPage, HasPrimaryDocument, PageSeen, DocumentSeen, Aside, TrackerInv, SparesFinished;
    if steps == [] {
      NothingSeen(d);
    } else {
      SeenFirst(d, steps);
      assert forall i: nat | i < |steps[1..]| :: steps[1..][i] == steps[i + 1];
      match steps[0]
      case Scan(b) =>
        ScanOfTurn(files, w, d, b);
        CallsLoseNothing(files, EmitCandidates(w, b), d, steps[1..]);
      case Sweeps(existing) =>
        SweepOfTurn(files, w, d, existing);
        CallsLoseNothing(files, Sweep(w, existing), d, steps[1..]);
      case Call(op) =>
        CallInStep(files, w, d, op);
        CallKeepsSignals(d, op);
        CallsLoseNothing(files, World(w.t, ApplyOp(w.c, op)), ApplyOp(d, op), steps[1..]);
    }
  }

  /** The role a file has by the state the calls leave behind, as one scan of everything at the end gives it. */
  ghost function EndRole(files: map<string, Candidate>, end: Coord, paths: set<string>, key: string): Option<FileRole>
    requires key in files
  {
    RoleNow(files[key].data, HasPrimaryDocument(end) || SomeLeads(files, paths), HasCompletedPage(end))
  }

  lemma {:induction false} CallsAppend(d: Coord, steps: seq<Step>, step: Step)
    requires !step.Call?
    ensures AfterCalls(d, steps + [step]) == AfterCalls(d, steps)
    decreases |steps|
  {
    hide ApplyOp, CoordInv;
    if steps == [] {
      assert [step][1..] == [];
    } else {
      assert (steps + [step])[1..] == steps[1..] + [step];
      CallsAppend(if steps[0].Call? && CoordInv(d) then ApplyOp(d, steps[0].op) else d, steps[1..], step);
    }
  }

  /** No call comes after the last scan. */
  predicate ScannedLast(steps: seq<Step>) {
    steps != [] && (steps[|steps| - 1].Scan? || (steps[|steps| - 1].Sweeps? && ScannedLast(steps[..|steps| - 1])))
  }

  lemma {:induction false} LastScanSees(d: Coord, steps: seq<Step>)
    requires ScannedLast(steps)
    ensures HasCompletedPage(AfterCalls(d, steps)) ==> PageSeen(d, steps)
    ensures HasPrimaryDocument(AfterCalls(d, steps)) ==> DocumentSeen(d, steps)
    decreases |steps|
  {
    hide HasCompletedPage, HasPrimaryDocument, AfterCalls;
    var last := |steps| - 1;
    assert steps == steps[..last] + [steps[last]];
    CallsAppend(d, steps[..last], steps[last]);
    if !steps[last].Scan? {
      LastScanSees(d, steps[..last]);
      assert forall i: nat | i < last :: steps[..last][..i] == steps[..i];
    }
  }

  /** Some scanned file leads only while no page was seen, such as a sheet. */
  ghost predicate SomeYield(files: map<string, Candidate>, paths: set<string>) {
    exists key :: key in paths && key in files && IsLeaderWithoutPage(files[key].data)
  }

  predicate IsLeaderWithoutPage(data: FileData) { EligibleAsPrimary(data, false) && !EligibleAsPrimary(data, true) }

  /** Nothing that a scan found is gone by the end, or its loss changes no role: a lost page needs something
      else that can lead and no file that would have to yield to it; a lost document a page or such a file. */
  ghost predicate LossIsHarmless(files: map<string, Candidate>, d: Coord, steps: seq<Step>) {
    var end, leads := AfterCalls(d, steps), SomeLeads(files, AllPaths(steps));
    if PageSeen(d, steps) && !HasCompletedPage(end)
    then (leads || HasPrimaryDocument(end)) && !SomeYield(files, AllPaths(steps))
    else leads || HasCompletedPage(end) || (DocumentSeen(d, steps) ==> HasPrimaryDocument(end))
  }

  lemma RoleOfKey(files: map<string, Candidate>, w: World, steps: seq<Step>, key: string)
    requires FreshTurn(files, w) && TurnOk(files, w, steps) && key in AllPaths(steps)
    ensures key in files
    ensures ShowsRole(AfterTurn(w, steps), key, EndRole(files, AfterCalls(w.c, steps), AllPaths(steps), key)) <==>
      FinalRole(files, w.c, steps, key) == EndRole(files, AfterCalls(w.c, steps), AllPaths(steps), key)
  {
    hide FreshTurn, TurnOk, FinalRole, EndRole, RoleShown, Fold;
    FinalRoles(files, w, steps, key);
  }

  lemma RoleDiffers(files: map<string, Candidate>, d: Coord, steps: seq<Step>, key: string)
    requires ScannedLast(steps) && key in AllPaths(steps) && key in files
    ensures FinalRole(files, d, steps, key) == EndRole(files, AfterCalls(d, steps), AllPaths(steps), key) <==>
      var end, leads := AfterCalls(d, steps), SomeLeads(files, AllPaths(steps));
      if PageSeen(d, steps) && !HasCompletedPage(end)
      then (leads || HasPrimaryDocument(end)) && !IsLeaderWithoutPage(files[key].data)
      else leads || HasCompletedPage(end) || (DocumentSeen(d, steps) ==> HasPrimaryDocument(end))
  {
    LastScanSees(d, steps);
    hide SomeLeads, HasCompletedPage, HasPrimaryDocument, PageSeen, DocumentSeen, AllPaths, AfterCalls;
  }

  /** A turn with no call after its last scan shows the roles that the files and the end of the calls determine,
      whenever its scans fell and whatever they held, if and only if no harmful loss happened. */
  lemma EndDecidesIff(files: map<string, Candidate>, w: World, steps: seq<Step>)
    requires FreshTurn(files, w) && TurnOk(files, w, steps) && AllPaths(steps) != {}
    requires ScannedLast(steps)
    ensures AllPaths(steps) <= files.Keys
    ensures
      (forall key | key in AllPaths(steps) ::
         ShowsRole(AfterTurn(w, steps), key, EndRole(files, AfterCalls(w.c, steps), AllPaths(steps), key)))
      <==> LossIsHarmless(files, w.c, steps)
  {
    hide FreshTurn, TurnOk, FinalRole, EndRole, ShowsRole, SomeLeads, HasCompletedPage, HasPrimaryDocument, AllPaths;
    hide PageSeen, DocumentSeen, IsLeaderWithoutPage;
    var one :| one in AllPaths(steps);
    forall key | key in AllPaths(steps)
      ensures key in files
      ensures ShowsRole(AfterTurn(w, steps), key, EndRole(files, AfterCalls(w.c, steps), AllPaths(steps), key)) <==>
        var end, leads := AfterCalls(w.c, steps), SomeLeads(files, AllPaths(steps));
        if PageSeen(w.c, steps) && !HasCompletedPage(end)
        then (leads || HasPrimaryDocument(end)) && !IsLeaderWithoutPage(files[key].data)
        else leads || HasCompletedPage(end) || (DocumentSeen(w.c, steps) ==> HasPrimaryDocument(end))
    {
      RoleOfKey(files, w, steps, key);
      RoleDiffers(files, w.c, steps, key);
    }
  }

  /** Without direct patches and revivals among its calls every turn with no call after its last scan does. */
  lemma EndDecides(files: map<string, Candidate>, w: World, steps: seq<Step>, key: string)
    requires FreshTurn(files, w) && TurnOk(files, w, steps) && key in AllPaths(steps)
    requires ScannedLast(steps)
    requires forall i: nat | i < |steps| && steps[i].Call? :: SparesFinished(steps[i].op)
    ensures key in files
    ensures ShowsRole(AfterTurn(w, steps), key, EndRole(files, AfterCalls(w.c, steps), AllPaths(steps), key))
  {
    hide FreshTurn, TurnOk, FinalRole, EndRole, ShowsRole, HasCompletedPage, HasPrimaryDocument, AllPaths, SomeLeads;
    hide PageSeen, DocumentSeen, TurnInv, SomeYield;
    FreshInStep(files, w);
    CallsLoseNothing(files, w, w.c, steps);
    EndDecidesIff(files, w, steps);
  }

  /** A page that a scan saw counts for the rest of the turn, also when it is revived and never finished
      again: no file but decks and documents leads, although the turn ends without a page. */
  lemma LostPageStillCounts(files: map<string, Candidate>, w: World, steps: seq<Step>, key: string)
    requires FreshTurn(files, w) && TurnOk(files, w, steps) && key in AllPaths(steps)
    requires PageSeen(w.c, steps) && !HasCompletedPage(AfterCalls(w.c, steps))
    ensures key in files && !HasCompletedPage(AfterTurn(w, steps).c)
    ensures ShowsRole(AfterTurn(w, steps), key,
                      Some(if EligibleAsPrimary(files[key].data, true) then Lead else Supporting))
  {
    hide TurnOk, ShowsRole, SomeLeads, PageSeen, DocumentSeen, HasCompletedPage, HasPrimaryDocument, CoordInv;
    hide InStep, FilesOk, Fenced, Beside, FreshTurn, AllPaths;
    FinalRoles(files, w, steps, key);
    FreshInStep(files, w);
    StepsInStep(files, w, w.c, steps);
    EndSignals(files, AfterTurn(w, steps), AfterCalls(w.c, steps));
  }

  lemma EndSignals(files: map<string, Candidate>, w: World, d: Coord)
    requires TurnInv(files, w, d)
    ensures HasCompletedPage(w.c) == HasCompletedPage(d)
  {
    hide FilesOk, CoordInv, CardsInv, Fenced, Beside, RestOf, HasCompletedPage, HasPrimaryDocument;
    SignalsFromRest(files, w);
    BesideIsRest(files, w, d);
    SignalsIgnoreEvents(d);
  }

  // ---------- a page that is lost ----------

  const SHEET := FileData("out/a.xlsx", "a.xlsx", "xlsx", 9, Sheet, None, None, false)

  const SHEET_FILE := Candidate(SHEET, 5, 5, Output, true, None, 0, None, false, "sheet")

  const PAGE_SEED := Seed("sandpack_v1", "Page", None, Some(Completed), None, None, None, None, None, None, None)

  const PAGE_REOPENED := EMPTY_PATCH.(status := Some(Running))

  function EmptyTracker(startedAtMs: int): Tracker {
    Tracker(startedAtMs, map[], map[], [], map[], map[], None, false, false)
  }

  /** A page is finished, a scan sees it, the page is reopened, and a sheet is scanned last. */
  function ReopenedPageTurn(le: PathOrder): seq<Step> {
    [Call(OpOpenOrGet("tool", PAGE_SEED, "page")), Scan(Batch([], false, le)),
     Call(OpPatchArtifact("page", PAGE_REOPENED)), Scan(Batch([SHEET_FILE], false, le))]
  }

  const SHEET_TURN := World(EmptyTracker(1), InitialCoord(Primary))

  const SHEETS := map[SHEET.path := SHEET_FILE]

  lemma SheetTurnIsFresh()
    ensures FreshTurn(SHEETS, SHEET_TURN)
  {
  }

  lemma PageOpened(c: Coord)
    requires c == SHEET_TURN.c
    ensures CoordInv(c) && IdsOk(c, OpOpenOrGet("tool", PAGE_SEED, "page"))
    ensures var d := ApplyOp(c, OpOpenOrGet("tool", PAGE_SEED, "page"));
      && d.records.Keys == {"page"} && IsFinishedPage(d.records["page"]) && HasCompletedPage(d)
  {
    var d := ApplyOp(c, OpOpenOrGet("tool", PAGE_SEED, "page"));
    assert d.records == map["page" := NewRecord("page", "tool", PAGE_SEED, Completed, {})];
    assert IsFinishedPage(d.records["page"]);
  }

  lemma PageReopened(d: Coord)
    requires CoordInv(d) && d.records.Keys == {"page"}
    ensures var e := ApplyOp(d, OpPatchArtifact("page", PAGE_REOPENED));
      e.records.Keys == {"page"} && !HasCompletedPage(e)
  {
    hide CoordInv, IndexPaths;
  }

  lemma ReopenedCalls(le: PathOrder)
    ensures var d := SHEET_TURN.c;
      PageSeen(d, ReopenedPageTurn(le)) && !HasCompletedPage(AfterCalls(d, ReopenedPageTurn(le)))
  {
    hide ApplyOp, CoordInv, HasCompletedPage, IdsOk;
    var d, steps := SHEET_TURN.c, ReopenedPageTurn(le);
    PageOpened(d);
    var d1 := ApplyOp(d, steps[0].op);
    OpKeepsInv(d, steps[0].op);
    PageReopened(d1);
    assert steps[..1] == [steps[0]] && [steps[0]][1..] == [];
    assert AfterCalls(d, steps[..1]) == d1;
    assert steps[1].Scan? && HasCompletedPage(AfterCalls(d, steps[..1]));
    assert steps[1..][1..] == steps[2..] && steps[2..][1..] == steps[3..] && steps[3..][1..] == [];
    assert AfterCalls(d, steps) == AfterCalls(d1, steps[1..]);
    assert AfterCalls(d1, steps[1..]) == AfterCalls(d1, steps[2..]);
    var e := ApplyOp(d1, steps[2].op);
    assert AfterCalls(d1, steps[2..]) == AfterCalls(e, steps[3..]);
    assert AfterCalls(e, steps[3..]) == AfterCalls(e, []);
  }

  lemma NoCardsBeside(files: map<string, Candidate>, w: World, d: Coord)
    requires TurnInv(files, w, d) && w.t.emitted.Keys == {}
    ensures CardIds(w.t) == {} && w.c.records == d.records
  {
    hide InStep, FilesOk, CoordInv, Fenced, Without, ToolsBut, PathsBut;
    assert CardIds(w.t) == {};
  }

  lemma ScanFirst(files: map<string, Candidate>, w: World, b: Batch, steps: seq<Step>)
    requires FromFiles(files, b.candidates) && TrackerInv(w) && AllIdsOk(w.c, b.candidates)
    requires ScanReady(w, b) ==> TurnOk(files, EmitCandidates(w, b), steps)
    ensures TurnOk(files, w, [Scan(b)] + steps)
  {
    hide FromFiles, TrackerInv, AllIdsOk, ScanReady, EmitCandidates;
    assert ([Scan(b)] + steps)[1..] == steps;
  }

  lemma CallFirst(files: map<string, Candidate>, w: World, op: Op, steps: seq<Step>)
    requires CoordInv(w.c) && IdsOk(w.c, op) && Aside(files, CardIds(w.t), op)
    requires TurnOk(files, World(w.t, ApplyOp(w.c, op)), steps)
    ensures TurnOk(files, w, [Call(op)] + steps)
  {
    hide CoordInv, IdsOk, Aside, ApplyOp;
    assert ([Call(op)] + steps)[1..] == steps;
  }

  lemma SheetScanned(w: World, le: PathOrder)
    requires TrackerInv(w) && w.c.records.Keys == {"page"}
    ensures TurnOk(SHEETS, w, [Scan(Batch([SHEET_FILE], false, le))])
  {
    hide TrackerInv, ScanReady, EmitCandidates;
    var b := Batch([SHEET_FILE], false, le);
    ScanFirst(SHEETS, w, b, []);
    assert [Scan(b)] + [] == [Scan(b)];
  }

  lemma PageReopenedNext(w: World, d: Coord, le: PathOrder)
    requires TurnInv(SHEETS, w, d) && w.t.emitted.Keys == {} && d.records.Keys == {"page"}
    ensures TurnOk(SHEETS, w, ReopenedPageTurn(le)[2..])
  {
    hide TurnInv, TurnOk, ApplyOp, CoordInv, IdsOk, HasCompletedPage, TrackerInv;
    var op := OpPatchArtifact("page", PAGE_REOPENED);
    InStepTracker(SHEETS, w, d);
    NoCardsBeside(SHEETS, w, d);
    PatchIdsOk(w.c);
    CallInStep(SHEETS, w, d, op);
    var w', d' := World(w.t, ApplyOp(w.c, op)), ApplyOp(d, op);
    InStepTracker(SHEETS, w', d');
    NoCardsBeside(SHEETS, w', d');
    PageReopened(d);
    SheetScanned(w', le);
    CallFirst(SHEETS, w, op, [Scan(Batch([SHEET_FILE], false, le))]);
    assert ReopenedPageTurn(le)[2..] == [Call(op)] + [Scan(Batch([SHEET_FILE], false, le))];
  }

  lemma EmptyScanNext(w: World, d: Coord, le: PathOrder)
    requires TurnInv(SHEETS, w, d) && w.t.emitted.Keys == {} && d.records.Keys == {"page"}
    ensures TurnOk(SHEETS, w, ReopenedPageTurn(le)[1..])
  {
    hide TurnInv, TurnOk, CoordInv, HasCompletedPage, HasPrimaryDocument, TrackerInv, ScanReady, EmitCandidates;
    var b := Batch([], false, le);
    InStepTracker(SHEETS, w, d);
    ScanOfTurn(SHEETS, w, d, b);
    PageReopenedNext(EmitCandidates(w, b), d, le);
    ScanFirst(SHEETS, w, b, ReopenedPageTurn(le)[2..]);
    assert ReopenedPageTurn(le)[1..] == [Scan(b)] + ReopenedPageTurn(le)[2..];
  }

  lemma ReopenedTurnOk(le: PathOrder)
    ensures TurnOk(SHEETS, SHEET_TURN, ReopenedPageTurn(le))
  {
    hide TurnInv, TurnOk, ApplyOp, CoordInv, HasCompletedPage, IdsOk;
    var w, op := SHEET_TURN, OpOpenOrGet("tool", PAGE_SEED, "page");
    PageOpened(w.c);
    SheetTurnIsFresh();
    FreshInStep(SHEETS, w);
    OpenedAside(w.t, op);
    CallInStep(SHEETS, w, w.c, op);
    EmptyScanNext(World(w.t, ApplyOp(w.c, op)), ApplyOp(w.c, op), le);
    CallFirst(SHEETS, w, op, ReopenedPageTurn(le)[1..]);
    assert ReopenedPageTurn(le) == [Call(op)] + ReopenedPageTurn(le)[1..];
  }

  lemma OpenedAside(t: Tracker, op: Op)
    requires t.emitted == map[] && op == OpOpenOrGet("tool", PAGE_SEED, "page")
    ensures Aside(SHEETS, CardIds(t), op)
  {
    assert FileTool(SHEET.path)[0] != "tool"[0];
  }

  lemma PatchIdsOk(c: Coord)
    ensures IdsOk(c, OpPatchArtifact("page", PAGE_REOPENED))
  {
  }

  lemma InStepTracker(files: map<string, Candidate>, w: World, d: Coord)
    requires TurnInv(files, w, d)
    ensures TrackerInv(w) && CoordInv(w.c) && CoordInv(d)
  {
  }

  /** A turn whose roles the end does not decide: the sheet is shown as supporting a page that is not finished,
      while one scan at the end would have let it lead. */
  lemma ReopenedPageExample(le: PathOrder)
    ensures var steps := ReopenedPageTurn(le);
      && FreshTurn(SHEETS, SHEET_TURN) && TurnOk(SHEETS, SHEET_TURN, steps)
      && ShowsRole(AfterTurn(SHEET_TURN, steps), SHEET.path, Some(Supporting))
      && EndRole(SHEETS, AfterCalls(SHEET_TURN.c, steps), AllPaths(steps), SHEET.path) == Some(Lead)
  {
    hide TurnOk, ShowsRole, PageSeen, AfterCalls, HasCompletedPage, HasPrimaryDocument, FreshTurn;
    var steps := ReopenedPageTurn(le);
    SheetTurnIsFresh();
    ReopenedTurnOk(le);
    ReopenedCalls(le);
    SheetPaths(le);
    LostPageStillCounts(SHEETS, SHEET_TURN, steps, SHEET.path);
    assert EligibleAsPrimary(SHEET, false);
    assert SomeLeads(SHEETS, AllPaths(steps));
  }

  lemma SheetPaths(le: PathOrder)
    ensures AllPaths(ReopenedPageTurn(le)) == {SHEET.path}
  {
    var steps := ReopenedPageTurn(le);
    assert steps[1..][1..] == steps[2..] && steps[2..][1..] == steps[3..] && steps[3..][1..] == [];
    assert [SHEET_FILE][1..] == [];
    assert PathsOf([SHEET_FILE]) == {SHEET.path};
    assert AllPaths(steps[3..]) == PathsOf([SHEET_FILE]) + AllPaths([]);
    assert AllPaths(steps[2..]) == AllPaths(steps[3..]);
    assert AllPaths(steps[1..]) == AllPaths(steps[2..]);
  }

  // ---------- files outside the delivery directory ----------

  lemma LatchesKeepTracker(w: World, b: Batch)
    requires TrackerInv(w)
    ensures var w2 := Prepared(w, b).0;
      && w2.t.emitted.Keys == w.t.emitted.Keys && w2.c.pathIndex.Keys == w.c.pathIndex.Keys
      && w2.t.baseline == w.t.baseline && w2.t.turnStartedAtMs == w.t.turnStartedAtMs
      && w2.t.turnHasRichDeliverable == (w.t.turnHasRichDeliverable || HasCompletedPage(w.c))
  {
    hide TrackerInv, HasCompletedPage, HasPrimaryDocument, Mint, CurateDeliverables, LatchRich, LatchPrimary;
    var w1 := LatchRich(w, HasCompletedPage(w.c));
    RichLatched(w, HasCompletedPage(w.c));
    PrimaryLatched(w1, Mint(w1.t, b.candidates, b.explicit), HasPrimaryDocument(w1.c));
  }

  lemma NewFileIsCarded(w: World, cand: Candidate, explicit: bool)
    requires TrackerInv(w) && CandidateIdsOk(w.c, cand) && !Skipped(w.t, cand, explicit)
    requires cand.data.path !in w.t.emitted && cand.data.path !in w.c.pathIndex && cand.published.None?
    ensures CoordInv(w.c) && cand.data.path in EmitOne(w, cand, explicit).t.emitted
  {
    hide CoordInv, Enumerates, EmitNewPath, EmitPage, EmitOnCard, EmitUnresolved, Skipped;
    assert BranchOf(w, cand, explicit).NewPath?;
    NewPathRemembers(w, cand, WithSkill(w.t, cand.data));
  }

  /** A scan that finds one new file: it gets a card if and only if it lies in the delivery directory, or may
      lead given the pages finished so far. */
  lemma NewFileIsCardedIff(w: World, cand: Candidate, le: PathOrder)
    requires TrackerInv(w) && CandidateIdsOk(w.c, cand) && !Skipped(w.t, cand, false)
    requires cand.data.path !in w.t.emitted && cand.data.path !in w.c.pathIndex && cand.published.None?
    ensures var b := Batch([cand], false, le);
      && ScanReady(w, b)
      && (cand.data.path in EmitCandidates(w, b).t.emitted <==>
            cand.rootKind.Output? || EligibleAsPrimary(cand.data, w.t.turnHasRichDeliverable || HasCompletedPage(w.c)))
  {
    hide CoordInv, EligibleAsPrimary, HasCompletedPage, HasPrimaryDocument, SomeEligible, LatchRich, LatchPrimary;
    hide Enumerates, EmitOne, TrackerInv;
    var b := Batch([cand], false, le);
    LatchesKeepRecords(w, b);
    LatchesKeepTracker(w, b);
    RichLatched(w, HasCompletedPage(w.c));
    var w2, curated := Prepared(w, b).0, Prepared(w, b).1;
    assert [cand][1..] == [];
    if Mintable(LatchRich(w, HasCompletedPage(w.c)).t, cand, false) {
      assert Mint(LatchRich(w, HasCompletedPage(w.c)).t, [cand], false) == [cand];
      OneCurated(le, cand, w2.t.turnHasPrimaryDoc, w2.t.turnHasRichDeliverable);
      var c := curated[0];
      assert curated == [c] && CandidateIdsOk(w2.c, c) && !Skipped(w2.t, c, false);
      NewFileIsCarded(w2, c, false);
      assert curated[1..] == [];
      assert EmitAll(w2, curated, false) == EmitOne(w2, c, false);
    } else {
      assert Mint(LatchRich(w, HasCompletedPage(w.c)).t, [cand], false) == [];
      NoneCurated(le, w2.t.turnHasPrimaryDoc, w2.t.turnHasRichDeliverable);
    }
  }

  lemma OneCurated(le: PathOrder, cand: Candidate, primary: bool, rich: bool)
    ensures var curated := CurateDeliverables(le, [cand], primary, rich);
      |curated| == 1 && exists role :: curated[0] == cand.(data := cand.data.(role := role))
  {
    hide SomeEligible, EligibleAsPrimary;
    var roled := CurateRoles([cand], primary, rich);
    assert roled == [roled[0]] && roled[1..] == [];
    assert Arrange(le, roled) == Place(le, roled[0], []);
    assert roled[0] == cand.(data := cand.data.(role := roled[0].data.role));
  }

  lemma NoneCurated(le: PathOrder, primary: bool, rich: bool)
    ensures CurateDeliverables(le, [], primary, rich) == []
  {
    assert CurateRoles([], primary, rich) == [];
  }

  /** Outside the delivery directory the moment of a scan matters: a sheet scanned before the page is finished
      gets a card, scanned after it gets none. */
  lemma ScratchSheetDependsOnTiming(w: World, cand: Candidate, le: PathOrder, op: Op)
    requires TrackerInv(w) && IdsOk(w.c, op) && CandidateIdsOk(w.c, cand) && !Skipped(w.t, cand, false)
    requires CandidateIdsOk(ApplyOp(w.c, op), cand) && cand.data.path !in ApplyOp(w.c, op).pathIndex
    requires cand.data.path !in w.t.emitted && cand.published.None? && !cand.rootKind.Output?
    requires IsLeaderWithoutPage(cand.data) && !w.t.turnHasRichDeliverable
    requires !HasCompletedPage(w.c) && HasCompletedPage(ApplyOp(w.c, op))
    ensures var b, late := Batch([cand], false, le), World(w.t, ApplyOp(w.c, op));
      && ScanReady(w, b) && cand.data.path in EmitCandidates(w, b).t.emitted
      && ScanReady(late, b) && cand.data.path !in EmitCandidates(late, b).t.emitted
  {
    hide CoordInv, ApplyOp, IdsOk, HasCompletedPage, Enumerates, CandidateIdsOk, Skipped, EmitCandidates, ScanReady;
    OpKeepsInv(w.c, op);
    CallKeepsTracker(w, op);
    NewFileIsCardedIff(w, cand, le);
    NewFileIsCardedIff(World(w.t, ApplyOp(w.c, op)), cand, le);
  }
}

/** What a client shows after any run of the coordinator, empty texts and revivals included, and how the
    two cases in which it parts from the record come about and end. */
module CoordinatorCards {
  import opened CoordinatorProofs
  import opened CoordinatorSpec
  import opened Options

  // ---------- any run ----------

  /** An empty text is sent, and kept by the client, but not recorded. */
  predicate SameOrBlank(shown: string, recorded: string) { shown == recorded || shown == "" }

  /** An empty text is left out of the card that opens. */
  predicate SameOrDropped(shown: Option<string>, recorded: Option<string>) {
    shown == recorded || (shown.None? && recorded == Some(""))
  }

  /** The card shows the record but for empty texts; a revived record may be running, and have another
      path, without the card showing it. */
  predicate AgreesUpTo(card: Card, r: Record, revived: bool) {
    && SameOrBlank(card.pluginId, r.pluginId) && SameOrBlank(card.title, r.title)
    && SameOrBlank(card.fallbackText, r.fallbackText)
    && SameOrDropped(card.parentId, r.parentId) && SameOrDropped(card.changeDescription, r.changeDescription)
    && card.versionNumber == r.versionNumber
    && (card.status == r.status || (revived && r.status.Running?))
    && (SameOrDropped(card.persistedPath, r.persistedPath) || revived)
  }

  ghost predicate CardUpTo(c: Coord, revived: set<string>, id: string) {
    id in Fold(c.events) ==>
      && id in c.records && AgreesUpTo(Fold(c.events)[id], c.records[id], id in revived)
      && RoleStamped(Fold(c.events)[id], c.role)
  }

  ghost predicate CardsUpTo(c: Coord, revived: set<string>) {
    forall id :: CardUpTo(c, revived, id)
  }

  lemma PatchedUpTo(role: DocumentRole, card: Card, r: Record, patch: Patch, revived: bool)
    requires AgreesUpTo(card, r, revived) && RoleStamped(card, role)
    ensures AgreesUpTo(PatchCard(card, NormalizePatch(role, patch)), PatchRecord(r, patch), revived)
    ensures RoleStamped(PatchCard(card, NormalizePatch(role, patch)), role)
  {
  }

  lemma EmitPatchUpTo(c: Coord, revived: set<string>, id: string, patch: Patch)
    requires id in c.records && CardsUpTo(c, revived)
    ensures CardsUpTo(EmitPatch(c, id, patch), revived)
  {
    hide AgreesUpTo, PatchRecord, NormalizePatch, PatchCard, RoleStamped, Fold;
    FoldOne(c.events, Patched(id, NormalizePatch(c.role, patch)));
    forall k
      ensures CardUpTo(EmitPatch(c, id, patch), revived, k)
    {
      assert CardUpTo(c, revived, k);
      if k == id && id in Fold(c.events) {
        PatchedUpTo(c.role, Fold(c.events)[id], c.records[id], patch, id in revived);
      }
    }
  }

  lemma ApplySeedUpTo(c: Coord, revived: set<string>, id: string, seed: Seed)
    requires id in c.records && CardsUpTo(c, revived)
    ensures CardsUpTo(ApplySeed(c, id, seed), revived)
  {
    hide EmitPatch, PatchFromSeed, CardsUpTo;
    match PatchFromSeed(c.records[id], seed)
    case None =>
    case Some(patch) => EmitPatchUpTo(c, revived, id, patch);
  }

  lemma OpenedUpTo(role: DocumentRole, id: string, tool: string, seed: Seed, paths: set<string>)
    ensures var r := NewRecord(id, tool, seed, seed.status.Or(Running), paths);
      && EnvelopeOf(role, r, seed).id == id
      && AgreesUpTo(OpenCard(EnvelopeOf(role, r, seed)), r, false)
          && RoleStamped(OpenCard(EnvelopeOf(role, r, seed)), role)
  {
  }

  lemma OpenNewUpTo(c: Coord, revived: set<string>, tool: string, seed: Seed, freshId: string)
    requires freshId !in c.records && CardsUpTo(c, revived)
    ensures CardsUpTo(OpenNew(c, tool, seed, freshId), revived)
  {
    hide AgreesUpTo, NewRecord, EnvelopeOf, OpenCard, RoleStamped, Fold;
    var paths := if tool in c.pending then c.pending[tool] else {};
    var r := NewRecord(freshId, tool, seed, seed.status.Or(Running), paths);
    FoldOne(c.events, Opened(EnvelopeOf(c.role, r, seed)));
    OpenedUpTo(c.role, freshId, tool, seed, paths);
    RevivedToo(OpenCard(EnvelopeOf(c.role, r, seed)), r, freshId in revived);
    NewRecordNames(freshId, tool, seed, seed.status.Or(Running), paths);
    forall k
      ensures CardUpTo(OpenNew(c, tool, seed, freshId), revived, k)
    {
      assert CardUpTo(c, revived, k);
    }
  }

  lemma RevivedToo(card: Card, r: Record, revived: bool)
    requires AgreesUpTo(card, r, false)
    ensures AgreesUpTo(card, r, revived)
  {
  }

  /** No event, and every known record shows what it showed. */
  lemma SilentUpTo(c: Coord, revived: set<string>, c': Coord)
    requires CardsUpTo(c, revived) && c'.events == c.events && c'.role == c.role && c.records.Keys <= c'.records.Keys
    requires forall id | id in c.records ::
      c'.records[id].(paths := {}, terminal := false) == c.records[id].(paths := {}, terminal := false)
    ensures CardsUpTo(c', revived)
  {
    hide Fold, RoleStamped;
    forall k
      ensures CardUpTo(c', revived, k)
    {
      assert CardUpTo(c, revived, k);
      if k in c.records { SameFields(c.records[k], c'.records[k]); }
    }
  }

  lemma SameFields(r: Record, r': Record)
    requires r'.(paths := {}, terminal := false) == r.(paths := {}, terminal := false)
    ensures forall card: Card, revived: bool :: AgreesUpTo(card, r', revived) == AgreesUpTo(card, r, revived)
  {
    assert r'.(paths := {}, terminal := false).title == r.title;
  }

  lemma AdoptUpTo(c: Coord, revived: set<string>, tool: string, id: string, path: string, seed: Seed)
    requires CardsUpTo(c, revived)
    ensures CardsUpTo(AdoptToolCallByPath(c, tool, id, path, seed), revived + {id})
  {
    hide Fold, RoleStamped, NewRecord, AgreesUpTo;
    NewRecordNames(id, tool, seed, Running, {path});
    var c' := AdoptToolCallByPath(c, tool, id, path, seed);
    forall k
      ensures CardUpTo(c', revived + {id}, k)
    {
      assert CardUpTo(c, revived, k);
      if k in Fold(c.events) {
        if k == id {
          RevivedUpTo(Fold(c.events)[id], c.records[id], id in revived, path, seed);
        } else {
          assert c'.records[k] == c.records[k];
          assert k in revived + {id} <==> k in revived;
        }
      }
    }
  }

  function RevivedRecord(r: Record, path: string, seed: Seed): Record {
    r.(status := Running, terminal := false, paths := r.paths + {path},
       persistedPath := seed.persistedPath.Else(r.persistedPath))
  }

  lemma RevivedUpTo(card: Card, r: Record, revived: bool, path: string, seed: Seed)
    requires AgreesUpTo(card, r, revived)
    ensures AgreesUpTo(card, RevivedRecord(r, path, seed), true)
  {
  }

  lemma OpenOrGetUpTo(c: Coord, revived: set<string>, tool: string, seed: Seed, freshId: string)
    requires CoordInv(c) && freshId !in c.records && CardsUpTo(c, revived)
    ensures CardsUpTo(OpenOrGet(c, tool, seed, freshId), revived)
  {
    hide ApplySeed, OpenNew, CardsUpTo;
    if tool in c.byTool {
      ApplySeedUpTo(c, revived, c.byTool[tool], seed);
    } else {
      OpenNewUpTo(c, revived, tool, seed, freshId);
    }
  }

  lemma BindPathUpTo(c: Coord, revived: set<string>, id: string, path: string)
    requires CardsUpTo(c, revived)
    ensures CardsUpTo(BindPath(c, id, path), revived)
  {
    SilentUpTo(c, revived, BindPath(c, id, path));
  }

  lemma OpenFileUpTo(c: Coord, revived: set<string>, path: string, seed: Seed, freshId: string)
    requires CoordInv(c) && freshId != "" && freshId !in c.records && CardsUpTo(c, revived)
    ensures CardsUpTo(OpenFileByPath(c, path, seed, freshId), revived)
  {
    hide ApplySeed, OpenOrGet, BindPath, CardsUpTo;
    if path in c.pathIndex && c.pathIndex[path] != "" {
      ApplySeedUpTo(c, revived, c.pathIndex[path], seed);
    } else {
      var tool := FileTool(path);
      OpenOrGetUpTo(c, revived, tool, seed, freshId);
      var c1 := OpenOrGet(c, tool, seed, freshId);
      if tool in c1.byTool { BindPathUpTo(c1, revived, c1.byTool[tool], path); }
    }
  }

  lemma {:induction false} TerminateFromUpTo(
    c: Coord, revived: set<string>, i: nat, turnId: string, status: Status, fallbackText: Option<string>)
    requires CardsUpTo(c, revived)
    ensures CardsUpTo(TerminateFrom(c, i, turnId, status, fallbackText), revived)
    decreases |c.recordOrder| - i
  {
    hide CardsUpTo, TerminalPatch, PatchRecord;
    if i < |c.recordOrder| {
      var id := c.recordOrder[i];
      if Active(c, id) {
        var patch := TerminalPatch(c.records[id], turnId, status, fallbackText);
        EmitPatchUpTo(c, revived, id, patch);
        TerminateFromUpTo(EmitPatch(c, id, patch), revived, i + 1, turnId, status, fallbackText);
      } else {
        TerminateFromUpTo(c, revived, i + 1, turnId, status, fallbackText);
      }
    }
  }

  lemma PatchByToolUpTo(c: Coord, revived: set<string>, tool: string, patch: Patch)
    requires CoordInv(c) && CardsUpTo(c, revived)
    ensures CardsUpTo(PatchByTool(c, tool, patch), revived)
  {
    hide EmitPatch, CardsUpTo;
    if tool in c.byTool { EmitPatchUpTo(c, revived, c.byTool[tool], patch); }
  }

  function RevivedBy(op: Op): set<string> { if op.OpAdoptToolCall? then {op.id} else {} }

  lemma OpUpTo(c: Coord, revived: set<string>, op: Op)
    requires CoordInv(c) && IdsOk(c, op) && CardsUpTo(c, revived)
    ensures CardsUpTo(ApplyOp(c, op), revived + RevivedBy(op))
  {
    hide CardsUpTo, OpenOrGet, PatchByTool, OpenFileByPath, BindPath, AdoptToolCallByPath, EmitPatch, TerminateFrom;
    assert op.OpAdoptToolCall? || revived + RevivedBy(op) == revived;
    match op
    case OpOpenOrGet(tool, seed, freshId) => OpenOrGetUpTo(c, revived, tool, seed, freshId);
    case OpPatch(tool, patch) => PatchByToolUpTo(c, revived, tool, patch);
    case OpComplete(tool, patch) =>
      PatchByToolUpTo(c, revived, tool, patch.(status := Some(patch.status.Or(Completed))));
    case OpRegisterFileWrite(tool, path) => RegisterUpTo(c, revived, tool, path);
    case OpBindPath(id, path) => BindPathUpTo(c, revived, id, path);
    case OpAdoptToolCall(tool, id, path, seed) => AdoptUpTo(c, revived, tool, id, path, seed);
    case OpAdoptFile(id, path, seed) => SilentUpTo(c, revived, ApplyOp(c, op));
    case OpOpenFile(path, seed, freshId) => OpenFileUpTo(c, revived, path, seed, freshId);
    case OpPatchArtifact(id, patch) =>
      if id in c.records { EmitPatchUpTo(c, revived, id, patch); }
    case OpTerminateAll(turnId, status, fallbackText) => TerminateFromUpTo(c, revived, 0, turnId, status, fallbackText);
  }

  lemma RegisterUpTo(c: Coord, revived: set<string>, tool: string, path: string)
    requires CoordInv(c) && CardsUpTo(c, revived)
    ensures CardsUpTo(RegisterFileWrite(c, tool, path), revived)
  {
    SilentUpTo(c, revived, RegisterFileWrite(c, tool, path));
  }

  /** The artifacts that the run revived by path. */
  function Revived(ops: seq<Op>): set<string> {
    if ops == [] then {} else RevivedBy(ops[0]) + Revived(ops[1..])
  }

  lemma {:induction false} RunUpTo(c: Coord, revived: set<string>, ops: seq<Op>)
    requires CoordInv(c) && ValidOps(c, ops) && CardsUpTo(c, revived)
    ensures CardsUpTo(RunOps(c, ops), revived + Revived(ops))
    decreases |ops|
  {
    hide CardsUpTo, CoordInv, IdsOk, ApplyOp;
    if ops == [] {
      assert revived + Revived(ops) == revived;
    } else {
      OpKeepsInv(c, ops[0]);
      OpUpTo(c, revived, ops[0]);
      RunUpTo(ApplyOp(c, ops[0]), revived + RevivedBy(ops[0]), ops[1..]);
      assert revived + RevivedBy(ops[0]) + Revived(ops[1..]) == revived + Revived(ops);
    }
  }

  /** After every run whatever, with no condition on texts or revivals: the client shows each opened artifact
      as recorded, or with an empty text in place of a recorded one, or, if it was revived by path, as not
      running or at another path; every card that carries a role has one. */
  lemma CardsOfEveryRun(role: DocumentRole, ops: seq<Op>)
    requires ValidOps(InitialCoord(role), ops)
    ensures var c := RunOps(InitialCoord(role), ops);
      forall id | id in Fold(c.events) ::
        && id in c.records && AgreesUpTo(Fold(c.events)[id], c.records[id], id in Revived(ops))
        && RoleStamped(Fold(c.events)[id], c.role)
  {
    hide AgreesUpTo, RoleStamped;
    var c0 := InitialCoord(role);
    assert forall id :: CardUpTo(c0, {}, id);
    RunUpTo(c0, {}, ops);
    var c := RunOps(c0, ops);
    assert {} + Revived(ops) == Revived(ops);
    forall id | id in Fold(c.events)
      ensures id in c.records && AgreesUpTo(Fold(c.events)[id], c.records[id], id in Revived(ops))
      ensures RoleStamped(Fold(c.events)[id], c.role)
    {
      assert CardUpTo(c, Revived(ops), id);
    }
  }

  // ---------- the end of a revival ----------

  /** The patch names what the revival of the record changed. */
  predicate NamesRevival(r: Record, seed: Seed, patch: Patch) {
    && (patch.status.Some? || r.status.Running?)
    && (patch.persistedPath.Some? || seed.persistedPath.None? || seed.persistedPath == r.persistedPath)
  }

  lemma RevivedCard(role: DocumentRole, card: Card, r: Record, path: string, seed: Seed, patch: Patch)
    requires Agrees(card, r) && RoleStamped(card, role) && PatchTextOk(patch)
    ensures var card' := PatchCard(card, NormalizePatch(role, patch));
      var r' := PatchRecord(RevivedRecord(r, path, seed), patch);
      (Agrees(card', r') <==> NamesRevival(r, seed, patch)) && RoleStamped(card', role)
  {
  }

  /** After a revival by path the next patch, such as the one that completes the artifact, brings the client
      back in step if and only if it names what the revival changed. */
  lemma RevivalEndsInStepIff(c: Coord, tool: string, id: string, path: string, seed: Seed, patch: Patch)
    requires CoordInv(c) && Replays(c) && id in Fold(c.events) && PatchTextOk(patch)
    ensures var revived := AdoptToolCallByPath(c, tool, id, path, seed);
      && id in c.records && id in revived.records
      && (Replays(EmitPatch(revived, id, patch)) <==> NamesRevival(c.records[id], seed, patch))
  {
    hide Fold, CoordInv, Agrees, RoleStamped, PatchRecord, PatchCard, NormalizePatch, NamesRevival, PatchTextOk;
    assert CardOk(c, id);
    var r := c.records[id];
    var revived := AdoptToolCallByPath(c, tool, id, path, seed);
    assert revived.records[id] == RevivedRecord(r, path, seed);
    var c' := EmitPatch(revived, id, patch);
    FoldOne(c.events, Patched(id, NormalizePatch(c.role, patch)));
    RevivedCard(c.role, Fold(c.events)[id], r, path, seed, patch);
    assert CardOk(c', id) <==> NamesRevival(r, seed, patch);
    forall k | k != id
      ensures CardOk(c', k)
    {
      assert CardOk(c, k);
    }
  }

  // ---------- the cases exist ----------

  const REPORT := Seed("document_v1", "Report", None, Some(Completed), None, None, None, None, None, None, None)

  const REWRITE := Seed("document_v1", "Report", None, None, None, None, None, None, None, None, None)

  lemma ReportOpened(role: DocumentRole)
    ensures var c0, op := InitialCoord(role), OpOpenOrGet("write", REPORT, "report");
      && CoordInv(c0) && IdsOk(c0, op)
      && var c := ApplyOp(c0, op);
      && CoordInv(c) && Replays(c) && "report" in c.records && "report" in Fold(c.events)
      && c.records["report"].status.Completed? && c.records["report"].title == "Report"
      && c.byTool == map["write" := "report"]
  {
    var c0, op := InitialCoord(role), OpOpenOrGet("write", REPORT, "report");
    assert forall id :: CardOk(c0, id);
    OpKeepsInv(c0, op);
    OpReplays(c0, op);
    var c := ApplyOp(c0, op);
    FoldOne([], c.events[0]);
    assert c.events == [] + [c.events[0]];
  }

  /** A finished report is adopted by a second tool call: its record runs again, its card stays finished, until
      the second call completes. */
  lemma RevivedReportExample(role: DocumentRole, path: string)
    ensures var ops := [OpOpenOrGet("write", REPORT, "report"), OpAdoptToolCall("rewrite", "report", path, REWRITE)];
      && ValidOps(InitialCoord(role), ops)
      && var c := RunOps(InitialCoord(role), ops);
      && !Replays(c) && CoordInv(c)
      && "report" in c.records && c.records["report"].status.Running?
      && "report" in Fold(c.events) && Fold(c.events)["report"].status.Completed?
      && Replays(Complete(c, "rewrite", EMPTY_PATCH))
  {
    hide Fold, CoordInv, Replays, OpenOrGet, AdoptToolCallByPath, Complete;
    var a, b := OpOpenOrGet("write", REPORT, "report"), OpAdoptToolCall("rewrite", "report", path, REWRITE);
    var c0 := InitialCoord(role);
    ReportOpened(role);
    var c1 := ApplyOp(c0, a);
    ReportRevived(c1, path);
    RewriteCompletes(c1, path);
    TwoOps(c0, a, b);
  }

  /** The record runs again, and the client is not told. */
  lemma ReportRevived(c: Coord, path: string)
    requires CoordInv(c) && Replays(c) && "report" in c.records && "report" in Fold(c.events)
    requires c.records["report"].status.Completed?
    ensures var c' := AdoptToolCallByPath(c, "rewrite", "report", path, REWRITE);
      && CoordInv(c') && !Replays(c') && "report" in c'.records && c'.records["report"].status.Running?
      && "report" in Fold(c'.events) && Fold(c'.events)["report"].status.Completed?
  {
    hide Fold, CoordInv;
    assert CardOk(c, "report");
    AdoptToolCallKeepsInv(c, "rewrite", "report", path, REWRITE);
    AdoptToolCallReplays(c, "rewrite", "report", path, REWRITE);
  }

  lemma RewriteCompletes(c: Coord, path: string)
    requires CoordInv(c) && Replays(c) && "report" in c.records && "report" in Fold(c.events)
    ensures var c' := AdoptToolCallByPath(c, "rewrite", "report", path, REWRITE);
      CoordInv(c') && Replays(Complete(c', "rewrite", EMPTY_PATCH))
  {
    hide Fold, CoordInv, Replays, PatchRecord, NormalizePatch;
    AdoptToolCallKeepsInv(c, "rewrite", "report", path, REWRITE);
    RevivalEndsInStepIff(c, "rewrite", "report", path, REWRITE, EMPTY_PATCH.(status := Some(Completed)));
  }

  lemma TwoOps(c: Coord, a: Op, b: Op)
    requires CoordInv(c) && IdsOk(c, a) && CoordInv(ApplyOp(c, a)) && IdsOk(ApplyOp(c, a), b)
    ensures ValidOps(c, [a, b]) && RunOps(c, [a, b]) == ApplyOp(ApplyOp(c, a), b)
  {
    hide ApplyOp, IdsOk, CoordInv;
    var c1 := ApplyOp(c, a);
    OpKeepsInv(c1, b);
    assert [a, b][1..] == [b] && [b][1..] == [];
    assert ValidOps(c1, [b]);
    assert RunOps(c1, [b]) == RunOps(ApplyOp(c1, b), []);
  }

  /** A patch that empties the title is sent and shown, and not recorded. */
  lemma EmptiedTitleExample(role: DocumentRole)
    ensures var ops :=
        [OpOpenOrGet("write", REPORT, "report"), OpPatchArtifact("report", EMPTY_PATCH.(title := Some("")))];
      && ValidOps(InitialCoord(role), ops)
      && var c := RunOps(InitialCoord(role), ops);
      && !Replays(c)
      && "report" in c.records && c.records["report"].title == "Report"
      && "report" in Fold(c.events) && Fold(c.events)["report"].title == ""
  {
    hide Fold, CoordInv, Replays, OpenOrGet, PatchArtifact;
    var a, b := OpOpenOrGet("write", REPORT, "report"), OpPatchArtifact("report", EMPTY_PATCH.(title := Some("")));
    var c0 := InitialCoord(role);
    ReportOpened(role);
    TitleEmptied(ApplyOp(c0, a));
    TwoOps(c0, a, b);
  }

  lemma TitleEmptied(c: Coord)
    requires CoordInv(c) && Replays(c) && "report" in c.records && "report" in Fold(c.events)
    requires c.records["report"].title == "Report"
    ensures var c' := PatchArtifact(c, "report", EMPTY_PATCH.(title := Some("")));
      && !Replays(c') && "report" in c'.records && c'.records["report"].title == "Report"
      && "report" in Fold(c'.events) && Fold(c'.events)["report"].title == ""
  {
    hide Fold, CoordInv, Replays;
    PatchReplaysIff(c, "report", EMPTY_PATCH.(title := Some("")));
    FoldOne(c.events, Patched("report", NormalizePatch(c.role, EMPTY_PATCH.(title := Some("")))));
  }
}

/** The per-turn file tracker: which produced files become cards, and which of them lead.

    A candidate carries what the outside world says about it: its canonical path, whether the file
    API may serve it, its content key, the card an earlier turn published for it, whether its page is
    blocked from publication, and the id drawn should a card be opened. The two latches ask the
    coordinator for a finished page and a finished document. */
module FileTrackerSpec {
  import opened CoordinatorSpec
  import opened Options

  datatype Kind = Deck | Document | Sheet | Image | Archive | Code | Other

  datatype FileRole = Lead | Supporting

  datatype RootKind = Output | Scratch | Project

  datatype FileData = FileData(
    path: string, filename: string, ext: string, size: int, kind: Kind, role: Option<FileRole>,
    skillName: Option<string>, missing: bool)

  datatype Fingerprint = Fingerprint(size: int, mtimeMs: int, ctimeMs: int)

  datatype Published = Published(artifactId: string, pluginId: string, contentType: Option<string>)

  datatype Candidate = Candidate(
    data: FileData, mtimeMs: int, ctimeMs: int, rootKind: RootKind, servable: bool, content: Option<string>,
    nameQuality: int, published: Option<Published>, blocked: bool, freshId: string)

  datatype Emitted = Emitted(artifactId: string, fingerprint: Fingerprint, contentKey: string, data: FileData)

  datatype ContentArtifact = ContentArtifact(artifactId: string, candidate: Candidate)

  datatype Tracker = Tracker(
    turnStartedAtMs: int,
    baseline: map<string, Fingerprint>,
    emitted: map<string, Emitted>,
    emittedOrder: seq<string>,
    emittedByContent: map<string, ContentArtifact>,
    reconciledRich: map<string, Fingerprint>,
    lastSkillName: Option<string>,
    turnHasPrimaryDoc: bool,
    turnHasRichDeliverable: bool)

  /** The tracker and the coordinator it publishes through. */
  datatype World = World(t: Tracker, c: Coord)

  const PRIMARY_DOC_EXTENSIONS: set<string> := {"pptx", "key", "docx", "pdf", "rtf", "xlsx", "epub"}

  predicate IsPrimaryDeliverable(data: FileData) { data.ext in PRIMARY_DOC_EXTENSIONS }

  predicate EligibleAsPrimary(data: FileData, rich: bool) {
    IsPrimaryDeliverable(data) && (rich ==> data.kind.Deck? || data.kind.Document?)
  }

  function FingerprintOf(cand: Candidate): Fingerprint {
    Fingerprint(cand.data.size, cand.mtimeMs, cand.ctimeMs)
  }

  predicate SameAs(known: map<string, Fingerprint>, key: string, fp: Fingerprint) {
    key in known && known[key] == fp
  }

  predicate PreferCandidate(next: Candidate, current: Candidate) {
    var a := if next.mtimeMs < next.ctimeMs then next.ctimeMs else next.mtimeMs;
    var b := if current.mtimeMs < current.ctimeMs then current.ctimeMs else current.mtimeMs;
    if a != b then a > b else next.nameQuality > current.nameQuality
  }

  function RoleText(role: FileRole): string { if role.Lead? then "primary" else "supporting" }

  function FileJson(d: FileData): Data {
    var base: Data := map["path" := Text(d.path), "filename" := Text(d.filename), "ext" := Text(d.ext),
      "size" := Truthy(d.size),
      "missing" := if d.missing then Truthy(1) else Falsy(0)];
    var skilled := if d.skillName.Some? then base["skillName" := Text(d.skillName.value)] else base;
    if d.role.Some? then skilled["role" := Text(RoleText(d.role.value))] else skilled
  }

  function ReadyText(d: FileData): string { "File ready: " + d.filename }

  function FilePatch(d: FileData): Patch {
    Patch(Some("file_v1"), Some(d.filename), Some(Completed), Some(ReadyText(d)), Some(FileJson(d)), None, None, None,
      None)
  }

  function FileSeed(d: FileData): Seed {
    Seed("file_v1", d.filename, None, Some(Completed), Some(false), Some(ReadyText(d)), Some(FileJson(d)), None, None,
      None, None)
  }

  function PageType(d: FileData): string { if d.ext == "svg" then "svg" else "html" }

  function AdoptSeed(d: FileData, p: Published): Seed {
    var page := IsRenderablePlugin(p.pluginId);
    Seed(p.pluginId, d.filename, None, Some(Completed), None, Some(ReadyText(d)),
         Some(if page then map["persisted_path" := Text(d.path), "content_type" := Text(p.contentType.Or(PageType(d)))]
              else FileJson(d)),
         if page then Some(d.path) else None, None, None, None)
  }

  function PagePatch(d: FileData, blocked: bool): Patch {
    EMPTY_PATCH.(
      pluginId := Some("sandpack_v1"), title := Some(d.filename),
        status := Some(if blocked then Running else Completed),
      fallbackText := Some(if blocked then "Artifact staged but not published" else ReadyText(d)),
      persistedPath := Some(d.path),
      data := Some(map["persisted_path" := Text(d.path), "content_type" := Text(PageType(d)),
                       "live_preview" := if blocked then Truthy(1) else Falsy(0)]))
  }

  // ---------- one candidate ----------

  /** The path was emitted with this fingerprint. */
  predicate Remembers(t: Tracker, path: string, fp: Fingerprint) {
    path in t.emitted && t.emitted[path].fingerprint == fp
  }

  function PutEmitted(t: Tracker, key: string, record: Emitted): Tracker {
    t.(emitted := t.emitted[key := record],
       emittedOrder := if key in t.emitted then t.emittedOrder else t.emittedOrder + [key])
  }

  /** Take over the card an earlier turn published for this path. */
  function Adopted(w: World, cand: Candidate, data: FileData): Coord {
    if data.path !in w.t.emitted && !Resolves(w.c, data.path) && cand.published.Some?
    then AdoptFileByPath(w.c, cand.published.value.artifactId, data.path, AdoptSeed(data, cand.published.value))
    else w.c
  }

  /** The path belongs to a page: publish its bytes on the page's own card. */
  function EmitPage(w: World, cand: Candidate, data: FileData): World {
    var key, fp := data.path, FingerprintOf(cand);
    if SameAs(w.t.reconciledRich, key, fp) || key !in w.c.pathIndex then w
    else
      World(w.t.(reconciledRich := w.t.reconciledRich[key := fp]),
            PatchArtifact(w.c, w.c.pathIndex[key], PagePatch(data, cand.blocked)))
  }

  /** Publish the file again on a card it already has. */
  function RefreshCard(w: World, cand: Candidate, data: FileData, id: string): World {
    var key := data.path;
    var t1 := PutEmitted(w.t, key, Emitted(id, FingerprintOf(cand), cand.content.Or("path:" + key), data));
    World(if cand.content.Some? && cand.content.value !in w.t.emittedByContent
            then t1.(emittedByContent := t1.emittedByContent[cand.content.value := ContentArtifact(id, cand)])
              else t1,
          PatchArtifact(w.c, id, FilePatch(data)))
  }

  /** The path already has a card: refresh it unless the file is unchanged. */
  function EmitOnCard(w: World, cand: Candidate, data: FileData): World
    requires data.path in w.c.pathIndex
  {
    if Remembers(w.t, data.path, FingerprintOf(cand)) then w else RefreshCard(w, cand, data, w.c.pathIndex[data.path])
  }

  /** A path without a card: join the card of equal content, or open a new one. */
  function EmitNewPath(w: World, cand: Candidate, data: FileData): World
    requires CoordInv(w.c)
  {
    var key, fp := data.path, FingerprintOf(cand);
    if cand.content.Some? && cand.content.value in w.t.emittedByContent then
      var ck := cand.content.value;
      var duplicate := w.t.emittedByContent[ck];
      var c1 := BindPath(w.c, duplicate.artifactId, key);
      var t1 := PutEmitted(w.t, key, Emitted(duplicate.artifactId, fp, ck, data));
      if PreferCandidate(cand, duplicate.candidate) then
        World(t1.(emittedByContent := t1.emittedByContent[ck := ContentArtifact(duplicate.artifactId, cand)]),
              PatchArtifact(c1, duplicate.artifactId, FilePatch(data)))
      else World(t1, c1)
    else
      var c1 := OpenFileByPath(w.c, key, FileSeed(data), cand.freshId);
      var id := if key in c1.pathIndex then c1.pathIndex[key] else "";
      var t1 := PutEmitted(w.t, key, Emitted(id, fp, cand.content.Or("path:" + key), data));
      World(if cand.content.Some?
              then t1.(emittedByContent := t1.emittedByContent[cand.content.value := ContentArtifact(id, cand)])
                else t1, c1)
  }

  /** The content of an entry no longer stands for its card. */
  function ForgetContent(t: Tracker, previous: Emitted): Tracker {
    var ck := previous.contentKey;
    if ck in t.emittedByContent && t.emittedByContent[ck].artifactId == previous.artifactId
    then t.(emittedByContent := t.emittedByContent - {ck}) else t
  }

  /** Rewrite an entry on the card it names. */
  function ReplaceEntry(w: World, cand: Candidate, data: FileData, previous: Emitted): World {
    var id, key, fp := previous.artifactId, data.path, FingerprintOf(cand);
    var t1 := PutEmitted(w.t, key, Emitted(id, fp, cand.content.Or("path:" + key), data));
    World(if cand.content.Some?
            then t1.(emittedByContent := t1.emittedByContent[cand.content.value := ContentArtifact(id, cand)])
              else t1,
          PatchArtifact(w.c, id, FilePatch(data)))
  }

  /** The last branch: emitted before, but the path resolves to no card. */
  function EmitUnresolved(w: World, cand: Candidate, data: FileData): World
    requires data.path in w.t.emitted
  {
    var previous := w.t.emitted[data.path];
    if previous.fingerprint == FingerprintOf(cand) then w
    else ReplaceEntry(World(ForgetContent(w.t, previous), w.c), cand, data, previous)
  }

  predicate Skipped(t: Tracker, cand: Candidate, explicit: bool) {
    var key := cand.data.path;
    || !cand.servable
    || SameAs(t.baseline, key, FingerprintOf(cand))
    || (!explicit && cand.mtimeMs < t.turnStartedAtMs && cand.ctimeMs < t.turnStartedAtMs && key !in t.emitted)
  }

  function WithSkill(t: Tracker, data: FileData): FileData {
    if t.lastSkillName.Some? then data.(skillName := t.lastSkillName) else data
  }

  /** Which part of the loop body a candidate reaches. */
  datatype Branch = Skip | Page | OnCard | NewPath | Unresolved

  function BranchOf(w: World, cand: Candidate, explicit: bool): Branch {
    var key := cand.data.path;
    if Skipped(w.t, cand, explicit) then Skip
    else
      var c := Adopted(w, cand, WithSkill(w.t, cand.data));
      if IsRenderableArtifactPath(c, key) then Page
      else if Resolves(c, key) then OnCard
      else if key !in w.t.emitted then NewPath
      else Unresolved
  }

  predicate CandidateIdsOk(c: Coord, cand: Candidate) {
    && cand.freshId != "" && cand.freshId !in c.records
    && (cand.published.Some? ==>
          cand.published.value.artifactId != "" && cand.published.value.artifactId != cand.freshId)
  }

  function EmitOne(w: World, cand: Candidate, explicit: bool): World
    requires CoordInv(w.c) && CandidateIdsOk(w.c, cand)
  {
    var data := WithSkill(w.t, cand.data);
    var w1 := World(w.t, Adopted(w, cand, data));
    match BranchOf(w, cand, explicit)
    case Skip => w
    case Page => EmitPage(w1, cand, data)
    case OnCard => EmitOnCard(w1, cand, data)
    case NewPath => EmitNewPath(w, cand, data)
    case Unresolved => EmitUnresolved(w, cand, data)
  }

  // ---------- demotion ----------

  predicate MustDemote(t: Tracker, data: FileData) {
    !EligibleAsPrimary(data, t.turnHasRichDeliverable) && data.role != Some(Supporting)
  }

  /** The loop over the emitted files, from the `i`-th on; `patched` lists cards already patched. */
  function DemoteFrom(w: World, i: nat, patched: set<string>): World
    decreases |w.t.emittedOrder| - i
  {
    if i >= |w.t.emittedOrder| then w
    else
      var key := w.t.emittedOrder[i];
      if key !in w.t.emitted then DemoteFrom(w, i + 1, patched)
      else
        var record := w.t.emitted[key];
        if record.artifactId in patched || !MustDemote(w.t, record.data) then DemoteFrom(w, i + 1, patched)
        else
          var data := record.data.(role := Some(Supporting));
          DemoteFrom(World(w.t.(emitted := w.t.emitted[key := record.(data := data)]),
                           PatchArtifact(w.c, record.artifactId, FilePatch(data))),
                     i + 1, patched + {record.artifactId})
  }

  function Demote(w: World): World { DemoteFrom(w, 0, {}) }

  // ---------- vanished files ----------

  /** The card says that a file is there when it is not, or the other way round. */
  predicate Misreported(existing: set<string>, key: string, data: FileData) { (key in existing) == data.missing }

  /** The loop over the emitted files, from the `i`-th on, given the paths at which there is a file. */
  function SweepFrom(w: World, i: nat, existing: set<string>): World
    decreases |w.t.emittedOrder| - i
  {
    if i >= |w.t.emittedOrder| then w
    else
      var key := w.t.emittedOrder[i];
      if key !in w.t.emitted || !Misreported(existing, key, w.t.emitted[key].data) then SweepFrom(w, i + 1, existing)
      else
        var record := w.t.emitted[key];
        var data := record.data.(missing := key !in existing);
        SweepFrom(World(w.t.(emitted := w.t.emitted[key := record.(data := data)]),
                        PatchArtifact(w.c, record.artifactId, FilePatch(data))),
                  i + 1, existing)
  }

  function Sweep(w: World, existing: set<string>): World { SweepFrom(w, 0, existing) }

  // ---------- one batch ----------

  predicate Mintable(t: Tracker, cand: Candidate, explicit: bool) {
    explicit || cand.rootKind.Output? || EligibleAsPrimary(cand.data, t.turnHasRichDeliverable)
      || cand.data.path in t.emitted
  }

  function Mint(t: Tracker, cands: seq<Candidate>, explicit: bool): seq<Candidate> {
    if cands == [] then []
    else (if Mintable(t, cands[0], explicit) then [cands[0]] else []) + Mint(t, cands[1..], explicit)
  }

  predicate SomeEligible(cands: seq<Candidate>, rich: bool) {
    exists i: nat :: i < |cands| && EligibleAsPrimary(cands[i].data, rich)
  }

  function Curated(cand: Candidate, hasDeliverable: bool, rich: bool): Candidate {
    if !hasDeliverable then cand
    else cand.(data := cand.data.(role := Some(if EligibleAsPrimary(cand.data, rich) then Lead else Supporting)))
  }

  /** The roles of a batch. */
  function CurateRoles(cands: seq<Candidate>, turnHasPrimaryDoc: bool, rich: bool): seq<Candidate> {
    var hasDeliverable := turnHasPrimaryDoc || rich || SomeEligible(cands, rich);
    seq(|cands|, i requires 0 <= i < |cands| => Curated(cands[i], hasDeliverable, rich))
  }

  /** How paths compare; any comparison will do. */
  type PathOrder = (string, string) -> bool

  function KindRank(kind: Kind): nat {
    match kind
    case Deck => 0
    case Document => 1
    case Sheet => 2
    case Archive => 3
    case Image => 4
    case Code => 5
    case Other => 6
  }

  predicate ShownBefore(le: PathOrder, a: Candidate, b: Candidate) {
    var ra, rb := KindRank(a.data.kind), KindRank(b.data.kind);
    ra < rb || (ra == rb && le(a.data.path, b.data.path))
  }

  function Place(le: PathOrder, cand: Candidate, arranged: seq<Candidate>): seq<Candidate> {
    if arranged == [] || ShownBefore(le, cand, arranged[0]) then [cand] + arranged
    else [arranged[0]] + Place(le, cand, arranged[1..])
  }

  /** The stable sort into display order. */
  function Arrange(le: PathOrder, cands: seq<Candidate>): seq<Candidate> {
    if cands == [] then [] else Place(le, cands[0], Arrange(le, cands[1..]))
  }

  function CurateDeliverables(
    le: PathOrder, cands: seq<Candidate>, turnHasPrimaryDoc: bool, rich: bool): seq<Candidate>
  {
    Arrange(le, CurateRoles(cands, turnHasPrimaryDoc, rich))
  }

  /** A scan: its candidates, whether they were declared explicitly, and how their paths compare. */
  datatype Batch = Batch(candidates: seq<Candidate>, explicit: bool, pathOrder: PathOrder)

  function LatchRich(w: World, rich: bool): World {
    if rich && !w.t.turnHasRichDeliverable then Demote(World(w.t.(turnHasRichDeliverable := true), w.c)) else w
  }

  function LatchPrimary(w: World, mintable: seq<Candidate>, document: bool): World {
    if (SomeEligible(mintable, w.t.turnHasRichDeliverable) || document) && !w.t.turnHasPrimaryDoc
    then Demote(World(w.t.(turnHasPrimaryDoc := true), w.c)) else w
  }
}

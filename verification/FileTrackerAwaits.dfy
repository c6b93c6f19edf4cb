/** The emit loop cut where it awaits: between its tests and its effects come other passes, latches, sweeps and
    coordinator calls. */
module FileTrackerAwaits {
  import opened CoordinatorProofs
  import opened CoordinatorSpec
  import opened FileTrackerProofs
  import opened FileTrackerSpec
  import opened Options

  // ---------- a pass in pieces ----------

  /** Where a pass over one candidate waits, with what it read before: the emitted entry of its path, the page its path
      belongs to, the card its path resolves to. */
  datatype Pass =
    | Inspecting(cand: Candidate, data: FileData, known: Option<Emitted>, page: string)
    | Registering(cand: Candidate, data: FileData, known: Option<Emitted>, owner: Option<string>)
    | Refreshing(cand: Candidate, data: FileData, card: string)
    | Adding(cand: Candidate, data: FileData)
    | Replacing(cand: Candidate, data: FileData, previous: Emitted)
    | Finished

  datatype Progress = Progress(world: World, pass: Pass)

  function EntryOf(t: Tracker, path: string): Option<Emitted> {
    if path in t.emitted then Some(t.emitted[path]) else None
  }

  predicate Knows(known: Option<Emitted>, fp: Fingerprint) { known.Some? && known.value.fingerprint == fp }

  /** Up to the first await: skip the file, take over a published card, and see whether the path is a page's. */
  function Begin(w: World, cand: Candidate, explicit: bool): Progress {
    var key, data := cand.data.path, WithSkill(w.t, cand.data);
    if Skipped(w.t, cand, explicit) then Progress(w, Finished)
    else
      var w1 := World(w.t, Adopted(w, cand, data));
      if !IsRenderableArtifactPath(w1.c, key) then Progress(w1, Registering(cand, data, EntryOf(w.t, key), None))
      else if SameAs(w.t.reconciledRich, key, FingerprintOf(cand)) then Progress(w1, Finished)
      else Progress(w1, Inspecting(cand, data, EntryOf(w.t, key), w1.c.pathIndex[key]))
  }

  /** The page was inspected: a blocked one is patched at once. */
  function Inspected(w: World, p: Pass): Progress
    requires p.Inspecting?
  {
    var t1 := w.t.(reconciledRich := w.t.reconciledRich[p.data.path := FingerprintOf(p.cand)]);
    if p.cand.blocked
    then Progress(World(t1, PatchArtifact(w.c, p.page, PagePatch(p.data, true))), Finished)
    else Progress(World(t1, w.c), Registering(p.cand, p.data, p.known, Some(p.page)))
  }

  /** The file was registered: patch its page, or look the path up again. */
  function Registered(w: World, p: Pass): Progress
    requires p.Registering?
  {
    var key, fp := p.data.path, FingerprintOf(p.cand);
    if p.owner.Some? then
      Progress(World(w.t, PatchArtifact(w.c, p.owner.value, PagePatch(p.data, false))), Finished)
    else if Resolves(w.c, key) then
      Progress(w, if Knows(p.known, fp) then Finished else Refreshing(p.cand, p.data, w.c.pathIndex[key]))
    else if p.known.None? then Progress(w, Adding(p.cand, p.data))
    else if Knows(p.known, fp) then Progress(w, Finished)
    else Progress(World(ForgetContent(w.t, p.known.value), w.c), Replacing(p.cand, p.data, p.known.value))
  }

  /** The pass goes on after its await; an id is drawn only when a card is opened. */
  function Resume(w: World, p: Pass, freshId: string): Progress
    requires CoordInv(w.c)
  {
    match p
    case Inspecting(_, _, _, _) => Inspected(w, p)
    case Registering(_, _, _, _) => Registered(w, p)
    case Refreshing(cand, data, card) => Progress(RefreshCard(w, cand, data, card), Finished)
    case Adding(cand, data) => Progress(EmitNewPath(w, cand.(freshId := freshId), data), Finished)
    case Replacing(cand, data, previous) => Progress(ReplaceEntry(w, cand, data, previous), Finished)
    case Finished => Progress(w, Finished)
  }

  // ---------- nothing in between ----------

  function Rank(p: Pass): nat {
    if p.Finished? then 0 else if p.Inspecting? then 3 else if p.Registering? then 2 else 1
  }

  /** The rest of a pass when nothing comes in between. */
  function RunOut(r: Progress, freshId: string): World
    requires CoordInv(r.world.c)
    decreases Rank(r.pass)
  {
    if r.pass.Finished? then r.world
    else
      var next := Resume(r.world, r.pass, freshId);
      if next.pass.Finished? then next.world else RunOut(next, freshId)
  }

  lemma PageRunsOut(w: World, cand: Candidate, data: FileData, known: Option<Emitted>, page: string, freshId: string)
    requires CoordInv(w.c) && data.path in w.c.pathIndex && page == w.c.pathIndex[data.path]
    requires !SameAs(w.t.reconciledRich, data.path, FingerprintOf(cand))
    ensures RunOut(Progress(w, Inspecting(cand, data, known, page)), freshId) == EmitPage(w, cand, data)
  {
    hide CoordInv, PatchArtifact, PagePatch;
    if !cand.blocked {
      var r := Inspected(w, Inspecting(cand, data, known, page));
      assert RunOut(r, freshId) == Registered(r.world, r.pass).world;
    }
  }

  lemma CardRunsOut(w: World, cand: Candidate, data: FileData, known: Option<Emitted>, freshId: string)
    requires CoordInv(w.c) && Resolves(w.c, data.path) && known == EntryOf(w.t, data.path)
    ensures RunOut(Progress(w, Registering(cand, data, known, None)), freshId) == EmitOnCard(w, cand, data)
  {
    hide CoordInv, RefreshCard;
    var p := Registering(cand, data, known, None);
    if !Knows(known, FingerprintOf(cand)) {
      assert RunOut(Registered(w, p), freshId) == RefreshCard(w, cand, data, w.c.pathIndex[data.path]);
    }
  }

  lemma NewPathRunsOut(w: World, cand: Candidate, data: FileData)
    requires CoordInv(w.c) && !Resolves(w.c, data.path)
    ensures RunOut(Progress(w, Registering(cand, data, None, None)), cand.freshId) == EmitNewPath(w, cand, data)
  {
    hide CoordInv, EmitNewPath;
    var p := Registering(cand, data, None, None);
    assert cand.(freshId := cand.freshId) == cand;
    assert RunOut(Registered(w, p), cand.freshId) == EmitNewPath(w, cand, data);
  }

  /** A pass that nothing interrupts does what one step of the emit loop does. */
  lemma UninterruptedPass(w: World, cand: Candidate, explicit: bool)
    requires TrackerInv(w) && CandidateIdsOk(w.c, cand)
    ensures CoordInv(Begin(w, cand, explicit).world.c)
    ensures RunOut(Begin(w, cand, explicit), cand.freshId) == EmitOne(w, cand, explicit)
  {
    hide CoordInv, Adopted, Skipped, EmitPage, EmitOnCard, EmitNewPath, EmitUnresolved, RunOut;
    var key, data := cand.data.path, WithSkill(w.t, cand.data);
    var w1 := World(w.t, Adopted(w, cand, data));
    AdoptedKeeps(w, cand, data);
    UnresolvedIsUnreachable(w, cand, explicit);
    BranchFacts(w, cand, explicit);
    match BranchOf(w, cand, explicit)
    case Skip => RunsOutAtOnce(w, cand.freshId);
    case Page =>
      if SameAs(w.t.reconciledRich, key, FingerprintOf(cand)) {
        RunsOutAtOnce(w1, cand.freshId);
        SettledPage(w1, cand, data);
      } else {
        PageRunsOut(w1, cand, data, EntryOf(w.t, key), w1.c.pathIndex[key], cand.freshId);
      }
    case OnCard => CardRunsOut(w1, cand, data, EntryOf(w.t, key), cand.freshId);
    case NewPath => NewPathRunsOut(w, cand, data);
    case Unresolved =>
  }

  lemma RunsOutAtOnce(w: World, freshId: string)
    requires CoordInv(w.c)
    ensures RunOut(Progress(w, Finished), freshId) == w
  {
  }

  lemma SettledPage(w: World, cand: Candidate, data: FileData)
    requires SameAs(w.t.reconciledRich, data.path, FingerprintOf(cand))
    ensures EmitPage(w, cand, data) == w
  {
  }

  // ---------- whole turns ----------

  /** The tracker, the coordinator and the passes under way. */
  datatype Live = Live(world: World, passes: map<nat, Pass>)

  /** What can happen during a turn: a pass begins or goes on, a latch, a sweep for vanished files, or any coordinator
      call. */
  datatype Event =
    | Begins(n: nat, cand: Candidate, explicit: bool)
    | Resumes(n: nat, freshId: string)
    | RichLatch
    | PrimaryLatch
    | Swept(existing: set<string>)
    | Foreign(op: Op)

  /** A pass goes by a new number, published cards have an id, and drawn ids are new. */
  predicate EventOk(l: Live, e: Event) {
    match e
    case Begins(n, cand, _) => n !in l.passes && (cand.published.Some? ==> cand.published.value.artifactId != "")
    case Resumes(n, freshId) =>
      n in l.passes && (l.passes[n].Adding? ==> freshId != "" && freshId !in l.world.c.records)
    case Foreign(op) => IdsOk(l.world.c, op)
    case _ => true
  }

  function Happen(l: Live, e: Event): Live
    requires CoordInv(l.world.c) && EventOk(l, e)
  {
    match e
    case Begins(n, cand, explicit) =>
      var r := Begin(l.world, cand, explicit);
      Live(r.world, l.passes[n := r.pass])
    case Resumes(n, freshId) =>
      var r := Resume(l.world, l.passes[n], freshId);
      Live(r.world, l.passes[n := r.pass])
    case RichLatch => l.(world := LatchRich(l.world, true))
    case PrimaryLatch => l.(world := LatchPrimary(l.world, [], true))
    case Swept(existing) => l.(world := Sweep(l.world, existing))
    case Foreign(op) => l.(world := World(l.world.t, ApplyOp(l.world.c, op)))
  }

  /** What a waiting pass has read is still there. */
  ghost predicate PassOk(w: World, p: Pass) {
    match p
    case Inspecting(cand, data, known, page) =>
      data.path == cand.data.path && page in w.c.records && (known.Some? ==> data.path in w.t.emitted)
    case Registering(cand, data, known, owner) =>
      && data.path == cand.data.path && (owner.Some? ==> owner.value in w.c.records)
      && (known.Some? ==> data.path in w.t.emitted)
    case Refreshing(cand, data, card) =>
      data.path == cand.data.path && data.path in w.c.pathIndex && card in w.c.records
    case Adding(cand, data) => data.path == cand.data.path
    case Replacing(_, _, _) => false
    case Finished => true
  }

  ghost predicate LiveInv(l: Live) {
    TrackerInv(l.world) && forall n | n in l.passes :: PassOk(l.world, l.passes[n])
  }

  lemma PassOkGrows(w: World, w': World, p: Pass)
    requires PassOk(w, p) && Grows(w, w')
    ensures PassOk(w', p)
  {
  }

  lemma BeginKeeps(w: World, cand: Candidate, explicit: bool)
    requires TrackerInv(w) && (cand.published.Some? ==> cand.published.value.artifactId != "")
    ensures var r := Begin(w, cand, explicit);
      TrackerInv(r.world) && Grows(w, r.world) && PassOk(r.world, r.pass)
  {
    hide TrackerInv, Grows, Adopted, Skipped;
    AdoptionKeeps(w, cand, WithSkill(w.t, cand.data));
  }

  lemma AdoptionKeeps(w: World, cand: Candidate, data: FileData)
    requires TrackerInv(w) && (cand.published.Some? ==> cand.published.value.artifactId != "")
    ensures var w1 := World(w.t, Adopted(w, cand, data));
      TrackerInv(w1) && Grows(w, w1) && Grows(w, w)
  {
    hide CoordInv, Adopted, Enumerates;
    AdoptedKeeps(w, cand, data);
  }

  lemma RegisteredKeeps(w: World, p: Pass)
    requires TrackerInv(w) && PassOk(w, p) && p.Registering?
    ensures var r := Registered(w, p);
      TrackerInv(r.world) && Grows(w, r.world) && PassOk(r.world, r.pass) && OnlyPatchesAdded(w.c, r.world.c)
  {
    hide CoordInv, PatchArtifact, PagePatch, Enumerates, OnlyPatchesAdded;
    OnlyPatchesRefl(w.c);
    if p.owner.Some? {
      PatchArtifactKeeps(w.c, p.owner.value, PagePatch(p.data, false));
      PatchAddsPatch(w.c, p.owner.value, PagePatch(p.data, false));
    } else {
      PathsResolve(w.c, p.data.path);
      if Resolves(w.c, p.data.path) { IndexedIdExists(w.c, p.data.path); }
    }
  }

  lemma InspectedKeeps(w: World, p: Pass)
    requires TrackerInv(w) && PassOk(w, p) && p.Inspecting?
    ensures var r := Inspected(w, p);
      TrackerInv(r.world) && Grows(w, r.world) && PassOk(r.world, r.pass) && OnlyPatchesAdded(w.c, r.world.c)
  {
    hide CoordInv, PatchArtifact, PagePatch, Enumerates, OnlyPatchesAdded;
    OnlyPatchesRefl(w.c);
    PatchArtifactKeeps(w.c, p.page, PagePatch(p.data, true));
    PatchAddsPatch(w.c, p.page, PagePatch(p.data, true));
  }

  lemma AddedKeeps(w: World, p: Pass, freshId: string)
    requires TrackerInv(w) && p.Adding? && freshId != "" && freshId !in w.c.records
    ensures var r := Resume(w, p, freshId);
      TrackerInv(r.world) && Grows(w, r.world) && r.pass.Finished?
  {
    hide CoordInv, EmitNewPath, Enumerates;
    EmitNewPathKeeps(w, p.cand.(freshId := freshId), p.data);
  }

  lemma ResumeKeeps(w: World, p: Pass, freshId: string)
    requires TrackerInv(w) && PassOk(w, p) && (p.Adding? ==> freshId != "" && freshId !in w.c.records)
    ensures var r := Resume(w, p, freshId);
      TrackerInv(r.world) && Grows(w, r.world) && PassOk(r.world, r.pass)
  {
    hide CoordInv, EmitNewPath, RefreshCard, ReplaceEntry, Inspected, Registered, Enumerates;
    match p
    case Inspecting(_, _, _, _) => InspectedKeeps(w, p);
    case Registering(_, _, _, _) => RegisteredKeeps(w, p);
    case Refreshing(cand, data, card) => RefreshCardKeeps(w, cand, data, card);
    case Adding(_, _) => AddedKeeps(w, p, freshId);
    case Replacing(_, _, _) =>
    case Finished =>
  }

  /** Every pass under way survives what another event does to the world. */
  lemma PassesGrow(l: Live, l': Live, n: nat)
    requires LiveInv(l) && TrackerInv(l'.world) && Grows(l.world, l'.world)
    requires n in l'.passes && PassOk(l'.world, l'.passes[n]) && l'.passes == l.passes[n := l'.passes[n]]
    ensures LiveInv(l')
  {
    hide TrackerInv, Grows, PassOk;
    forall m | m in l'.passes
      ensures PassOk(l'.world, l'.passes[m])
    {
      if m != n { PassOkGrows(l.world, l'.world, l.passes[m]); }
    }
  }

  lemma WorldGrows(l: Live, w': World)
    requires LiveInv(l) && TrackerInv(w') && Grows(l.world, w')
    ensures LiveInv(l.(world := w'))
  {
    hide TrackerInv, Grows, PassOk;
    forall m | m in l.passes
      ensures PassOk(w', l.passes[m])
    {
      PassOkGrows(l.world, w', l.passes[m]);
    }
  }

  lemma EventKeeps(l: Live, e: Event)
    requires LiveInv(l) && EventOk(l, e)
    ensures LiveInv(Happen(l, e)) && Grows(l.world, Happen(l, e).world)
  {
    hide PassOk, Begin, Resume, DemoteFrom, SweepFrom, ApplyOp, CoordInv, Enumerates, IdsOk;
    match e
    case Begins(n, cand, explicit) =>
      BeginKeeps(l.world, cand, explicit);
      PassesGrow(l, Happen(l, e), n);
    case Resumes(n, freshId) =>
      ResumeKeeps(l.world, l.passes[n], freshId);
      PassesGrow(l, Happen(l, e), n);
    case RichLatch => RichLatched(l.world, true); WorldGrows(l, LatchRich(l.world, true));
    case PrimaryLatch => PrimaryLatched(l.world, [], true); WorldGrows(l, LatchPrimary(l.world, [], true));
    case Swept(existing) =>
      SweepFromKeeps(l.world, 0, existing);
      WorldGrows(l, Sweep(l.world, existing));
    case Foreign(op) =>
      OpKeepsInv(l.world.c, op);
      WorldGrows(l, World(l.world.t, ApplyOp(l.world.c, op)));
  }

  ghost function After(l: Live, e: Event): (l': Live)
    requires LiveInv(l) && EventOk(l, e)
    ensures LiveInv(l') && Grows(l.world, l'.world)
  {
    EventKeeps(l, e);
    Happen(l, e)
  }

  ghost predicate ValidTurn(l: Live, events: seq<Event>)
    requires LiveInv(l)
    decreases |events|
  {
    events != [] ==> EventOk(l, events[0]) && ValidTurn(After(l, events[0]), events[1..])
  }

  ghost function Turn(l: Live, events: seq<Event>): (l': Live)
    requires LiveInv(l) && ValidTurn(l, events)
    ensures LiveInv(l')
    decreases |events|
  {
    if events == [] then l else Turn(After(l, events[0]), events[1..])
  }

  // ---------- emitted paths ----------

  /** The event is a step of a pass over the path. */
  predicate StepsOver(l: Live, e: Event, path: string) {
    || (e.Begins? && e.cand.data.path == path)
    || (e.Resumes? && e.n in l.passes && !l.passes[e.n].Finished? && l.passes[e.n].data.path == path)
  }

  lemma StepOverEmittedPatches(l: Live, e: Event, path: string)
    requires LiveInv(l) && EventOk(l, e) && path in l.world.t.emitted && StepsOver(l, e, path)
    ensures OnlyPatchesAdded(l.world.c, Happen(l, e).world.c)
  {
    hide OnlyPatchesAdded, EmitNewPath, Inspected, Registered, RefreshCard, Enumerates;
    var w := l.world;
    OnlyPatchesRefl(w.c);
    if e.Resumes? {
      var p := l.passes[e.n];
      assert PassOk(w, p);
      match p
      case Inspecting(_, _, _, _) => InspectedKeeps(w, p);
      case Registering(_, _, _, _) => RegisteredKeeps(w, p);
      case Refreshing(cand, data, card) => RefreshPatches(w, cand, data, card);
      case Adding(cand, data) => EmittedIsNotOpened(w, cand.(freshId := e.freshId), data);
      case _ =>
    }
  }

  lemma RefreshPatches(w: World, cand: Candidate, data: FileData, card: string)
    ensures OnlyPatchesAdded(w.c, RefreshCard(w, cand, data, card).c)
  {
    hide OnlyPatchesAdded, PatchArtifact;
    PatchAddsPatch(w.c, card, FilePatch(data));
  }

  /** The path is looked up again before a card is opened for it. */
  lemma EmittedIsNotOpened(w: World, cand: Candidate, data: FileData)
    requires TrackerInv(w) && data.path in w.t.emitted
    ensures OnlyPatchesAdded(w.c, EmitNewPath(w, cand, data).c)
  {
    hide FilePatch, FileSeed, PatchFromSeed, PatchRecord, NormalizePatch, Enumerates, IndexPaths;
    PathsResolve(w.c, data.path);
  }

  /** For the rest of the turn, whatever comes between the steps of the passes: an emitted path keeps resolving, no
      pass reaches the dead branch, and no step of a pass over the path opens a card. */
  lemma {:induction false} EmittedPathsKeepTheirCard(l: Live, events: seq<Event>, path: string)
    requires LiveInv(l) && ValidTurn(l, events) && path in l.world.t.emitted
    ensures var l' := Turn(l, events);
      && path in l'.world.t.emitted && Resolves(l'.world.c, path)
      && (forall n | n in l'.passes :: !l'.passes[n].Replacing?)
      && (forall e | EventOk(l', e) && StepsOver(l', e, path) ::
            OnlyPatchesAdded(l'.world.c, Happen(l', e).world.c))
    decreases |events|
  {
    hide Happen, StepsOver, EventOk, OnlyPatchesAdded, CoordInv, Enumerates;
    if events == [] {
      EmittedResolves(l.world, path);
      forall n | n in l.passes
        ensures !l.passes[n].Replacing?
      {
        assert PassOk(l.world, l.passes[n]);
      }
      forall e | EventOk(l, e) && StepsOver(l, e, path)
        ensures OnlyPatchesAdded(l.world.c, Happen(l, e).world.c)
      {
        StepOverEmittedPatches(l, e, path);
      }
    } else {
      EmittedPathsKeepTheirCard(After(l, events[0]), events[1..], path);
    }
  }

  lemma EmittedResolves(w: World, path: string)
    requires TrackerInv(w) && path in w.t.emitted
    ensures Resolves(w.c, path)
  {
    PathsResolve(w.c, path);
  }

  /** The card that already stands for the content of the file. */
  function ContentCard(t: Tracker, cand: Candidate): Option<string> {
    if cand.content.Some? && cand.content.value in t.emittedByContent
    then Some(t.emittedByContent[cand.content.value].artifactId) else None
  }

  /** A path that gets a card while the pass waits to add its file keeps that card unless the content of the file
      already has another one. */
  lemma LatePathKeepsCardIff(w: World, cand: Candidate, data: FileData, freshId: string)
    requires TrackerInv(w) && Resolves(w.c, data.path)
    ensures var w' := Resume(w, Adding(cand, data), freshId).world;
      && data.path in w'.c.pathIndex
      && (w'.c.pathIndex[data.path] == w.c.pathIndex[data.path] <==>
            ContentCard(w.t, cand).None? || ContentCard(w.t, cand) == Some(w.c.pathIndex[data.path]))
  {
    hide CoordInv, Enumerates, EmitNewPath;
    if ContentCard(w.t, cand).Some? {
      JoiningMovesPath(w, cand.(freshId := freshId), data);
    } else {
      OpeningKeepsPath(w, cand.(freshId := freshId), data);
    }
  }

  lemma JoiningMovesPath(w: World, cand: Candidate, data: FileData)
    requires TrackerInv(w) && ContentCard(w.t, cand).Some?
    ensures var c := EmitNewPath(w, cand, data).c;
      data.path in c.pathIndex && Some(c.pathIndex[data.path]) == ContentCard(w.t, cand)
  {
    hide CoordInv, FilePatch, PatchRecord, NormalizePatch, PreferCandidate, Enumerates;
  }

  lemma OpeningKeepsPath(w: World, cand: Candidate, data: FileData)
    requires TrackerInv(w) && Resolves(w.c, data.path) && ContentCard(w.t, cand).None?
    ensures var c := EmitNewPath(w, cand, data).c;
      data.path in c.pathIndex && c.pathIndex[data.path] == w.c.pathIndex[data.path]
  {
    hide FileSeed, PatchFromSeed, PatchRecord, NormalizePatch, Enumerates;
    IndexedIdExists(w.c, data.path);
  }

  // ---------- unchanged files ----------

  /** At most the entry of one path changes, and then it shows the fingerprint. */
  predicate OneEntry(t: Tracker, t': Tracker, key: string, fp: Fingerprint) {
    t'.emitted == t.emitted || (Remembers(t', key, fp) && t'.emitted == t.emitted[key := t'.emitted[key]])
  }

  lemma RefreshChangesOne(w: World, cand: Candidate, data: FileData, card: string)
    ensures OneEntry(w.t, RefreshCard(w, cand, data, card).t, data.path, FingerprintOf(cand))
  {
    hide PatchArtifact, FilePatch;
  }

  lemma NewPathChangesOne(w: World, cand: Candidate, data: FileData)
    requires CoordInv(w.c)
    ensures OneEntry(w.t, EmitNewPath(w, cand, data).t, data.path, FingerprintOf(cand))
  {
    hide PatchArtifact, CoordInv, OpenFileByPath, BindPath, FilePatch, FileSeed, PreferCandidate;
  }

  /** Whatever a pass knows of the path is this fingerprint. */
  predicate SeesOnly(p: Pass, path: string, fp: Fingerprint) {
    !p.Finished? && p.data.path == path ==> FingerprintOf(p.cand) == fp
  }

  lemma ResumeChangesOne(w: World, p: Pass, freshId: string)
    requires CoordInv(w.c) && !p.Replacing? && !p.Finished?
    ensures var r := Resume(w, p, freshId);
      && OneEntry(w.t, r.world.t, p.data.path, FingerprintOf(p.cand))
      && (r.pass.Finished? || (r.pass.cand == p.cand && r.pass.data == p.data)
          || r.pass.Replacing?)
  {
    hide CoordInv, PatchArtifact, PagePatch, EmitNewPath, RefreshCard, OneEntry, ForgetContent;
    match p
    case Inspecting(cand, data, _, _) => SameEntries(w.t, Inspected(w, p).world.t, data.path, FingerprintOf(cand));
    case Registering(cand, data, known, _) =>
      if known.Some? { ForgettingKeepsEntries(w.t, known.value); }
      SameEntries(w.t, Registered(w, p).world.t, data.path, FingerprintOf(cand));
    case Refreshing(cand, data, card) => RefreshChangesOne(w, cand, data, card);
    case Adding(cand, data) => NewPathChangesOne(w, cand.(freshId := freshId), data);
  }

  lemma ForgettingKeepsEntries(t: Tracker, previous: Emitted)
    ensures ForgetContent(t, previous).emitted == t.emitted
  {
  }

  lemma SameEntries(t: Tracker, t': Tracker, key: string, fp: Fingerprint)
    requires t'.emitted == t.emitted
    ensures OneEntry(t, t', key, fp)
  {
  }

  /** The path was emitted with this fingerprint, and no pass under way has seen it with another. */
  ghost predicate Steady(l: Live, path: string, fp: Fingerprint) {
    Remembers(l.world.t, path, fp) && forall n | n in l.passes :: SeesOnly(l.passes[n], path, fp)
  }

  /** No pass that begins sees the path with another fingerprint. */
  predicate Unchanging(e: Event, path: string, fp: Fingerprint) {
    e.Begins? && e.cand.data.path == path ==> FingerprintOf(e.cand) == fp
  }

  lemma ResumeStaysSteady(l: Live, n: nat, freshId: string, path: string, fp: Fingerprint)
    requires LiveInv(l) && EventOk(l, Resumes(n, freshId)) && Steady(l, path, fp)
    ensures Steady(Happen(l, Resumes(n, freshId)), path, fp)
  {
    hide Resume, CoordInv, Enumerates;
    var p := l.passes[n];
    assert PassOk(l.world, p) && SeesOnly(p, path, fp);
    ResumeKeeps(l.world, p, freshId);
    if p.Finished? {
      FinishedRests(l.world, freshId);
    } else {
      ResumeChangesOne(l.world, p, freshId);
    }
    assert SeesOnly(Resume(l.world, p, freshId).pass, path, fp);
  }

  lemma FinishedRests(w: World, freshId: string)
    requires CoordInv(w.c)
    ensures Resume(w, Finished, freshId) == Progress(w, Finished)
  {
  }

  lemma BeginSeesFile(w: World, cand: Candidate, explicit: bool)
    ensures var r := Begin(w, cand, explicit);
      r.world.t == w.t && (r.pass.Finished? || (r.pass.cand == cand && r.pass.data.path == cand.data.path))
  {
    hide Adopted, Skipped;
  }

  lemma EventStaysSteady(l: Live, e: Event, path: string, fp: Fingerprint)
    requires LiveInv(l) && EventOk(l, e) && Steady(l, path, fp) && Unchanging(e, path, fp)
    ensures Steady(Happen(l, e), path, fp)
  {
    hide Begin, Resume, DemoteFrom, SweepFrom, ApplyOp, TrackerInv, PassOk, IdsOk;
    var w := l.world;
    match e
    case Begins(n, cand, explicit) => BeginSeesFile(w, cand, explicit);
    case Resumes(n, freshId) => ResumeStaysSteady(l, n, freshId, path, fp);
    case RichLatch => DemoteRemembers(World(w.t.(turnHasRichDeliverable := true), w.c), 0, {}, path, fp);
    case PrimaryLatch => DemoteRemembers(World(w.t.(turnHasPrimaryDoc := true), w.c), 0, {}, path, fp);
    case Swept(existing) => SweepRemembers(w, 0, existing, path, fp);
    case Foreign(op) =>
  }

  lemma {:induction false} TurnStaysSteady(l: Live, events: seq<Event>, path: string, fp: Fingerprint)
    requires LiveInv(l) && ValidTurn(l, events) && Steady(l, path, fp)
    requires forall e | e in events :: Unchanging(e, path, fp)
    ensures Steady(Turn(l, events), path, fp)
    decreases |events|
  {
    hide Happen, EventOk, Steady, Unchanging, LiveInv;
    if events != [] {
      EventStaysSteady(l, events[0], path, fp);
      TurnStaysSteady(After(l, events[0]), events[1..], path, fp);
    }
  }

  /** The path belongs to a page that has not been published with these bytes yet. */
  predicate AwaitsPage(w: World, path: string, fp: Fingerprint) {
    IsRenderableArtifactPath(w.c, path) && !SameAs(w.t.reconciledRich, path, fp)
  }

  /** The pass has nothing left to say about the file. */
  predicate Silent(p: Pass) {
    p.Finished? || (p.Registering? && p.owner.None? && Knows(p.known, FingerprintOf(p.cand)))
  }

  lemma UnchangedBeginsSilent(w: World, cand: Candidate, explicit: bool)
    requires Remembers(w.t, cand.data.path, FingerprintOf(cand))
    requires !AwaitsPage(w, cand.data.path, FingerprintOf(cand))
    ensures Begin(w, cand, explicit).world == w && Silent(Begin(w, cand, explicit).pass)
  {
  }

  lemma SilentEndsSilent(w: World, p: Pass, freshId: string)
    requires TrackerInv(w) && PassOk(w, p) && Silent(p)
    ensures Resume(w, p, freshId) == Progress(w, Finished)
  {
    hide CoordInv, Enumerates;
    if p.Registering? { EmittedResolves(w, p.data.path); }
  }

  lemma {:induction false} PassWaits(l: Live, events: seq<Event>, n: nat)
    requires LiveInv(l) && ValidTurn(l, events) && n in l.passes
    requires forall e | e in events :: !(e.Resumes? && e.n == n)
    ensures var l' := Turn(l, events);
      n in l'.passes && l'.passes[n] == l.passes[n]
    decreases |events|
  {
    hide Begin, Resume, LatchRich, LatchPrimary, Sweep, ApplyOp, LiveInv, IdsOk;
    if events != [] {
      assert events[0] in events;
      PassWaits(After(l, events[0]), events[1..], n);
    }
  }

  /** A file that does not change emits nothing for the rest of the turn: a pass over it leaves everything alone at its
      beginning and at its end, whatever comes before it and between its steps, unless its path has meanwhile become
      that of a page still to be published. */
  lemma UnchangedStaysSilent(
      l: Live, before: seq<Event>, n: nat, cand: Candidate, explicit: bool, between: seq<Event>, freshId: string)
    requires LiveInv(l) && ValidTurn(l, before) && Steady(l, cand.data.path, FingerprintOf(cand))
    requires forall e | e in before :: Unchanging(e, cand.data.path, FingerprintOf(cand))
    requires EventOk(Turn(l, before), Begins(n, cand, explicit))
    requires !AwaitsPage(Turn(l, before).world, cand.data.path, FingerprintOf(cand))
    requires ValidTurn(After(Turn(l, before), Begins(n, cand, explicit)), between)
    requires forall e | e in between :: !(e.Resumes? && e.n == n)
    ensures var l1 := Turn(l, before);
      var l2 := After(l1, Begins(n, cand, explicit));
      var l3 := Turn(l2, between);
      && l2.world == l1.world && EventOk(l3, Resumes(n, freshId))
      && Happen(l3, Resumes(n, freshId)) == Live(l3.world, l3.passes[n := Finished])
  {
    hide Begin, Resume, LiveInv, AwaitsPage, Unchanging, IdsOk;
    var l1 := Turn(l, before);
    TurnStaysSteady(l, before, cand.data.path, FingerprintOf(cand));
    UnchangedBeginsSilent(l1.world, cand, explicit);
    var l2 := After(l1, Begins(n, cand, explicit));
    PassWaits(l2, between, n);
    var l3 := Turn(l2, between);
    LivePassOk(l3, n);
    SilentEndsSilent(l3.world, l3.passes[n], freshId);
  }

  lemma LivePassOk(l: Live, n: nat)
    requires LiveInv(l) && n in l.passes
    ensures TrackerInv(l.world) && PassOk(l.world, l.passes[n])
  {
  }
}

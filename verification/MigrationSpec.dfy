/** Moving a legacy home directory into the desktop application's home.

    The migration is an ordered list of file system effects; a crash keeps a prefix of the list, a
    failing step keeps a prefix and then removes the staging copy. A directory is a map from its
    entries to their contents, and a copy or write in progress shows as a torn entry. */
module MigrationSpec {
  import opened Options

  datatype Content = Whole(data: string) | Torn

  type Dir = map<string, Content>

  /** `staging` and `backups` are named by the migration id, which is a time stamp. */
  datatype Disk = Disk(source: Dir, target: Option<Dir>, staging: map<string, Dir>, backups: map<string, Dir>)

  const MANIFEST := ".mozi-desktop-migration.json"
  const DATA := "data"
  const CONFIGS: seq<string> := ["mozi.json", "config.yaml"]
  const MARKERS: seq<string> := [
    ".env", ".master-key", "jwt-secret", "secrets.enc", "mozi.json", "config.yaml", "data", "logs", "workspace",
    "skills", "agents", "memory", "tasks"]

  /** What the environment contributes: the effect of a write-ahead-log checkpoint on the data entry,
      the new text of a config file (if it parses and names a default to rewrite), the manifest text,
      and how the write of a rewritten config goes. */
  datatype Env = Env(
    checkpoint: string -> string, rewrite: (string, string) -> Option<string>, manifest: string,
    write: string -> Write)

  /** A write goes through, fails half-way, or fails before the file is opened. */
  datatype Write = GoesThrough | Tears | NeverOpens

  datatype Effect =
    | Checkpoint
    | MakeBackup(id: string)
    | BackupEntry(id: string, name: string, done: bool)
    | RemoveStaging(id: string)
    | RemovePart(id: string, left: set<string>)
    | MakeStaging(id: string)
    | StageEntry(id: string, name: string, done: bool)
    | WriteConfig(id: string, name: string, text: Option<string>)
    | WriteManifest(id: string, text: Option<string>)
    | RemoveTarget
    | Install(id: string)

  function Checkpointed(env: Env, source: Dir): Dir {
    if DATA in source && source[DATA].Whole? then source[DATA := Whole(env.checkpoint(source[DATA].data))] else source
  }

  function Put(dirs: map<string, Dir>, id: string, name: string, content: Content): map<string, Dir> {
    if id in dirs then dirs[id := dirs[id][name := content]] else dirs
  }

  function Written(text: Option<string>): Content {
    match text
    case None => Torn
    case Some(t) => Whole(t)
  }

  function CopyOf(source: Dir, name: string, done: bool): Content {
    if done && name in source then source[name] else Torn
  }

  function LeftOf(dir: Dir, left: set<string>): Dir {
    map name | name in dir && name in left :: dir[name]
  }

  function Apply(env: Env, d: Disk, e: Effect): Disk {
    match e
    case Checkpoint => d.(source := Checkpointed(env, d.source))
    case MakeBackup(id) => d.(backups := d.backups[id := map[]])
    case BackupEntry(id, name, done) => d.(backups := Put(d.backups, id, name, CopyOf(d.source, name, done)))
    case RemoveStaging(id) => d.(staging := d.staging - {id})
    case RemovePart(id, left) =>
      if id in d.staging then d.(staging := d.staging[id := LeftOf(d.staging[id], left)]) else d
    case MakeStaging(id) => d.(staging := d.staging[id := map[]])
    case StageEntry(id, name, done) => d.(staging := Put(d.staging, id, name, CopyOf(d.source, name, done)))
    case WriteConfig(id, name, text) => d.(staging := Put(d.staging, id, name, Written(text)))
    case WriteManifest(id, text) => d.(staging := Put(d.staging, id, MANIFEST, Written(text)))
    case RemoveTarget => d.(target := None)
    case Install(id) =>
      if id in d.staging then d.(target := Some(d.staging[id]), staging := d.staging - {id}) else d
  }

  function ApplyAll(env: Env, d: Disk, es: seq<Effect>): Disk {
    if es == [] then d else Apply(env, ApplyAll(env, d, es[..|es| - 1]), es[|es| - 1])
  }

  // ---------- the plan ----------

  function BackupAll(id: string, order: seq<string>): seq<Effect> {
    if order == [] then []
    else
      var name := order[|order| - 1];
      BackupAll(id, order[..|order| - 1]) + [BackupEntry(id, name, false), BackupEntry(id, name, true)]
  }

  function StageAll(id: string, order: seq<string>): seq<Effect> {
    if order == [] then []
    else
      var name := order[|order| - 1];
      StageAll(id, order[..|order| - 1]) + [StageEntry(id, name, false), StageEntry(id, name, true)]
  }

  /** The text a config file is rewritten to, if it is. */
  function NewConfig(env: Env, home: Dir, name: string): Option<string> {
    if name in home && home[name].Whole? then env.rewrite(name, home[name].data) else None
  }

  /** Rewriting one config. A write that fails is swallowed: half-way it leaves a torn file, before opening it the
      old one. */
  function RewriteOne(env: Env, id: string, home: Dir, name: string): seq<Effect> {
    match NewConfig(env, home, name)
    case None => []
    case Some(text) =>
      match env.write(name)
      case NeverOpens => []
      case Tears => [WriteConfig(id, name, None)]
      case GoesThrough => [WriteConfig(id, name, None), WriteConfig(id, name, Some(text))]
  }

  function Rewrites(env: Env, id: string, home: Dir): seq<Effect> {
    RewriteOne(env, id, home, CONFIGS[0]) + RewriteOne(env, id, home, CONFIGS[1])
  }

  /** The steps that prepare the staging copy. */
  function Staging(env: Env, d: Disk, id: string, order: seq<string>): seq<Effect> {
    [Checkpoint, MakeBackup(id)] + BackupAll(id, order) + [RemoveStaging(id), MakeStaging(id)] + StageAll(id, order)
      + Rewrites(env, id, Checkpointed(env, d.source))
        + [WriteManifest(id, None), WriteManifest(id, Some(env.manifest))]
  }

  function Plan(env: Env, d: Disk, id: string, order: seq<string>): seq<Effect> {
    Staging(env, d, id, order) + (if d.target.Some? then [RemoveTarget] else []) + [Install(id)]
  }

  // ---------- one call ----------

  datatype Status = NotNeeded | Migrated | TargetExists | Blocked

  datatype Setting = Setting(homeOverride: bool, sameHome: bool, healthy: bool)

  predicate HasMarker(home: Dir) {
    exists i | 0 <= i < |MARKERS| :: MARKERS[i] in home
  }

  predicate TargetIsFree(d: Disk) { d.target.None? || d.target.value == map[] }

  /** The checks before the first effect; `None` lets the migration go ahead. */
  function Check(d: Disk, s: Setting): Option<Status> {
    if s.homeOverride || s.sameHome || !HasMarker(d.source) then Some(NotNeeded)
    else if !TargetIsFree(d) then Some(if MANIFEST in d.target.value then TargetExists else Blocked)
    else if s.healthy then Some(Blocked)
    else None
  }

  /** How the clean-up after a failing step goes: the call returns, or dies once the staging copy is removed, or
      the removal fails or is cut off and leaves some entries. */
  datatype CleanUp = Returns | Dies | Leaves(left: set<string>)

  /** How the call goes: through, or into a crash or a failing step after `at` effects. */
  datatype Fate = Completes | Crashes(at: nat) | Fails(at: nat, cleanUp: CleanUp)

  function Min(a: nat, b: nat): nat { if a < b then a else b }

  /** A call that crashes or throws returns no status. */
  datatype Result = Result(disk: Disk, status: Option<Status>)

  function CleanedUp(env: Env, d: Disk, id: string, c: CleanUp): Result {
    match c
    case Returns => Result(Apply(env, d, RemoveStaging(id)), Some(Blocked))
    case Dies => Result(Apply(env, d, RemoveStaging(id)), None)
    case Leaves(left) => Result(Apply(env, d, RemovePart(id, left)), None)
  }

  /** A backup of the same id stops the call after the checkpoint. */
  function Prepare(env: Env, s: Setting, d: Disk, id: string, order: seq<string>, fate: Fate): Result {
    if Check(d, s).Some? then Result(d, Check(d, s))
    else
      var stopped := id in d.backups;
      var steps := if stopped then [Checkpoint] else Plan(env, d, id, order);
      match fate
      case Completes =>
        if stopped then CleanedUp(env, ApplyAll(env, d, steps), id, Returns)
        else Result(ApplyAll(env, d, steps), Some(Migrated))
      case Crashes(at) => Result(ApplyAll(env, d, steps[..Min(at, |steps|)]), None)
      case Fails(at, c) =>
        CleanedUp(env, ApplyAll(env, d, steps[..Min(at, if stopped then 1 else |steps| - 1)]), id, c)
  }

  // ---------- what the target should hold ----------

  /** The content of an entry after rewriting the configs. */
  function Moved(env: Env, home: Dir, name: string): Content
    requires name in home
  {
    if name in CONFIGS && NewConfig(env, home, name).Some? then Whole(NewConfig(env, home, name).value) else home[name]
  }

  /** The complete copy: every entry of the legacy home, configs rewritten, and the manifest. */
  function CompleteCopy(env: Env, home: Dir): Dir {
    (map name | name in home :: Moved(env, home, name))[MANIFEST := Whole(env.manifest)]
  }

  /** The directory lists its entries. */
  ghost predicate Lists(order: seq<string>, home: Dir) {
    forall name :: name in order <==> name in home
  }
}

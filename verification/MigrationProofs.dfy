/** The target home is free or complete at every crash point, and a later run finishes the move. */
module MigrationProofs {
  import opened MigrationSpec
  import opened Options

  // ---------- what single effects leave alone ----------

  ghost predicate SparesTarget(es: seq<Effect>) {
    forall i | 0 <= i < |es| :: !es[i].Install? && !es[i].RemoveTarget?
  }

  lemma {:induction false} TargetUntouched(env: Env, d: Disk, es: seq<Effect>)
    requires SparesTarget(es)
    ensures ApplyAll(env, d, es).target == d.target
    decreases |es|
  {
    if es != [] {
      var n := |es| - 1;
      assert forall i | 0 <= i < n :: es[..n][i] == es[i];
      TargetUntouched(env, d, es[..n]);
    }
  }

  /** Only a checkpoint changes the legacy home. */
  lemma {:induction false} SourceUntouched(env: Env, d: Disk, es: seq<Effect>)
    requires forall i | 0 <= i < |es| :: !es[i].Checkpoint?
    ensures ApplyAll(env, d, es).source == d.source
    decreases |es|
  {
    if es != [] {
      var n := |es| - 1;
      assert forall i | 0 <= i < n :: es[..n][i] == es[i];
      SourceUntouched(env, d, es[..n]);
    }
  }

  lemma {:induction false} ApplyConcat(env: Env, d: Disk, a: seq<Effect>, b: seq<Effect>)
    ensures ApplyAll(env, d, a + b) == ApplyAll(env, ApplyAll(env, d, a), b)
    decreases |b|
  {
    hide Apply;
    if b == [] {
      assert a + b == a;
    } else {
      assert (a + b)[..|a + b| - 1] == a + b[..|b| - 1];
      ApplyConcat(env, d, a, b[..|b| - 1]);
    }
  }

  lemma ApplyTwo(env: Env, d: Disk, e: Effect, f: Effect)
    ensures ApplyAll(env, d, [e, f]) == Apply(env, Apply(env, d, e), f)
  {
    assert [e, f][..1] == [e] && [e][..0] == [];
    assert ApplyAll(env, d, [e]) == Apply(env, ApplyAll(env, d, []), e);
  }

  lemma ApplyOne(env: Env, d: Disk, e: Effect)
    ensures ApplyAll(env, d, [e]) == Apply(env, d, e)
  {
    assert [e][..0] == [];
  }

  // ---------- copying ----------

  function Restricted(home: Dir, order: seq<string>): Dir {
    map name | name in home && name in order :: home[name]
  }

  lemma NoEffects(env: Env, d: Disk)
    ensures ApplyAll(env, d, []) == d
  {
  }

  lemma RestrictedMore(home: Dir, order: seq<string>)
    requires order != [] && order[|order| - 1] in home
    ensures var name := order[|order| - 1];
      Restricted(home, order) == Restricted(home, order[..|order| - 1])[name := Torn][name := home[name]]
  {
    assert order == order[..|order| - 1] + [order[|order| - 1]];
  }

  lemma StageOne(env: Env, d: Disk, id: string, name: string)
    requires id in d.staging && name in d.source
    ensures Apply(env, Apply(env, d, StageEntry(id, name, false)), StageEntry(id, name, true)) ==
      d.(staging := d.staging[id := d.staging[id][name := Torn][name := d.source[name]]])
  {
    assert d.staging[id := d.staging[id][name := Torn]][id := d.staging[id][name := Torn][name := d.source[name]]] ==
      d.staging[id := d.staging[id][name := Torn][name := d.source[name]]];
  }

  lemma {:induction false} StageAllCopies(env: Env, d: Disk, id: string, order: seq<string>)
    requires id in d.staging && d.staging[id] == map[]
    requires forall i | 0 <= i < |order| :: order[i] in d.source
    ensures ApplyAll(env, d, StageAll(id, order)) == d.(staging := d.staging[id := Restricted(d.source, order)])
    decreases |order|
  {
    hide ApplyAll, Apply;
    if order == [] {
      NoEffects(env, d);
      assert StageAll(id, order) == [] && BackupAll(id, order) == [];
      assert Restricted(d.source, order) == map[];
      assert d.staging[id := map[]] == d.staging;
    } else {
      var n := |order| - 1;
      var front, name := order[..n], order[n];
      assert forall i | 0 <= i < n :: front[i] == order[i];
      StageAllCopies(env, d, id, front);
      var d1 := d.(staging := d.staging[id := Restricted(d.source, front)]);
      ApplyConcat(env, d, StageAll(id, front), [StageEntry(id, name, false), StageEntry(id, name, true)]);
      ApplyTwo(env, d1, StageEntry(id, name, false), StageEntry(id, name, true));
      StageOne(env, d1, id, name);
      RestrictedMore(d.source, order);
      assert d.staging[id := Restricted(d.source, front)][id := Restricted(d.source, order)] ==
        d.staging[id := Restricted(d.source, order)];
    }
  }

  lemma BackupOne(env: Env, d: Disk, id: string, name: string)
    requires id in d.backups && name in d.source
    ensures Apply(env, Apply(env, d, BackupEntry(id, name, false)), BackupEntry(id, name, true)) ==
      d.(backups := d.backups[id := d.backups[id][name := Torn][name := d.source[name]]])
  {
    assert d.backups[id := d.backups[id][name := Torn]][id := d.backups[id][name := Torn][name := d.source[name]]] ==
      d.backups[id := d.backups[id][name := Torn][name := d.source[name]]];
  }

  lemma {:induction false} BackupAllCopies(env: Env, d: Disk, id: string, order: seq<string>)
    requires id in d.backups && d.backups[id] == map[]
    requires forall i | 0 <= i < |order| :: order[i] in d.source
    ensures ApplyAll(env, d, BackupAll(id, order)) == d.(backups := d.backups[id := Restricted(d.source, order)])
    decreases |order|
  {
    hide ApplyAll, Apply;
    if order == [] {
      NoEffects(env, d);
      assert StageAll(id, order) == [] && BackupAll(id, order) == [];
      assert Restricted(d.source, order) == map[];
      assert d.backups[id := map[]] == d.backups;
    } else {
      var n := |order| - 1;
      var front, name := order[..n], order[n];
      assert forall i | 0 <= i < n :: front[i] == order[i];
      BackupAllCopies(env, d, id, front);
      var d1 := d.(backups := d.backups[id := Restricted(d.source, front)]);
      ApplyConcat(env, d, BackupAll(id, front), [BackupEntry(id, name, false), BackupEntry(id, name, true)]);
      ApplyTwo(env, d1, BackupEntry(id, name, false), BackupEntry(id, name, true));
      BackupOne(env, d1, id, name);
      RestrictedMore(d.source, order);
      assert d.backups[id := Restricted(d.source, front)][id := Restricted(d.source, order)] ==
        d.backups[id := Restricted(d.source, order)];
    }
  }

  lemma ListedIsWhole(home: Dir, order: seq<string>)
    requires Lists(order, home)
    ensures Restricted(home, order) == home
    ensures forall i | 0 <= i < |order| :: order[i] in home
  {
  }

  // ---------- rewriting the configs ----------

  /** What rewriting makes of an entry. */
  function Rewritten(env: Env, home: Dir, name: string): Content
    requires name in home
  {
    if name in CONFIGS && NewConfig(env, home, name).Some? then
      match env.write(name)
      case GoesThrough => Whole(NewConfig(env, home, name).value)
      case Tears => Torn
      case NeverOpens => home[name]
    else home[name]
  }

  function AfterRewrite(env: Env, home: Dir, names: set<string>): Dir {
    map name | name in home :: if name in names then Rewritten(env, home, name) else home[name]
  }

  lemma RewriteOneDoes(env: Env, d: Disk, id: string, home: Dir, name: string, before: set<string>)
    requires id in d.staging && d.staging[id] == AfterRewrite(env, home, before) && name in CONFIGS && name !in before
    ensures ApplyAll(env, d, RewriteOne(env, id, home, name)) ==
      d.(staging := d.staging[id := AfterRewrite(env, home, before + {name})])
  {
    hide Apply, ApplyAll;
    var next := NewConfig(env, home, name);
    if next.None? || env.write(name).NeverOpens? {
      NoEffects(env, d);
      assert AfterRewrite(env, home, before + {name}) == AfterRewrite(env, home, before);
      assert d.staging[id := d.staging[id]] == d.staging;
    } else {
      var e, f := WriteConfig(id, name, None), WriteConfig(id, name, next);
      assert AfterRewrite(env, home, before + {name}) ==
        AfterRewrite(env, home, before)[name := Rewritten(env, home, name)];
      WriteOne(env, d, id, name, next);
      if env.write(name).GoesThrough? {
        assert RewriteOne(env, id, home, name) == [e, f];
        ApplyTwo(env, d, e, f);
      } else {
        assert RewriteOne(env, id, home, name) == [e];
        ApplyOne(env, d, e);
      }
    }
  }

  lemma WriteOne(env: Env, d: Disk, id: string, name: string, text: Option<string>)
    requires id in d.staging
    ensures var copied, torn := d.staging[id], Apply(env, d, WriteConfig(id, name, None));
      && torn == d.(staging := d.staging[id := copied[name := Torn]])
      && Apply(env, torn, WriteConfig(id, name, text)) == d.(staging := d.staging[id := copied[name := Written(text)]])
  {
    var copied := d.staging[id];
    assert copied[name := Torn][name := Written(text)] == copied[name := Written(text)];
    assert d.staging[id := copied[name := Torn]][id := copied[name := Written(text)]] ==
      d.staging[id := copied[name := Written(text)]];
  }

  lemma RewritesDo(env: Env, d: Disk, id: string, home: Dir)
    requires id in d.staging && d.staging[id] == home
    ensures ApplyAll(env, d, Rewrites(env, id, home)) ==
      d.(staging := d.staging[id := AfterRewrite(env, home, {CONFIGS[0], CONFIGS[1]})])
  {
    hide RewriteOne, AfterRewrite, ApplyAll;
    NothingRewritten(env, home);
    RewriteOneDoes(env, d, id, home, CONFIGS[0], {});
    var d1 := ApplyAll(env, d, RewriteOne(env, id, home, CONFIGS[0]));
    assert {} + {CONFIGS[0]} == {CONFIGS[0]};
    ConfigsDiffer();
    RewriteOneDoes(env, d1, id, home, CONFIGS[1], {CONFIGS[0]});
    assert {CONFIGS[0]} + {CONFIGS[1]} == {CONFIGS[0], CONFIGS[1]};
    ApplyConcat(env, d, RewriteOne(env, id, home, CONFIGS[0]), RewriteOne(env, id, home, CONFIGS[1]));
  }

  lemma ConfigsDiffer()
    ensures CONFIGS[0] != CONFIGS[1]
  {
    assert CONFIGS[0][0] == 'm' && CONFIGS[1][0] == 'c';
  }

  lemma NothingRewritten(env: Env, home: Dir)
    ensures AfterRewrite(env, home, {}) == home
  {
  }

  /** The directory that gets installed. */
  function Installed(env: Env, home: Dir): Dir {
    AfterRewrite(env, home, {CONFIGS[0], CONFIGS[1]})[MANIFEST := Whole(env.manifest)]
  }

  /** Every config that had to be rewritten was: its write went through, or it never began and had nothing to
      change. */
  predicate ConfigsWritten(env: Env, home: Dir) {
    forall i | 0 <= i < |CONFIGS| && NewConfig(env, home, CONFIGS[i]).Some? :: ConfigWritten(env, home, CONFIGS[i])
  }

  predicate ConfigWritten(env: Env, home: Dir, name: string)
    requires name in home && NewConfig(env, home, name).Some?
  {
    || env.write(name).GoesThrough?
    || (env.write(name).NeverOpens? && home[name] == Whole(NewConfig(env, home, name).value))
  }

  lemma InstalledIsComplete(env: Env, home: Dir)
    ensures Installed(env, home) == CompleteCopy(env, home) <==> ConfigsWritten(env, home)
  {
    assert MANIFEST !in CONFIGS by { assert MANIFEST[0] == '.' && CONFIGS[0][0] == 'm' && CONFIGS[1][0] == 'c'; }
    var a, b := Installed(env, home), CompleteCopy(env, home);
    forall name | name in home && name != MANIFEST
      ensures a[name] == Rewritten(env, home, name) && b[name] == Moved(env, home, name)
    {
      assert name in CONFIGS <==> name in {CONFIGS[0], CONFIGS[1]};
    }
    if ConfigsWritten(env, home) {
      assert a.Keys == b.Keys;
      forall name | name in a
        ensures a[name] == b[name]
      {
        if name != MANIFEST && name in CONFIGS {
          var i :| 0 <= i < |CONFIGS| && CONFIGS[i] == name;
        }
      }
      assert a == b;
    } else {
      var i :| 0 <= i < |CONFIGS| && NewConfig(env, home, CONFIGS[i]).Some?
        && !ConfigWritten(env, home, CONFIGS[i]);
      assert a[CONFIGS[i]] == Rewritten(env, home, CONFIGS[i]) && b[CONFIGS[i]] == Moved(env, home, CONFIGS[i]);
    }
  }

  // ---------- the whole plan ----------

  /** The disk after the staging copy is ready. */
  function Staged(env: Env, d: Disk, id: string): Disk {
    var home := Checkpointed(env, d.source);
    d.(source := home, backups := d.backups[id := home], staging := d.staging[id := Installed(env, home)])
  }

  lemma CheckpointKeepsKeys(env: Env, home: Dir)
    ensures Checkpointed(env, home).Keys == home.Keys
  {
  }

  lemma BackupPart(env: Env, d: Disk, id: string, order: seq<string>)
    requires Lists(order, d.source)
    ensures var home := Checkpointed(env, d.source);
      ApplyAll(env, d, [Checkpoint, MakeBackup(id)] + BackupAll(id, order)) ==
        d.(source := home, backups := d.backups[id := home])
  {
    hide ApplyAll, Lists, Restricted;
    CheckpointKeepsKeys(env, d.source);
    var home := Checkpointed(env, d.source);
    SameKeysListed(order, d.source, home);
    ListedIsWhole(home, order);
    ApplyTwo(env, d, Checkpoint, MakeBackup(id));
    var d1 := d.(source := home, backups := d.backups[id := map[]]);
    BackupAllCopies(env, d1, id, order);
    ApplyConcat(env, d, [Checkpoint, MakeBackup(id)], BackupAll(id, order));
  }

  lemma SameKeysListed(order: seq<string>, a: Dir, b: Dir)
    requires Lists(order, a) && a.Keys == b.Keys
    ensures Lists(order, b)
  {
  }

  lemma StagePart(env: Env, d: Disk, id: string, order: seq<string>)
    requires Lists(order, d.source)
    ensures ApplyAll(env, d, [RemoveStaging(id), MakeStaging(id)] + StageAll(id, order)) ==
      d.(staging := d.staging[id := d.source])
  {
    hide ApplyAll, Lists, Restricted;
    ListedIsWhole(d.source, order);
    StagedSoFar(env, d, id, order);
  }

  lemma FinishPart(env: Env, d: Disk, id: string, home: Dir)
    requires id in d.staging && d.staging[id] == home
    ensures ApplyAll(env, d, Rewrites(env, id, home)
                             + [WriteManifest(id, None), WriteManifest(id, Some(env.manifest))]) ==
      d.(staging := d.staging[id := Installed(env, home)])
  {
    hide ApplyAll, AfterRewrite, Rewrites;
    RewritesDo(env, d, id, home);
    var copied := AfterRewrite(env, home, {CONFIGS[0], CONFIGS[1]});
    var d1 := d.(staging := d.staging[id := copied]);
    var e, f := WriteManifest(id, None), WriteManifest(id, Some(env.manifest));
    ApplyTwo(env, d1, e, f);
    ApplyConcat(env, d, Rewrites(env, id, home), [e, f]);
    assert copied[MANIFEST := Torn][MANIFEST := Whole(env.manifest)] == copied[MANIFEST := Whole(env.manifest)];
  }

  lemma StagingDoes(env: Env, d: Disk, id: string, order: seq<string>)
    requires Lists(order, d.source)
    ensures ApplyAll(env, d, Staging(env, d, id, order)) == Staged(env, d, id)
  {
    hide ApplyAll, Lists, Installed, BackupAll, StageAll, Rewrites;
    var home := Checkpointed(env, d.source);
    CheckpointKeepsKeys(env, d.source);
    SameKeysListed(order, d.source, home);
    var a := [Checkpoint, MakeBackup(id)] + BackupAll(id, order);
    var b := [RemoveStaging(id), MakeStaging(id)] + StageAll(id, order);
    var c := Rewrites(env, id, home) + [WriteManifest(id, None), WriteManifest(id, Some(env.manifest))];
    BackupPart(env, d, id, order);
    var d1 := d.(source := home, backups := d.backups[id := home]);
    StagePart(env, d1, id, order);
    FinishPart(env, d1.(staging := d1.staging[id := home]), id, home);
    ApplyConcat(env, d, a, b);
    ApplyConcat(env, d, a + b, c);
    assert Staging(env, d, id, order) == a + b + c;
    assert d1.staging[id := home][id := Installed(env, home)] == d1.staging[id := Installed(env, home)];
  }

  lemma PlanDoes(env: Env, d: Disk, id: string, order: seq<string>)
    requires Lists(order, d.source)
    ensures ApplyAll(env, d, Plan(env, d, id, order)) ==
      Staged(env, d, id).(target := Some(Installed(env, Checkpointed(env, d.source))), staging := d.staging - {id})
  {
    hide ApplyAll, Staging, Installed;
    StagingDoes(env, d, id, order);
    var staged := Staged(env, d, id);
    var last := (if d.target.Some? then [RemoveTarget] else []) + [Install(id)];
    assert Plan(env, d, id, order) == Staging(env, d, id, order) + last;
    ApplyConcat(env, d, Staging(env, d, id, order), last);
    if d.target.Some? {
      assert last == [RemoveTarget, Install(id)];
      ApplyTwo(env, staged, RemoveTarget, Install(id));
    } else {
      assert last == [Install(id)];
      ApplyOne(env, staged, Install(id));
    }
    assert staged.staging - {id} == d.staging - {id};
  }

  // ---------- every prefix ----------

  ghost predicate Ordinary(es: seq<Effect>) {
    forall i | 0 <= i < |es| :: !es[i].Install? && !es[i].RemoveTarget? && !es[i].Checkpoint?
  }

  lemma OrdinaryConcat(a: seq<Effect>, b: seq<Effect>)
    requires Ordinary(a) && Ordinary(b)
    ensures Ordinary(a + b)
  {
  }

  lemma {:induction false} CopiesAreOrdinary(id: string, order: seq<string>)
    ensures Ordinary(BackupAll(id, order)) && Ordinary(StageAll(id, order))
    decreases |order|
  {
    if order != [] {
      CopiesAreOrdinary(id, order[..|order| - 1]);
    }
  }

  lemma FewAreOrdinary(env: Env, id: string, home: Dir)
    ensures Ordinary([MakeBackup(id)]) && Ordinary([RemoveStaging(id), MakeStaging(id)])
    ensures Ordinary(Rewrites(env, id, home))
      && Ordinary([WriteManifest(id, None), WriteManifest(id, Some(env.manifest))])
  {
  }

  /** The plan begins with the checkpoint, ends with clearing the way and installing, and does none of these in
      between. */
  lemma PlanShape(env: Env, d: Disk, id: string, order: seq<string>)
    ensures var plan := Plan(env, d, id, order);
      var n := |plan| - if d.target.Some? then 2 else 1;
      && n >= 1 && plan[0] == Checkpoint && Ordinary(plan[1..n])
      && plan[n..] == (if d.target.Some? then [RemoveTarget] else []) + [Install(id)]
  {
    hide BackupAll, StageAll, Ordinary, Rewrites, Checkpointed;
    CopiesAreOrdinary(id, order);
    var home := Checkpointed(env, d.source);
    var a := [MakeBackup(id)] + BackupAll(id, order);
    var b := [RemoveStaging(id), MakeStaging(id)] + StageAll(id, order);
    var c := Rewrites(env, id, home) + [WriteManifest(id, None), WriteManifest(id, Some(env.manifest))];
    var e := (if d.target.Some? then [RemoveTarget] else []) + [Install(id)];
    FewAreOrdinary(env, id, home);
    OrdinaryConcat(Rewrites(env, id, home), [WriteManifest(id, None), WriteManifest(id, Some(env.manifest))]);
    OrdinaryConcat([MakeBackup(id)], BackupAll(id, order));
    OrdinaryConcat([RemoveStaging(id), MakeStaging(id)], StageAll(id, order));
    OrdinaryConcat(a, b);
    OrdinaryConcat(a + b, c);
    var plan := Plan(env, d, id, order);
    assert plan == [Checkpoint] + (a + b + c) + e;
    assert plan[1..|plan| - |e|] == a + b + c;
  }

  /** Short of the install the target is as it was, or cleared away by the step before it. */
  lemma PrefixFacts(env: Env, d: Disk, id: string, order: seq<string>, k: nat)
    requires k < |Plan(env, d, id, order)|
    ensures var plan := Plan(env, d, id, order);
      var d' := ApplyAll(env, d, plan[..k]);
      && d'.target == (if k == |plan| - 1 then None else d.target)
      && d'.source == if k == 0 then d.source else Checkpointed(env, d.source)
  {
    hide Plan, ApplyAll;
    var plan := Plan(env, d, id, order);
    PlanShape(env, d, id, order);
    var n := |plan| - if d.target.Some? then 2 else 1;
    if k <= n {
      SparingPrefix(env, d, plan, n, k);
    } else {
      SparingPrefix(env, d, plan, n, n);
      assert plan[n] == plan[n..][0] && plan[..k] == plan[..n] + [RemoveTarget];
      ApplyConcat(env, d, plan[..n], [RemoveTarget]);
      ApplyOne(env, ApplyAll(env, d, plan[..n]), RemoveTarget);
    }
  }

  lemma SparingPrefix(env: Env, d: Disk, plan: seq<Effect>, n: nat, k: nat)
    requires 1 <= n <= |plan| && plan[0] == Checkpoint && Ordinary(plan[1..n]) && k <= n
    ensures ApplyAll(env, d, plan[..k]).target == d.target
    ensures ApplyAll(env, d, plan[..k]).source == if k == 0 then d.source else Checkpointed(env, d.source)
  {
    var es := plan[..k];
    forall i | 0 <= i < k
      ensures !es[i].Install? && !es[i].RemoveTarget? && (i > 0 ==> !es[i].Checkpoint?)
    {
      if i > 0 { assert es[i] == plan[1..n][i - 1]; }
    }
    TargetUntouched(env, d, es);
    if k > 0 {
      var rest := es[1..];
      assert es == [Checkpoint] + rest;
      ApplyConcat(env, d, [Checkpoint], rest);
      ApplyOne(env, d, Checkpoint);
      assert forall i | 0 <= i < |rest| :: rest[i] == es[i + 1];
      SourceUntouched(env, Apply(env, d, Checkpoint), rest);
    }
  }

  // ---------- the promises ----------

  ghost predicate Ready(s: Setting, d: Disk, order: seq<string>) {
    Check(d, s).None? && Lists(order, d.source)
  }

  /** However the call goes, the target is installed as a whole exactly when every effect of the plan took place,
      is cleared away exactly when only the install is missing, and is as it was otherwise; the legacy home is the
      same but for the database checkpoint; and once the target is installed an exact backup of it exists. */
  lemma TargetIsNeverPartial(env: Env, s: Setting, d: Disk, id: string, order: seq<string>, fate: Fate)
    requires Ready(s, d, order)
    ensures var r := Prepare(env, s, d, id, order, fate);
      var home := Checkpointed(env, d.source);
      var finished := id !in d.backups && (fate.Completes? || (fate.Crashes? && fate.at >= |Plan(env, d, id, order)|));
      var cleared := id !in d.backups && !fate.Completes? && fate.at >= |Plan(env, d, id, order)| - 1;
      && r.disk.target == (if finished then Some(Installed(env, home)) else if cleared then None else d.target)
      && TargetIsFree(d)
      && (r.status == Some(Migrated) ==> finished)
      && (r.disk.source == d.source || r.disk.source == home)
      && (finished ==> id in r.disk.backups && r.disk.backups[id] == r.disk.source == home)
  {
    hide ApplyAll, Plan, Installed, Checkpointed, CleanedUp;
    var plan := Plan(env, d, id, order);
    PlanDoes(env, d, id, order);
    PlanShape(env, d, id, order);
    assert plan[..|plan|] == plan;
    if id in d.backups {
      var k := match fate case Completes => 1 case Crashes(at) => Min(at, 1) case Fails(at, _) => Min(at, 1);
      ShortRun(env, d, id, k);
      assert [Checkpoint][..1] == [Checkpoint];
      CleaningUp(env, ApplyAll(env, d, [Checkpoint][..k]), id, if fate.Fails? then fate.cleanUp else Returns);
    } else {
      match fate
      case Completes =>
      case Crashes(at) => if at < |plan| { PrefixFacts(env, d, id, order, at); }
      case Fails(at, c) =>
        var k := Min(at, |plan| - 1);
        PrefixFacts(env, d, id, order, k);
        CleaningUp(env, ApplyAll(env, d, plan[..k]), id, c);
    }
  }

  /** Cleaning up touches the staging copy of the call only. */
  lemma CleaningUp(env: Env, d: Disk, id: string, c: CleanUp)
    ensures var r := CleanedUp(env, d, id, c);
      && r.disk == d.(staging := r.disk.staging)
      && r.disk.staging.Keys <= d.staging.Keys && r.disk.staging - {id} == d.staging - {id}
      && (!c.Leaves? ==> id !in r.disk.staging)
      && (c.Leaves? ==> (id in r.disk.staging <==> id in d.staging))
      && (c.Leaves? && id in d.staging ==> PartOf(r.disk.staging[id], d.staging[id], c.left))
      && r.status == if c.Returns? then Some(Blocked) else None
  {
  }

  /** These entries are left of the directory, as they were. */
  predicate PartOf(part: Dir, dir: Dir, left: set<string>) {
    && (forall name | name in part :: name in dir && name in left && part[name] == dir[name])
    && forall name | name in dir && name in left :: name in part
  }

  lemma ShortRun(env: Env, d: Disk, id: string, k: nat)
    requires k <= 1
    ensures ApplyAll(env, d, [Checkpoint][..k]) ==
      d.(source := if k == 0 then d.source else Checkpointed(env, d.source))
  {
    if k == 1 {
      assert [Checkpoint][..1] == [Checkpoint];
      ApplyOne(env, d, Checkpoint);
    }
  }

  /** The installed target is the complete copy if and only if no config write was swallowed. */
  lemma MigratedIsCompleteIff(env: Env, s: Setting, d: Disk, id: string, order: seq<string>)
    requires Ready(s, d, order) && id !in d.backups
    ensures var r := Prepare(env, s, d, id, order, Completes);
      var home := Checkpointed(env, d.source);
      && r.status == Some(Migrated)
      && (r.disk.target == Some(CompleteCopy(env, home)) <==> ConfigsWritten(env, home))
  {
    TargetIsNeverPartial(env, s, d, id, order, Completes);
    InstalledIsComplete(env, Checkpointed(env, d.source));
  }

  /** The copy so far: the first entries, and the one being written torn. */
  function CopiedSoFar(home: Dir, order: seq<string>, i: nat, half: bool): Dir
    requires i < |order|
  {
    var whole := map name | name in home && name in order[..i] :: home[name];
    if half then whole[order[i] := Torn] else whole
  }

  /** A crash while the legacy home is backed up: every entry before is whole, and the one at hand may be torn. */
  lemma CrashInBackup(env: Env, s: Setting, d: Disk, id: string, order: seq<string>, i: nat, half: bool)
    requires Ready(s, d, order) && id !in d.backups && i < |order|
    ensures var home := Checkpointed(env, d.source);
      Prepare(env, s, d, id, order, Crashes(2 + 2 * i + if half then 1 else 0)).disk ==
        d.(source := home, backups := d.backups[id := CopiedSoFar(home, order, i, half)])
  {
    hide ApplyAll, Lists, Checkpointed, Plan, BackupAll;
    var home, first, copies := Checkpointed(env, d.source), [Checkpoint, MakeBackup(id)], BackupAll(id, order[..i]);
    PlanInBackup(env, d, id, order, i);
    CheckpointKeepsKeys(env, d.source);
    SameKeysListed(order, d.source, home);
    ListedIsWhole(home, order);
    ApplyTwo(env, d, Checkpoint, MakeBackup(id));
    var d1 := d.(source := home, backups := d.backups[id := map[]]);
    BackupAllCopies(env, d1, id, order[..i]);
    ApplyConcat(env, d, first, copies);
    var d2 := d.(source := home, backups := d.backups[id := Restricted(home, order[..i])]);
    assert d1.backups[id := Restricted(home, order[..i])] == d2.backups;
    if half {
      var torn := BackupEntry(id, order[i], false);
      ApplyConcat(env, d, first + copies, [torn]);
      ApplyOne(env, d2, torn);
      assert d2.backups[id := Restricted(home, order[..i])[order[i] := Torn]] ==
        d.backups[id := Restricted(home, order[..i])[order[i] := Torn]];
    }
  }

  lemma PlanInBackup(env: Env, d: Disk, id: string, order: seq<string>, i: nat)
    requires i < |order|
    ensures var plan, before := Plan(env, d, id, order), [Checkpoint, MakeBackup(id)] + BackupAll(id, order[..i]);
      && 2 + 2 * i + 1 < |plan| && plan[..2 + 2 * i] == before
      && plan[..2 + 2 * i + 1] == before + [BackupEntry(id, order[i], false)]
  {
    hide StageAll, Rewrites, Checkpointed;
    var plan, all := Plan(env, d, id, order), BackupAll(id, order);
    BackupParts(id, order, i);
    hide BackupAll;
    var first := [Checkpoint, MakeBackup(id)];
    assert plan[..2 + |all|] == first + all;
    PrefixOfTwo(plan, first, all, 2 * i);
    PrefixOfTwo(plan, first, all, 2 * i + 1);
    OneMoreEffect(first, all, 2 * i);
  }

  lemma PrefixOfTwo(plan: seq<Effect>, first: seq<Effect>, all: seq<Effect>, k: nat)
    requires |first| + |all| <= |plan| && plan[..|first| + |all|] == first + all && k <= |all|
    ensures plan[..|first| + k] == first + all[..k]
  {
    assert plan[..|first| + k] == plan[..|first| + |all|][..|first| + k];
  }

  /** A crash while the staging copy is made finds the backup whole. */
  lemma CrashInStaging(env: Env, s: Setting, d: Disk, id: string, order: seq<string>, i: nat, half: bool)
    requires Ready(s, d, order) && id !in d.backups && i < |order|
    ensures var home := Checkpointed(env, d.source);
      Prepare(env, s, d, id, order, Crashes(4 + 2 * |order| + 2 * i + if half then 1 else 0)).disk ==
        d.(source := home, backups := d.backups[id := home],
           staging := d.staging[id := CopiedSoFar(home, order, i, half)])
  {
    hide ApplyAll, Lists, Checkpointed, Plan, BackupAll, StageAll;
    var home, copies := Checkpointed(env, d.source), StageAll(id, order[..i]);
    var a, b := [Checkpoint, MakeBackup(id)] + BackupAll(id, order), [RemoveStaging(id), MakeStaging(id)];
    PlanInStaging(env, d, id, order, i);
    CheckpointKeepsKeys(env, d.source);
    SameKeysListed(order, d.source, home);
    ListedIsWhole(home, order);
    BackupPart(env, d, id, order);
    var d1 := d.(source := home, backups := d.backups[id := home]);
    StagedSoFar(env, d1, id, order[..i]);
    ApplyConcat(env, d, a, b + copies);
    assert a + (b + copies) == a + b + copies;
    var d3 := d1.(staging := d.staging[id := Restricted(home, order[..i])]);
    if half {
      hide Restricted;
      var torn := StageEntry(id, order[i], false);
      ApplyConcat(env, d, a + b + copies, [torn]);
      ApplyOne(env, d3, torn);
      assert d3.staging[id := Restricted(home, order[..i])[order[i] := Torn]] ==
        d.staging[id := Restricted(home, order[..i])[order[i] := Torn]];
    }
  }

  lemma StagedSoFar(env: Env, d: Disk, id: string, order: seq<string>)
    requires forall i | 0 <= i < |order| :: order[i] in d.source
    ensures ApplyAll(env, d, [RemoveStaging(id), MakeStaging(id)] + StageAll(id, order)) ==
      d.(staging := d.staging[id := Restricted(d.source, order)])
  {
    hide ApplyAll, Restricted;
    ApplyTwo(env, d, RemoveStaging(id), MakeStaging(id));
    var d1 := d.(staging := (d.staging - {id})[id := map[]]);
    StageAllCopies(env, d1, id, order);
    ApplyConcat(env, d, [RemoveStaging(id), MakeStaging(id)], StageAll(id, order));
    assert d1.staging[id := Restricted(d.source, order)] == d.staging[id := Restricted(d.source, order)];
  }

  lemma PlanInStaging(env: Env, d: Disk, id: string, order: seq<string>, i: nat)
    requires i < |order|
    ensures var plan, at := Plan(env, d, id, order), 4 + 2 * |order| + 2 * i;
      var before := [Checkpoint, MakeBackup(id)] + BackupAll(id, order) + [RemoveStaging(id), MakeStaging(id)]
        + StageAll(id, order[..i]);
      && at + 1 < |plan| && plan[..at] == before && plan[..at + 1] == before + [StageEntry(id, order[i], false)]
  {
    hide Rewrites, Checkpointed, BackupAll, StageAll;
    var plan, all := Plan(env, d, id, order), StageAll(id, order);
    BackupParts(id, order, i);
    StageParts(id, order, i);
    var first := [Checkpoint, MakeBackup(id)] + BackupAll(id, order) + [RemoveStaging(id), MakeStaging(id)];
    assert |first| == 4 + 2 * |order| && plan[..|first| + |all|] == first + all;
    hide Plan;
    PrefixOfTwo(plan, first, all, 2 * i);
    PrefixOfTwo(plan, first, all, 2 * i + 1);
    OneMoreEffect(first, all, 2 * i);
  }

  lemma OneMoreEffect(first: seq<Effect>, all: seq<Effect>, k: nat)
    requires k < |all|
    ensures first + all[..k + 1] == first + all[..k] + [all[k]]
  {
    assert all[..k + 1] == all[..k] + [all[k]];
  }

  lemma {:induction false} StageParts(id: string, order: seq<string>, i: nat)
    requires i < |order|
    ensures 2 * i + 1 < |StageAll(id, order)| && StageAll(id, order)[..2 * i] == StageAll(id, order[..i])
    ensures StageAll(id, order)[2 * i] == StageEntry(id, order[i], false)
    decreases |order|
  {
    var n := |order| - 1;
    if n > 0 {
      StageParts(id, order[..n], if i < n then i else n - 1);
    }
    if i < n { assert order[..n][..i] == order[..i]; }
  }

  lemma {:induction false} BackupParts(id: string, order: seq<string>, i: nat)
    requires i < |order|
    ensures 2 * i + 1 < |BackupAll(id, order)| && BackupAll(id, order)[..2 * i] == BackupAll(id, order[..i])
    ensures BackupAll(id, order)[2 * i] == BackupEntry(id, order[i], false)
    ensures |BackupAll(id, order)| == 2 * |order|
    decreases |order|
  {
    var n := |order| - 1;
    if n > 0 {
      BackupParts(id, order[..n], if i < n then i else n - 1);
    }
    if i < n { assert order[..n][..i] == order[..i]; }
  }

  /** What a finished migration installs: the legacy entries, its database after the checkpoint, its configs as their
      rewriting left them, and the manifest. */
  predicate HoldsMoved(target: Dir, env: Env, legacy: Dir) {
    && target.Keys == legacy.Keys + {MANIFEST} && target[MANIFEST] == Whole(env.manifest)
    && forall name | name in legacy && name != MANIFEST :: target[name] == MovedEntry(env, name, legacy[name])
  }

  function MovedEntry(env: Env, name: string, legacy: Content): Content {
    if legacy.Torn? then legacy
    else if name == "data" then Whole(env.checkpoint(legacy.data))
    else if name in {"mozi.json", "config.yaml"} && env.rewrite(name, legacy.data).Some?
      && !env.write(name).NeverOpens? then
      if env.write(name).Tears? then Torn else Whole(env.rewrite(name, legacy.data).value)
    else legacy
  }

  lemma MovedHomeIs(env: Env, s: Setting, d: Disk, id: string, order: seq<string>)
    requires Ready(s, d, order) && id !in d.backups
    ensures var r := Prepare(env, s, d, id, order, Completes);
      r.disk.target.Some? && HoldsMoved(r.disk.target.value, env, d.source)
  {
    hide Prepare, Plan, Ready;
    TargetIsNeverPartial(env, s, d, id, order, Completes);
    assert "data"[0] == 'd' && CONFIGS[0] == "mozi.json" && CONFIGS[1] == "config.yaml" && MANIFEST[0] == '.';
    var home := Checkpointed(env, d.source);
    forall name | name in d.source && name != MANIFEST
      ensures Installed(env, home)[name] == MovedEntry(env, name, d.source[name])
    {
      assert name in CONFIGS <==> name in {"mozi.json", "config.yaml"};
    }
    assert Installed(env, home).Keys == d.source.Keys + {MANIFEST};
  }

  lemma StoppedByChecks(env: Env, s: Setting, d: Disk, id: string, order: seq<string>, fate: Fate)
    requires Check(d, s).Some?
    ensures Prepare(env, s, d, id, order, fate) == Result(d, Check(d, s))
  {
  }

  /** What every call answers. It leaves the disk alone unless the legacy home is to be moved, the target is free and
      the runtime is not up; then it ends migrated exactly if it runs through under an id of its own. */
  lemma EveryCallAnswers(env: Env, s: Setting, d: Disk, id: string, order: seq<string>, fate: Fate)
    ensures var r := Prepare(env, s, d, id, order, fate);
      var needed := !s.homeOverride && !s.sameHome && exists name :: name in MARKERS && name in d.source;
      var occupied := d.target.Some? && exists name :: name in d.target.value;
      && (!needed ==> r == Result(d, Some(NotNeeded)))
      && (needed && occupied ==> r == Result(d, Some(if MANIFEST in d.target.value then TargetExists else Blocked)))
      && (needed && !occupied && s.healthy ==> r == Result(d, Some(Blocked)))
      && (needed && !occupied && !s.healthy ==>
            && (r.status == Some(Migrated) <==> fate.Completes? && id !in d.backups)
            && (r.status == Some(Blocked) <==>
                  (fate.Completes? && id in d.backups) || (fate.Fails? && fate.cleanUp.Returns?))
            && (r.status == None <==> fate.Crashes? || (fate.Fails? && !fate.cleanUp.Returns?)))
  {
    hide ApplyAll, Plan;
    if exists name :: name in MARKERS && name in d.source {
      assert HasMarker(d.source);
    }
    assert forall i | 0 <= i < |MARKERS| :: MARKERS[i] in MARKERS;
    if d.target.Some? && d.target.value != map[] {
      assert d.target.value.Keys != {};
      assert exists name :: name in d.target.value.Keys;
    }
  }

  /** After any crash or failure, one more call under a new time stamp that runs through ends
      migrated or finds the target in place; either way the target then holds the installed copy
      and its manifest. */
  lemma RerunFinishes(
      env: Env, s: Setting, d: Disk, id: string, order: seq<string>, fate: Fate, id2: string, order2: seq<string>)
    requires Ready(s, d, order)
    requires id2 !in Prepare(env, s, d, id, order, fate).disk.backups
    requires Lists(order2, Prepare(env, s, d, id, order, fate).disk.source)
    ensures var d1 := Prepare(env, s, d, id, order, fate).disk;
      var r := Prepare(env, s, d1, id2, order2, Completes);
      && r.status in {Some(Migrated), Some(TargetExists)}
      && r.disk.target.Some? && MANIFEST in r.disk.target.value
      && (r.disk.target == Some(Installed(env, Checkpointed(env, d.source)))
          || r.disk.target == Some(Installed(env, Checkpointed(env, Checkpointed(env, d.source)))))
  {
    hide ApplyAll, Plan, Checkpointed, Prepare;
    TargetIsNeverPartial(env, s, d, id, order, fate);
    var d1 := Prepare(env, s, d, id, order, fate).disk;
    CheckpointKeepsKeys(env, d.source);
    assert HasMarker(d1.source);
    if Check(d1, s).None? {
      TargetIsNeverPartial(env, s, d1, id2, order2, Completes);
      CompletedStatus(env, s, d1, id2, order2);
    } else {
      StoppedByChecks(env, s, d1, id2, order2, Completes);
    }
  }

  lemma CompletedStatus(env: Env, s: Setting, d: Disk, id: string, order: seq<string>)
    requires Check(d, s).None? && id !in d.backups
    ensures Prepare(env, s, d, id, order, Completes).status == Some(Migrated)
  {
  }

  // ---------- a config write that is swallowed ----------

  const TORN_ENV := Env(data => data, (name, data) => Some("new"), "manifest", name => Tears)

  const LEGACY_HOME: Disk := Disk(map["mozi.json" := Whole("old")], None, map[], map[])

  /** The smallest migration that reports success and installs a torn file. */
  lemma SwallowedWriteExample()
    ensures var r := Prepare(TORN_ENV, Setting(false, false, false), LEGACY_HOME, "id", ["mozi.json"], Completes);
      && r.status == Some(Migrated)
      && r.disk.target.Some? && "mozi.json" in r.disk.target.value && r.disk.target.value["mozi.json"] == Torn
  {
    hide Prepare, Plan, ApplyAll;
    var s, order := Setting(false, false, false), ["mozi.json"];
    assert MARKERS[4] in LEGACY_HOME.source;
    assert Ready(s, LEGACY_HOME, order);
    TargetIsNeverPartial(TORN_ENV, s, LEGACY_HOME, "id", order, Completes);
    CompletedStatus(TORN_ENV, s, LEGACY_HOME, "id", order);
    var home := Checkpointed(TORN_ENV, LEGACY_HOME.source);
    assert home == LEGACY_HOME.source;
    assert MANIFEST[0] == '.' && "mozi.json"[0] == 'm';
    assert Installed(TORN_ENV, home)["mozi.json"] == Rewritten(TORN_ENV, home, "mozi.json");
  }

  // ---------- many launches ----------

  /** One start of the application, with the listing of the legacy home it finds. */
  datatype Launch = Launch(env: Env, setting: Setting, id: string, order: seq<string>, fate: Fate)

  ghost function AfterLaunch(d: Disk, l: Launch): Disk {
    Prepare(l.env, l.setting, d, l.id, l.order, l.fate).disk
  }

  ghost function Launches(d: Disk, ls: seq<Launch>): Disk {
    if ls == [] then d else AfterLaunch(Launches(d, ls[..|ls| - 1]), ls[|ls| - 1])
  }

  ghost predicate LaunchesOk(d: Disk, ls: seq<Launch>) {
    forall i: nat | i < |ls| :: Lists(ls[i].order, Launches(d, ls[..i]).source)
  }

  lemma FrontOk(d: Disk, ls: seq<Launch>)
    requires LaunchesOk(d, ls) && ls != []
    ensures LaunchesOk(d, ls[..|ls| - 1])
    ensures Lists(ls[|ls| - 1].order, Launches(d, ls[..|ls| - 1]).source)
  {
    hide Launches, Lists;
    var front := ls[..|ls| - 1];
    forall i: nat | i < |front|
      ensures Lists(front[i].order, Launches(d, front[..i]).source)
    {
      assert front[..i] == ls[..i] && front[i] == ls[i];
    }
  }

  /** An occupied target stops every launch before it changes anything, whatever else is the case. */
  lemma {:induction false} OccupiedTargetIsKept(d: Disk, ls: seq<Launch>)
    requires !TargetIsFree(d)
    ensures Launches(d, ls) == d
    decreases |ls|
  {
    if ls != [] {
      OccupiedTargetIsKept(d, ls[..|ls| - 1]);
      var l := ls[|ls| - 1];
      StoppedByChecks(l.env, l.setting, d, l.id, l.order, l.fate);
    }
  }

  /** What one launch does to a free target and to the legacy home. */
  lemma LaunchOnFree(d: Disk, l: Launch)
    requires TargetIsFree(d) && Lists(l.order, d.source)
    ensures var d' := AfterLaunch(d, l);
      && d'.source.Keys == d.source.Keys
      && (TargetIsFree(d') || d'.target == Some(Installed(l.env, Checkpointed(l.env, d.source))))
  {
    hide Prepare, Plan, ApplyAll, Installed, Lists;
    CheckpointKeepsKeys(l.env, d.source);
    if Check(d, l.setting).Some? {
      StoppedByChecks(l.env, l.setting, d, l.id, l.order, l.fate);
    } else {
      TargetIsNeverPartial(l.env, l.setting, d, l.id, l.order, l.fate);
    }
  }

  /** The target after some launches was installed by launch `i` as a whole, and nothing changed since. */
  ghost predicate InstalledBy(d: Disk, ls: seq<Launch>, i: nat) {
    && i < |ls|
    && var before := Launches(d, ls[..i]);
    && TargetIsFree(before) && Launches(d, ls) == Launches(d, ls[..i + 1])
    && Launches(d, ls).target == Some(Installed(ls[i].env, Checkpointed(ls[i].env, before.source)))
  }

  /** Over any sequence of launches, with crashes and failures anywhere, a target that was free is still
      free, or one of the launches installed it as a whole and none after it changed a thing. */
  lemma {:induction false} TargetOverLaunches(d: Disk, ls: seq<Launch>)
    requires TargetIsFree(d) && LaunchesOk(d, ls)
    ensures Launches(d, ls).source.Keys == d.source.Keys
    ensures TargetIsFree(Launches(d, ls)) || exists i: nat :: InstalledBy(d, ls, i)
    decreases |ls|
  {
    hide Installed, AfterLaunch, Checkpointed, TargetIsFree, Lists;
    if ls != [] {
      var n := |ls| - 1;
      FrontOk(d, ls);
      TargetOverLaunches(d, ls[..n]);
      assert ls[..n + 1] == ls;
      if TargetIsFree(Launches(d, ls[..n])) {
        LaunchOnFree(Launches(d, ls[..n]), ls[n]);
        assert TargetIsFree(Launches(d, ls)) || InstalledBy(d, ls, n);
      } else {
        var i: nat :| InstalledBy(d, ls[..n], i);
        OccupiedTargetIsKept(Launches(d, ls[..n]), [ls[n]]);
        OneLaunch(Launches(d, ls[..n]), ls[n]);
        assert ls[..n][..i] == ls[..i] && ls[..n][..i + 1] == ls[..i + 1] && ls[..n][i] == ls[i];
        assert InstalledBy(d, ls, i);
      }
    }
  }

  lemma OneLaunch(d: Disk, l: Launch)
    ensures Launches(d, [l]) == AfterLaunch(d, l)
  {
    assert [l][..0] == [];
  }

  lemma InstalledIsMarked(env: Env, home: Dir)
    ensures MANIFEST in Installed(env, home)
  {
  }

  /** After any launches one more that runs through, under a new time stamp and with nothing else running,
      ends migrated or finds the target installed. */
  lemma LastLaunchFinishes(d: Disk, ls: seq<Launch>, l: Launch)
    requires TargetIsFree(d) && HasMarker(d.source) && LaunchesOk(d, ls) && Lists(l.order, Launches(d, ls).source)
    requires l.setting == Setting(false, false, false) && l.fate.Completes? && l.id !in Launches(d, ls).backups
    ensures var r := Prepare(l.env, l.setting, Launches(d, ls), l.id, l.order, l.fate);
      && r.status == Some(if TargetIsFree(Launches(d, ls)) then Migrated else TargetExists)
      && r.disk.target.Some? && MANIFEST in r.disk.target.value
  {
    hide Prepare, Plan, ApplyAll, Installed, Launches, Lists, Checkpointed;
    TargetOverLaunches(d, ls);
    var d1 := Launches(d, ls);
    assert HasMarker(d1.source);
    if TargetIsFree(d1) {
      TargetIsNeverPartial(l.env, l.setting, d1, l.id, l.order, Completes);
      CompletedStatus(l.env, l.setting, d1, l.id, l.order);
      InstalledIsMarked(l.env, Checkpointed(l.env, d1.source));
    } else {
      var i: nat :| InstalledBy(d, ls, i);
      InstalledIsMarked(ls[i].env, Checkpointed(ls[i].env, Launches(d, ls[..i]).source));
      StoppedByChecks(l.env, l.setting, d1, l.id, l.order, l.fate);
    }
  }

  // ---------- staging copies ----------

  ghost predicate StagesOnly(es: seq<Effect>, id: string) {
    forall i: nat | i < |es| && es[i].MakeStaging? :: es[i].id == id
  }

  lemma StagesConcat(a: seq<Effect>, b: seq<Effect>, id: string)
    requires StagesOnly(a, id) && StagesOnly(b, id)
    ensures StagesOnly(a + b, id)
  {
  }

  lemma {:induction false} CopiesStageNothing(id: string, order: seq<string>)
    ensures StagesOnly(BackupAll(id, order), id) && StagesOnly(StageAll(id, order), id)
    decreases |order|
  {
    if order != [] { CopiesStageNothing(id, order[..|order| - 1]); }
  }

  lemma PlanStages(env: Env, d: Disk, id: string, order: seq<string>)
    ensures StagesOnly(Plan(env, d, id, order), id)
  {
    hide BackupAll, StageAll, StagesOnly, Rewrites, Checkpointed;
    CopiesStageNothing(id, order);
    var home := Checkpointed(env, d.source);
    FewStage(env, id, home, d);
    var a := [Checkpoint, MakeBackup(id)] + BackupAll(id, order);
    var b := [RemoveStaging(id), MakeStaging(id)] + StageAll(id, order);
    var c := Rewrites(env, id, home) + [WriteManifest(id, None), WriteManifest(id, Some(env.manifest))];
    var e := (if d.target.Some? then [RemoveTarget] else []) + [Install(id)];
    StagesConcat([Checkpoint, MakeBackup(id)], BackupAll(id, order), id);
    StagesConcat([RemoveStaging(id), MakeStaging(id)], StageAll(id, order), id);
    StagesConcat(a, b, id);
    StagesConcat(a + b, c, id);
    StagesConcat(a + b + c, e, id);
    assert Plan(env, d, id, order) == a + b + c + e;
  }

  lemma FewStage(env: Env, id: string, home: Dir, d: Disk)
    ensures StagesOnly([Checkpoint, MakeBackup(id)], id) && StagesOnly([RemoveStaging(id), MakeStaging(id)], id)
    ensures StagesOnly(Rewrites(env, id, home) + [WriteManifest(id, None), WriteManifest(id, Some(env.manifest))], id)
    ensures StagesOnly((if d.target.Some? then [RemoveTarget] else []) + [Install(id)], id)
  {
  }

  lemma {:induction false} OwnStaging(env: Env, d: Disk, es: seq<Effect>, id: string)
    requires StagesOnly(es, id)
    ensures ApplyAll(env, d, es).staging.Keys <= d.staging.Keys + {id}
    decreases |es|
  {
    hide Apply;
    if es != [] {
      var n := |es| - 1;
      assert forall i: nat | i < n :: es[..n][i] == es[i];
      OwnStaging(env, d, es[..n], id);
      StagedAtMost(env, ApplyAll(env, d, es[..n]), es[n]);
    }
  }

  lemma StagedAtMost(env: Env, d: Disk, e: Effect)
    ensures Apply(env, d, e).staging.Keys <= d.staging.Keys + if e.MakeStaging? then {e.id} else {}
  {
    hide Checkpointed, CopyOf, LeftOf;
  }

  /** The launch may die with its staging copy on the disk. */
  predicate Abandons(fate: Fate) { fate.Crashes? || (fate.Fails? && fate.cleanUp.Leaves?) }

  /** A launch that does not die leaves no staging copy of its own, and none leaves another's. */
  lemma LaunchCleansUp(d: Disk, l: Launch)
    requires Lists(l.order, d.source)
    ensures AfterLaunch(d, l).staging.Keys <= d.staging.Keys + if Abandons(l.fate) then {l.id} else {}
  {
    hide Lists, Plan, Checkpointed, Installed, CleanedUp;
    if Check(d, l.setting).None? {
      var plan := Plan(l.env, d, l.id, l.order);
      PlanStages(l.env, d, l.id, l.order);
      PlanShape(l.env, d, l.id, l.order);
      if l.id in d.backups {
        var k := match l.fate case Completes => 1 case Crashes(at) => Min(at, 1) case Fails(at, _) => Min(at, 1);
        ShortRun(l.env, d, l.id, k);
        assert [Checkpoint][..1] == [Checkpoint];
        CleaningUp(l.env, ApplyAll(l.env, d, [Checkpoint][..k]), l.id,
                   if l.fate.Fails? then l.fate.cleanUp else Returns);
      } else {
        match l.fate
        case Completes => PlanDoes(l.env, d, l.id, l.order);
        case Crashes(at) => OwnStaging(l.env, d, plan[..Min(at, |plan|)], l.id);
        case Fails(at, c) =>
          var k := Min(at, |plan| - 1);
          OwnStaging(l.env, d, plan[..k], l.id);
          CleaningUp(l.env, ApplyAll(l.env, d, plan[..k]), l.id, c);
      }
    }
  }

  /** A staging copy that is found after any launches was there before, or one launch under its id crashed or
      failed to remove it. */
  lemma {:induction false} LeftoversAreAbandoned(d: Disk, ls: seq<Launch>, id: string)
    requires LaunchesOk(d, ls) && id in Launches(d, ls).staging && id !in d.staging
    ensures exists i: nat :: i < |ls| && ls[i].id == id && Abandons(ls[i].fate)
    decreases |ls|
  {
    hide AfterLaunch, Lists, Abandons;
    if ls != [] {
      var n := |ls| - 1;
      FrontOk(d, ls);
      LaunchCleansUp(Launches(d, ls[..n]), ls[n]);
      if id in Launches(d, ls[..n]).staging {
        LeftoversAreAbandoned(d, ls[..n], id);
        var i: nat :| i < |ls[..n]| && ls[..n][i].id == id && Abandons(ls[..n][i].fate);
        assert ls[i].id == id && Abandons(ls[i].fate);
      } else {
        assert ls[n].id == id && Abandons(ls[n].fate);
      }
    }
  }
}

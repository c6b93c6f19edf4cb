/** The migration as the ordered effects of the application on the disk. `done` records them, so that a crash
    anywhere leaves the disk after a prefix of the plan. */
module Migration {
  import opened MigrationProofs
  import opened MigrationSpec
  import opened Options

  class Migrator {
    const env: Env
    const migrationId: string
    ghost const before: Disk
    var disk: Disk
    ghost var done: seq<Effect>

    /** Every effect so far is on the disk. */
    ghost predicate Valid()
      reads this
    {
      disk == ApplyAll(env, before, done)
    }

    constructor (env: Env, migrationId: string, disk: Disk)
      ensures Valid() && this.env == env && this.migrationId == migrationId
      ensures this.disk == before == disk && done == []
    {
      this.env, this.migrationId, this.before, this.disk, this.done := env, migrationId, disk, disk, [];
    }

    method Do(e: Effect)
      requires Valid()
      modifies this
      ensures Valid() && done == old(done) + [e] && disk == Apply(env, old(disk), e)
    {
      disk := Apply(env, disk, e);
      done := done + [e];
      assert done[..|done| - 1] == old(done);
    }

    method BackUpHome(order: seq<string>)
      requires Valid()
      modifies this
      ensures Valid() && done == old(done) + [MakeBackup(migrationId)] + BackupAll(migrationId, order)
    {
      Do(MakeBackup(migrationId));
      for i := 0 to |order|
        invariant Valid() && done == old(done) + [MakeBackup(migrationId)] + BackupAll(migrationId, order[..i])
      {
        assert order[..i + 1][..i] == order[..i];
        Do(BackupEntry(migrationId, order[i], false));
        Do(BackupEntry(migrationId, order[i], true));
      }
      assert order[..|order|] == order;
    }

    method CopyLegacyHome(order: seq<string>)
      requires Valid()
      modifies this
      ensures Valid() && done == old(done) + [MakeStaging(migrationId)] + StageAll(migrationId, order)
    {
      Do(MakeStaging(migrationId));
      for i := 0 to |order|
        invariant Valid() && done == old(done) + [MakeStaging(migrationId)] + StageAll(migrationId, order[..i])
      {
        assert order[..i + 1][..i] == order[..i];
        Do(StageEntry(migrationId, order[i], false));
        Do(StageEntry(migrationId, order[i], true));
      }
      assert order[..|order|] == order;
    }

    /** Rewrite one config of the staging copy; a failing write is swallowed. */
    method RewriteConfig(name: string, ghost home: Dir, ghost rewritten: set<string>)
      requires Valid() && name in CONFIGS && name !in rewritten
      requires migrationId in disk.staging && disk.staging[migrationId] == AfterRewrite(env, home, rewritten)
      modifies this
      ensures Valid() && done == old(done) + RewriteOne(env, migrationId, home, name)
      ensures migrationId in disk.staging && disk.staging[migrationId] == AfterRewrite(env, home, rewritten + {name})
    {
      ghost var start := disk;
      RewriteOneDoes(env, start, migrationId, home, name, rewritten);
      var next := NewConfig(env, disk.staging[migrationId], name);
      assert next == NewConfig(env, home, name);
      if next.Some? {
        var write := env.write(name);
        if !write.NeverOpens? {
          Do(WriteConfig(migrationId, name, None));
          if write.GoesThrough? {
            Do(WriteConfig(migrationId, name, next));
            ApplyTwo(env, start, WriteConfig(migrationId, name, None), WriteConfig(migrationId, name, next));
          } else {
            ApplyOne(env, start, WriteConfig(migrationId, name, None));
          }
        } else {
          NoEffects(env, start);
        }
      }
    }

    /** Checkpoint the database, back the home up, and copy it to the staging directory. */
    method CopyHomes(order: seq<string>)
      requires Valid() && done == [] && Lists(order, before.source)
      modifies this
      ensures Valid() && disk.staging == before.staging[migrationId := Checkpointed(env, before.source)]
      ensures done == [Checkpoint] + ([MakeBackup(migrationId)] + BackupAll(migrationId, order))
        + [RemoveStaging(migrationId)] + ([MakeStaging(migrationId)] + StageAll(migrationId, order))
    {
      hide ApplyAll, Apply, BackupAll, StageAll, Lists, Checkpointed;
      Do(Checkpoint);
      BackUpHome(order);
      Do(RemoveStaging(migrationId));
      CopyLegacyHome(order);
      StagedHome(order, Checkpointed(env, before.source));
    }

    method PrepareStaging(order: seq<string>)
      requires Valid() && done == [] && Lists(order, before.source)
      modifies this
      ensures Valid() && done == Staging(env, before, migrationId, order)
    {
      hide ApplyAll, Apply, AfterRewrite, RewriteOne, BackupAll, StageAll, Checkpointed, Lists;
      ghost var home := Checkpointed(env, before.source);
      CopyHomes(order);
      NothingRewritten(env, home);
      ConfigsDiffer();
      RewriteConfig(CONFIGS[0], home, {});
      assert {} + {CONFIGS[0]} == {CONFIGS[0]};
      RewriteConfig(CONFIGS[1], home, {CONFIGS[0]});
      Do(WriteManifest(migrationId, None));
      Do(WriteManifest(migrationId, Some(env.manifest)));
    }

    /** The effects of a migration that meets no failing step are those of the plan. */
    method Migrate(order: seq<string>)
      requires Valid() && done == [] && Lists(order, before.source)
      modifies this
      ensures Valid() && done == Plan(env, before, migrationId, order)
      ensures disk.target == Some(Installed(env, Checkpointed(env, before.source)))
    {
      hide ApplyAll, Staging, Lists, Installed, Checkpointed;
      var hadTarget := disk.target.Some?;
      assert disk == before by { NoEffects(env, before); }
      PlanDoes(env, before, migrationId, order);
      PrepareStaging(order);
      if hadTarget {
        Do(RemoveTarget);
      }
      Do(Install(migrationId));
    }

    lemma StagedHome(order: seq<string>, home: Dir)
      requires Valid() && Lists(order, before.source) && home == Checkpointed(env, before.source)
      requires done == [Checkpoint] + ([MakeBackup(migrationId)] + BackupAll(migrationId, order))
        + [RemoveStaging(migrationId)] + ([MakeStaging(migrationId)] + StageAll(migrationId, order))
      ensures disk.staging == before.staging[migrationId := home]
    {
      hide ApplyAll, Lists, BackupAll, StageAll;
      var a := [Checkpoint, MakeBackup(migrationId)] + BackupAll(migrationId, order);
      var b := [RemoveStaging(migrationId), MakeStaging(migrationId)] + StageAll(migrationId, order);
      assert done == a + b;
      BackupPart(env, before, migrationId, order);
      CheckpointKeepsKeys(env, before.source);
      SameKeysListed(order, before.source, home);
      StagePart(env, before.(source := home, backups := before.backups[migrationId := home]), migrationId, order);
      ApplyConcat(env, before, a, b);
    }
  }
}

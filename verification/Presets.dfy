/** The preset loader: compare each preset file with the stored agent and write the differences.

    The store maps agent ids of the default tenant to records. Parsing the files is left out: a file
    is the list of its fields, each absent, null or given. */
module Presets {
  import opened StableJson

  datatype Field<+T> = Absent | Nil | Given(value: T) {
    function Or(default: T): T { if Given? then value else default }
  }

  datatype Kind = Preset | Dynamic

  /** A stored agent. A prompt or config that is null or missing reads as `Nil`. */
  datatype Agent = Agent(
    name: string, kind: Kind, systemPrompt: Field<string>, toolsAllowed: Json, permissionLevel: string,
    config: Field<Json>, status: string, createdBy: string)

  /** A preset file that has an id and a name; `accepted` says that the schema admits the given fields. */
  datatype File = File(
    id: string, name: string, systemPrompt: Field<string>, toolsAllowed: Field<Json>, permissionLevel: Field<string>,
    config: Field<Json>, status: Field<string>, accepted: bool)

  type Store = map<string, Agent>

  const NO_TOOLS := Arr([])
  const NO_CONFIG := Obj([])
  const READ_ONLY := "L0_READ_ONLY"
  const ACTIVE := "active"
  const BOOTSTRAP := "bootstrap"

  /** The comparison the loader makes, field by field, on canonical texts. */
  predicate IsPresetDefinitionChanged(le: KeyOrder, existing: Agent, file: File) {
    || existing.name != file.name
    || existing.kind != Preset
    || existing.systemPrompt.Or("") != file.systemPrompt.Or("")
    || Print(le, existing.toolsAllowed) != Print(le, file.toolsAllowed.Or(NO_TOOLS))
    || existing.permissionLevel != file.permissionLevel.Or(READ_ONLY)
    || Print(le, existing.config.Or(NO_CONFIG)) != Print(le, file.config.Or(NO_CONFIG))
    || existing.status != file.status.Or(ACTIVE)
  }

  /** The stored agent shows what the file says: a missing field counts as its default, and the
      order of object keys does not matter. */
  predicate Shows(existing: Agent, file: File) {
    && existing.name == file.name
    && existing.kind == Preset
    && existing.systemPrompt.Or("") == file.systemPrompt.Or("")
    && Same(existing.toolsAllowed, file.toolsAllowed.Or(NO_TOOLS))
    && existing.permissionLevel == file.permissionLevel.Or(READ_ONLY)
    && Same(existing.config.Or(NO_CONFIG), file.config.Or(NO_CONFIG))
    && existing.status == file.status.Or(ACTIVE)
  }

  predicate AgentOk(a: Agent) {
    WellFormed(a.toolsAllowed) && WellFormed(a.config.Or(NO_CONFIG))
  }

  predicate FileOk(f: File) {
    WellFormed(f.toolsAllowed.Or(NO_TOOLS)) && WellFormed(f.config.Or(NO_CONFIG))
  }

  ghost predicate StoreOk(store: Store) {
    forall id | id in store :: AgentOk(store[id])
  }

  /** A new agent needs the schema's consent, and the schema admits no null field. */
  predicate Registrable(f: File) {
    f.accepted && !f.systemPrompt.Nil? && !f.toolsAllowed.Nil? && !f.permissionLevel.Nil? && !f.config.Nil?
      && !f.status.Nil?
  }

  function Registered(f: File): Agent {
    Agent(f.name, Preset, f.systemPrompt, f.toolsAllowed.Or(NO_TOOLS), f.permissionLevel.Or(READ_ONLY), f.config,
          f.status.Or(ACTIVE), BOOTSTRAP)
  }

  /** The update writes only the fields that are not absent: an absent prompt or config stays as stored. */
  function Updated(a: Agent, f: File): Agent {
    a.(name := f.name, kind := Preset,
       systemPrompt := if f.systemPrompt.Absent? then a.systemPrompt else f.systemPrompt,
       toolsAllowed := f.toolsAllowed.Or(NO_TOOLS),
       permissionLevel := f.permissionLevel.Or(READ_ONLY),
       config := if f.config.Absent? then a.config else f.config,
       status := f.status.Or(ACTIVE))
  }

  /** Agents that were not bootstrapped as presets are left to their owners. */
  predicate Foreign(a: Agent) { a.createdBy != BOOTSTRAP || a.kind != Preset }

  datatype Outcome = Loaded(store: Store, count: nat) | Refused(store: Store)

  /** One file of the loop. */
  function LoadFile(le: KeyOrder, store: Store, f: File): Outcome {
    if f.id == "" || f.name == "" then Loaded(store, 0)
    else if f.id !in store then
      if Registrable(f) then Loaded(store[f.id := Registered(f)], 1) else Refused(store)
    else if Foreign(store[f.id]) || !IsPresetDefinitionChanged(le, store[f.id], f) then Loaded(store, 0)
    else Loaded(store[f.id := Updated(store[f.id], f)], 1)
  }

  function LoadFiles(le: KeyOrder, store: Store, files: seq<File>): Outcome {
    if files == [] then Loaded(store, 0)
    else
      match LoadFiles(le, store, files[..|files| - 1])
      case Refused(s) => Refused(s)
      case Loaded(s, count) =>
        match LoadFile(le, s, files[|files| - 1])
        case Refused(s') => Refused(s')
        case Loaded(s', n) => Loaded(s', count + n)
  }

  /** The registry with the loop of the loader. */
  class Registry {
    var agents: Store

    method LoadPresets(le: KeyOrder, files: seq<File>) returns (loaded: nat, failed: bool)
      modifies this
      ensures LoadFiles(le, old(agents), files) == if failed then Refused(agents) else Loaded(agents, loaded)
    {
      loaded, failed := 0, false;
      for i := 0 to |files|
        invariant LoadFiles(le, old(agents), files[..i]) == Loaded(agents, loaded)
      {
        assert files[..i + 1][..i] == files[..i];
        var f := files[i];
        if f.id == "" || f.name == "" { continue; }
        if f.id !in agents {
          if !Registrable(f) {
            Continued(le, old(agents), files, i);
            return loaded, true;
          }
          agents := agents[f.id := Registered(f)];
          loaded := loaded + 1;
          continue;
        }
        var existing := agents[f.id];
        if existing.createdBy != BOOTSTRAP || existing.kind != Preset { continue; }
        if !IsPresetDefinitionChanged(le, existing, f) { continue; }
        agents := agents[f.id := Updated(existing, f)];
        loaded := loaded + 1;
      }
      assert files[..|files|] == files;
    }
  }

  /** A refusal ends the loop: later files change nothing. */
  lemma {:induction false} Continued(le: KeyOrder, store: Store, files: seq<File>, i: nat)
    requires i < |files| && LoadFiles(le, store, files[..i + 1]).Refused?
    ensures LoadFiles(le, store, files) == LoadFiles(le, store, files[..i + 1])
  {
    if i + 1 < |files| {
      assert files[..|files| - 1][..i + 1] == files[..i + 1];
      Continued(le, store, files[..|files| - 1], i);
    } else {
      assert files[..i + 1] == files;
    }
  }

  // ---------- what the comparison decides ----------

  /** The comparison of texts decides whether the stored agent shows what the file says. */
  lemma ComparisonDecides(le: KeyOrder, existing: Agent, file: File)
    requires Preorder(le) && NoTies(le) && AgentOk(existing) && FileOk(file)
    ensures IsPresetDefinitionChanged(le, existing, file) <==> !Shows(existing, file)
  {
    hide Print, Same, WellFormed;
    Canonical(le, existing.toolsAllowed, file.toolsAllowed.Or(NO_TOOLS));
    Canonical(le, existing.config.Or(NO_CONFIG), file.config.Or(NO_CONFIG));
  }

  /** Whatever the key order does, an unchanged verdict is never wrong. */
  lemma UnchangedIsSound(le: KeyOrder, existing: Agent, file: File)
    requires AgentOk(existing) && FileOk(file) && !IsPresetDefinitionChanged(le, existing, file)
    ensures Shows(existing, file)
  {
    hide Print, Same, WellFormed;
    PrintInjective(le, existing.toolsAllowed, file.toolsAllowed.Or(NO_TOOLS));
    PrintInjective(le, existing.config.Or(NO_CONFIG), file.config.Or(NO_CONFIG));
  }

  // ---------- loading twice ----------

  /** What a file says shows in the stored agent, up to the order of keys in its config and tools; a prompt or config
      it does not name stays as it was. */
  predicate TakesOver(before: Agent, after: Agent, f: File) {
    && after.name == f.name && after.kind == Preset && after.createdBy == before.createdBy
    && after.permissionLevel == f.permissionLevel.Or(READ_ONLY) && after.status == f.status.Or(ACTIVE)
    && Same(after.toolsAllowed, f.toolsAllowed.Or(NO_TOOLS))
    && after.systemPrompt.Or("") == (if f.systemPrompt.Absent? then before.systemPrompt else f.systemPrompt).Or("")
    && Same(after.config.Or(NO_CONFIG), (if f.config.Absent? then before.config else f.config).Or(NO_CONFIG))
  }

  lemma {:induction false} SameIsReflexive(v: Json)
    requires WellFormed(v)
    ensures Same(v, v)
    decreases v
  {
    match v
    case Arr(items) =>
      forall i | 0 <= i < |items|
        ensures Same(items[i], items[i])
      {
        SameIsReflexive(items[i]);
      }
    case Obj(entries) =>
      forall i | 0 <= i < |entries|
        ensures HasKey(entries, entries[i].key) && Same(entries[i].value, entries[i].value)
      {
        SameIsReflexive(entries[i].value);
      }
    case _ =>
  }

  /** What one file does to the store. Without an id or a name it does nothing. An unknown agent is stored as the file
      says, or the loading fails if the schema refuses the file or a field of it is null. A known agent is written
      only if it was bootstrapped as a preset and does not show the file yet. */
  lemma OneFileDoes(le: KeyOrder, store: Store, f: File)
    requires StoreOk(store) && FileOk(f)
    ensures var r, named := LoadFile(le, store, f), f.id != "" && f.name != "";
      var nulls := Nil in {f.systemPrompt, f.permissionLevel, f.status} || f.toolsAllowed.Nil? || f.config.Nil?;
      && (forall id | id in store && id != f.id :: id in r.store && r.store[id] == store[id])
      && r.store.Keys == store.Keys + (if named && f.id !in store && r.Loaded? then {f.id} else {})
      && (!named ==> r == Loaded(store, 0))
      && (r.Refused? <==> named && f.id !in store && (!f.accepted || nulls))
      && (named && f.id !in store && r.Loaded? ==>
            r.count == 1 && Shows(r.store[f.id], f) && r.store[f.id].createdBy == "bootstrap")
      && (named && f.id in store ==>
            var existing := store[f.id];
            if existing.createdBy != "bootstrap" || existing.kind == Dynamic then r == Loaded(store, 0)
            else
              && TakesOver(existing, r.store[f.id], f)
              && (r.count == 0 ==> r.store == store && Shows(existing, f))
              && (Preorder(le) && NoTies(le) && Shows(existing, f) ==> r == Loaded(store, 0)))
  {
    hide Print, Same, WellFormed;
    SameIsReflexive(f.toolsAllowed.Or(NO_TOOLS));
    SameIsReflexive(f.config.Or(NO_CONFIG));
    if f.id in store {
      var existing := store[f.id];
      SameIsReflexive(existing.toolsAllowed);
      SameIsReflexive(existing.config.Or(NO_CONFIG));
      if !IsPresetDefinitionChanged(le, existing, f) { UnchangedIsSound(le, existing, f); }
      if Preorder(le) && NoTies(le) { ComparisonDecides(le, existing, f); }
    }
  }

  /** The file no longer names a prompt or config that the stored agent has. */
  predicate Drops(existing: Agent, f: File) {
    || (f.systemPrompt.Absent? && existing.systemPrompt.Or("") != "")
    || (f.config.Absent? && !Same(existing.config.Or(NO_CONFIG), NO_CONFIG))
  }

  lemma EmptyConfig(le: KeyOrder, v: Json)
    requires WellFormed(v)
    ensures Print(le, v) == Print(le, NO_CONFIG) <==> Same(v, NO_CONFIG)
  {
    PrintInjective(le, v, NO_CONFIG);
    if Same(v, NO_CONFIG) {
      NoEntries(v.entries);
    }
  }

  lemma NoEntries(entries: seq<Entry>)
    requires forall i | 0 <= i < |entries| :: HasKey([], entries[i].key)
    ensures entries == []
  {
    assert |entries| > 0 ==> HasKey([], entries[0].key);
  }

  /** An update settles a preset exactly when its file drops nothing. */
  lemma UpdateSettlesIff(le: KeyOrder, existing: Agent, f: File)
    requires AgentOk(existing) && FileOk(f)
    ensures !IsPresetDefinitionChanged(le, Updated(existing, f), f) <==> !Drops(existing, f)
    ensures Drops(Updated(existing, f), f) <==> Drops(existing, f)
  {
    hide Print, Same, WellFormed;
    EmptyConfig(le, existing.config.Or(NO_CONFIG));
  }

  lemma DroppedIsChanged(le: KeyOrder, existing: Agent, f: File)
    requires AgentOk(existing) && FileOk(f) && Drops(existing, f)
    ensures IsPresetDefinitionChanged(le, existing, f)
  {
    hide Print, Same, WellFormed;
    EmptyConfig(le, existing.config.Or(NO_CONFIG));
  }

  ghost predicate FilesOk(files: seq<File>) {
    && (forall i | 0 <= i < |files| :: FileOk(files[i]))
    && forall i, j | 0 <= i < j < |files| :: files[i].id != files[j].id
  }

  /** The file is written again at every start. */
  predicate NeverSettles(store: Store, f: File) {
    f.id != "" && f.name != "" && f.id in store && !Foreign(store[f.id]) && Drops(store[f.id], f)
  }

  function Restless(store: Store, files: seq<File>): nat {
    if files == [] then 0
    else Restless(store, files[..|files| - 1]) + if NeverSettles(store, files[|files| - 1]) then 1 else 0
  }

  lemma FileTwice(le: KeyOrder, store: Store, f: File)
    requires StoreOk(store) && FileOk(f) && LoadFile(le, store, f).Loaded?
    ensures var once := LoadFile(le, store, f).store;
      && StoreOk(once)
      && (forall id | id != f.id :: (id in once <==> id in store) && (id in store ==> once[id] == store[id]))
      && LoadFile(le, once, f) == Loaded(once, if NeverSettles(store, f) then 1 else 0)
  {
    hide Print, Same, WellFormed;
    var once := LoadFile(le, store, f).store;
    if f.id != "" && f.name != "" {
      if f.id in store {
        assert AgentOk(store[f.id]);
        UpdateSettlesIff(le, store[f.id], f);
        if Drops(store[f.id], f) {
          DroppedIsChanged(le, store[f.id], f);
          assert Updated(Updated(store[f.id], f), f) == Updated(store[f.id], f);
        }
      } else {
        assert !IsPresetDefinitionChanged(le, Registered(f), f);
      }
    }
  }

  /** A pass reads and writes the entry of its file only. */
  lemma PassIsLocal(le: KeyOrder, s: Store, t: Store, f: File, n: nat)
    requires LoadFile(le, s, f) == Loaded(s, n)
    requires f.id in s <==> f.id in t
    requires f.id in s ==> s[f.id] == t[f.id]
    ensures LoadFile(le, t, f) == Loaded(t, n)
  {
    hide IsPresetDefinitionChanged, Updated, Registered;
    if f.id !in s && f.id != "" && f.name != "" {
      assert s != s[f.id := Registered(f)];
    }
    if f.id in s && n == 1 {
      assert t[f.id := t[f.id]] == t;
    }
  }

  lemma {:induction false} AfterRun(le: KeyOrder, store: Store, files: seq<File>)
    requires StoreOk(store) && FilesOk(files) && LoadFiles(le, store, files).Loaded?
    ensures var s := LoadFiles(le, store, files).store;
      && StoreOk(s)
      && (forall id | forall i | 0 <= i < |files| :: files[i].id != id ::
            (id in s <==> id in store) && (id in store ==> s[id] == store[id]))
      && (forall i | 0 <= i < |files| ::
            LoadFile(le, s, files[i]) == Loaded(s, if NeverSettles(store, files[i]) then 1 else 0))
    decreases |files|
  {
    hide LoadFile, IsPresetDefinitionChanged, NeverSettles, StoreOk, FileOk;
    if files != [] {
      var n := |files| - 1;
      var front, f := files[..n], files[n];
      assert FilesOk(front);
      AfterRun(le, store, front);
      var s := LoadFiles(le, store, front).store;
      FileTwice(le, s, f);
      var s' := LoadFile(le, s, f).store;
      SettlesAlike(store, s, f);
      forall i | 0 <= i < n
        ensures LoadFile(le, s', files[i]) == Loaded(s', if NeverSettles(store, files[i]) then 1 else 0)
      {
        assert front[i] == files[i];
        PassIsLocal(le, s, s', files[i], if NeverSettles(store, files[i]) then 1 else 0);
      }
    }
  }

  lemma SettlesAlike(s: Store, t: Store, f: File)
    requires f.id in s <==> f.id in t
    requires f.id in s ==> s[f.id] == t[f.id]
    ensures NeverSettles(s, f) == NeverSettles(t, f)
  {
  }

  lemma {:induction false} SettledRun(le: KeyOrder, store: Store, s: Store, files: seq<File>)
    requires forall i | 0 <= i < |files| ::
      LoadFile(le, s, files[i]) == Loaded(s, if NeverSettles(store, files[i]) then 1 else 0)
    ensures LoadFiles(le, s, files) == Loaded(s, Restless(store, files))
    decreases |files|
  {
    hide LoadFile, NeverSettles;
    if files != [] {
      SettledRun(le, store, s, files[..|files| - 1]);
    }
  }

  /** Loading the same files again changes no agent, and rewrites exactly the presets whose file
      dropped its prompt or config. */
  lemma LoadingTwice(le: KeyOrder, store: Store, files: seq<File>)
    requires StoreOk(store) && FilesOk(files) && LoadFiles(le, store, files).Loaded?
    ensures var s := LoadFiles(le, store, files).store;
      LoadFiles(le, s, files) == Loaded(s, Restless(store, files))
  {
    AfterRun(le, store, files);
    SettledRun(le, store, LoadFiles(le, store, files).store, files);
  }

  lemma {:induction false} RestlessIff(store: Store, files: seq<File>)
    ensures Restless(store, files) == 0 <==> forall i | 0 <= i < |files| :: !NeverSettles(store, files[i])
  {
    hide NeverSettles;
    if files != [] {
      RestlessIff(store, files[..|files| - 1]);
      assert files == files[..|files| - 1] + [files[|files| - 1]];
    }
  }

  /** The second load is silent if and only if no file dropped what its stored preset has. */
  lemma SecondLoadIsSilentIff(le: KeyOrder, store: Store, files: seq<File>)
    requires StoreOk(store) && FilesOk(files) && LoadFiles(le, store, files).Loaded?
    ensures var s := LoadFiles(le, store, files).store;
      LoadFiles(le, s, files) == Loaded(s, 0) <==> forall i | 0 <= i < |files| :: !NeverSettles(store, files[i])
  {
    hide LoadFiles, NeverSettles, Restless;
    LoadingTwice(le, store, files);
    RestlessIff(store, files);
  }

  function Plain(name: string): File {
    File("a", name, Absent, Absent, Absent, Absent, Absent, true)
  }

  /** Distinct ids are needed: two files of one id overwrite each other at every start. */
  lemma DuplicateIdsNeverSettle(le: KeyOrder)
    ensures var files := [Plain("x"), Plain("y")];
      var s := map["a" := Registered(Plain("y"))];
      && LoadFiles(le, map[], files) == Loaded(s, 2)
      && LoadFiles(le, s, files) == Loaded(s, 2)
  {
    var files := [Plain("x"), Plain("y")];
    var s := map["a" := Registered(Plain("y"))];
    TwoFiles(le, map[], Plain("x"), Plain("y"));
    TwoFiles(le, s, Plain("x"), Plain("y"));
    assert LoadFile(le, map[], Plain("x")).store["a"] == Registered(Plain("x"));
    assert LoadFile(le, LoadFile(le, map[], Plain("x")).store, Plain("y")).store == s;
    assert LoadFile(le, LoadFile(le, s, Plain("x")).store, Plain("y")).store == s;
  }

  lemma TwoFiles(le: KeyOrder, store: Store, f: File, g: File)
    requires LoadFile(le, store, f).Loaded? && LoadFile(le, LoadFile(le, store, f).store, g).Loaded?
    ensures LoadFiles(le, store, [f, g]) ==
      Loaded(LoadFile(le, LoadFile(le, store, f).store, g).store,
             LoadFile(le, store, f).count + LoadFile(le, LoadFile(le, store, f).store, g).count)
  {
    assert [f, g][..1] == [f] && [f][..0] == [];
    assert LoadFiles(le, store, [f]) == LoadFile(le, store, f);
  }

  function Prompted(prompt: Field<string>): File {
    File("a", "x", prompt, Absent, Absent, Absent, Absent, true)
  }

  /** A file that is loaded into an empty store with a prompt and then drops it is written at every start,
      though nothing changes any more. */
  lemma DroppedPromptNeverSettles(le: KeyOrder)
    ensures var first, later := [Prompted(Given("be brief"))], [Prompted(Absent)];
      var s := map["a" := Registered(first[0])];
      LoadFiles(le, map[], first) == Loaded(s, 1) && LoadFiles(le, s, later) == Loaded(s, 1)
  {
    var f, g := Prompted(Given("be brief")), Prompted(Absent);
    var s := map["a" := Registered(f)];
    OneFile(le, map[], f);
    OneFile(le, s, g);
    assert map["a" := Registered(f)] == map[]["a" := Registered(f)];
    assert Updated(s["a"], g) == s["a"];
    assert s["a" := s["a"]] == s;
    hide Print;
    assert IsPresetDefinitionChanged(le, s["a"], g);
  }

  lemma OneFile(le: KeyOrder, store: Store, f: File)
    requires LoadFile(le, store, f).Loaded?
    ensures LoadFiles(le, store, [f]) == LoadFile(le, store, f)
  {
    assert [f][..0] == [];
  }
}

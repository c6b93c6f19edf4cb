/** Loading file-defined agents twice: the asynchronous discovery builds full definitions, the
    synchronous probe only asks whether one of them is ready. Both walk the bundled and then the
    workspace directory, and a later definition of a name replaces an earlier one. */
module DefinitionLoader {
  import opened Options

  /** A parsed header; a file whose header is invalid has none. */
  datatype Frontmatter = Frontmatter(name: string, skills: seq<string>, model: Option<string>)

  /** One directory entry: whether it is a directory, its parsed manifest if there is one, and its marker file. */
  datatype Entry = Entry(isDirectory: bool, frontmatter: Option<Frontmatter>, disabled: bool)

  datatype Source = Bundled | Workspace

  datatype Status = Ready | NeedsSetup | Disabled

  datatype Definition = Definition(name: string, source: Source, status: Status, missingSkills: seq<string>,
    invalidModel: Option<string>)

  /** The skills at hand and the models the providers know. */
  datatype World = World(skillNames: set<string>, knownModels: set<string>)

  predicate IsDefinition(e: Entry) { e.isDirectory && e.frontmatter.Some? }

  // ---------- discovery ----------

  function Missing(w: World, skills: seq<string>): seq<string> {
    if skills == [] then []
    else (if skills[0] in w.skillNames then [] else [skills[0]]) + Missing(w, skills[1..])
  }

  function LoadDefinition(w: World, e: Entry, source: Source): Definition
    requires IsDefinition(e)
  {
    var f := e.frontmatter.value;
    var missing := Missing(w, f.skills);
    var invalidModel := if f.model.Some? && f.model.value !in w.knownModels then f.model else None;
    var status := if e.disabled then Disabled else if |missing| > 0 || invalidModel.Some? then NeedsSetup else Ready;
    Definition(f.name, source, status, missing, invalidModel)
  }

  function DiscoverIn(
      w: World, byName: map<string, Definition>, entries: seq<Entry>, source: Source): map<string, Definition>
  {
    if entries == [] then byName
    else
      var front := DiscoverIn(w, byName, entries[..|entries| - 1], source);
      var e := entries[|entries| - 1];
      if IsDefinition(e) then front[e.frontmatter.value.name := LoadDefinition(w, e, source)] else front
  }

  function Discover(w: World, bundled: seq<Entry>, workspace: seq<Entry>): map<string, Definition> {
    DiscoverIn(w, DiscoverIn(w, map[], bundled, Bundled), workspace, Workspace)
  }

  // ---------- the probe ----------

  predicate EverySkill(w: World, skills: seq<string>) {
    forall i | 0 <= i < |skills| :: skills[i] in w.skillNames
  }

  predicate IsReady(w: World, e: Entry)
    requires IsDefinition(e)
  {
    var f := e.frontmatter.value;
    !e.disabled && EverySkill(w, f.skills) && (f.model.Some? ==> f.model.value in w.knownModels)
  }

  function ProbeIn(w: World, readiness: map<string, bool>, entries: seq<Entry>): map<string, bool> {
    if entries == [] then readiness
    else
      var front := ProbeIn(w, readiness, entries[..|entries| - 1]);
      var e := entries[|entries| - 1];
      if IsDefinition(e) then front[e.frontmatter.value.name := IsReady(w, e)] else front
  }

  predicate HasReady(w: World, bundled: seq<Entry>, workspace: seq<Entry>) {
    var readiness := ProbeIn(w, ProbeIn(w, map[], bundled), workspace);
    exists name :: name in readiness && readiness[name]
  }

  // ---------- the loops of the loader ----------

  method LoadRoot(
      w: World, byName: map<string, Definition>, entries: seq<Entry>, source: Source)
      returns (r: map<string, Definition>)
    ensures r == DiscoverIn(w, byName, entries, source)
  {
    r := byName;
    for i := 0 to |entries|
      invariant r == DiscoverIn(w, byName, entries[..i], source)
    {
      assert entries[..i + 1][..i] == entries[..i];
      if !entries[i].isDirectory || entries[i].frontmatter.None? { continue; }
      r := r[entries[i].frontmatter.value.name := LoadDefinition(w, entries[i], source)];
    }
    assert entries[..|entries|] == entries;
  }

  method ProbeRoot(w: World, readiness: map<string, bool>, entries: seq<Entry>) returns (r: map<string, bool>)
    ensures r == ProbeIn(w, readiness, entries)
  {
    r := readiness;
    for i := 0 to |entries|
      invariant r == ProbeIn(w, readiness, entries[..i])
    {
      assert entries[..i + 1][..i] == entries[..i];
      if !entries[i].isDirectory || entries[i].frontmatter.None? { continue; }
      r := r[entries[i].frontmatter.value.name := IsReady(w, entries[i])];
    }
    assert entries[..|entries|] == entries;
  }

  /** The synchronous probe answers what the asynchronous discovery would. */
  method HasReadyAgentDefinitionSync(w: World, bundled: seq<Entry>, workspace: seq<Entry>) returns (ready: bool)
    ensures ready <==>
      exists name :: name in Discover(w, bundled, workspace) && Discover(w, bundled, workspace)[name].status.Ready?
  {
    var first := ProbeRoot(w, map[], bundled);
    var readiness := ProbeRoot(w, first, workspace);
    ready := exists name | name in readiness :: readiness[name];
    ProbeAgrees(w, bundled, workspace);
  }

  // ---------- what both say ----------

  lemma {:induction false} MissingIffNotEvery(w: World, skills: seq<string>)
    ensures Missing(w, skills) == [] <==> EverySkill(w, skills)
  {
    if skills != [] {
      MissingIffNotEvery(w, skills[1..]);
      assert forall i | 0 <= i < |skills[1..]| :: skills[1..][i] == skills[i + 1];
      if EverySkill(w, skills[1..]) && skills[0] in w.skillNames {
        forall i | 0 <= i < |skills|
          ensures skills[i] in w.skillNames
        {
          if i > 0 { assert skills[i] == skills[1..][i - 1]; }
        }
      }
    }
  }

  lemma ReadyIff(w: World, e: Entry, source: Source)
    requires IsDefinition(e)
    ensures LoadDefinition(w, e, source).status.Ready? <==> IsReady(w, e)
  {
    MissingIffNotEvery(w, e.frontmatter.value.skills);
  }

  ghost predicate Agree(byName: map<string, Definition>, readiness: map<string, bool>) {
    && byName.Keys == readiness.Keys
    && forall name | name in byName :: byName[name].status.Ready? <==> readiness[name]
  }

  lemma {:induction false} AgreeIn(
      w: World, byName: map<string, Definition>, readiness: map<string, bool>, entries: seq<Entry>, source: Source)
    requires Agree(byName, readiness)
    ensures Agree(DiscoverIn(w, byName, entries, source), ProbeIn(w, readiness, entries))
    decreases |entries|
  {
    hide LoadDefinition, IsReady;
    if entries != [] {
      AgreeIn(w, byName, readiness, entries[..|entries| - 1], source);
      if IsDefinition(entries[|entries| - 1]) {
        ReadyIff(w, entries[|entries| - 1], source);
      }
    }
  }

  /** The probe is true if and only if discovery yields a ready agent. */
  lemma ProbeAgrees(w: World, bundled: seq<Entry>, workspace: seq<Entry>)
    ensures HasReady(w, bundled, workspace) <==>
      exists name :: name in Discover(w, bundled, workspace) && Discover(w, bundled, workspace)[name].status.Ready?
  {
    AgreeIn(w, map[], map[], bundled, Bundled);
    AgreeIn(w, DiscoverIn(w, map[], bundled, Bundled), ProbeIn(w, map[], bundled), workspace, Workspace);
    var byName := Discover(w, bundled, workspace);
    var readiness := ProbeIn(w, ProbeIn(w, map[], bundled), workspace);
    hide DiscoverIn, ProbeIn;
    assert forall name :: name in byName <==> name in byName.Keys;
    assert forall name :: name in readiness <==> name in readiness.Keys;
    if HasReady(w, bundled, workspace) {
      var name :| name in readiness && readiness[name];
      assert name in byName && byName[name].status.Ready?;
    }
  }

  /** The entry defines the name, and no later entry does. */
  predicate IsLast(entries: seq<Entry>, i: nat, name: string) {
    i < |entries| && IsDefinition(entries[i]) && entries[i].frontmatter.value.name == name
      && forall j | i < j < |entries| && IsDefinition(entries[j]) :: entries[j].frontmatter.value.name != name
  }

  predicate Defines(entries: seq<Entry>, name: string) {
    exists i: nat :: i < |entries| && IsDefinition(entries[i]) && entries[i].frontmatter.value.name == name
  }

  lemma {:induction false} LastWins(
      w: World, byName: map<string, Definition>, entries: seq<Entry>, source: Source, name: string)
    ensures var r := DiscoverIn(w, byName, entries, source);
      && (Defines(entries, name) ==> name in r && exists i: nat ::
          IsLast(entries, i, name) && r[name] == LoadDefinition(w, entries[i], source))
      && (!Defines(entries, name) ==> (name in r <==> name in byName) && (name in r ==> r[name] == byName[name]))
    decreases |entries|
  {
    hide LoadDefinition, Defines;
    if entries == [] {
      NothingDefined(name);
    } else {
      var n := |entries| - 1;
      var front, e := entries[..n], entries[n];
      LastWins(w, byName, front, source, name);
      DefinesOneMore(entries, name);
      if IsDefinition(e) && e.frontmatter.value.name == name {
        assert IsLast(entries, n, name);
      } else if Defines(front, name) {
        var i: nat :| IsLast(front, i, name) && DiscoverIn(w, byName, front, source)[name] ==
          LoadDefinition(w, front[i], source);
        assert entries[i] == front[i];
        assert IsLast(entries, i, name);
      }
    }
  }

  lemma NothingDefined(name: string)
    ensures !Defines([], name)
  {
  }

  lemma DefinesOneMore(entries: seq<Entry>, name: string)
    requires entries != []
    ensures var e := entries[|entries| - 1];
      Defines(entries, name) <==>
        Defines(entries[..|entries| - 1], name) || (IsDefinition(e) && e.frontmatter.value.name == name)
  {
    var front := entries[..|entries| - 1];
    assert forall i: nat | i < |front| :: front[i] == entries[i];
  }

  /** Filtering goes piece by piece: the missing skills keep their order and their repetitions. */
  lemma {:induction false} MissingPieceByPiece(w: World, front: seq<string>, rest: seq<string>)
    ensures Missing(w, front + rest) == Missing(w, front) + Missing(w, rest)
  {
    if front == [] {
      assert front + rest == rest;
    } else {
      var all := front + rest;
      var head := if front[0] in w.skillNames then [] else [front[0]];
      MissingPieceByPiece(w, front[1..], rest);
      assert Missing(w, front) == head + Missing(w, front[1..]);
      assert Missing(w, all) == head + Missing(w, all[1..]) && all[1..] == front[1..] + rest;
      hide Missing;
      assert head + (Missing(w, front[1..]) + Missing(w, rest)) == (head + Missing(w, front[1..])) + Missing(w, rest);
    }
  }

  lemma {:induction false} MissingMembers(w: World, skills: seq<string>)
    ensures forall skill :: skill in Missing(w, skills) <==> skill in skills && skill !in w.skillNames
  {
    if skills != [] {
      MissingMembers(w, skills[1..]);
      assert skills == [skills[0]] + skills[1..];
    }
  }

  /** A definition tells what keeps the agent from running: it is disabled exactly by its marker; without the marker
      it needs setup exactly when a skill is not at hand or its model is not known, and it names them. */
  lemma DefinitionTellsWhy(w: World, e: Entry, source: Source)
    requires IsDefinition(e)
    ensures var d, f := LoadDefinition(w, e, source), e.frontmatter.value;
      && d.name == f.name && d.source == source
      && (d.status.Disabled? <==> e.disabled)
      && (d.status.NeedsSetup? <==> !e.disabled && ((exists skill :: skill in f.skills && skill !in w.skillNames)
                                                    || (f.model.Some? && f.model.value !in w.knownModels)))
      && (forall skill :: skill in d.missingSkills <==> skill in f.skills && skill !in w.skillNames)
      && (forall m :: d.invalidModel == Some(m) <==> f.model == Some(m) && m !in w.knownModels)
  {
    MissingMembers(w, e.frontmatter.value.skills);
    hide Missing;
    var missing := LoadDefinition(w, e, source).missingSkills;
    if missing != [] {
      assert missing[0] in missing;
    }
  }

  /** An agent is discovered if and only if one of the two directories defines its name; a workspace
      definition overrides every bundled one, and in each directory the last definition counts. */
  lemma WorkspaceOverridesBundled(w: World, bundled: seq<Entry>, workspace: seq<Entry>, name: string)
    ensures var r := Discover(w, bundled, workspace);
      && (name in r <==> Defines(bundled, name) || Defines(workspace, name))
      && (Defines(workspace, name) ==>
            exists i: nat :: IsLast(workspace, i, name) && r[name] == LoadDefinition(w, workspace[i], Workspace))
      && (Defines(bundled, name) && !Defines(workspace, name) ==>
            exists i: nat :: IsLast(bundled, i, name) && r[name] == LoadDefinition(w, bundled[i], Bundled))
  {
    hide DiscoverIn, LoadDefinition;
    LastWins(w, map[], bundled, Bundled, name);
    LastWins(w, DiscoverIn(w, map[], bundled, Bundled), workspace, Workspace, name);
  }
}

/**
 * The module registry built when the agent starts: the four built-in
 * modules first, then one external module per loadable entry of the modules
 * directory, in listing order. Registration is assignment by name, so the
 * last registration under a name wins.
 */
module ModuleRegistry {

  datatype BuiltIn = Echo | Inventory | Ping | Status

  function BuiltInName(k: BuiltIn): string
  {
    match k
    case Echo => "echo"
    case Inventory => "inventory"
    case Ping => "ping"
    case Status => "status"
  }

  /** A registered module and the names of its actions. */
  datatype Module =
    | BuiltInModule(kind: BuiltIn, actions: seq<string>)
    | ExternalModule(path: string, name: string, actions: seq<string>)

  /** The action names of each built-in module (their definitions are not part of this model). */
  type Catalog = BuiltIn -> seq<string>

  /**
   * What constructing an external module from a file yields: the name and
   * actions its metadata declares, or a failure (any exception).
   */
  datatype LoadOutcome = Loaded(name: string, actions: seq<string>) | Failed

  datatype DirEntry = DirEntry(path: string, isDir: bool, load: LoadOutcome)

  /** The modules path: not a directory, or a directory and its listing. */
  datatype ModulesDir = NotADirectory | Directory(entries: seq<DirEntry>)

  type Registry = map<string, Module>

  /** The four built-ins, assigned in this order. */
  function LoadInternal(m: Registry, catalog: Catalog): Registry
  {
    m[BuiltInName(Echo) := BuiltInModule(Echo, catalog(Echo))]
     [BuiltInName(Inventory) := BuiltInModule(Inventory, catalog(Inventory))]
     [BuiltInName(Ping) := BuiltInModule(Ping, catalog(Ping))]
     [BuiltInName(Status) := BuiltInModule(Status, catalog(Status))]
  }

  /** The entry registers an external module under `name`. */
  predicate Loads(e: DirEntry, name: string)
  {
    !e.isDir && e.load.Loaded? && e.load.name == name
  }

  /** One directory entry: directories and failed candidates leave the registry as it is. */
  function Register(m: Registry, e: DirEntry): Registry
  {
    if e.isDir then m
    else match e.load
      case Failed => m
      case Loaded(name, actions) => m[name := ExternalModule(e.path, name, actions)]
  }

  /** The entries, in listing order. */
  function LoadEntries(m: Registry, entries: seq<DirEntry>): Registry
  {
    if entries == [] then m
    else Register(LoadEntries(m, entries[..|entries| - 1]), entries[|entries| - 1])
  }

  /** The registry the agent's constructor builds from an empty map. */
  function BuildRegistry(catalog: Catalog, dir: ModulesDir): Registry
  {
    var internal := LoadInternal(map[], catalog);
    match dir
    case NotADirectory => internal
    case Directory(entries) => LoadEntries(internal, entries)
  }

  /** The names present after loading: those already present and those some entry loads. */
  lemma {:induction false} LoadEntriesKeys(m: Registry, entries: seq<DirEntry>, name: string)
    ensures name in LoadEntries(m, entries) <==>
      name in m || exists i :: 0 <= i < |entries| && Loads(entries[i], name)
  {
    if entries != [] {
      var n := |entries| - 1;
      var prefix := entries[..n];
      LoadEntriesKeys(m, prefix, name);
      if exists i :: 0 <= i < |entries| && Loads(entries[i], name) {
        var i :| 0 <= i < |entries| && Loads(entries[i], name);
        if i < n {
          assert Loads(prefix[i], name);
        }
      }
      if exists i :: 0 <= i < n && Loads(prefix[i], name) {
        var i :| 0 <= i < n && Loads(prefix[i], name);
        assert Loads(entries[i], name);
      }
    }
  }

  /** Loading only adds or overwrites entries; it never removes one. */
  lemma LoadEntriesKeepsKeys(m: Registry, entries: seq<DirEntry>)
    ensures m.Keys <= LoadEntries(m, entries).Keys
  {
  }

  /** The last entry that loads a name decides the module registered under it. */
  lemma {:induction false} LastLoadWins(m: Registry, entries: seq<DirEntry>, i: nat, name: string)
    requires i < |entries| && Loads(entries[i], name)
    requires forall j :: i < j < |entries| ==> !Loads(entries[j], name)
    ensures name in LoadEntries(m, entries)
    ensures LoadEntries(m, entries)[name] ==
      ExternalModule(entries[i].path, name, entries[i].load.actions)
  {
    var n := |entries| - 1;
    var prefix := entries[..n];
    if i < n {
      forall j | i < j < n
        ensures !Loads(prefix[j], name)
      {
        assert prefix[j] == entries[j];
      }
      LastLoadWins(m, prefix, i, name);
      assert !Loads(entries[n], name);
    }
  }

  /** A name no entry loads keeps the module it had. */
  lemma {:induction false} UnloadedNameKeepsModule(m: Registry, entries: seq<DirEntry>, name: string)
    requires name in m
    requires forall i :: 0 <= i < |entries| ==> !Loads(entries[i], name)
    ensures name in LoadEntries(m, entries) && LoadEntries(m, entries)[name] == m[name]
  {
    if entries != [] {
      var n := |entries| - 1;
      var prefix := entries[..n];
      forall i | 0 <= i < n
        ensures !Loads(prefix[i], name)
      {
        assert prefix[i] == entries[i];
      }
      UnloadedNameKeepsModule(m, prefix, name);
      assert !Loads(entries[n], name);
    }
  }

  /** A directory entry, or a candidate whose construction fails, can be dropped from the listing. */
  lemma {:induction false} SkippedEntryChangesNothing(m: Registry, before: seq<DirEntry>, e: DirEntry, after: seq<DirEntry>)
    requires e.isDir || e.load.Failed?
    ensures LoadEntries(m, before + [e] + after) == LoadEntries(m, before + after)
  {
    if after == [] {
      assert before + [e] + after == before + [e];
      assert (before + [e])[..|before|] == before;
      assert before + after == before;
    } else {
      var n := |after| - 1;
      SkippedEntryChangesNothing(m, before, e, after[..n]);
      assert (before + [e] + after)[..|before| + 1 + n] == before + [e] + after[..n];
      assert (before + after)[..|before| + n] == before + after[..n];
    }
  }

  /**
   * The registry always names the four built-ins; a built-in keeps its
   * module unless some loadable entry of the directory takes its name.
   */
  lemma BuiltInUnlessShadowed(catalog: Catalog, dir: ModulesDir, k: BuiltIn)
    ensures BuiltInName(k) in BuildRegistry(catalog, dir)
    ensures (dir.NotADirectory? ||
             forall i :: 0 <= i < |dir.entries| ==> !Loads(dir.entries[i], BuiltInName(k))) ==>
      BuildRegistry(catalog, dir)[BuiltInName(k)] == BuiltInModule(k, catalog(k))
    ensures forall i :: dir.Directory? && 0 <= i < |dir.entries| && Loads(dir.entries[i], BuiltInName(k)) &&
                        (forall j :: i < j < |dir.entries| ==> !Loads(dir.entries[j], BuiltInName(k))) ==>
      BuildRegistry(catalog, dir)[BuiltInName(k)] ==
        ExternalModule(dir.entries[i].path, BuiltInName(k), dir.entries[i].load.actions)
  {
    var internal := LoadInternal(map[], catalog);
    assert BuiltInName(k) in internal && internal[BuiltInName(k)] == BuiltInModule(k, catalog(k));
    if dir.Directory? {
      LoadEntriesKeepsKeys(internal, dir.entries);
      if forall i :: 0 <= i < |dir.entries| ==> !Loads(dir.entries[i], BuiltInName(k)) {
        UnloadedNameKeepsModule(internal, dir.entries, BuiltInName(k));
      }
      forall i | 0 <= i < |dir.entries| && Loads(dir.entries[i], BuiltInName(k)) &&
                 (forall j :: i < j < |dir.entries| ==> !Loads(dir.entries[j], BuiltInName(k)))
        ensures BuildRegistry(catalog, dir)[BuiltInName(k)] ==
          ExternalModule(dir.entries[i].path, BuiltInName(k), dir.entries[i].load.actions)
      {
        LastLoadWins(internal, dir.entries, i, BuiltInName(k));
      }
    }
  }

  /**
   * The names of the registry: the four built-ins, and the names declared by
   * the loadable (non-directory, successfully constructed) entries.
   */
  lemma RegistryNames(catalog: Catalog, dir: ModulesDir, name: string)
    ensures name in BuildRegistry(catalog, dir) <==>
      name in {"echo", "inventory", "ping", "status"} ||
      (dir.Directory? && exists i :: 0 <= i < |dir.entries| && Loads(dir.entries[i], name))
  {
    var internal := LoadInternal(map[], catalog);
    assert internal.Keys == {"echo", "inventory", "ping", "status"};
    if dir.Directory? {
      LoadEntriesKeys(internal, dir.entries, name);
    }
  }
}

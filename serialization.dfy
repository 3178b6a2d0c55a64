/** The blob store of a run folder: a configuration and a result, each pickled
    into its own file. Pickling is abstracted to storing the value itself. */
module Serialization {
  import opened Errors
  import opened Paths
  import opened FileTree

  const ConfigFile: string := "config.pkl"
  const ResultFile: string := "result.pkl"

  /** `load(path)`: a missing path raises FileNotFoundError before anything is
      opened; a directory cannot be opened for reading; a file that is not a
      pickle fails to unpickle. */
  function Load(t: Tree, p: Path): (r: Result<Value>)
    ensures p !in t ==> r == Err(FileNotFound)
    ensures r.Ok? <==> p in t && t[p].Blob?
    ensures r.Ok? ==> t[p] == Blob(r.value)
    ensures r.Err? && p in t ==> r.error == IsADirectory || r.error == Unpickling
  {
    if p !in t then Err(FileNotFound)
    else match t[p]
      case Dir => Err(IsADirectory)
      case Image(_) => Err(Unpickling)
      case Blob(v) => Ok(v)
  }

  /** `dump(value, path)`: opens the path for writing, creating or truncating the
      file, and stores the value. */
  method Dump(host: Host, value: Value, path: Path) returns (o: Outcome)
    requires host.Valid()
    modifies host`tree
    ensures host.Valid()
    ensures host.tree == After(old(host.tree), WriteFile(old(host.tree), path, Blob(value)))
    ensures o == OutcomeOf(WriteFile(old(host.tree), path, Blob(value)))
  {
    var r := WriteFile(host.tree, path, Blob(value));
    if r.Ok? {
      host.tree := r.value;
      o := Done;
    } else {
      o := Failed(r.error);
    }
  }

  /** `dump_config` / `dump_result`: the folder must exist (an `assert`), then the
      value is dumped into `file` inside it. */
  function DumpInto(t: Tree, folder: Path, file: string, value: Value): (r: Result<Tree>)
    requires WellFormed(t)
    ensures folder !in t ==> r == Err(AssertionFailed)
    ensures r.Ok? <==> IsDir(t, folder) && !IsDir(t, folder + [file])
    ensures r.Ok? ==> r.value == t[folder + [file] := Blob(value)] && WellFormed(r.value)
    ensures r.Err? && folder in t ==> r.error == NotADirectory || r.error == IsADirectory
  {
    if folder !in t then Err(AssertionFailed)
    else
      assert Parent(folder + [file]) == folder;
      WriteFile(t, folder + [file], Blob(value))
  }

  method DumpConfig(host: Host, config: Value, folder: Path) returns (o: Outcome)
    requires host.Valid()
    modifies host`tree
    ensures host.Valid()
    ensures host.tree == After(old(host.tree), DumpInto(old(host.tree), folder, ConfigFile, config))
    ensures o == OutcomeOf(DumpInto(old(host.tree), folder, ConfigFile, config))
  {
    if folder !in host.tree {
      return Failed(AssertionFailed);
    }
    o := Dump(host, config, folder + [ConfigFile]);
  }

  method DumpResult(host: Host, result: Value, folder: Path) returns (o: Outcome)
    requires host.Valid()
    modifies host`tree
    ensures host.Valid()
    ensures host.tree == After(old(host.tree), DumpInto(old(host.tree), folder, ResultFile, result))
    ensures o == OutcomeOf(DumpInto(old(host.tree), folder, ResultFile, result))
  {
    if folder !in host.tree {
      return Failed(AssertionFailed);
    }
    o := Dump(host, result, folder + [ResultFile]);
  }

  /** `load_config` / `load_result`: the folder must be a directory (an `assert`,
      checked before the file is looked for), then `file` inside it is loaded. */
  function LoadFrom(t: Tree, folder: Path, file: string): (r: Result<Value>)
    ensures !IsDir(t, folder) ==> r == Err(AssertionFailed)
    ensures r.Ok? <==> IsDir(t, folder) && folder + [file] in t && t[folder + [file]].Blob?
    ensures r.Ok? ==> t[folder + [file]] == Blob(r.value)
    ensures IsDir(t, folder) && folder + [file] !in t ==> r == Err(FileNotFound)
  {
    if !IsDir(t, folder) then Err(AssertionFailed) else Load(t, folder + [file])
  }

  /** `has_config` / `has_result`: whether `file` exists in the folder, whatever it holds. */
  predicate Holds(t: Tree, folder: Path, file: string) {
    folder + [file] in t
  }

  /** The existence probe agrees with loading: a blob that loads exists, and
      in a directory a blob that does not exist makes loading raise
      FileNotFoundError. */
  lemma ProbeAgreesWithLoad(t: Tree, folder: Path, file: string)
    ensures LoadFrom(t, folder, file).Ok? ==> Holds(t, folder, file)
    ensures IsDir(t, folder) && !Holds(t, folder, file) ==> LoadFrom(t, folder, file) == Err(FileNotFound)
    ensures !IsDir(t, folder) ==> LoadFrom(t, folder, file) == Err(AssertionFailed)
  {
  }

  /** Round trip: loading a blob just dumped gives back the dumped value. */
  lemma LoadAfterDump(t: Tree, p: Path, v: Value)
    requires WellFormed(t) && WriteFile(t, p, Blob(v)).Ok?
    ensures Load(WriteFile(t, p, Blob(v)).value, p) == Ok(v)
  {
  }

  /** A dump replaces the blob at its path and changes no other path. */
  lemma DumpChangesOnlyTarget(t: Tree, p: Path, v: Value, q: Path)
    requires WellFormed(t) && WriteFile(t, p, Blob(v)).Ok? && q != p
    ensures q in WriteFile(t, p, Blob(v)).value <==> q in t
    ensures q in t ==> WriteFile(t, p, Blob(v)).value[q] == t[q]
  {
  }

  /** Round trip through a run folder: what `dump_config`/`dump_result` store,
      `load_config`/`load_result` read back, and the existence probe sees it. */
  lemma LoadFromAfterDumpInto(t: Tree, folder: Path, file: string, v: Value)
    requires WellFormed(t) && DumpInto(t, folder, file, v).Ok?
    ensures LoadFrom(DumpInto(t, folder, file, v).value, folder, file) == Ok(v)
    ensures Holds(DumpInto(t, folder, file, v).value, folder, file)
  {
  }

  /** Dumping one of the two blobs leaves what loading the other one gives unchanged. */
  lemma DumpIntoKeepsOther(t: Tree, folder: Path, file: string, other: string, v: Value)
    requires WellFormed(t) && DumpInto(t, folder, file, v).Ok? && other != file
    ensures LoadFrom(DumpInto(t, folder, file, v).value, folder, other) == LoadFrom(t, folder, other)
    ensures Holds(DumpInto(t, folder, file, v).value, folder, other) == Holds(t, folder, other)
  {
    assert folder + [other] != folder + [file] by {
      assert (folder + [other])[|folder|] == other;
    }
  }

  /** The two blob names differ, so the configuration and the result never share a file. */
  lemma BlobNamesDiffer()
    ensures ConfigFile != ResultFile
  {
    assert ConfigFile[0] != ResultFile[0];
  }
}

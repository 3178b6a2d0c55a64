# expyro run store, modelled in Dafny

expyro turns a Python procedure from a configuration to a result into an
*experiment* whose every call is kept on disk as a *run*. A run is a folder
`directory/name/<timestamp>` that holds `config.pkl` and `result.pkl`, plus,
when plotters are registered, a `plots` folder (`plots (1)`, `plots (2)`, … on
later re-plots). In it, an artist that returns one figure writes one file,
and an artist that returns a mapping of figures writes a subfolder named after
it, with one file per entry. Runs can be looked up by name or
path, iterated, re-plotted, renamed to the first free sibling name, and
reproduced. Decorators build the experiment and register plotters and named
configurations.

The model has seven modules:

- `Errors`: the exceptions the core raises, and `Option`/`Result`/`Outcome`.
- `Paths`: paths as sequences of names. This module also holds pathlib's
  stem/suffix split, the decimal rendering of the counter, and the candidate
  name `stem (n)suffix`.
- `FileTree`: the filesystem as a map from paths to nodes (directory, pickled
  blob, saved figure), kept well formed (every entry's parent is a directory).
  It models the file system calls the core makes: `open(…, "wb")`, `mkdir`
  with `parents`/`exist_ok`, `rename`, `is_dir()` (`IsDir`), and the error
  `iterdir()` raises for a path that is not a directory (`DirError`). A `Host` object holds the mutable
  tree and the set of open figures.
- `Util`: `unique_new_path`, as a loop over the host (`UniqueNewPath`) proved
  against the function `UniquePath`, which satisfies the promise `Resolves`.
- `Serialization`: `dump`, `load`, and the config/result helpers.
- `Plotting`: `Plotter.__dump_figure` and `Plotter.__call__`, as functions from
  a world (tree and open figures) to a step. Methods on the host are proved
  equal to them.
- `Experiments`: `ProcedureSignature`, `Experiment`, `Run`, and the decorators.

Each operation of the source that changes the file tree or the open figures
is a method that changes the `Host`: a method of `Experiment` or `Run`, or a
module-level method that takes the host. Its `ensures` says that the new state
and the result equal a specification function of the old state (`Create`,
`Replot`, `RunPlotters`, `MkDir`, and so on). The properties are proved as
lemmas about those functions. The registration operations (`extend_plots`,
`extend_config_options` and the `plot`, `config_option` and `config_options`
decorators) change the `plotters` and `configOptions` fields of the
`Experiment`, and `ExperimentClosure.Apply` changes the closure's captured
`name`; their `ensures` give the new field values outright.

In three places the code does something other than what its design or a
first reading suggests. The model has the code's behaviour in each; for the
third it has the corrected behaviour as well:

- `Plotter.__dump_figure` has no `try`/`finally`. When `savefig` raises, the
  figure is never closed (`Plotting.DumpFigure`, `Plotting.PlotterFailureLeavesOpen`).
- Looking up a run whose folder does not exist raises `AssertionError` from
  `load_config`, not `FileNotFoundError` (`Experiments.Experiment.GetItem`).
- `experiment(root_directory)` without a name rebinds its captured `name` on
  its first use, so later uses of the same decorator reuse the first
  procedure's name. `Experiments.ExperimentClosure.Apply` models this as
  written. `Experiments.Decorate` is the corrected decorator (see
  "## Findings" and "## Left out").

Files not modelled:

- `expyro/_hook.py`: the `hook` context manager, which opens a file in the
  `data` folder beneath the run held in a context variable, creating that
  folder first. Nothing in `expyro/_experiment.py` sets the context variable,
  so the hook is outside the run store the model covers, and the model has no
  `data` folder.
- `expyro/_command.py` and `expyro/command.py`: the command-line front end,
  which parses arguments with `tyro` and then looks up a run to plot or
  reproduce, or calls the experiment on a configuration or on a named
  configuration option. Those operations are modelled; argument parsing and
  printing are not. (`expyro/command.py` is an older copy that imports a
  module `.experiment`.)
- `setup.py`: packaging metadata, with no behaviour to model.
- `expyro/_experiment.py` imports `unique_new_path` from `._util`. The function
  modelled is the one in `expyro/util.py`; `_util.py` is not part of this model.

## Model

| member | source | states |
|---|---|---|
| Paths.Parent | expyro/util.py:12 | the parent of a non-root path drops its last name |
| Paths.Suffix | expyro/util.py:11 | the suffix is empty or starts with the last dot; it is a suffix of the name |
| Paths.Stem | expyro/util.py:10 | stem followed by suffix gives the name back |
| Paths.Name | expyro/util.py:10-11 | the last name of a path, which pathlib's `name` gives (definition) |
| Paths.LastDot | expyro/util.py:10-11 | the index of the last dot in a name, or -1 when there is none |
| Paths.Digits | expyro/util.py:15 | `f"{counter}"`: a non-empty string of decimal digits, with a leading zero only for 0 |
| Paths.CandidateName | expyro/util.py:15 | `f"{stem} ({counter}){suffix}"` (definition; its properties are the lemmas CandidateInjectiveName, CandidateKeepsSuffix and CandidateOfPlainName) |
| Paths.CandidateInjectiveName | expyro/util.py:15 | different counters give different candidate names |
| Paths.ParseDigitsOfDigits | expyro/util.py:15 | the decimal rendering of the counter parses back to the counter |
| Paths.DigitsInjective | expyro/util.py:15 | different counters render differently |
| Paths.Candidate | expyro/util.py:12-15 | a candidate is a non-root path in the same directory as the requested path |
| Paths.CandidateInjective | expyro/util.py:15-19 | different counters give different candidate paths |
| Paths.CandidateKeepsSuffix | expyro/util.py:10-15 | for a name with a suffix, the candidate keeps that suffix and its stem is `stem (n)` |
| Paths.CandidateOfPlainName | expyro/util.py:10-15 | for a name without a dot, the candidate is `name (n)` and has no suffix |
| FileTree.ParentIsDir | expyro/_experiment.py:68 | in a well-formed tree the parent of every entry is a directory |
| FileTree.AncestorsExist | expyro/_experiment.py:68 | every ancestor of an entry is a directory |
| FileTree.FreeHasNoDescendants | expyro/_experiment.py:68 | a free path has nothing beneath it |
| FileTree.IsDir | expyro/_serialization.py:32-37 | `Path.is_dir()`: the path exists and is a directory; it is the assertion of `load_config`/`load_result` and the filter of `__iter__` at expyro/_experiment.py:119 (definition; used by DirError, MkDir, Rename and LoadFrom) |
| FileTree.DirError | expyro/_experiment.py:119 | `iterdir` of a path succeeds iff it is a directory; otherwise it raises FileNotFound (only for a missing path) or NotADirectory |
| FileTree.WriteFile | expyro/_serialization.py:8-10 | `open(path, "wb")` succeeds iff the path is not the root, its parent is a directory, and it is not a directory; the result stores the node at that path and stays well formed; the error kinds in the other cases |
| FileTree.MkDir | expyro/_experiment.py:66-69 | `mkdir(parents, exist_ok)`: when it succeeds, and which error it raises otherwise (FileExists for an existing path unless exist_ok and a directory); old entries are kept; new entries are directory prefixes of the path; the result is well formed |
| FileTree.AddDir | expyro/_experiment.py:178 | one `os.mkdir` of a free path whose parent is a directory adds exactly that directory and keeps the tree well formed |
| FileTree.Moved | expyro/_experiment.py:149 | the tree after moving the subtree at the source to the destination (definition; its properties are MovedRelocates and MovedWellFormed) |
| FileTree.Rename | expyro/_experiment.py:149 | `rename` to a free destination succeeds iff the source exists, is not the root and is not an ancestor of the destination, and the destination's parent is a directory; it moves the subtree and stays well formed; a missing source is NotADirectory when the walk up from it meets a regular file, and FileNotFound otherwise |
| FileTree.MovedRelocates | expyro/_experiment.py:149 | a rename carries every entry beneath the source to the same place beneath the destination with the same contents, leaves nothing beneath the source, keeps every other entry, and adds nothing else |
| FileTree.MovedWellFormed | expyro/_experiment.py:149 | a rename keeps the tree well formed |
| Util.UniquePath | expyro/util.py:6-21 | the result satisfies `Resolves`: it is free; it is the path itself when that is free; else it is the candidate for the least counter n >= 1 whose candidate is free |
| Util.FirstFree | expyro/util.py:14-19 | the least counter from n on whose candidate is free |
| Util.TakenShrinks | expyro/util.py:17-19 | each taken candidate tried leaves fewer taken candidates, so the loop ends |
| Util.ResolvesUnique | expyro/util.py:6-21 | at most one path satisfies `Resolves`, so the promise pins the result down |
| Util.ResolvesSibling | expyro/util.py:12-19 | the resolved path is free and lies in the requested path's directory |
| Util.UniqueNewPath | expyro/util.py:6-21 | the loop returns a path satisfying `Resolves`, equal to `UniquePath`, and changes nothing |
| Serialization.Load | expyro/_serialization.py:13-18 | a missing path is FileNotFound; the result is Ok iff the entry is a blob, and then its value; otherwise IsADirectory or Unpickling |
| Serialization.Dump | expyro/_serialization.py:8-10 | the new tree and the outcome are those of writing the blob |
| Serialization.DumpInto | expyro/_serialization.py:21-28 | a missing folder is AssertionFailed; Ok iff the folder is a directory and the file is not a directory; Ok stores the blob there and keeps the tree well formed |
| Serialization.DumpConfig | expyro/_serialization.py:21-23 | `dump_config` changes the tree exactly as `DumpInto` with `config.pkl` |
| Serialization.DumpResult | expyro/_serialization.py:26-28 | `dump_result` changes the tree exactly as `DumpInto` with `result.pkl` |
| Serialization.LoadFrom | expyro/_serialization.py:31-38 | a folder that is not a directory is AssertionFailed, checked first; Ok iff the file is a blob, and then its value; a missing file is FileNotFound |
| Serialization.Holds | expyro/_serialization.py:41-46 | `has_config`/`has_result`: the file exists in the folder, whatever it holds (definition; related to loading by ProbeAgreesWithLoad) |
| Serialization.ProbeAgreesWithLoad | expyro/_serialization.py:31-46 | whatever loads exists; in a directory, a missing file makes loading raise FileNotFound |
| Serialization.LoadAfterDump | expyro/_serialization.py:8-18 | loading what was just dumped gives the dumped value back |
| Serialization.DumpChangesOnlyTarget | expyro/_serialization.py:8-10 | a dump changes no other path |
| Serialization.LoadFromAfterDumpInto | expyro/_serialization.py:21-46 | `load_config`/`load_result` read back what `dump_config`/`dump_result` stored, and `has_config`/`has_result` see it |
| Serialization.DumpIntoKeepsOther | expyro/_serialization.py:21-46 | dumping one blob leaves loading and probing the other blob unchanged |
| Serialization.BlobNamesDiffer | expyro/_serialization.py:23-28 | configuration and result never share a file |
| Plotting.FileName | expyro/_experiment.py:166 | `f"{name}.{file_format}"` (definition; FileNameInjective states that it keeps names apart) |
| Plotting.FileNameInjective | expyro/_experiment.py:166 | different figure names give different file names for one format |
| Plotting.DumpFigure | expyro/_experiment.py:165-171 | saving succeeds iff the folder is a directory and the file is not a directory; success stores the figure and closes it; failure changes nothing and leaves the figure open |
| Plotting.EntryFilesSplit | expyro/_experiment.py:180-181 | the files of a mapping are those of its first entry plus those of the rest |
| Plotting.DumpEntries | expyro/_experiment.py:180-181 | saving a mapping keeps the tree well formed, changes only the mapping's files inside the folder, removes nothing, and when it succeeds closes all of its figures |
| Plotting.PlotterEffect | expyro/_experiment.py:173-183 | a plotter call keeps the tree well formed and changes nothing outside the directory it is given; an artist that raises changes nothing; a success closes the drawn figures |
| Plotting.RunPlotters | expyro/_experiment.py:85-87 | running the plotters keeps the tree well formed and changes nothing outside the folder |
| Plotting.RunPlottersAppend | expyro/_experiment.py:71-72 | running `ps + qs` is running `ps`, then `qs` on its result, unless `ps` raised |
| Plotting.SingleFanOut | expyro/_experiment.py:182-183 | an artist that returns one figure leaves it at `directory/<artist>.<fmt>`, closed |
| Plotting.EntriesFanOut | expyro/_experiment.py:180-181 | a mapping with distinct names whose saves succeed leaves each figure at `folder/<name>.<fmt>` |
| Plotting.ManyFanOut | expyro/_experiment.py:176-181 | an artist returning a mapping gets a subfolder named after it, created or reused when it is already a directory whose entry files are not directories; it gets one file per entry holding that figure, all figures are closed, and nothing else is added |
| Plotting.EntriesFailureLeavesOpen | expyro/_experiment.py:165-171 | when a save in a mapping of distinct open figures fails, some figure of the mapping stays open |
| Plotting.PlotterFailureLeavesOpen | expyro/_experiment.py:165-183 | a plotter whose save fails leaves at least one drawn figure open |
| Plotting.SaveFigure | expyro/_experiment.py:165-171 | the new state and outcome are `DumpFigure`'s |
| Plotting.CallPlotter | expyro/_experiment.py:173-183 | the loop over the drawn mapping gives the new state and outcome of `PlotterEffect` |
| Experiments.ReturnHint | expyro/_experiment.py:29 | the hint annotated "return", when there is one, and nothing otherwise |
| Experiments.WithoutReturn | expyro/_experiment.py:29 | `type_hints.pop("return")`: exactly the annotations other than "return", with keys still distinct |
| Experiments.ParamNamesAfterPop | expyro/_experiment.py:29 | popping "return" leaves exactly the parameter annotations |
| Experiments.SignatureOf | expyro/_experiment.py:27-35 | the result type is set iff "return" is annotated; config name and type are set iff exactly one parameter is annotated, and then they are that annotation; otherwise both are unset |
| Experiments.Experiment.constructor | expyro/_experiment.py:46-57 | stores procedure, signature, directory and name, with no plotters and no options |
| Experiments.Experiment.Folder | expyro/_experiment.py:59-64 | the store folder, a named run folder inside it, or the path itself |
| Experiments.ChildByName | expyro/_experiment.py:59-64 | a folder directly inside the store is found by its name |
| Experiments.Experiment.MakeFolder | expyro/_experiment.py:66-69 | creates `store/<stamp>` with parents and without exist_ok; a success is a new directory |
| Experiments.Experiment.ExtendPlots | expyro/_experiment.py:71-72 | appends the plotters after the ones already registered |
| Experiments.Experiment.ExtendConfigOptions | expyro/_experiment.py:74-75 | merges the options; the keys are the union, new values win, other old values stay |
| Experiments.Experiment.ConfigAt | expyro/_experiment.py:77-79 | a folder that is not a directory is AssertionFailed; Ok is the stored config blob |
| Experiments.Experiment.ResultAt | expyro/_experiment.py:81-83 | a folder that is not a directory is AssertionFailed; Ok is the stored result blob |
| Experiments.Experiment.Plot | expyro/_experiment.py:85-87 | the loop gives the new state and outcome of `RunPlotters` in registration order |
| Experiments.Experiment.Replot | expyro/_experiment.py:142-145 | plotting a run keeps the tree well formed |
| Experiments.Experiment.Create | expyro/_experiment.py:93-105 | creating a run keeps the tree well formed |
| Experiments.Experiment.Call | expyro/_experiment.py:93-105 | the new state and result equal `Create`: make the folder, dump config, run, dump result, plot if there are plotters; stop at the first exception |
| Experiments.CreateRefusesExisting | expyro/_experiment.py:66-69 | an existing folder with the same timestamp makes the call raise FileExists and change nothing |
| Experiments.CreateKeepsConfigOnFailure | expyro/_experiment.py:93-98 | when the procedure raises, its error propagates, the run folder keeps the configuration and has no result, and looking the run up raises FileNotFound |
| Experiments.FreshFolderIsEmpty | expyro/_experiment.py:68 | a folder made without exist_ok is a new, empty directory |
| Experiments.CreateKeepsExisting | expyro/_experiment.py:93-105 | a call overwrites nothing: every old entry keeps its contents |
| Experiments.DumpIntoFreshKeeps | expyro/_serialization.py:21-28 | a blob dumped into a new folder keeps all old entries |
| Experiments.PlotFolderUnderRun | expyro/_experiment.py:134-135 | the plot folder lies inside the run folder |
| Experiments.CreateAddsMember | expyro/_experiment.py:93-115 | after a successful call the new run is a member, and looking it up by timestamp gives the run returned |
| Experiments.CreatePlotsOnlyWithPlotters | expyro/_experiment.py:100-104 | without plotters the run folder holds just the two blobs and no figure is opened; with plotters it has a `plots` folder |
| Experiments.Experiment.GetItem | expyro/_experiment.py:111-115 | a folder that is not a directory is AssertionFailed; Ok iff it is a run holding two blobs, and then the run has those values and that location; a missing config is FileNotFound, and so is a missing result next to a config blob |
| Experiments.Experiment.Contains | expyro/_experiment.py:107-109 | `item in experiment`: both blobs exist in the resolved folder (definition; LookupIffMember relates it to lookup) |
| Experiments.LookupIffMember | expyro/_experiment.py:107-115 | on a well-formed tree, a lookup succeeds iff `in` holds and both entries are blobs |
| Experiments.IsListing | expyro/_experiment.py:119 | what `iterdir()` yields: the listing holds every direct child of the folder exactly once, in some order (definition; used by Runs, IterationKeepsMembers and IterationYieldsMembers) |
| Experiments.Experiment.Members | expyro/_experiment.py:119 | keeps exactly the listed entries that are directories and contain a run, and is no longer than the listing |
| Experiments.MemberPositions | expyro/_experiment.py:119 | the members embed in the listing at strictly increasing positions |
| Experiments.MembersInListingOrder | expyro/_experiment.py:119 | the members are a subsequence of the listing: some strictly increasing positions of the listing hold them in order, and they have no duplicates when the listing has none |
| Experiments.Experiment.LoadRuns | expyro/_experiment.py:119 | yields the looked-up runs in order; a failure stops at the first failing lookup and reports its error |
| Experiments.Experiment.Runs | expyro/_experiment.py:117-119 | a store folder that is not a directory makes `iterdir` raise; otherwise members are loaded in listing order |
| Experiments.IterationKeepsMembers | expyro/_experiment.py:117-119 | iteration visits exactly the directories directly inside the store that contain a run |
| Experiments.IterationYieldsMembers | expyro/_experiment.py:117-119 | an iteration without an exception yields one run per member, each equal to its lookup |
| Experiments.Run.MakePlotFolder | expyro/_experiment.py:134-137 | creates the first free `plots`, `plots (n)` in the run folder, with parents and without exist_ok |
| Experiments.PlotFolderNames | expyro/_experiment.py:134-135 | the plot folder is named `plots` or `plots (n)` inside the run folder |
| Experiments.Run.Plot | expyro/_experiment.py:142-145 | the new state and result equal `Replot` |
| Experiments.ReplotKeepsOutsideFolder | expyro/_experiment.py:134-145 | plotting removes nothing and changes no old entry outside the new plot folder; every new entry is inside the plot folder or is one of the missing folders above it that `mkdir(parents=True)` creates |
| Experiments.ReplotFreshFolder | expyro/_experiment.py:134-145 | for an existing run folder, the plot folder is new and empty before plotting |
| Experiments.Run.Reproduce | expyro/_experiment.py:139-140 | reproducing is a new call on the stored configuration |
| Experiments.Run.Rename | expyro/_experiment.py:147-150 | moves the run folder to the first free name from `newName` next to it, and returns the run at the new location |
| Experiments.RenameMovesRun | expyro/_experiment.py:147-150 | renaming a run that can be looked up succeeds, empties the old location, and the run is then found at the new location with the same values |
| Experiments.IntendedName | expyro/_experiment.py:190-196 | the explicit name when given, else the procedure's name |
| Experiments.IntendedNamesDiffer | expyro/_experiment.py:190-196 | without a name, one decorator gives two procedures different names, and so different store folders `root/<name>` |
| Experiments.AsWrittenName | expyro/_experiment.py:192-193 | the name used, and what is written back into the closure |
| Experiments.AsWrittenReuseSharesStore | expyro/_experiment.py:192-194 | as written, reusing one unnamed decorator for `train` then `evaluate` names both `train` |
| Experiments.Decorate | expyro/_experiment.py:190-196 | a new experiment under `root` named by `IntendedName`, with no plotters or options |
| Experiments.ExperimentClosure.constructor | expyro/_experiment.py:190-196 | the closure captures the root and the optional name |
| Experiments.ExperimentClosure.Apply | expyro/_experiment.py:191-194 | as written: the experiment is named by the captured name, or by the procedure's name when none is captured, and that name is written back into the closure |
| Experiments.PlottersFor | expyro/_experiment.py:201 | one plotter per artist, in order, all with the given format and display flag |
| Experiments.DecoratePlot | expyro/_experiment.py:199-204 | appends one plotter per artist and returns the same experiment; the format defaults to `"pdf"` and the display flag to false |
| Experiments.DecorateConfigOption | expyro/_experiment.py:207-212 | sets the one named option and returns the same experiment |
| Experiments.DecorateConfigOptions | expyro/_experiment.py:215-220 | merges the options and returns the same experiment |

## Left out

- Absolute and relative paths are not distinguished. A path is a sequence of names from the store's root, and every name is one component.
- Pickling is not modelled. A blob stores the value itself. Loading a directory raises IsADirectory, and loading a saved figure fails to unpickle.
- Matplotlib drawing is not modelled. An artist is a function returning figures or an error.
- The `show` flag, `plt.show()` and the `**kwargs` passed to `savefig` do not change the model's state.
- `savefig`'s check of the file format is not modelled.
- The clock: the timestamp string from `datetime.now()` is a parameter (`stamp`).
- The procedure's own side effects are not modelled; it is a function from a configuration to a result or an exception.
- `Experiment.cli` (expyro/_experiment.py:89-91) is command-line handling and is not part of this model.
- The reflection asserts in `Experiment.__init__` (expyro/_experiment.py:47-48) and `update_wrapper` are not modelled; the model takes the annotations directly.
- `get_type_hints` evaluation is not modelled; annotations are given as a list of distinct names with type tokens.
- Experiments.Experiment.Runs: `__iter__` is a lazy generator over `iterdir()`. The model gives the whole listing at once, as the runs yielded before the first exception plus that exception. The listing's order is a parameter.
- The check-then-create race between `unique_new_path` and the `mkdir`/`rename` after it is not modelled, because the tree changes only through the modelled calls.
- Experiments.Experiment.Create: its own ensures states only well-formedness. The properties are the lemmas CreateRefusesExisting, CreateKeepsConfigOnFailure, CreateKeepsExisting, CreateAddsMember and CreatePlotsOnlyWithPlotters.
- Experiments.Decorate: models the corrected decorator, so reusing one unnamed decorator names each experiment after its own procedure. The code as written, where the first procedure's name is written back into the closure, is Experiments.ExperimentClosure.Apply (see "## Findings").
- Experiments.Experiment.Replot: its own ensures states only well-formedness. The properties are the lemmas ReplotKeepsOutsideFolder, ReplotFreshFolder and PlotFolderNames.

## Findings

| source | as written | input that shows it | evidently intended | confidence | as-written member | corrected member |
|---|---|---|---|---|---|---|
| expyro/_experiment.py:192-193 | `nonlocal name` writes the first procedure's name back into the decorator's closure, so a second use of the same decorator keeps that name | `d = experiment(root)`, then `d(train)` and `d(evaluate)`: both experiments are named `train` and share one store folder | each procedure's experiment is named after that procedure unless a name was given | not executed | Experiments.AsWrittenReuseSharesStore | Experiments.IntendedName |

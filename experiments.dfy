/** The run store: an experiment bound to one procedure and one directory, the
    runs it creates, finds and lists there, and the decorators that build it. */
module Experiments {
  import opened Errors
  import opened Paths
  import opened FileTree
  import opened Util
  import opened Serialization
  import opened Plotting

  // ---------------------------------------------------------------------------
  // ProcedureSignature

  /** An annotated type; only its identity matters. */
  datatype TypeHint = TypeHint(token: nat)

  /** The result type `get_type_hints` reports under "return", and the config
      parameter's name and type when exactly one parameter is annotated. */
  datatype Signature = Signature(configName: Option<string>, configCls: Option<TypeHint>, resultCls: Option<TypeHint>)

  /** `get_type_hints(procedure)`: annotation names to types, in order. */
  type Hints = seq<(string, TypeHint)>

  /** A dictionary's keys are distinct. */
  predicate DistinctKeys(hints: Hints) {
    forall i, j :: 0 <= i < j < |hints| ==> hints[i].0 != hints[j].0
  }

  /** The annotated parameter names: every key but "return". */
  function ParamNames(hints: Hints): set<string> {
    set i | 0 <= i < |hints| && hints[i].0 != "return" :: hints[i].0
  }

  /** `type_hints.pop("return")` when present. */
  function ReturnHint(hints: Hints): (r: Option<TypeHint>)
    ensures r.Some? ==> ("return", r.value) in hints
    ensures r.None? ==> forall i :: 0 <= i < |hints| ==> hints[i].0 != "return"
  {
    if hints == [] then None
    else if hints[0].0 == "return" then Some(hints[0].1)
    else ReturnHint(hints[1..])
  }

  /** The hints left after "return" is popped. */
  function WithoutReturn(hints: Hints): (r: Hints)
    ensures forall x :: x in r <==> x in hints && x.0 != "return"
    ensures DistinctKeys(hints) ==> DistinctKeys(r)
  {
    if hints == [] then []
    else
      var rest := WithoutReturn(hints[1..]);
      assert forall x :: x in hints[1..] ==> x in hints;
      if hints[0].0 == "return" then rest
      else
        assert DistinctKeys(hints) ==> forall x :: x in rest ==> x.0 != hints[0].0 by {
          if DistinctKeys(hints) {
            forall x | x in rest ensures x.0 != hints[0].0 {
              var j :| 0 <= j < |hints[1..]| && hints[1..][j] == x;
              assert hints[j + 1] == x;
            }
          }
        }
        [hints[0]] + rest
  }

  function Keys(hints: Hints): set<string> {
    set i | 0 <= i < |hints| :: hints[i].0
  }

  /** A hint list with distinct keys has as many keys as entries. */
  lemma {:induction false} KeysCount(hints: Hints)
    requires DistinctKeys(hints)
    ensures |Keys(hints)| == |hints|
  {
    if hints != [] {
      var rest := hints[1..];
      assert DistinctKeys(rest) by {
        forall i, j | 0 <= i < j < |rest| ensures rest[i].0 != rest[j].0 {
          assert rest[i] == hints[i + 1] && rest[j] == hints[j + 1];
        }
      }
      KeysCount(rest);
      assert Keys(hints) == {hints[0].0} + Keys(rest) by {
        forall k | k in Keys(hints) ensures k in {hints[0].0} + Keys(rest) {
          var i :| 0 <= i < |hints| && hints[i].0 == k;
          if i > 0 { assert hints[i] == rest[i - 1]; }
        }
        forall k | k in Keys(rest) ensures k in Keys(hints) {
          var i :| 0 <= i < |rest| && rest[i].0 == k;
          assert rest[i] == hints[i + 1];
        }
      }
      assert hints[0].0 !in Keys(rest) by {
        forall i | 0 <= i < |rest| ensures rest[i].0 != hints[0].0 {
          assert rest[i] == hints[i + 1];
        }
      }
    }
  }

  /** The parameter names are exactly the keys left once "return" is popped. */
  lemma ParamNamesAfterPop(hints: Hints)
    ensures ParamNames(hints) == Keys(WithoutReturn(hints))
  {
    var r := WithoutReturn(hints);
    forall k | k in ParamNames(hints) ensures k in Keys(r) {
      var i :| 0 <= i < |hints| && hints[i].0 != "return" && hints[i].0 == k;
      assert hints[i] in r;
      var j :| 0 <= j < |r| && r[j] == hints[i];
    }
    forall k | k in Keys(r) ensures k in ParamNames(hints) {
      var j :| 0 <= j < |r| && r[j].0 == k;
      assert r[j] in hints;
      var i :| 0 <= i < |hints| && hints[i] == r[j];
    }
  }

  /** `ProcedureSignature(procedure)`: "return" gives the result type; when exactly
      one annotation is left, it names the config parameter and its type. */
  function SignatureOf(hints: Hints): (s: Signature)
    requires DistinctKeys(hints)
    ensures s.resultCls.Some? <==> exists i :: 0 <= i < |hints| && hints[i].0 == "return"
    ensures s.resultCls.Some? ==> ("return", s.resultCls.value) in hints
    ensures s.configName.Some? <==> |ParamNames(hints)| == 1
    ensures s.configName.Some? ==>
      && ParamNames(hints) == {s.configName.value}
      && s.configCls.Some? && (s.configName.value, s.configCls.value) in hints
    ensures s.configName.None? ==> s.configCls.None?
  {
    var params := WithoutReturn(hints);
    ParamNamesAfterPop(hints);
    KeysCount(params);
    var resultCls := ReturnHint(hints);
    if |params| == 1 then
      assert Keys(params) == {params[0].0};
      assert params[0] in params;
      Signature(Some(params[0].0), Some(params[0].1), resultCls)
    else
      Signature(None, None, resultCls)
  }

  // ---------------------------------------------------------------------------
  // Experiment and Run

  /** What `__folder` accepts: nothing (the store folder), a run name inside the
      store, or a path used as it is. */
  datatype Location = Default | Named(name: string) | Explicit(path: Path)

  /** A state and what a step returned (or raised). */
  datatype Effect<T> = Effect(world: World, result: Result<T>)

  /** What iterating a store gives: the runs yielded, in order, and the
      exception that ended the iteration early, if one did. */
  datatype Listing = Listing(runs: seq<Run>, failure: Option<Error>)

  /** `listing` is what `iterdir()` of `dir` yields: each entry directly inside
      `dir` exactly once, in some order. */
  ghost predicate IsListing(t: Tree, dir: Path, listing: seq<Path>) {
    && (forall q :: q in listing <==> q in t && q != [] && Parent(q) == dir)
    && (forall i, j :: 0 <= i < j < |listing| ==> listing[i] != listing[j])
  }

  /** A configuration, its result and the folder they are stored in. */
  datatype Run = Run(config: Value, result: Value, location: Path, experiment: Experiment)
  {
    /** `__make_plot_folder`: the first free name among `plots`, `plots (1)`, …
        inside the run folder, created with parents and without exist_ok. */
    method MakePlotFolder() returns (r: Result<Path>)
      requires experiment.host.Valid()
      modifies experiment.host`tree
      ensures experiment.host.Valid()
      ensures var folder := UniquePath(old(experiment.host.tree), location + ["plots"]);
        && experiment.host.tree == After(old(experiment.host.tree), MkDir(old(experiment.host.tree), folder, true, false))
        && r == Yield(MkDir(old(experiment.host.tree), folder, true, false), folder)
    {
      var folder := UniqueNewPath(experiment.host, location + ["plots"]);
      var made := MkDir(experiment.host.tree, folder, true, false);
      if made.Err? {
        return Err(made.error);
      }
      experiment.host.tree := made.value;
      r := Ok(folder);
    }

    /** `Run.plot`: every plotter of the experiment into a fresh plot folder,
        whose path is returned. */
    method Plot() returns (r: Result<Path>)
      requires experiment.host.Valid()
      modifies experiment.host
      ensures experiment.host.Valid()
      ensures Effect(experiment.host.State(), r) ==
        experiment.Replot(old(experiment.host.State()), config, result, location)
    {
      var made := MakePlotFolder();
      if made.Err? {
        return Err(made.error);
      }
      var o := experiment.Plot(config, result, made.value);
      r := if o.Failed? then Err(o.error) else Ok(made.value);
    }

    /** `Run.rename`: moves the run folder to the first free name derived from
        `newName` next to it, and returns a run at the new location. */
    method Rename(newName: string) returns (r: Result<Run>)
      requires experiment.host.Valid()
      modifies experiment.host`tree
      ensures experiment.host.Valid()
      ensures var dst := UniquePath(old(experiment.host.tree), Parent(location) + [newName]);
        && experiment.host.tree == After(old(experiment.host.tree), FileTree.Rename(old(experiment.host.tree), location, dst))
        && r == Yield(FileTree.Rename(old(experiment.host.tree), location, dst), Run(config, result, dst, experiment))
    {
      var dst := UniqueNewPath(experiment.host, Parent(location) + [newName]);
      var moved := FileTree.Rename(experiment.host.tree, location, dst);
      if moved.Err? {
        return Err(moved.error);
      }
      experiment.host.tree := moved.value;
      r := Ok(Run(config, result, dst, experiment));
    }

    /** `Run.reproduce`: runs the experiment again on the stored configuration. */
    method Reproduce(stamp: string) returns (r: Result<Run>)
      requires experiment.host.Valid()
      modifies experiment.host
      ensures experiment.host.Valid()
      ensures Effect(experiment.host.State(), r) == experiment.Create(old(experiment.host.State()), config, stamp)
    {
      r := experiment.Call(config, stamp);
    }
  }

  /** An experiment: a procedure from configurations to results, with its
      store folder `directory/name` on `host`. */
  class Experiment {
    const procedure: Value -> Result<Value>
    const signature: Signature
    const directory: Path
    const name: string
    const host: Host
    var plotters: seq<Plotter>
    var configOptions: map<string, Value>

    constructor (procedure: Value -> Result<Value>, hints: Hints, directory: Path, name: string, host: Host)
      requires DistinctKeys(hints)
      ensures this.procedure == procedure && signature == SignatureOf(hints)
      ensures this.directory == directory && this.name == name && this.host == host
      ensures plotters == [] && configOptions == map[]
    {
      this.procedure := procedure;
      this.signature := SignatureOf(hints);
      this.directory := directory;
      this.name := name;
      this.host := host;
      this.plotters := [];
      this.configOptions := map[];
    }

    /** `__folder`: the store folder, a run folder inside it by name, or a path as given. */
    function Folder(location: Location): (r: Path)
      ensures location.Default? ==> r == directory + [name]
      ensures location.Named? ==> r == directory + [name, location.name]
      ensures location.Explicit? ==> r == location.path
    {
      match location
      case Default => directory + [name]
      case Named(s) => directory + [name, s]
      case Explicit(p) => p
    }

    /** `__make_folder`: creates `directory/name/<stamp>`, with parents, and
        fails rather than reuse an existing folder. */
    method MakeFolder(stamp: string) returns (r: Result<Path>)
      requires host.Valid()
      modifies host`tree
      ensures host.Valid()
      ensures host.tree == After(old(host.tree), MkDir(old(host.tree), Folder(Default) + [stamp], true, false))
      ensures r == Yield(MkDir(old(host.tree), Folder(Default) + [stamp], true, false), Folder(Default) + [stamp])
      ensures r.Ok? ==> r.value !in old(host.tree) && IsDir(host.tree, r.value)
    {
      var folder := Folder(Default) + [stamp];
      var made := MkDir(host.tree, folder, true, false);
      if made.Err? {
        return Err(made.error);
      }
      host.tree := made.value;
      r := Ok(folder);
    }

    /** `extend_plots`: appends, keeping the plotters already registered. */
    method ExtendPlots(plots: seq<Plotter>)
      modifies this`plotters
      ensures plotters == old(plotters) + plots
    {
      plotters := plotters + plots;
    }

    /** `extend_config_options`: merges, the new options winning on shared names. */
    method ExtendConfigOptions(options: map<string, Value>)
      modifies this`configOptions
      ensures configOptions == old(configOptions) + options
      ensures configOptions.Keys == old(configOptions).Keys + options.Keys
      ensures forall k :: k in options ==> configOptions[k] == options[k]
      ensures forall k :: k in old(configOptions) && k !in options ==> configOptions[k] == old(configOptions)[k]
    {
      configOptions := configOptions + options;
    }

    /** `config(location)`: the folder must be a directory, then its config blob is loaded. */
    function ConfigAt(t: Tree, location: Location): (r: Result<Value>)
      ensures !IsDir(t, Folder(location)) ==> r == Err(AssertionFailed)
      ensures r.Ok? ==> Folder(location) + [ConfigFile] in t && t[Folder(location) + [ConfigFile]] == Blob(r.value)
    {
      LoadFrom(t, Folder(location), ConfigFile)
    }

    /** `result(location)`: the folder must be a directory, then its result blob is loaded. */
    function ResultAt(t: Tree, location: Location): (r: Result<Value>)
      ensures !IsDir(t, Folder(location)) ==> r == Err(AssertionFailed)
      ensures r.Ok? ==> Folder(location) + [ResultFile] in t && t[Folder(location) + [ResultFile]] == Blob(r.value)
    {
      LoadFrom(t, Folder(location), ResultFile)
    }

    /** `plot`: every plotter, in registration order, into `folder`. */
    method Plot(config: Value, result: Value, folder: Path) returns (o: Outcome)
      requires host.Valid()
      modifies host
      ensures host.Valid()
      ensures Step(host.State(), o) == RunPlotters(old(host.State()), plotters, config, result, folder)
    {
      ghost var target := RunPlotters(old(host.State()), plotters, config, result, folder);
      var i := 0;
      while i < |plotters|
        invariant 0 <= i <= |plotters| && host.Valid()
        invariant RunPlotters(host.State(), plotters[i..], config, result, folder) == target
      {
        assert plotters[i..][0] == plotters[i] && plotters[i..][1..] == plotters[i + 1..];
        o := CallPlotter(host, plotters[i], config, result, folder);
        if o.Failed? {
          return;
        }
        i := i + 1;
      }
      o := Done;
    }

    /** What `Run.plot` does to the state for a run of this experiment. */
    function Replot(w: World, config: Value, result: Value, location: Path): (e: Effect<Path>)
      requires WellFormed(w.tree)
      reads this
      ensures WellFormed(e.world.tree)
    {
      var folder := UniquePath(w.tree, location + ["plots"]);
      var made := MkDir(w.tree, folder, true, false);
      if made.Err? then Effect(w, Err(made.error))
      else
        var s := RunPlotters(World(made.value, w.open), plotters, config, result, folder);
        Effect(s.world, if s.outcome.Failed? then Err(s.outcome.error) else Ok(folder))
    }

    /** What `__call__` does to the state: make the run folder, dump the
        configuration, run the procedure, dump the result, then plot when
        plotters are registered; the first exception ends the sequence. */
    function Create(w: World, config: Value, stamp: string): (e: Effect<Run>)
      requires WellFormed(w.tree)
      reads this
      ensures WellFormed(e.world.tree)
    {
      var folder := Folder(Default) + [stamp];
      var made := MkDir(w.tree, folder, true, false);
      if made.Err? then Effect(w, Err(made.error))
      else
        var configured := DumpInto(made.value, folder, ConfigFile, config);
        if configured.Err? then Effect(World(made.value, w.open), Err(configured.error))
        else
          var ran := procedure(config);
          if ran.Err? then Effect(World(configured.value, w.open), Err(ran.error))
          else
            var stored := DumpInto(configured.value, folder, ResultFile, ran.value);
            if stored.Err? then Effect(World(configured.value, w.open), Err(stored.error))
            else
              var run := Run(config, ran.value, folder, this);
              if plotters == [] then Effect(World(stored.value, w.open), Ok(run))
              else
                var plotted := Replot(World(stored.value, w.open), config, ran.value, folder);
                Effect(plotted.world, Yield(plotted.result, run))
    }

    /** `__call__`: creates a run of `config`; `stamp` is the formatted time. */
    method Call(config: Value, stamp: string) returns (r: Result<Run>)
      requires host.Valid()
      modifies host
      ensures host.Valid()
      ensures Effect(host.State(), r) == Create(old(host.State()), config, stamp)
    {
      var made := MakeFolder(stamp);
      if made.Err? {
        return Err(made.error);
      }
      var folder := made.value;
      var o := DumpConfig(host, config, folder);
      if o.Failed? {
        return Err(o.error);
      }
      var ran := procedure(config);
      if ran.Err? {
        return Err(ran.error);
      }
      o := DumpResult(host, ran.value, folder);
      if o.Failed? {
        return Err(o.error);
      }
      var run := Run(config, ran.value, folder, this);
      if plotters != [] {
        var plotted := run.Plot();
        if plotted.Err? {
          return Err(plotted.error);
        }
      }
      r := Ok(run);
    }

    /** `item in experiment`: both blobs exist in the resolved folder. */
    predicate Contains(t: Tree, location: Location) {
      Holds(t, Folder(location), ConfigFile) && Holds(t, Folder(location), ResultFile)
    }

    /** `experiment[item]`: loads the configuration, then the result. */
    function GetItem(t: Tree, location: Location): (r: Result<Run>)
      ensures !IsDir(t, Folder(location)) ==> r == Err(AssertionFailed)
      ensures r.Ok? <==>
        && IsDir(t, Folder(location)) && Contains(t, location)
        && t[Folder(location) + [ConfigFile]].Blob? && t[Folder(location) + [ResultFile]].Blob?
      ensures r.Ok? ==>
        && r.value.location == Folder(location) && r.value.experiment == this
        && t[Folder(location) + [ConfigFile]] == Blob(r.value.config)
        && t[Folder(location) + [ResultFile]] == Blob(r.value.result)
      ensures IsDir(t, Folder(location)) && !Holds(t, Folder(location), ConfigFile) ==> r == Err(FileNotFound)
      ensures (IsDir(t, Folder(location)) && Holds(t, Folder(location), ConfigFile) && t[Folder(location) + [ConfigFile]].Blob?
               && !Holds(t, Folder(location), ResultFile)) ==> r == Err(FileNotFound)
    {
      var folder := Folder(location);
      match ConfigAt(t, location)
      case Err(e) => Err(e)
      case Ok(config) =>
        match ResultAt(t, location)
        case Err(e) => Err(e)
        case Ok(result) => Ok(Run(config, result, folder, this))
    }

    /** The entries of `listing` that `__iter__` keeps: directories that are runs. */
    function Members(t: Tree, listing: seq<Path>): (r: seq<Path>)
      ensures forall q :: q in r <==> q in listing && IsDir(t, q) && Contains(t, Explicit(q))
      ensures |r| <= |listing|
    {
      if listing == [] then []
      else
        var rest := Members(t, listing[1..]);
        assert forall q :: q in listing <==> q == listing[0] || q in listing[1..];
        if IsDir(t, listing[0]) && Contains(t, Explicit(listing[0])) then [listing[0]] + rest else rest
    }

    /** Loads runs from `locations` in order, stopping at the first that fails. */
    function LoadRuns(t: Tree, locations: seq<Path>): (l: Listing)
      ensures |l.runs| <= |locations|
      ensures forall i :: 0 <= i < |l.runs| ==> GetItem(t, Explicit(locations[i])) == Ok(l.runs[i])
      ensures l.failure.None? ==> |l.runs| == |locations|
      ensures l.failure.Some? ==> |l.runs| < |locations| && GetItem(t, Explicit(locations[|l.runs|])) == Err(l.failure.value)
    {
      if locations == [] then Listing([], None)
      else
        match GetItem(t, Explicit(locations[0]))
        case Err(e) => Listing([], Some(e))
        case Ok(run) =>
          var rest := LoadRuns(t, locations[1..]);
          Listing([run] + rest.runs, rest.failure)
    }

    /** `__iter__`: lists the store folder and yields a run for each member
        directory; listing a missing store folder or a file raises. */
    function Runs(t: Tree, listing: seq<Path>): (l: Listing)
      requires IsDir(t, Folder(Default)) ==> IsListing(t, Folder(Default), listing)
      ensures !IsDir(t, Folder(Default)) ==> l.runs == [] && l.failure == DirError(t, Folder(Default))
      ensures IsDir(t, Folder(Default)) ==> l == LoadRuns(t, Members(t, listing))
    {
      match DirError(t, Folder(Default))
      case Some(e) => Listing([], Some(e))
      case None => LoadRuns(t, Members(t, listing))
    }
  }

  // ---------------------------------------------------------------------------
  // Lookup and iteration

  /** `idx` embeds `r` in `listing`: entry k of `r` is entry `idx[k]` of
      `listing`, and the positions strictly increase. */
  ghost predicate Embeds(idx: seq<int>, r: seq<Path>, listing: seq<Path>) {
    && |idx| == |r|
    && (forall k :: 0 <= k < |idx| ==> 0 <= idx[k] < |listing| && listing[idx[k]] == r[k])
    && (forall i, j :: 0 <= i < j < |idx| ==> idx[i] < idx[j])
  }

  /** Where each member sits in the listing. */
  ghost function MemberPositions(e: Experiment, t: Tree, listing: seq<Path>): (idx: seq<int>)
    ensures Embeds(idx, e.Members(t, listing), listing)
  {
    if listing == [] then []
    else
      var rest := MemberPositions(e, t, listing[1..]);
      assert listing == [listing[0]] + listing[1..];
      if IsDir(t, listing[0]) && e.Contains(t, Explicit(listing[0])) then
        EmbedsKeep(rest, e.Members(t, listing[1..]), listing[0], listing[1..]);
        [0] + Shifted(rest)
      else
        EmbedsSkip(rest, e.Members(t, listing[1..]), listing[0], listing[1..]);
        Shifted(rest)
  }

  /** Every position moved one further on. */
  function Shifted(idx: seq<int>): (s: seq<int>)
    ensures |s| == |idx| && forall k :: 0 <= k < |s| ==> s[k] == idx[k] + 1
  {
    seq(|idx|, k requires 0 <= k < |idx| => idx[k] + 1)
  }

  /** An embedding survives an entry put in front of the listing. */
  lemma EmbedsSkip(idx: seq<int>, r: seq<Path>, x: Path, rest: seq<Path>)
    requires Embeds(idx, r, rest)
    ensures Embeds(Shifted(idx), r, [x] + rest)
  {
    var s := Shifted(idx);
    forall k | 0 <= k < |s| ensures 0 <= s[k] < |[x] + rest| && ([x] + rest)[s[k]] == r[k] {
      assert ([x] + rest)[idx[k] + 1] == rest[idx[k]];
    }
  }

  /** An embedding extends by the same entry put in front of both sequences. */
  lemma EmbedsKeep(idx: seq<int>, r: seq<Path>, x: Path, rest: seq<Path>)
    requires Embeds(idx, r, rest)
    ensures Embeds([0] + Shifted(idx), [x] + r, [x] + rest)
  {
    EmbedsSkip(idx, r, x, rest);
    var s := [0] + Shifted(idx);
    forall k | 0 <= k < |s| ensures 0 <= s[k] < |[x] + rest| && ([x] + rest)[s[k]] == ([x] + r)[k] {
      if k > 0 {
        assert s[k] == Shifted(idx)[k - 1] && ([x] + r)[k] == r[k - 1];
      }
    }
    forall i, j | 0 <= i < j < |s| ensures s[i] < s[j] {
      if i > 0 {
        assert s[i] == Shifted(idx)[i - 1] && s[j] == Shifted(idx)[j - 1];
      }
    }
  }

  /** `__iter__` yields in listing order: its members are a subsequence of the
      listing, so no entry is yielded twice when the listing repeats none. */
  lemma MembersInListingOrder(e: Experiment, t: Tree, listing: seq<Path>)
    ensures exists idx :: Embeds(idx, e.Members(t, listing), listing)
    ensures (forall a, b :: 0 <= a < b < |listing| ==> listing[a] != listing[b]) ==>
      forall i, j :: 0 <= i < j < |e.Members(t, listing)| ==> e.Members(t, listing)[i] != e.Members(t, listing)[j]
  {
    var r, idx := e.Members(t, listing), MemberPositions(e, t, listing);
    if forall a, b :: 0 <= a < b < |listing| ==> listing[a] != listing[b] {
      forall i, j | 0 <= i < j < |r| ensures r[i] != r[j] {
        assert listing[idx[i]] == r[i] && listing[idx[j]] == r[j] && idx[i] < idx[j];
      }
    }
  }

  /** A folder directly inside the store is found by its name alone. */
  lemma ChildByName(e: Experiment, q: Path)
    requires q != [] && Parent(q) == e.Folder(Default)
    ensures e.Folder(Named(Name(q))) == q
  {
    assert q == Parent(q) + [Name(q)];
  }

  /** On a well-formed tree a folder holding either blob is a directory, so a
      lookup succeeds exactly on members whose two blobs are pickles. */
  lemma LookupIffMember(e: Experiment, t: Tree, location: Location)
    requires WellFormed(t)
    ensures e.GetItem(t, location).Ok? <==>
      && e.Contains(t, location)
      && t[e.Folder(location) + [ConfigFile]].Blob? && t[e.Folder(location) + [ResultFile]].Blob?
  {
    var folder := e.Folder(location);
    if e.Contains(t, location) {
      ParentIsDir(t, folder + [ConfigFile]);
      assert Parent(folder + [ConfigFile]) == folder;
    }
  }

  /** `__iter__` keeps exactly the directories directly inside the store that
      `name in experiment` accepts. */
  lemma IterationKeepsMembers(e: Experiment, t: Tree, listing: seq<Path>, q: Path)
    requires IsListing(t, e.Folder(Default), listing)
    ensures q in e.Members(t, listing) <==>
      q in t && q != [] && Parent(q) == e.Folder(Default) && IsDir(t, q) && e.Contains(t, Named(Name(q)))
  {
    if q != [] && Parent(q) == e.Folder(Default) {
      ChildByName(e, q);
    }
  }

  /** An iteration that ends without an exception yields one run per member,
      each equal to what looking it up gives. */
  lemma IterationYieldsMembers(e: Experiment, t: Tree, listing: seq<Path>)
    requires IsDir(t, e.Folder(Default)) && IsListing(t, e.Folder(Default), listing)
    requires e.Runs(t, listing).failure.None?
    ensures |e.Runs(t, listing).runs| == |e.Members(t, listing)|
    ensures forall i :: 0 <= i < |e.Members(t, listing)| ==>
      e.Runs(t, listing).runs[i].location == e.Members(t, listing)[i] &&
      e.GetItem(t, Explicit(e.Members(t, listing)[i])) == Ok(e.Runs(t, listing).runs[i])
  {
  }

  // ---------------------------------------------------------------------------
  // Creating a run

  /** Creation is exclusive: an existing folder of the same timestamp makes it
      fail, with nothing changed. */
  lemma CreateRefusesExisting(e: Experiment, w: World, config: Value, stamp: string)
    requires WellFormed(w.tree) && e.Folder(Default) + [stamp] in w.tree
    ensures e.Create(w, config, stamp) == Effect(w, Err(FileExists))
  {
  }

  /** A run folder that can be made receives the configuration before the
      procedure runs: if the procedure raises, its configuration is on disk,
      there is no result, and looking the half-written run up raises
      FileNotFoundError. */
  lemma CreateKeepsConfigOnFailure(e: Experiment, w: World, config: Value, stamp: string, err: Error)
    requires WellFormed(w.tree)
    requires MkDir(w.tree, e.Folder(Default) + [stamp], true, false).Ok?
    requires e.procedure(config) == Err(err)
    ensures var c := e.Create(w, config, stamp);
      var folder := e.Folder(Default) + [stamp];
      && c.result == Err(err)
      && LoadFrom(c.world.tree, folder, ConfigFile) == Ok(config)
      && !Holds(c.world.tree, folder, ResultFile)
      && e.GetItem(c.world.tree, Named(stamp)) == Err(FileNotFound)
  {
    var folder := e.Folder(Default) + [stamp];
    var t1 := MkDir(w.tree, folder, true, false).value;
    FreshFolderIsEmpty(w.tree, t1, folder);
    BlobNamesDiffer();
    assert e.Folder(Named(stamp)) == folder;
  }

  /** After `MkDir(t, folder, _, false)` succeeds, the new folder is an empty directory. */
  lemma FreshFolderIsEmpty(t: Tree, t1: Tree, folder: Path)
    requires WellFormed(t) && MkDir(t, folder, true, false) == Ok(t1)
    ensures IsDir(t1, folder) && folder !in t
    ensures forall q :: q in t1 ==> !(folder < q)
  {
    FreeHasNoDescendants(t, folder);
    forall q | q in t1 ensures !(folder < q) {
      if q !in t {
        assert q <= folder;
      }
    }
  }

  /** `t2` keeps every entry of `t` with its contents. */
  ghost predicate Keeps(t: Tree, t2: Tree) {
    forall q :: q in t ==> q in t2 && t2[q] == t[q]
  }

  /** Nothing that existed is overwritten: every old entry keeps its contents. */
  lemma CreateKeepsExisting(e: Experiment, w: World, config: Value, stamp: string)
    requires WellFormed(w.tree)
    ensures Keeps(w.tree, e.Create(w, config, stamp).world.tree)
  {
    var folder := e.Folder(Default) + [stamp];
    var made := MkDir(w.tree, folder, true, false);
    if made.Ok? {
      var t1 := made.value;
      FreshFolderIsEmpty(w.tree, t1, folder);
      FreeHasNoDescendants(w.tree, folder);
      assert Keeps(w.tree, t1);
      var configured := DumpInto(t1, folder, ConfigFile, config);
      if configured.Ok? {
        var t2 := configured.value;
        DumpIntoFreshKeeps(w.tree, t1, folder, ConfigFile, config);
        var ran := e.procedure(config);
        if ran.Ok? {
          var stored := DumpInto(t2, folder, ResultFile, ran.value);
          if stored.Ok? {
            var t3 := stored.value;
            DumpIntoFreshKeeps(w.tree, t2, folder, ResultFile, ran.value);
            if e.plotters != [] {
              ReplotKeepsOutsideFolder(e, World(t3, w.open), config, ran.value, folder);
              var plotted := e.Replot(World(t3, w.open), config, ran.value, folder);
              assert e.Create(w, config, stamp).world == plotted.world;
              var plotFolder := UniquePath(t3, folder + ["plots"]);
              forall q | q in w.tree ensures q in plotted.world.tree && plotted.world.tree[q] == w.tree[q] {
                assert !(folder <= q);
                assert folder <= folder + ["plots"];
                PlotFolderUnderRun(t3, folder, q);
              }
            }
          }
        }
      }
    }
  }

  /** A blob dumped into a folder that did not exist in `t` keeps everything of `t`. */
  lemma DumpIntoFreshKeeps(t: Tree, t1: Tree, folder: Path, file: string, v: Value)
    requires WellFormed(t1) && Keeps(t, t1) && DumpInto(t1, folder, file, v).Ok?
    requires forall q :: q in t ==> !(folder <= q)
    ensures Keeps(t, DumpInto(t1, folder, file, v).value)
  {
    assert folder <= folder + [file];
  }

  /** An entry outside the run folder is not inside its plot folder. */
  lemma PlotFolderUnderRun(t: Tree, folder: Path, q: Path)
    requires !(folder <= q)
    ensures !(UniquePath(t, folder + ["plots"]) < q)
  {
    var pf := UniquePath(t, folder + ["plots"]);
    assert Parent(folder + ["plots"]) == folder;
    ResolvesSibling(t, folder + ["plots"], pf);
    assert folder <= pf;
    PrefixChain(folder, pf, q);
  }

  /** A successful creation leaves a member: looking it up, by its timestamp or
      by its path, gives back the configuration and the procedure's result. */
  lemma CreateAddsMember(e: Experiment, w: World, config: Value, stamp: string)
    requires WellFormed(w.tree) && e.Create(w, config, stamp).result.Ok?
    ensures var c := e.Create(w, config, stamp);
      var run := c.result.value;
      && run == Run(config, run.result, e.Folder(Default) + [stamp], e)
      && e.procedure(config) == Ok(run.result)
      && e.Folder(Named(stamp)) == run.location
      && e.Contains(c.world.tree, Named(stamp))
      && e.GetItem(c.world.tree, Named(stamp)) == Ok(run)
      && e.GetItem(c.world.tree, Explicit(run.location)) == Ok(run)
  {
    var folder := e.Folder(Default) + [stamp];
    var t1 := MkDir(w.tree, folder, true, false).value;
    FreshFolderIsEmpty(w.tree, t1, folder);
    BlobNamesDiffer();
    var ran := e.procedure(config);
    var t2 := DumpInto(t1, folder, ConfigFile, config).value;
    var t3 := DumpInto(t2, folder, ResultFile, ran.value).value;
    assert t3[folder + [ConfigFile]] == Blob(config) && t3[folder + [ResultFile]] == Blob(ran.value);
    if e.plotters != [] {
      ReplotKeepsOutsideFolder(e, World(t3, w.open), config, ran.value, folder);
      var plotFolder := UniquePath(t3, folder + ["plots"]);
      assert forall q :: |q| == |folder| + 1 ==> !(plotFolder < q) by {
        if folder + ["plots"] in t3 { ResolvesSibling(t3, folder + ["plots"], plotFolder); }
      }
    }
  }

  /** Plots are made at creation exactly when plotters are registered: without
      any, the new run folder holds just the two blobs and no figure is opened;
      with some, a successful creation leaves its `plots` folder. */
  lemma CreatePlotsOnlyWithPlotters(e: Experiment, w: World, config: Value, stamp: string)
    requires WellFormed(w.tree) && e.Create(w, config, stamp).result.Ok?
    ensures var c := e.Create(w, config, stamp);
      var folder := e.Folder(Default) + [stamp];
      && (e.plotters == [] ==>
            && c.world.open == w.open
            && forall q :: q in c.world.tree && folder < q ==> q == folder + [ConfigFile] || q == folder + [ResultFile])
      && (e.plotters != [] ==> IsDir(c.world.tree, folder + ["plots"]))
  {
    var folder := e.Folder(Default) + [stamp];
    var t1 := MkDir(w.tree, folder, true, false).value;
    FreshFolderIsEmpty(w.tree, t1, folder);
    var ran := e.procedure(config);
    var t2 := DumpInto(t1, folder, ConfigFile, config).value;
    var t3 := DumpInto(t2, folder, ResultFile, ran.value).value;
    if e.plotters != [] {
      var plots := folder + ["plots"];
      assert plots != folder + [ConfigFile] && plots != folder + [ResultFile] by {
        assert plots[|folder|] == "plots";
        assert "plots"[0] != ConfigFile[0] && "plots"[0] != ResultFile[0];
      }
      assert Parent(plots) == folder;
      assert plots !in t3;
      assert UniquePath(t3, plots) == plots;
      var made := MkDir(t3, plots, true, false);
      var s := RunPlotters(World(made.value, w.open), e.plotters, config, ran.value, plots);
      assert ChangesBeneath(made.value, s.world.tree, plots);
    }
  }

  // ---------------------------------------------------------------------------
  // Plotting a run

  /** The plot folders of a run are siblings inside it: `plots`, or the first
      free `plots (n)`. */
  lemma PlotFolderNames(t: Tree, location: Path)
    ensures var folder := UniquePath(t, location + ["plots"]);
      && Parent(folder) == location && folder !in t
      && (folder == location + ["plots"] ||
          exists n: nat :: 1 <= n && folder == location + ["plots (" + Digits(n) + ")"] &&
            forall k: nat :: 1 <= k < n ==> location + ["plots (" + Digits(k) + ")"] in t)
  {
    var p := location + ["plots"];
    var folder := UniquePath(t, p);
    assert Parent(p) == location && Name(p) == "plots";
    ResolvesSibling(t, p, folder);
    if p in t {
      var n: nat :| 1 <= n && folder == Candidate(p, n) &&
                    forall k: nat :: 1 <= k < n ==> Candidate(p, k) in t;
      assert LastDot("plots") == -1;
      assert "plots" + " (" == "plots (";
      forall k: nat | 1 <= k ensures Candidate(p, k) == location + ["plots (" + Digits(k) + ")"] {
        CandidateOfPlainName("plots", k);
      }
      assert folder == location + ["plots (" + Digits(n) + ")"];
    }
  }

  /** Plotting a run only adds the new plot folder, the missing folders above
      it that `mkdir(parents=True)` creates, and what lands inside it. */
  lemma ReplotKeepsOutsideFolder(e: Experiment, w: World, config: Value, result: Value, location: Path)
    requires WellFormed(w.tree)
    ensures var folder := UniquePath(w.tree, location + ["plots"]);
      var r := e.Replot(w, config, result, location);
      && (forall q :: q in w.tree ==> q in r.world.tree && (!(folder < q) ==> r.world.tree[q] == w.tree[q]))
      && (forall q :: q in r.world.tree && q !in w.tree ==> q <= folder || folder < q)
      && (r.result.Ok? ==> r.result.value == folder)
  {
    var folder := UniquePath(w.tree, location + ["plots"]);
    var made := MkDir(w.tree, folder, true, false);
    if made.Ok? {
      var s := RunPlotters(World(made.value, w.open), e.plotters, config, result, folder);
      assert ChangesBeneath(made.value, s.world.tree, folder);
    }
  }

  /** Plotting a run whose folder exists always gets a fresh plot folder, and
      leaves every existing entry as it was. */
  lemma ReplotFreshFolder(e: Experiment, w: World, config: Value, result: Value, location: Path)
    requires WellFormed(w.tree) && IsDir(w.tree, location)
    ensures var folder := UniquePath(w.tree, location + ["plots"]);
      var r := e.Replot(w, config, result, location);
      && folder !in w.tree && Parent(folder) == location && IsDir(r.world.tree, folder)
      && (forall q :: q in w.tree ==> q in r.world.tree && r.world.tree[q] == w.tree[q])
      && (r.result.Ok? ==> r.result.value == folder)
  {
    var folder := UniquePath(w.tree, location + ["plots"]);
    PlotFolderNames(w.tree, location);
    var made := MkDir(w.tree, folder, true, false);
    assert made.Ok?;
    FreeHasNoDescendants(w.tree, folder);
    var s := RunPlotters(World(made.value, w.open), e.plotters, config, result, folder);
    assert ChangesBeneath(made.value, s.world.tree, folder);
    forall q | q in w.tree ensures !(folder < q) {
      assert !(folder <= q);
    }
  }

  // ---------------------------------------------------------------------------
  // Renaming a run

  /** Renaming a run that can be looked up moves it to a free sibling and the
      run is found there with the same configuration and result; nothing
      remains at the old location and no existing path is overwritten. */
  lemma RenameMovesRun(e: Experiment, t: Tree, location: Path, newName: string)
    requires WellFormed(t) && location != [] && e.GetItem(t, Explicit(location)).Ok?
    ensures var dst := UniquePath(t, Parent(location) + [newName]);
      var run := e.GetItem(t, Explicit(location)).value;
      && dst !in t && Parent(dst) == Parent(location)
      && FileTree.Rename(t, location, dst).Ok?
      && location !in FileTree.Rename(t, location, dst).value
      && e.GetItem(FileTree.Rename(t, location, dst).value, Explicit(dst)) == Ok(Run(run.config, run.result, dst, e))
  {
    var p := Parent(location) + [newName];
    var dst := UniquePath(t, p);
    assert Parent(p) == Parent(location);
    ResolvesSibling(t, p, dst);
    ParentIsDir(t, location);
    assert |dst| == |location| by {
      assert Parent(dst) + [Name(dst)] == dst && Parent(location) + [Name(location)] == location;
    }
    PrefixOfSameLength(location, dst);
    PrefixOfSameLength(dst, location);
    var m := Moved(t, location, dst);
    assert location + [] == location && dst + [] == dst;
    MovedCarries(t, location, dst, []);
    MovedCarries(t, location, dst, [ConfigFile]);
    MovedCarries(t, location, dst, [ResultFile]);
    if location in m {
      MovedSource(t, location, dst, location);
    }
  }

  /** A path that does not extend `a` does not extend anything that extends `a`. */
  lemma PrefixChain(a: Path, b: Path, q: Path)
    requires a <= b
    ensures !(a <= q) ==> !(b <= q)
  {
    if b <= q {
      assert q[..|a|] == b[..|a|];
    }
  }

  lemma PrefixOfSameLength(a: Path, b: Path)
    requires |a| == |b|
    ensures a <= b ==> a == b
  {
  }

  // ---------------------------------------------------------------------------
  // Decorators

  /** What `experiment(root_directory, name)` captures. */
  datatype ExperimentDecorator = ExperimentDecorator(root: Path, name: Option<string>)

  /** The name the decorator gives the experiment of procedure `procName`: the
      explicit name if one was given, otherwise the procedure's own name. */
  function IntendedName(d: ExperimentDecorator, procName: string): (n: string)
    ensures d.name.Some? ==> n == d.name.value
    ensures d.name.None? ==> n == procName
  {
    if d.name.Some? then d.name.value else procName
  }

  /** With no explicit name, one decorator applied to two procedures gives two
      experiments named after their own procedures, so their names differ, and
      so do their store folders `root/<name>`. */
  lemma IntendedNamesDiffer(root: Path, a: string, b: string)
    requires a != b
    ensures IntendedName(ExperimentDecorator(root, None), a) != IntendedName(ExperimentDecorator(root, None), b)
    ensures root + [IntendedName(ExperimentDecorator(root, None), a)] != root + [IntendedName(ExperimentDecorator(root, None), b)]
  {
    var sa := root + [IntendedName(ExperimentDecorator(root, None), a)];
    var sb := root + [IntendedName(ExperimentDecorator(root, None), b)];
    assert sa[|root|] != sb[|root|];
  }

  /** The decorator as written: `nonlocal name` writes the first procedure's name
      back into the decorator, so every later application reuses it. Returns the
      name used and the name the decorator holds afterwards. */
  function AsWrittenName(captured: Option<string>, procName: string): (r: (string, Option<string>))
    ensures r.1 == Some(r.0)
    ensures captured.Some? ==> r.0 == captured.value
    ensures captured.None? ==> r.0 == procName
  {
    var used := if captured.None? then procName else captured.value;
    (used, Some(used))
  }

  /** Reusing one decorator without a name for `train` and then `evaluate`
      names the second experiment `train`, so both share one store folder. */
  lemma AsWrittenReuseSharesStore()
    ensures var first := AsWrittenName(None, "train");
      var second := AsWrittenName(first.1, "evaluate");
      second.0 == "train" && second.0 != IntendedName(ExperimentDecorator([], None), "evaluate")
  {
  }

  /** The closure `experiment(root_directory, name)` returns as the code is
      written: `name` is a cell of the closure that every application rebinds. */
  class ExperimentClosure {
    const root: Path
    var name: Option<string>

    constructor (root: Path, name: Option<string>)
      ensures this.root == root && this.name == name
    {
      this.root := root;
      this.name := name;
    }

    /** One application: the experiment gets the captured name, or the
        procedure's when none is captured yet, and that name is written back. */
    method Apply(procedure: Value -> Result<Value>, procName: string, hints: Hints, host: Host) returns (e: Experiment)
      requires DistinctKeys(hints)
      modifies this`name
      ensures fresh(e)
      ensures e.procedure == procedure && e.signature == SignatureOf(hints) && e.host == host
      ensures e.directory == root && e.name == AsWrittenName(old(name), procName).0
      ensures name == AsWrittenName(old(name), procName).1
      ensures e.plotters == [] && e.configOptions == map[]
    {
      name := Some(if name.None? then procName else name.value);
      e := new Experiment(procedure, hints, root, name.value, host);
    }
  }

  /** The decorator applied to a procedure, with the naming rule corrected:
      each procedure is named by the explicit name or its own. */
  method Decorate(d: ExperimentDecorator, procedure: Value -> Result<Value>, procName: string, hints: Hints, host: Host)
    returns (e: Experiment)
    requires DistinctKeys(hints)
    ensures fresh(e)
    ensures e.procedure == procedure && e.signature == SignatureOf(hints) && e.host == host
    ensures e.directory == d.root && e.name == IntendedName(d, procName)
    ensures e.plotters == [] && e.configOptions == map[]
  {
    e := new Experiment(procedure, hints, d.root, IntendedName(d, procName), host);
  }

  /** One plotter per artist, in the order given, all with the same format and display flag. */
  function PlottersFor(artists: seq<Artist>, fileFormat: string, show: bool): (ps: seq<Plotter>)
    ensures |ps| == |artists|
    ensures forall i :: 0 <= i < |ps| ==> ps[i] == Plotter(artists[i], fileFormat, show)
  {
    if artists == [] then []
    else [Plotter(artists[0], fileFormat, show)] + PlottersFor(artists[1..], fileFormat, show)
  }

  /** `plot(*artists, file_format="pdf", show=False)` applied to an experiment. */
  method DecoratePlot(e: Experiment, artists: seq<Artist>, fileFormat: string := "pdf", show: bool := false) returns (r: Experiment)
    modifies e`plotters
    ensures r == e && e.plotters == old(e.plotters) + PlottersFor(artists, fileFormat, show)
  {
    e.ExtendPlots(PlottersFor(artists, fileFormat, show));
    r := e;
  }

  /** `config_option(name, config)` applied to an experiment. */
  method DecorateConfigOption(e: Experiment, name: string, config: Value) returns (r: Experiment)
    modifies e`configOptions
    ensures r == e && e.configOptions == old(e.configOptions)[name := config]
  {
    e.ExtendConfigOptions(map[name := config]);
    r := e;
  }

  /** `config_options(options)` applied to an experiment. */
  method DecorateConfigOptions(e: Experiment, options: map<string, Value>) returns (r: Experiment)
    modifies e`configOptions
    ensures r == e && e.configOptions == old(e.configOptions) + options
  {
    e.ExtendConfigOptions(options);
    r := e;
  }
}

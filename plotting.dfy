/** Plot pipelines: an artist draws one figure or a name-to-figure mapping from a
    run's configuration and result, and the pipeline saves each figure under the
    target folder and closes it. */
module Plotting {
  import opened Errors
  import opened Paths
  import opened FileTree

  /** What an artist returns: one figure, or a mapping from entry names to
      figures, in the mapping's iteration order. */
  datatype Plot = Single(figure: Figure) | Many(entries: seq<(string, Figure)>)

  /** A drawing callback and the name of the Python function behind it. */
  datatype Artist = Artist(name: string, draw: (Value, Value) -> Result<Plot>)

  /** One registered plot pipeline. */
  datatype Plotter = Plotter(artist: Artist, fileFormat: string, show: bool)

  /** The state after a step, and whether the step returned or raised. */
  datatype Step = Step(world: World, outcome: Outcome)

  /** `f"{name}.{file_format}"`. */
  function FileName(name: string, fmt: string): string {
    name + "." + fmt
  }

  lemma FileNameInjective(a: string, b: string, fmt: string)
    requires FileName(a, fmt) == FileName(b, fmt)
    ensures a == b
  {
    assert a == FileName(a, fmt)[..|a|];
    assert b == FileName(b, fmt)[..|b|];
  }

  function EntryFigures(entries: seq<(string, Figure)>): set<Figure> {
    set i | 0 <= i < |entries| :: entries[i].1
  }

  function PlotFigures(plot: Plot): set<Figure> {
    match plot
    case Single(f) => {f}
    case Many(entries) => EntryFigures(entries)
  }

  /** `t2` grew from `t` without removing anything, and every entry that is
      not strictly beneath `folder` is unchanged. */
  ghost predicate ChangesBeneath(t: Tree, t2: Tree, folder: Path) {
    && (forall q :: q in t ==> q in t2)
    && (forall q :: q in t2 && !(folder < q) ==> q in t && t2[q] == t[q])
  }

  /** `Plotter.__dump_figure`: `savefig` writes the figure to
      `folder/<name>.<format>`; only when that returns is the figure closed. */
  function DumpFigure(w: World, figure: Figure, folder: Path, name: string, fmt: string): (s: Step)
    requires WellFormed(w.tree)
    ensures WellFormed(s.world.tree) && ChangesBeneath(w.tree, s.world.tree, folder)
    ensures s.outcome.Done? <==> IsDir(w.tree, folder) && !IsDir(w.tree, folder + [FileName(name, fmt)])
    ensures s.outcome.Done? ==>
      s.world == World(w.tree[folder + [FileName(name, fmt)] := Image(figure)], w.open - {figure})
    ensures s.outcome.Failed? ==> s.world == w
  {
    var path := folder + [FileName(name, fmt)];
    assert Parent(path) == folder;
    match WriteFile(w.tree, path, Image(figure))
    case Err(e) => Step(w, Failed(e))
    case Ok(t) => Step(World(t, w.open - {figure}), Done)
  }

  /** The files a mapping is saved to. */
  function EntryFiles(entries: seq<(string, Figure)>, folder: Path, fmt: string): set<Path> {
    set i | 0 <= i < |entries| :: folder + [FileName(entries[i].0, fmt)]
  }

  lemma EntryFilesSplit(entries: seq<(string, Figure)>, folder: Path, fmt: string)
    requires entries != []
    ensures EntryFiles(entries, folder, fmt) ==
      {folder + [FileName(entries[0].0, fmt)]} + EntryFiles(entries[1..], folder, fmt)
  {
    var rest := entries[1..];
    forall q | q in EntryFiles(entries, folder, fmt)
      ensures q in {folder + [FileName(entries[0].0, fmt)]} + EntryFiles(rest, folder, fmt)
    {
      var i :| 0 <= i < |entries| && q == folder + [FileName(entries[i].0, fmt)];
      if i > 0 { assert entries[i] == rest[i - 1]; }
    }
    forall q | q in EntryFiles(rest, folder, fmt) ensures q in EntryFiles(entries, folder, fmt) {
      var i :| 0 <= i < |rest| && q == folder + [FileName(rest[i].0, fmt)];
      assert rest[i] == entries[i + 1];
    }
  }

  /** With distinct names, the first entry's file is not among the others' files. */
  lemma FirstFileUnshared(entries: seq<(string, Figure)>, folder: Path, fmt: string)
    requires entries != [] && DistinctNames(entries)
    ensures folder + [FileName(entries[0].0, fmt)] !in EntryFiles(entries[1..], folder, fmt)
    ensures DistinctNames(entries[1..])
  {
    var rest := entries[1..];
    var file := folder + [FileName(entries[0].0, fmt)];
    forall j | 0 <= j < |rest| ensures folder + [FileName(rest[j].0, fmt)] != file {
      assert rest[j] == entries[j + 1];
      if folder + [FileName(rest[j].0, fmt)] == file {
        assert FileName(rest[j].0, fmt) == (folder + [FileName(rest[j].0, fmt)])[|folder|];
        FileNameInjective(rest[j].0, entries[0].0, fmt);
      }
    }
    forall i, j | 0 <= i < j < |rest| ensures rest[i].0 != rest[j].0 {
      assert rest[i] == entries[i + 1] && rest[j] == entries[j + 1];
    }
  }

  /** The loop over a mapping's items: each figure is dumped in turn, and the
      first failure ends the loop. Only the entries' files can change. */
  function DumpEntries(w: World, entries: seq<(string, Figure)>, folder: Path, fmt: string): (s: Step)
    requires WellFormed(w.tree)
    ensures WellFormed(s.world.tree) && ChangesBeneath(w.tree, s.world.tree, folder)
    ensures forall q :: q in s.world.tree && q !in EntryFiles(entries, folder, fmt) ==>
      q in w.tree && s.world.tree[q] == w.tree[q]
    ensures s.outcome.Done? ==> s.world.open == w.open - EntryFigures(entries)
    decreases |entries|
  {
    if entries == [] then Step(w, Done)
    else
      var s1 := DumpFigure(w, entries[0].1, folder, entries[0].0, fmt);
      EntryFilesSplit(entries, folder, fmt);
      if s1.outcome.Failed? then s1
      else
        EntryFiguresSplit(entries);
        DumpEntries(s1.world, entries[1..], folder, fmt)
  }

  lemma EntryFiguresSplit(entries: seq<(string, Figure)>)
    requires entries != []
    ensures EntryFigures(entries) == {entries[0].1} + EntryFigures(entries[1..])
  {
    forall f | f in EntryFigures(entries) ensures f in {entries[0].1} + EntryFigures(entries[1..]) {
      var i :| 0 <= i < |entries| && entries[i].1 == f;
      if i > 0 { assert entries[1..][i - 1] == entries[i]; }
    }
    forall f | f in EntryFigures(entries[1..]) ensures f in EntryFigures(entries) {
      var i :| 0 <= i < |entries[1..]| && entries[1..][i].1 == f;
      assert entries[i + 1] == entries[1..][i];
    }
  }

  /** `Plotter.__call__`: the artist draws (its figures are then open); one
      figure is saved directly in `directory` under the artist's name, a mapping
      goes into the sub-folder named after the artist, created if missing. */
  function PlotterEffect(w: World, p: Plotter, config: Value, result: Value, directory: Path): (s: Step)
    requires WellFormed(w.tree)
    ensures WellFormed(s.world.tree) && ChangesBeneath(w.tree, s.world.tree, directory)
    ensures p.artist.draw(config, result).Err? ==> s == Step(w, Failed(p.artist.draw(config, result).error))
    ensures s.outcome.Done? ==>
      p.artist.draw(config, result).Ok? && s.world.open == w.open - PlotFigures(p.artist.draw(config, result).value)
  {
    match p.artist.draw(config, result)
    case Err(e) => Step(w, Failed(e))
    case Ok(Single(f)) => DumpFigure(World(w.tree, w.open + {f}), f, directory, p.artist.name, p.fileFormat)
    case Ok(Many(entries)) =>
      var drawn := World(w.tree, w.open + EntryFigures(entries));
      var sub := directory + [p.artist.name];
      match MkDir(w.tree, sub, false, true)
      case Err(e) => Step(drawn, Failed(e))
      case Ok(t) =>
        assert Parent(sub) == directory;
        var s := DumpEntries(World(t, drawn.open), entries, sub, p.fileFormat);
        assert ChangesBeneath(t, s.world.tree, sub);
        s
  }

  /** `Experiment.plot`: every plotter, in registration order, into the same folder;
      the first failure propagates. */
  function RunPlotters(w: World, plotters: seq<Plotter>, config: Value, result: Value, folder: Path): (s: Step)
    requires WellFormed(w.tree)
    ensures WellFormed(s.world.tree) && ChangesBeneath(w.tree, s.world.tree, folder)
    decreases |plotters|
  {
    if plotters == [] then Step(w, Done)
    else
      var s1 := PlotterEffect(w, plotters[0], config, result, folder);
      if s1.outcome.Failed? then s1
      else RunPlotters(s1.world, plotters[1..], config, result, folder)
  }

  /** Registration order is execution order: plotters registered later run on
      the state the earlier ones leave, and only if those all succeed. */
  lemma {:induction false} RunPlottersAppend(w: World, ps: seq<Plotter>, qs: seq<Plotter>, config: Value, result: Value, folder: Path)
    requires WellFormed(w.tree)
    ensures var s := RunPlotters(w, ps, config, result, folder);
      RunPlotters(w, ps + qs, config, result, folder) ==
        if s.outcome.Failed? then s else RunPlotters(s.world, qs, config, result, folder)
    decreases |ps|
  {
    if ps == [] {
      assert ps + qs == qs;
    } else {
      assert (ps + qs)[0] == ps[0];
      assert (ps + qs)[1..] == ps[1..] + qs;
      var s1 := PlotterEffect(w, ps[0], config, result, folder);
      if s1.outcome.Done? {
        RunPlottersAppend(s1.world, ps[1..], qs, config, result, folder);
      }
    }
  }

  /** Fan-out of a single figure: exactly one file, `<artist>.<format>`, directly
      in the target folder, and the figure is closed. */
  lemma SingleFanOut(w: World, p: Plotter, config: Value, result: Value, directory: Path, f: Figure)
    requires WellFormed(w.tree) && p.artist.draw(config, result) == Ok(Single(f))
    requires IsDir(w.tree, directory) && !IsDir(w.tree, directory + [FileName(p.artist.name, p.fileFormat)])
    ensures PlotterEffect(w, p, config, result, directory) ==
      Step(World(w.tree[directory + [FileName(p.artist.name, p.fileFormat)] := Image(f)], w.open - {f}), Done)
  {
    assert (w.open + {f}) - {f} == w.open - {f};
  }

  predicate DistinctNames(entries: seq<(string, Figure)>) {
    forall i, j :: 0 <= i < j < |entries| ==> entries[i].0 != entries[j].0
  }

  /** Saving the entries of a mapping with distinct names into a directory that
      holds no directory of the same names: every entry gets its own file with
      its own figure, nothing else is added, and every figure is closed. */
  lemma {:induction false} EntriesFanOut(w: World, entries: seq<(string, Figure)>, folder: Path, fmt: string)
    requires WellFormed(w.tree) && IsDir(w.tree, folder) && DistinctNames(entries)
    requires forall i :: 0 <= i < |entries| ==> !IsDir(w.tree, folder + [FileName(entries[i].0, fmt)])
    ensures DumpEntries(w, entries, folder, fmt).outcome == Done
    ensures DumpEntries(w, entries, folder, fmt).world.tree.Keys == w.tree.Keys + EntryFiles(entries, folder, fmt)
    ensures forall i :: 0 <= i < |entries| ==>
      DumpEntries(w, entries, folder, fmt).world.tree[folder + [FileName(entries[i].0, fmt)]] == Image(entries[i].1)
    ensures DumpEntries(w, entries, folder, fmt).world.open == w.open - EntryFigures(entries)
    decreases |entries|
  {
    if entries != [] {
      var file := folder + [FileName(entries[0].0, fmt)];
      var s1 := DumpFigure(w, entries[0].1, folder, entries[0].0, fmt);
      var rest := entries[1..];
      assert s1.outcome == Done && s1.world.tree == w.tree[file := Image(entries[0].1)];
      FirstFileUnshared(entries, folder, fmt);
      forall i | 0 <= i < |rest| ensures !IsDir(s1.world.tree, folder + [FileName(rest[i].0, fmt)]) {
        assert rest[i] == entries[i + 1];
      }
      EntriesFanOut(s1.world, rest, folder, fmt);
      var s := DumpEntries(s1.world, rest, folder, fmt);
      assert DumpEntries(w, entries, folder, fmt) == s;
      assert s.world.tree.Keys == w.tree.Keys + EntryFiles(entries, folder, fmt) by {
        EntryFilesSplit(entries, folder, fmt);
      }
      assert s.world.open == w.open - EntryFigures(entries) by {
        EntryFiguresSplit(entries);
        assert s.world.open == (w.open - {entries[0].1}) - EntryFigures(rest);
      }
      assert s.world.tree[file] == Image(entries[0].1);
      forall i | 0 < i < |entries| ensures s.world.tree[folder + [FileName(entries[i].0, fmt)]] == Image(entries[i].1) {
        assert entries[i] == rest[i - 1];
      }
    }
  }

  /** Fan-out of a mapping: the sub-folder of the artist's name is created, or
      reused when it is already a directory (as for two plotters sharing an
      artist name, where the later one overwrites the files), it receives one
      file per entry, every figure is closed, and nothing else changes. */
  lemma ManyFanOut(w: World, p: Plotter, config: Value, result: Value, directory: Path, entries: seq<(string, Figure)>)
    requires WellFormed(w.tree) && p.artist.draw(config, result) == Ok(Many(entries))
    requires IsDir(w.tree, directory) && DistinctNames(entries)
    requires var sub := directory + [p.artist.name];
      || sub !in w.tree
      || (IsDir(w.tree, sub) && forall i :: 0 <= i < |entries| ==> !IsDir(w.tree, sub + [FileName(entries[i].0, p.fileFormat)]))
    ensures var s := PlotterEffect(w, p, config, result, directory);
      var sub := directory + [p.artist.name];
      && s.outcome == Done
      && s.world.tree.Keys == w.tree.Keys + {sub} + EntryFiles(entries, sub, p.fileFormat)
      && IsDir(s.world.tree, sub)
      && (forall i :: 0 <= i < |entries| ==> s.world.tree[sub + [FileName(entries[i].0, p.fileFormat)]] == Image(entries[i].1))
      && s.world.open == w.open - EntryFigures(entries)
  {
    var sub := directory + [p.artist.name];
    assert Parent(sub) == directory;
    var t := MkDir(w.tree, sub, false, true).value;
    if sub !in w.tree {
      assert t == w.tree[sub := Dir];
      FreeHasNoDescendants(w.tree, sub);
      forall i | 0 <= i < |entries| ensures !IsDir(t, sub + [FileName(entries[i].0, p.fileFormat)]) {
        var q := sub + [FileName(entries[i].0, p.fileFormat)];
        assert sub <= q && q != sub;
      }
    } else {
      assert t == w.tree;
    }
    var drawn := World(t, w.open + EntryFigures(entries));
    EntriesFanOut(drawn, entries, sub, p.fileFormat);
    assert (w.open + EntryFigures(entries)) - EntryFigures(entries) == w.open - EntryFigures(entries);
  }

  predicate DistinctFigures(entries: seq<(string, Figure)>) {
    forall i, j :: 0 <= i < j < |entries| ==> entries[i].1 != entries[j].1
  }

  /** The close is skipped when a save raises: if the loop over a mapping's
      items fails, the figure it was saving is still open. */
  lemma {:induction false} EntriesFailureLeavesOpen(w: World, entries: seq<(string, Figure)>, folder: Path, fmt: string)
    requires WellFormed(w.tree) && DistinctFigures(entries) && EntryFigures(entries) <= w.open
    requires DumpEntries(w, entries, folder, fmt).outcome.Failed?
    ensures exists i :: 0 <= i < |entries| && entries[i].1 in DumpEntries(w, entries, folder, fmt).world.open
    decreases |entries|
  {
    var s1 := DumpFigure(w, entries[0].1, folder, entries[0].0, fmt);
    if s1.outcome.Failed? {
      assert entries[0].1 in DumpEntries(w, entries, folder, fmt).world.open;
    } else {
      var rest := entries[1..];
      EntryFiguresSplit(entries);
      assert entries[0].1 !in EntryFigures(rest) by {
        forall j | 0 <= j < |rest| ensures rest[j].1 != entries[0].1 {
          assert rest[j] == entries[j + 1];
        }
      }
      assert DistinctFigures(rest) by {
        forall i, j | 0 <= i < j < |rest| ensures rest[i].1 != rest[j].1 {
          assert rest[i] == entries[i + 1] && rest[j] == entries[j + 1];
        }
      }
      EntriesFailureLeavesOpen(s1.world, rest, folder, fmt);
      var j :| 0 <= j < |rest| && rest[j].1 in DumpEntries(s1.world, rest, folder, fmt).world.open;
      assert entries[j + 1] == rest[j];
    }
  }

  /** When a plotter raises after its artist has drawn, a figure it drew is
      still open: the close only happens after a save that returns. */
  lemma PlotterFailureLeavesOpen(w: World, p: Plotter, config: Value, result: Value, directory: Path)
    requires WellFormed(w.tree) && p.artist.draw(config, result).Ok?
    requires p.artist.draw(config, result).value.Many? ==>
      p.artist.draw(config, result).value.entries != [] && DistinctFigures(p.artist.draw(config, result).value.entries)
    requires PlotterEffect(w, p, config, result, directory).outcome.Failed?
    ensures exists f :: f in PlotFigures(p.artist.draw(config, result).value) && f in PlotterEffect(w, p, config, result, directory).world.open
  {
    var s := PlotterEffect(w, p, config, result, directory);
    match p.artist.draw(config, result).value
    case Single(f) =>
      assert f in s.world.open;
    case Many(entries) =>
      assert entries[0].1 in EntryFigures(entries);
      var sub := directory + [p.artist.name];
      if MkDir(w.tree, sub, false, true).Ok? {
        var t := MkDir(w.tree, sub, false, true).value;
        var drawn := World(t, w.open + EntryFigures(entries));
        EntriesFailureLeavesOpen(drawn, entries, sub, p.fileFormat);
      } else {
        assert entries[0].1 in s.world.open;
      }
  }

  /** `Plotter.__dump_figure` on the host: save, then (after the optional
      `plt.show()`, which changes nothing here) close the figure. */
  method SaveFigure(host: Host, p: Plotter, figure: Figure, folder: Path, name: string) returns (o: Outcome)
    requires host.Valid()
    modifies host
    ensures host.Valid()
    ensures Step(host.State(), o) == DumpFigure(old(host.State()), figure, folder, name, p.fileFormat)
  {
    var saved := WriteFile(host.tree, folder + [FileName(name, p.fileFormat)], Image(figure));
    if saved.Err? {
      return Failed(saved.error);
    }
    host.tree := saved.value;
    host.openFigures := host.openFigures - {figure};
    o := Done;
  }

  /** `Plotter.__call__` on the host. */
  method CallPlotter(host: Host, p: Plotter, config: Value, result: Value, directory: Path) returns (o: Outcome)
    requires host.Valid()
    modifies host
    ensures host.Valid()
    ensures Step(host.State(), o) == PlotterEffect(old(host.State()), p, config, result, directory)
  {
    var drawn := p.artist.draw(config, result);
    if drawn.Err? {
      return Failed(drawn.error);
    }
    match drawn.value
    case Single(f) =>
      host.openFigures := host.openFigures + {f};
      o := SaveFigure(host, p, f, directory, p.artist.name);
    case Many(entries) =>
      host.openFigures := host.openFigures + EntryFigures(entries);
      var sub := directory + [p.artist.name];
      var made := MkDir(host.tree, sub, false, true);
      if made.Err? {
        return Failed(made.error);
      }
      host.tree := made.value;
      ghost var target := PlotterEffect(old(host.State()), p, config, result, directory);
      var i := 0;
      while i < |entries|
        invariant 0 <= i <= |entries| && host.Valid()
        invariant DumpEntries(host.State(), entries[i..], sub, p.fileFormat) == target
      {
        assert entries[i..][0] == entries[i] && entries[i..][1..] == entries[i + 1..];
        o := SaveFigure(host, p, entries[i].1, sub, entries[i].0);
        if o.Failed? {
          return;
        }
        i := i + 1;
      }
      o := Done;
  }
}

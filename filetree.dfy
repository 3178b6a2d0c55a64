/** An abstract file system: a finite map from paths to directories, pickled
    blobs and saved figures, with the OS operations the run store uses
    (mkdir, open-for-writing, rename), each with the error it raises. */
module FileTree {
  import opened Paths
  import opened Errors

  /** An application value (configuration or result); only its identity matters. */
  datatype Value = Value(token: nat)

  /** A matplotlib figure handle; only its identity matters. */
  datatype Figure = Figure(token: nat)

  /** What a path holds: a directory, a pickled value, or a saved figure. */
  datatype Node = Dir | Blob(value: Value) | Image(figure: Figure)

  type Tree = map<Path, Node>

  predicate IsDir(t: Tree, p: Path) {
    p in t && t[p].Dir?
  }

  /** The shape every real file system has: the root is a directory and every
      other entry sits inside an existing directory. */
  ghost predicate WellFormed(t: Tree) {
    && IsDir(t, [])
    && forall p: Path, c: string :: p + [c] in t ==> IsDir(t, p)
  }

  lemma ParentIsDir(t: Tree, q: Path)
    requires WellFormed(t) && q in t && q != []
    ensures IsDir(t, Parent(q))
  {
    assert Parent(q) + [Name(q)] in t;
  }

  /** The parent condition of WellFormed, checked one entry at a time. */
  lemma WellFormedByParents(t: Tree)
    requires IsDir(t, [])
    requires forall q :: q in t && q != [] ==> IsDir(t, Parent(q))
    ensures WellFormed(t)
  {
    forall p: Path, c: string | p + [c] in t ensures IsDir(t, p) {
      assert Parent(p + [c]) == p;
    }
  }

  /** Every ancestor of an existing path exists and is a directory. */
  lemma {:induction false} AncestorsExist(t: Tree, q: Path, d: Path)
    requires WellFormed(t) && q in t && d <= q
    ensures d in t
    ensures d < q ==> IsDir(t, d)
    decreases |q|
  {
    if d != q {
      var pq := Parent(q);
      ParentIsDir(t, q);
      assert pq == q[..|q| - 1];
      assert d <= pq;
      if d != pq {
        AncestorsExist(t, pq, d);
        assert d < pq;
      }
    }
  }

  /** Nothing lies beneath a path that does not exist. */
  lemma FreeHasNoDescendants(t: Tree, d: Path)
    requires WellFormed(t) && d !in t
    ensures forall q :: q in t ==> !(d <= q)
  {
    forall q | q in t && d <= q ensures false {
      AncestorsExist(t, q, d);
    }
  }

  /** How resolving `d` as a directory fails: None when it is an existing
      directory, NotADirectory when the walk up from `d` meets a regular file,
      FileNotFound otherwise. */
  function DirError(t: Tree, d: Path): (e: Option<Error>)
    decreases |d|
    ensures e == None <==> IsDir(t, d)
    ensures e == None || e == Some(FileNotFound) || e == Some(NotADirectory)
    ensures e == Some(FileNotFound) ==> d !in t
  {
    if d in t then (if t[d].Dir? then None else Some(NotADirectory))
    else if d == [] then Some(FileNotFound)
    else if DirError(t, Parent(d)) == Some(NotADirectory) then Some(NotADirectory)
    else Some(FileNotFound)
  }

  /** `open(p, "wb")` followed by a write of `n`: creates or truncates the file. */
  function WriteFile(t: Tree, p: Path, n: Node): (r: Result<Tree>)
    requires WellFormed(t) && !n.Dir?
    ensures r.Ok? <==> p != [] && IsDir(t, Parent(p)) && !IsDir(t, p)
    ensures r.Ok? ==> r.value == t[p := n] && WellFormed(r.value)
    ensures r.Err? ==> r.error == FileNotFound || r.error == NotADirectory || r.error == IsADirectory
    ensures p != [] && IsDir(t, p) ==> r == Err(IsADirectory)
  {
    if p == [] then Err(IsADirectory)
    else match DirError(t, Parent(p))
      case Some(e) => Err(e)
      case None =>
        if IsDir(t, p) then Err(IsADirectory)
        else
          assert WellFormed(t[p := n]) by {
            forall q | q in t[p := n] && q != [] ensures IsDir(t[p := n], Parent(q)) {
              if q != p { ParentIsDir(t, q); }
            }
            WellFormedByParents(t[p := n]);
          }
          Ok(t[p := n])
  }

  /** pathlib `Path.mkdir(parents=parents, exist_ok=existOk)`. */
  function MkDir(t: Tree, p: Path, parents: bool, existOk: bool): (r: Result<Tree>)
    requires WellFormed(t)
    decreases |p|
    ensures r.Ok? <==>
      if p in t then existOk && t[p].Dir?
      else IsDir(t, Parent(p)) || (parents && DirError(t, Parent(p)) == Some(FileNotFound))
    ensures r.Err? && p in t ==> r.error == FileExists
    ensures r.Err? && p !in t ==> r.error == FileNotFound || r.error == NotADirectory
    ensures r.Ok? ==> WellFormed(r.value) && IsDir(r.value, p)
    ensures r.Ok? ==> forall q :: q in t ==> q in r.value && r.value[q] == t[q]
    ensures r.Ok? ==> forall q :: q in r.value && q !in t ==> q <= p && r.value[q].Dir?
  {
    if p in t then
      if existOk && t[p].Dir? then Ok(t) else Err(FileExists)
    else if p == [] then Err(FileNotFound)
    else
      match DirError(t, Parent(p))
      case None => AddDir(t, p)
      case Some(e) =>
        if e == NotADirectory || !parents then Err(e)
        else
          match MkDir(t, Parent(p), true, true)
          case Err(e') => Err(e')
          case Ok(t') => AddDir(t', p)
  }

  /** `os.mkdir(p)` when its parent is a directory and `p` is free. */
  function AddDir(t: Tree, p: Path): (r: Result<Tree>)
    requires WellFormed(t) && p != [] && p !in t && IsDir(t, Parent(p))
    ensures r == Ok(t[p := Dir]) && WellFormed(r.value)
  {
    assert WellFormed(t[p := Dir]) by {
      forall q | q in t[p := Dir] && q != [] ensures IsDir(t[p := Dir], Parent(q)) {
        if q != p { ParentIsDir(t, q); }
      }
      WellFormedByParents(t[p := Dir]);
    }
    Ok(t[p := Dir])
  }

  /** Where a path beneath `src` ends up when `src` is moved to `dst`. */
  function Relocated(q: Path, src: Path, dst: Path): (k: Path)
    requires src <= q
    ensures dst <= k && src + k[|dst|..] == q
  {
    assert q == src + q[|src|..];
    dst + q[|src|..]
  }

  /** The tree after moving the entry at `src`, and everything beneath it, to `dst`. */
  function Moved(t: Tree, src: Path, dst: Path): Tree {
    var kept := map q | q in t && !(src <= q) :: t[q];
    var targets := set q | q in t && src <= q :: Relocated(q, src, dst);
    var moved := map k | k in targets :: t[src + k[|dst|..]];
    kept + moved
  }

  /** `os.rename(src, dst)` onto a free destination. */
  function Rename(t: Tree, src: Path, dst: Path): (r: Result<Tree>)
    requires WellFormed(t) && dst !in t
    ensures r.Ok? <==> src in t && src != [] && !(src <= dst) && IsDir(t, Parent(dst))
    ensures r.Ok? ==> r.value == Moved(t, src, dst) && WellFormed(r.value)
    ensures src !in t && DirError(t, Parent(src)) == Some(NotADirectory) ==> r == Err(NotADirectory)
    ensures src !in t && DirError(t, Parent(src)) != Some(NotADirectory) ==> r == Err(FileNotFound)
  {
    if src !in t then
      (if DirError(t, Parent(src)) == Some(NotADirectory) then Err(NotADirectory) else Err(FileNotFound))
    else if src == [] || src <= dst then Err(OsError)
    else match DirError(t, Parent(dst))
      case Some(e) => Err(e)
      case None =>
        MovedWellFormed(t, src, dst);
        Ok(Moved(t, src, dst))
  }

  /** What a move does: the subtree at `src` reappears at `dst` with the same
      contents, nothing is left beneath `src`, and every other entry is untouched. */
  lemma MovedRelocates(t: Tree, src: Path, dst: Path)
    requires WellFormed(t) && dst !in t && !(src <= dst)
    ensures forall r :: src + r in t ==> dst + r in Moved(t, src, dst) && Moved(t, src, dst)[dst + r] == t[src + r]
    ensures forall q :: src <= q ==> q !in Moved(t, src, dst)
    ensures forall q :: q in t && !(src <= q) ==> q in Moved(t, src, dst) && Moved(t, src, dst)[q] == t[q]
    ensures forall q :: q in Moved(t, src, dst) ==> (q in t && !(src <= q)) || (dst <= q && src + q[|dst|..] in t)
  {
    forall r | src + r in t ensures dst + r in Moved(t, src, dst) && Moved(t, src, dst)[dst + r] == t[src + r] {
      MovedCarries(t, src, dst, r);
    }
    forall q | src <= q ensures q !in Moved(t, src, dst) {
      if q in Moved(t, src, dst) {
        MovedSource(t, src, dst, q);
        FreeHasNoDescendants(t, dst);
        PrefixesComparable(src, dst, q);
        assert dst <= src + q[|dst|..];
      }
    }
    forall q | q in t && !(src <= q) ensures q in Moved(t, src, dst) && Moved(t, src, dst)[q] == t[q] {
      MovedKeeps(t, src, dst, q);
    }
    forall q | q in Moved(t, src, dst) ensures (q in t && !(src <= q)) || (dst <= q && src + q[|dst|..] in t) {
      MovedSource(t, src, dst, q);
    }
  }

  /** An entry beneath `src` reappears beneath `dst`. */
  lemma MovedCarries(t: Tree, src: Path, dst: Path, r: Path)
    requires src + r in t
    ensures dst + r in Moved(t, src, dst) && Moved(t, src, dst)[dst + r] == t[src + r]
  {
    var q := src + r;
    assert src <= q && q[|src|..] == r;
    assert Relocated(q, src, dst) == dst + r;
    assert (dst + r)[|dst|..] == r;
  }

  /** An entry outside `src` stays where it is. */
  lemma MovedKeeps(t: Tree, src: Path, dst: Path, q: Path)
    requires WellFormed(t) && dst !in t
    requires q in t && !(src <= q)
    ensures q in Moved(t, src, dst) && Moved(t, src, dst)[q] == t[q]
  {
    FreeHasNoDescendants(t, dst);
    assert !(dst <= q);
  }

  /** Where an entry of the moved tree comes from. */
  lemma MovedSource(t: Tree, src: Path, dst: Path, q: Path)
    requires q in Moved(t, src, dst)
    ensures (q in t && !(src <= q)) || (dst <= q && src + q[|dst|..] in t)
  {
    if !(q in t && !(src <= q)) {
      var q' :| q' in t && src <= q' && q == Relocated(q', src, dst);
    }
  }

  /** Two prefixes of the same path are prefixes of one another. */
  lemma PrefixesComparable(a: Path, b: Path, q: Path)
    requires a <= q && b <= q
    ensures a <= b || b <= a
  {
    if |a| <= |b| {
      assert a == b[..|a|];
    } else {
      assert b == a[..|b|];
    }
  }

  /** A path outside `src` has its parent outside `src` too. */
  lemma ParentOutside(src: Path, q: Path)
    requires !(src <= q)
    ensures !(src <= Parent(q))
  {
    if q != [] {
      assert Parent(q) == q[..|q| - 1];
    }
  }

  lemma ParentOfAppend(a: Path, r: Path)
    requires r != []
    ensures Parent(a + r) == a + Parent(r)
  {
    assert (a + r)[..|a + r| - 1] == a + r[..|r| - 1];
  }

  lemma MovedWellFormed(t: Tree, src: Path, dst: Path)
    requires WellFormed(t) && src in t && src != [] && dst !in t && !(src <= dst)
    requires IsDir(t, Parent(dst))
    ensures WellFormed(Moved(t, src, dst))
  {
    var m := Moved(t, src, dst);
    MovedKeeps(t, src, dst, []);
    forall q | q in m && q != [] ensures IsDir(m, Parent(q)) {
      MovedParent(t, src, dst, q);
    }
    WellFormedByParents(m);
  }

  lemma MovedParent(t: Tree, src: Path, dst: Path, q: Path)
    requires WellFormed(t) && src in t && src != [] && dst !in t && !(src <= dst)
    requires IsDir(t, Parent(dst))
    requires q in Moved(t, src, dst) && q != []
    ensures IsDir(Moved(t, src, dst), Parent(q))
  {
    MovedSource(t, src, dst, q);
    if q in t && !(src <= q) {
      ParentIsDir(t, q);
      ParentOutside(src, q);
      MovedKeeps(t, src, dst, Parent(q));
    } else {
      var r := q[|dst|..];
      assert q == dst + r;
      if r == [] {
        assert Parent(q) == Parent(dst);
        ParentOutside(src, dst);
        MovedKeeps(t, src, dst, Parent(dst));
      } else {
        ParentIsDir(t, src + r);
        ParentOfAppend(src, r);
        ParentOfAppend(dst, r);
        MovedCarries(t, src, dst, Parent(r));
      }
    }
  }

  /** The tree after a fallible step: the new tree on success, the old one on failure. */
  function After(t: Tree, r: Result<Tree>): Tree {
    if r.Ok? then r.value else t
  }

  /** A fallible step's outcome, with `v` as the value returned on success. */
  function Yield<S, T>(r: Result<S>, v: T): Result<T> {
    if r.Ok? then Ok(v) else Err(r.error)
  }

  /** Whether a fallible step returned or raised, dropping its value. */
  function OutcomeOf<T>(r: Result<T>): Outcome {
    if r.Ok? then Done else Failed(r.error)
  }

  /** The state the model acts on: the file tree and matplotlib's registry of
      open figures. */
  datatype World = World(tree: Tree, open: set<Figure>)

  /** The mutable host: the process's view of the disk and of pyplot. */
  class Host {
    var tree: Tree
    var openFigures: set<Figure>

    /** A fresh host: an empty disk holding only the root directory, and no open figures. */
    constructor ()
      ensures tree == map[[] := Dir] && openFigures == {}
      ensures Valid()
    {
      tree := map[[] := Dir];
      openFigures := {};
    }

    ghost predicate Valid()
      reads this
    {
      WellFormed(tree)
    }

    function State(): World
      reads this
    {
      World(tree, openFigures)
    }
  }
}

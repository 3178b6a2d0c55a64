/** `unique_new_path`: the first free path among `p`, "stem (1)suffix",
    "stem (2)suffix", … in the directory that holds `p`. */
module Util {
  import opened Paths
  import opened FileTree

  /** What resolving `p` on tree `t` promises: the result is free; it is `p`
      itself when `p` is free; otherwise it is the sibling candidate for the
      smallest counter n >= 1 whose candidate is free. */
  ghost predicate Resolves(t: Tree, p: Path, r: Path) {
    && r !in t
    && (p !in t ==> r == p)
    && (p in t ==> exists n: nat :: 1 <= n && r == Candidate(p, n) &&
                     forall k: nat :: 1 <= k < n ==> Candidate(p, k) in t)
  }

  /** The candidates from counter `n` on that are already taken. */
  ghost function Taken(t: Tree, p: Path, n: nat): set<Path> {
    set q | q in t && exists k: nat :: n <= k && q == Candidate(p, k)
  }

  /** Trying a taken candidate leaves fewer taken candidates to try. */
  lemma TakenShrinks(t: Tree, p: Path, n: nat)
    requires Candidate(p, n) in t
    ensures Taken(t, p, n + 1) < Taken(t, p, n)
  {
    var c := Candidate(p, n);
    assert c in Taken(t, p, n);
    if c in Taken(t, p, n + 1) {
      var k: nat :| n + 1 <= k && c == Candidate(p, k);
      CandidateInjective(p, n, k);
    }
  }

  /** The smallest counter from `n` on whose candidate is free. */
  function FirstFree(t: Tree, p: Path, n: nat): (m: nat)
    ensures n <= m && Candidate(p, m) !in t
    ensures forall k: nat :: n <= k < m ==> Candidate(p, k) in t
    decreases Taken(t, p, n)
  {
    if Candidate(p, n) in t then
      TakenShrinks(t, p, n);
      FirstFree(t, p, n + 1)
    else n
  }

  /** The path `unique_new_path(p)` returns on tree `t`. */
  function UniquePath(t: Tree, p: Path): (r: Path)
    ensures Resolves(t, p, r)
  {
    if p !in t then p else Candidate(p, FirstFree(t, p, 1))
  }

  /** At most one path satisfies the promise, so it pins the result down. */
  lemma ResolvesUnique(t: Tree, p: Path, r1: Path, r2: Path)
    requires Resolves(t, p, r1) && Resolves(t, p, r2)
    ensures r1 == r2
  {
    if p in t {
      var n1: nat :| 1 <= n1 && r1 == Candidate(p, n1) &&
                     forall k: nat :: 1 <= k < n1 ==> Candidate(p, k) in t;
      var n2: nat :| 1 <= n2 && r2 == Candidate(p, n2) &&
                     forall k: nat :: 1 <= k < n2 ==> Candidate(p, k) in t;
      assert !(n1 < n2) && !(n2 < n1);
    }
  }

  /** The result always lies in the directory of the requested path and is free. */
  lemma ResolvesSibling(t: Tree, p: Path, r: Path)
    requires Resolves(t, p, r)
    ensures Parent(r) == Parent(p) && r !in t
  {
    if p in t {
      var n: nat :| 1 <= n && r == Candidate(p, n) &&
                    forall k: nat :: 1 <= k < n ==> Candidate(p, k) in t;
    }
  }

  /** `unique_new_path`: stem, suffix and parent are computed once, then the
      counter climbs from 1 until the candidate is free. The tree is only read. */
  method UniqueNewPath(host: Host, path: Path) returns (r: Path)
    ensures Resolves(host.tree, path, r)
    ensures r == UniquePath(host.tree, path)
  {
    if path !in host.tree {
      return path;
    }
    var stem, suffix, parent := Stem(Name(path)), Suffix(Name(path)), Parent(path);
    var counter: nat := 1;
    r := parent + [(stem + " (") + Digits(counter) + (")" + suffix)];
    while r in host.tree
      invariant counter >= 1 && r == Candidate(path, counter)
      invariant forall k: nat :: 1 <= k < counter ==> Candidate(path, k) in host.tree
      decreases Taken(host.tree, path, counter)
    {
      TakenShrinks(host.tree, path, counter);
      counter := counter + 1;
      r := parent + [(stem + " (") + Digits(counter) + (")" + suffix)];
    }
    ResolvesUnique(host.tree, path, r, UniquePath(host.tree, path));
  }
}

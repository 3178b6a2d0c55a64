/** Paths as sequences of components, and the parts of a path's final component
    that pathlib exposes: name, parent, stem and suffix. The empty sequence is
    the root of the file tree. */
module Paths {

  type Path = seq<string>

  /** The final component (pathlib `name`); the root has the empty name. */
  function Name(p: Path): string {
    if p == [] then "" else p[|p| - 1]
  }

  /** pathlib `parent`: everything but the final component; the root is its own parent. */
  function Parent(p: Path): (r: Path)
    ensures p != [] ==> r + [Name(p)] == p
    ensures p == [] ==> r == []
  {
    if p == [] then [] else p[..|p| - 1]
  }

  /** Index of the last '.' in `s`, or -1 when there is none (Python `str.rfind('.')`). */
  function LastDot(s: string): (i: int)
    ensures -1 <= i < |s|
    ensures i >= 0 ==> s[i] == '.'
    ensures forall j :: i < j < |s| ==> s[j] != '.'
  {
    if s == [] then -1
    else if s[|s| - 1] == '.' then |s| - 1
    else LastDot(s[..|s| - 1])
  }

  /** pathlib's rule: the extension starts at the last dot when that dot is neither
      the first nor the last character of the name. */
  predicate HasSuffix(name: string) {
    0 < LastDot(name) < |name| - 1
  }

  /** pathlib `suffix`: the text from the last dot on, or empty. */
  function Suffix(name: string): (r: string)
    ensures |r| <= |name| && r == name[|name| - |r|..]
    ensures r == [] || (|r| >= 2 && r[0] == '.' && forall j :: 0 < j < |r| ==> r[j] != '.')
    ensures r != [] <==> HasSuffix(name)
  {
    if HasSuffix(name) then name[LastDot(name)..] else ""
  }

  /** pathlib `stem`: the name without its suffix. */
  function Stem(name: string): (r: string)
    ensures r + Suffix(name) == name
    ensures HasSuffix(name) ==> r != []
  {
    if HasSuffix(name) then name[..LastDot(name)] else name
  }

  predicate IsDigit(c: char) {
    '0' <= c <= '9'
  }

  function DigitChar(d: nat): (c: char)
    requires d < 10
    ensures IsDigit(c) && c as int - '0' as int == d
  {
    ('0' as int + d) as char
  }

  /** Decimal notation of `n`, as Python's f"{n}" writes a non-negative int. */
  function Digits(n: nat): (s: string)
    ensures s != []
    ensures forall i :: 0 <= i < |s| ==> IsDigit(s[i])
    ensures s[0] == '0' ==> n == 0
  {
    if n < 10 then [DigitChar(n)] else Digits(n / 10) + [DigitChar(n % 10)]
  }

  /** Reads a string of decimal digits back as a number. */
  function ParseDigits(s: string): nat
    requires forall i :: 0 <= i < |s| ==> IsDigit(s[i])
  {
    if s == [] then 0
    else
      assert IsDigit(s[|s| - 1]);
      ParseDigits(s[..|s| - 1]) * 10 + (s[|s| - 1] as int - '0' as int)
  }

  lemma {:induction false} ParseDigitsOfDigits(n: nat)
    ensures ParseDigits(Digits(n)) == n
  {
    if n >= 10 {
      var s := Digits(n);
      assert s[..|s| - 1] == Digits(n / 10);
      ParseDigitsOfDigits(n / 10);
    }
  }

  /** Different counters are written differently, so candidate names never repeat. */
  lemma DigitsInjective(m: nat, n: nat)
    requires Digits(m) == Digits(n)
    ensures m == n
  {
    ParseDigitsOfDigits(m);
    ParseDigitsOfDigits(n);
  }

  /** The name `unique_new_path` tries for counter `n`: "stem (n)suffix". */
  function CandidateName(name: string, n: nat): string {
    (Stem(name) + " (") + Digits(n) + (")" + Suffix(name))
  }

  /** The path `unique_new_path` tries for counter `n`, a sibling of `p`. */
  function Candidate(p: Path, n: nat): (r: Path)
    ensures r != [] && Parent(r) == Parent(p)
  {
    Parent(p) + [CandidateName(Name(p), n)]
  }

  /** Equal strings with the same prefix and suffix have the same middle part. */
  lemma MiddleCancel(a: string, x: string, y: string, b: string)
    requires a + x + b == a + y + b
    ensures x == y
  {
    var s := a + x + b;
    assert |x| == |y|;
    assert x == s[|a|..|a| + |x|];
    assert y == (a + y + b)[|a|..|a| + |y|];
  }

  lemma CandidateInjectiveName(name: string, m: nat, n: nat)
    requires CandidateName(name, m) == CandidateName(name, n)
    ensures m == n
  {
    MiddleCancel(Stem(name) + " (", Digits(m), Digits(n), ")" + Suffix(name));
    DigitsInjective(m, n);
  }

  lemma CandidateInjective(p: Path, m: nat, n: nat)
    requires Candidate(p, m) == Candidate(p, n)
    ensures m == n
  {
    assert Name(Candidate(p, m)) == CandidateName(Name(p), m);
    CandidateInjectiveName(Name(p), m, n);
  }

  /** The last dot of a concatenation is that of the right part if it has one. */
  lemma {:induction false} LastDotAppend(a: string, b: string)
    ensures LastDot(a + b) == if LastDot(b) >= 0 then |a| + LastDot(b) else LastDot(a)
    decreases |b|
  {
    if b != [] {
      assert (a + b)[..|a + b| - 1] == a + b[..|b| - 1];
      if b[|b| - 1] != '.' {
        LastDotAppend(a, b[..|b| - 1]);
      }
    } else {
      assert a + b == a;
    }
  }

  lemma NoDotInDigits(n: nat)
    ensures LastDot(Digits(n)) == -1
  {
    var s := Digits(n);
    assert forall j :: 0 <= j < |s| ==> s[j] != '.' by {
      forall j | 0 <= j < |s| ensures s[j] != '.' { assert IsDigit(s[j]); }
    }
  }

  /** The counter goes in front of the extension: a name with a suffix keeps it,
      and the counter is appended to its stem. */
  lemma {:induction false} CandidateKeepsSuffix(name: string, n: nat)
    requires HasSuffix(name)
    ensures Suffix(CandidateName(name, n)) == Suffix(name)
    ensures Stem(CandidateName(name, n)) == Stem(name) + " (" + Digits(n) + ")"
  {
    var head := Stem(name) + " (" + Digits(n) + ")";
    var suf := Suffix(name);
    assert CandidateName(name, n) == head + suf;
    assert LastDot(suf) == 0 by {
      assert suf[0] == '.';
    }
    LastDotAppend(head, suf);
    assert LastDot(head + suf) == |head|;
  }

  /** A name without any dot just gets " (n)" appended. */
  lemma {:induction false} CandidateOfPlainName(name: string, n: nat)
    requires LastDot(name) == -1
    ensures CandidateName(name, n) == name + " (" + Digits(n) + ")"
    ensures !HasSuffix(CandidateName(name, n))
  {
    assert Stem(name) == name && Suffix(name) == "";
    assert ")" + Suffix(name) == ")";
    var open, digits := name + " (", Digits(n);
    assert LastDot(" (") == -1;
    assert LastDot(")") == -1;
    NoDotInDigits(n);
    LastDotAppend(name, " (");
    LastDotAppend(open, digits);
    LastDotAppend(open + digits, ")");
  }
}

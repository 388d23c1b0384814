// Paths as text and as sequences of names.
module Paths {
  type Path = seq<string>

  // A name that text between slashes can stand for.
  predicate Name(c: string) {
    c != "" && c != "." && '/' !in c
  }

  ghost predicate Names(p: Path) {
    forall i :: 0 <= i < |p| ==> Name(p[i])
  }

  // Names only, nowhere back up: what resolving a path gives.
  ghost predicate Canonical(p: Path) {
    forall i :: 0 <= i < |p| ==> Name(p[i]) && p[i] != ".."
  }

  function Slash(s: string): (k: nat)
    ensures k <= |s| && '/' !in s[..k] && (k < |s| ==> s[k] == '/')
  {
    if s == "" || s[0] == '/' then 0 else
      var k := Slash(s[1..]) + 1;
      assert s[..k] == [s[0]] + s[1..][..k - 1];
      k
  }

  function Parse(s: string): Path
    decreases |s|
  {
    var k := Slash(s);
    var rest := if k < |s| then Parse(s[k + 1..]) else [];
    if s[..k] == "" || s[..k] == "." then rest else [s[..k]] + rest
  }

  function Show(p: Path): string {
    if p == [] then "." else if |p| == 1 then p[0] else p[0] + "/" + Show(p[1..])
  }

  lemma {:induction false} SlashOfName(c: string, rest: string)
    requires '/' !in c && (rest == "" || rest[0] == '/')
    ensures Slash(c + rest) == |c|
  {
    if c == "" {
      assert c + rest == rest;
    } else {
      assert (c + rest)[1..] == c[1..] + rest;
      SlashOfName(c[1..], rest);
    }
  }

  lemma {:induction false} ParseShow(p: Path)
    requires Names(p)
    ensures Parse(Show(p)) == p
  {
    if p == [] {
      SlashOfName(".", "");
      assert "." + "" == ".";
    } else if |p| == 1 {
      SlashOfName(p[0], "");
      assert p[0] + "" == p[0];
      assert p[0][..|p[0]|] == p[0];
    } else {
      var c, rest := p[0], "/" + Show(p[1..]);
      var s := c + rest;
      assert s == Show(p);
      SlashOfName(c, rest);
      assert s[..|c|] == c && s[|c| + 1..] == Show(p[1..]);
      ParseShow(p[1..]);
    }
  }

  // ---- Going back up ----

  // The path once every ".." is taken back; there is nothing above the root.
  function Normal(p: Path): Path {
    if p == [] then []
    else
      var before := Normal(p[..|p| - 1]);
      if p[|p| - 1] != ".." then before + [p[|p| - 1]]
      else if before == [] then []
      else before[..|before| - 1]
  }

  lemma {:induction false} NormalDown(p: Path, q: Path)
    requires Canonical(q)
    ensures Normal(p + q) == Normal(p) + q
  {
    if q == [] {
      assert p + q == p;
    } else {
      var n := |q| - 1;
      NormalDown(p, q[..n]);
      assert (p + q)[..|p| + n] == p + q[..n];
      assert q == q[..n] + [q[n]];
    }
  }

  function Ups(n: nat): (u: Path)
    ensures |u| == n && forall i :: 0 <= i < n ==> u[i] == ".."
  {
    seq(n, i => "..")
  }

  lemma {:induction false} NormalUp(p: Path, n: nat)
    requires n <= |Normal(p)|
    ensures Normal(p + Ups(n)) == Normal(p)[..|Normal(p)| - n]
  {
    if n == 0 {
      assert p + Ups(0) == p;
    } else {
      NormalUp(p, n - 1);
      assert (p + Ups(n))[..|p| + n - 1] == p + Ups(n - 1);
    }
  }

  function Common(a: Path, b: Path): (k: nat)
    ensures k <= |a| && k <= |b| && a[..k] == b[..k]
  {
    if a == [] || b == [] || a[0] != b[0] then 0 else 1 + Common(a[1..], b[1..])
  }

  // os.path.relpath
  function Relative(target: Path, start: Path): Path {
    var k := Common(start, target);
    Ups(|start| - k) + target[k..]
  }

  lemma NormalCanonical(p: Path)
    requires Canonical(p)
    ensures Normal(p) == p
  {
    NormalDown([], p);
    assert [] + p == p;
  }

  // Up from the end of a path and down again.
  lemma UpAndDown(p: Path, n: nat, q: Path)
    requires Canonical(p) && Canonical(q) && n <= |p|
    ensures Normal(p + (Ups(n) + q)) == p[..|p| - n] + q
  {
    hide Normal, Ups;
    var u := Ups(n);
    NormalCanonical(p);
    NormalUp(p, n);
    NormalDown(p + u, q);
    assert p + (u + q) == (p + u) + q;
  }

  // From any place, the relative path leads from start to target.
  lemma RelativeLeads(base: Path, start: Path, target: Path)
    requires Canonical(base) && Canonical(start) && Canonical(target)
    ensures Normal(base + start + Relative(target, start)) == base + target
  {
    hide Normal, Ups;
    var k := Common(start, target);
    UpAndDown(base + start, |start| - k, target[k..]);
    assert (base + start)[..|base| + k] + target[k..] == base + target by {
      assert (base + start)[..|base| + k] == base + start[..k];
      assert target[..k] + target[k..] == target;
    }
  }

  lemma RelativeNames(target: Path, start: Path)
    requires Canonical(target)
    ensures Names(Relative(target, start))
  {
  }
}

/** Filesystem scopes as resolved paths: the components below the root directory. */
module PolicyScope {
  predicate IsComponent(s: string) {
    s != "" && s != "." && s != ".." && '/' !in s
  }

  type Component = s: string | IsComponent(s) witness "a"

  type Path = seq<Component>

  const ROOT: Path := []

  /** The length of the path as text, which is how patterns are compared. */
  function TextLength(p: Path): nat {
    if p == [] then 1 else if |p| == 1 then 1 + |p[0]| else TextLength(p[..|p| - 1]) + 1 + |p[|p| - 1]|
  }

  function Common(a: Path, b: Path): (n: nat)
    ensures n <= |a| && n <= |b| && a[..n] == b[..n]
    ensures n < |a| && n < |b| ==> a[n] != b[n]
  {
    if a == [] || b == [] || a[0] != b[0] then 0 else 1 + Common(a[1..], b[1..])
  }

  /** The components of the relative path between two absolute ones: up to the common ancestor, then down. */
  function Relative(from: Path, to: Path): seq<string> {
    seq(|from| - Common(from, to), _ => "..") + to[Common(from, to)..]
  }

  /** The relative path is empty or does not start by going up. */
  predicate Covers(covering: Path, candidate: Path) {
    var relative := Relative(covering, candidate);
    relative == [] || relative[0] != ".."
  }

  lemma CoversIsPrefix(covering: Path, candidate: Path)
    ensures Covers(covering, candidate) <==> covering <= candidate
  {
    var n := Common(covering, candidate);
    if n == |covering| {
      var relative := Relative(covering, candidate);
      assert relative == candidate[n..];
      assert relative != [] ==> relative[0] == candidate[n] && IsComponent(candidate[n]);
    } else {
      assert Relative(covering, candidate)[0] == "..";
    }
  }

  /** Among scopes that cover one target the longer text is the deeper path. */
  lemma {:induction false} DeeperIsLonger(shallow: Path, deep: Path)
    requires shallow <= deep && shallow != deep
    ensures TextLength(shallow) < TextLength(deep)
    decreases |deep|
  {
    var up := deep[..|deep| - 1];
    assert TextLength(up) < TextLength(deep);
    if shallow != up {
      DeeperIsLonger(shallow, up);
    }
  }

  /** The target and its ancestors, deepest first. */
  function Ancestors(p: Path): seq<Path> {
    if p == [] then [p] else [p] + Ancestors(p[..|p| - 1])
  }

  lemma {:induction false} AncestorAt(p: Path, i: nat)
    ensures |Ancestors(p)| == |p| + 1
    ensures i <= |p| ==> Ancestors(p)[i] == p[..|p| - i]
  {
    if p == [] {
      assert p[..0] == p;
    } else if i == 0 {
      AncestorAt(p[..|p| - 1], 0);
      assert p[..|p|] == p;
    } else {
      AncestorAt(p[..|p| - 1], i - 1);
      assert i <= |p| ==> p[..|p| - 1][..|p| - 1 - (i - 1)] == p[..|p| - i];
    }
  }

  /** At most `limit` scopes: the deepest ones, the last of which gives way to the root. */
  function Hierarchy(p: Path, limit: nat): seq<Path> {
    var all := Ancestors(p);
    var n := if limit == 0 then 1 else limit;
    AncestorAt(p, 0);
    if |all| <= n then all else all[..n - 1] + [ROOT]
  }

  method PolicyScopeHierarchy(uri: Path, maximumScopes: nat) returns (scopes: seq<Path>)
    ensures scopes == Hierarchy(uri, maximumScopes)
  {
    var limit := if maximumScopes < 1 then 1 else maximumScopes;
    scopes := [];
    var current := uri;
    ghost var seen := 0;
    AncestorAt(uri, 0);
    while true
      invariant |Ancestors(uri)| == |uri| + 1
      invariant seen <= |uri| && current == uri[..|uri| - seen]
      invariant |scopes| == if seen < limit then seen else limit
      invariant seen <= limit ==> scopes == Ancestors(uri)[..seen]
      invariant seen > limit ==> scopes[..limit - 1] == Ancestors(uri)[..limit - 1]
      decreases |current|
    {
      AncestorAt(uri, seen);
      if |scopes| < limit {
        scopes := scopes + [current];
      } else {
        scopes := scopes[limit - 1 := current];
      }
      if current == [] {
        assert seen == |uri|;
        if |uri| + 1 > limit {
          assert scopes == scopes[..limit - 1] + [ROOT];
        } else {
          assert scopes == Ancestors(uri);
        }
        return;
      }
      current := current[..|current| - 1];
      seen := seen + 1;
    }
  }

  /** Every scope of the hierarchy covers the target, the target itself and the root are there. */
  lemma HierarchyCovers(p: Path, limit: nat, i: nat)
    requires i < |Hierarchy(p, limit)|
    ensures Hierarchy(p, limit)[i] <= p
    ensures limit > 1 ==> p in Hierarchy(p, limit) && ROOT in Hierarchy(p, limit)
  {
    AncestorAt(p, i);
    AncestorAt(p, 0);
    AncestorAt(p, |p|);
    assert p[..0] == ROOT && p[..|p|] == p;
    var all, h := Ancestors(p), Hierarchy(p, limit);
    if limit > 1 {
      assert h[0] == p;
      assert h[|h| - 1] == ROOT;
    }
  }
}

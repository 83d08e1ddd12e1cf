/** Clean absolute paths as lists of components, and the paths a deployment owns under a storage root. */
module Paths {
  import opened Common
  import opened Names

  /** The components of an absolute path in the form filepath.Clean leaves it; [] is the filesystem root. */
  type Path = seq<string>

  predicate Component(s: string) {
    s != "" && s != "." && s != ".." && '/' !in s
  }

  predicate IsPath(p: Path) {
    forall i | 0 <= i < |p| :: Component(p[i])
  }

  function Shared(a: Path, b: Path): (n: nat)
    ensures n <= |a| && n <= |b| && a[..n] == b[..n]
    ensures n < |a| && n < |b| ==> a[n] != b[n]
  {
    if a != [] && b != [] && a[0] == b[0] then
      var n := Shared(a[1..], b[1..]);
      assert a[..n + 1] == [a[0]] + a[1..][..n] && b[..n + 1] == [b[0]] + b[1..][..n];
      n + 1
    else 0
  }

  /** filepath.Rel: up to the last shared directory, then down. The empty list is ".". */
  function Rel(root: Path, path: Path): Path {
    seq(|root| - Shared(root, path), _ => "..") + path[Shared(root, path)..]
  }

  predicate IsStrictChild(root: Path, path: Path) {
    Rel(root, path) != [] && Rel(root, path)[0] != ".."
  }

  /** The check on relative paths accepts exactly the paths below the root. */
  lemma StrictChildIff(root: Path, path: Path)
    requires IsPath(root) && IsPath(path)
    ensures IsStrictChild(root, path) <==> root < path
  {
    var n := Shared(root, path);
    if n < |root| {
      assert Rel(root, path)[0] == "..";
    } else {
      assert root == root[..n] == path[..n];
      assert Rel(root, path) == path[n..];
    }
  }

  const OWNERS := ".centralcloud-owners"
  const PURGING := ".purging-"

  /** What New accepts of two canonical roots. */
  predicate RootsAccepted(panel: Path, backup: Path) {
    panel != backup && !IsStrictChild(panel, backup) && !IsStrictChild(backup, panel)
  }

  function DeploymentPath(root: Path, id: string): Option<Path> {
    var name := Lower(id);
    var path := root + [name];
    if !ValidDeploymentId(name) || !IsStrictChild(root, path) || path[|path| - 1] != name then None
    else Some(path)
  }

  function QuarantinePath(root: Path, id: string): Path {
    root + [PURGING + Lower(id)]
  }

  function OwnersPath(root: Path): Path {
    root + [OWNERS]
  }

  function MarkerPath(root: Path, id: string): Path {
    root + [OWNERS, Lower(id)]
  }

  lemma LowerTwice(s: string)
    ensures Lower(Lower(s)) == Lower(s)
  {
  }

  lemma UuidIsComponent(s: string)
    requires IsUuid(s)
    ensures Component(s) && Component(PURGING + s)
    ensures s != OWNERS && PURGING + s != OWNERS && forall t :: s != PURGING + t
  {
    assert s[0] != '.' && (PURGING + s)[1] == 'p' && (PURGING + s)[0] == '.' && OWNERS[1] == 'c';
    forall t ensures s != PURGING + t {
      assert (PURGING + t)[0] == '.';
    }
    assert '/' !in PURGING && '/' !in s;
  }

  /** A valid id always gets its directory: the escape checks never refuse one. */
  lemma DeploymentPathIs(root: Path, id: string)
    requires IsPath(root)
    ensures DeploymentPath(root, id) == if ValidDeploymentId(id) then Some(root + [Lower(id)]) else None
    ensures ValidDeploymentId(id) ==> IsStrictChild(root, QuarantinePath(root, id)) && IsStrictChild(root, OwnersPath(root))
  {
    LowerTwice(id);
    if ValidDeploymentId(id) {
      UuidIsComponent(Lower(id));
      assert Component(OWNERS);
      StrictChildIff(root, root + [Lower(id)]);
      StrictChildIff(root, QuarantinePath(root, id));
      StrictChildIff(root, OwnersPath(root));
    }
  }

  /** What belongs to a deployment under a root: its directory, its quarantined directory and its marker. */
  predicate Own(root: Path, id: string, p: Path) {
    root + [Lower(id)] <= p || QuarantinePath(root, id) <= p || MarkerPath(root, id) <= p
  }

  lemma PrefixAt(root: Path, x: string, p: Path)
    requires root + [x] <= p
    ensures |p| > |root| && p[|root|] == x
  {
    assert (root + [x])[|root|] == x;
  }

  /** Deployments under one root own nothing in common. */
  lemma OneOwner(root: Path, id: string, other: string, p: Path)
    requires ValidDeploymentId(id) && ValidDeploymentId(other)
    requires Own(root, id, p) && Own(root, other, p)
    ensures Lower(id) == Lower(other)
  {
    var a, b := Lower(id), Lower(other);
    UuidIsComponent(a);
    UuidIsComponent(b);
    FirstStep(root, id, p);
    FirstStep(root, other, p);
    if p[|root|] == PURGING + a && PURGING + a == PURGING + b {
      SuffixInjective(PURGING, a, b);
    } else if MarkerPath(root, id) <= p && MarkerPath(root, other) <= p {
      assert MarkerPath(root, id)[|root| + 1] == a && MarkerPath(root, other)[|root| + 1] == b;
    }
  }

  lemma FirstStep(root: Path, id: string, p: Path)
    requires Own(root, id, p)
    ensures |p| > |root|
    ensures || (p[|root|] == Lower(id) && root + [Lower(id)] <= p)
            || (p[|root|] == PURGING + Lower(id) && QuarantinePath(root, id) <= p)
            || (p[|root|] == OWNERS && MarkerPath(root, id) <= p)
  {
    if root + [Lower(id)] <= p {
      PrefixAt(root, Lower(id), p);
    } else if QuarantinePath(root, id) <= p {
      PrefixAt(root, PURGING + Lower(id), p);
    } else {
      assert MarkerPath(root, id)[|root|] == OWNERS;
    }
  }

  /** With the roots New accepts, nothing a deployment owns under one root is, contains or lies in anything a
      deployment owns under the other. */
  lemma RootsApart(panel: Path, backup: Path, id: string, other: string, p: Path, q: Path)
    requires IsPath(panel) && IsPath(backup) && RootsAccepted(panel, backup)
    requires Own(panel, id, p) && Own(backup, other, q)
    ensures !(p <= q) && !(q <= p)
  {
    StrictChildIff(panel, backup);
    StrictChildIff(backup, panel);
    FirstStep(panel, id, p);
    FirstStep(backup, other, q);
    assert panel <= p && backup <= q;
    assert p <= q ==> panel <= q;
    assert q <= p ==> backup <= p;
  }
}

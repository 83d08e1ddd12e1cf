/** Owned directories with quarantine: the system calls of ensureOwnedDirectory and purgeOwnedDirectory, each of
    which may fail, on a tree of files. A crash between two calls leaves what a failure of the later call leaves,
    so what is proved for every pattern of failures holds for every crash point. */
module DirectoryStore {
  import opened Common
  import opened Faults
  import opened Names
  import opened Paths
  import Host

  datatype Node = Folder | File(text: string) | Symlink | Special

  type Tree = map<Path, Node>

  /** Every entry lies in a directory entry. */
  ghost predicate Rooted(t: Tree) {
    forall p :: p in t && p != [] ==> p[..|p| - 1] in t
  }

  lemma {:induction false} NothingBeneath(t: Tree, p: Path, q: Path)
    requires Rooted(t) && p !in t && p <= q
    ensures q !in t
  {
    if |q| > |p| {
      NothingBeneath(t, p, q[..|q| - 1]);
    } else {
      assert q == p;
    }
  }

  // ---- System calls ----

  function Renamed(t: Tree, p: Path, q: Path): Tree {
    (map r | r in t && !(p <= r) :: t[r]) + (map r | r in Moved(t, p, q) :: t[p + r[|q|..]])
  }

  function Moved(t: Tree, p: Path, q: Path): (m: set<Path>)
    ensures forall r :: r in m <==> q <= r && p + r[|q|..] in t
  {
    var m := set r | r in t && p <= r :: q + r[|p|..];
    assert forall r | r in m :: q <= r && p + r[|q|..] in t by {
      forall r | r in m ensures q <= r && p + r[|q|..] in t {
        var s :| s in t && p <= s && r == q + s[|p|..];
        assert r[|q|..] == s[|p|..] && p + s[|p|..] == s;
      }
    }
    assert forall r | q <= r && p + r[|q|..] in t :: r in m by {
      forall r | q <= r && p + r[|q|..] in t ensures r in m {
        var s := p + r[|q|..];
        assert s[|p|..] == r[|q|..] && q + s[|p|..] == r;
      }
    }
    m
  }

  function Without(t: Tree, q: Path): Tree {
    map r | r in t && !(q <= r) :: t[r]
  }

  /** A recursive removal that stopped: the chosen entries strictly below `q` are gone, with all they contain. */
  function Thinned(t: Tree, q: Path, chosen: set<Path>): Tree {
    map r | r in t && !(exists s :: s in chosen && q < s && s <= r) :: t[r]
  }

  predicate Siblings(p: Path, q: Path) {
    |p| > 0 && |q| == |p| && q[..|q| - 1] == p[..|p| - 1] && p != q
  }

  lemma RenamedAt(t: Tree, p: Path, q: Path, r: Path)
    requires Rooted(t) && q !in t
    ensures r in Renamed(t, p, q) <==> if q <= r then p + r[|q|..] in t else r in t && !(p <= r)
    ensures !(p <= r) && !(q <= r) && r in t ==> Renamed(t, p, q)[r] == t[r]
  {
    if q <= r {
      NothingBeneath(t, q, r);
    }
  }

  lemma Shorten(p: Path, q: Path, r: Path)
    requires |q| < |r| && q <= r
    ensures q <= r[..|r| - 1]
    ensures var from := p + r[|q|..]; from != [] && from[..|from| - 1] == p + r[..|r| - 1][|q|..]
  {
  }

  lemma RenamedParent(t: Tree, p: Path, q: Path, r: Path)
    requires Rooted(t) && p in t && Siblings(p, q) && q !in t && r in Renamed(t, p, q) && r != []
    ensures r[..|r| - 1] in Renamed(t, p, q)
  {
    var s := r[..|r| - 1];
    assert |p| == |q| && p != [] && p[..|p| - 1] in t && q[..|q| - 1] == p[..|p| - 1];
    RenamedAt(t, p, q, r);
    RenamedAt(t, p, q, s);
    if q <= r && |q| < |r| {
      Shorten(p, q, r);
      assert (p + r[|q|..]) in t;
      hide Renamed;
    } else if q <= r {
      assert r == q && |s| < |p|;
    } else {
      assert !(q <= s) && !(p <= s) by {
        assert q <= s ==> q <= r;
        assert p <= s ==> p <= r;
      }
      assert r in t;
    }
  }

  lemma RenamedRooted(t: Tree, p: Path, q: Path)
    requires Rooted(t) && p in t && Siblings(p, q) && q !in t
    ensures Rooted(Renamed(t, p, q))
    ensures q in Renamed(t, p, q) && Renamed(t, p, q)[q] == t[p] && p !in Renamed(t, p, q)
  {
    forall r | r in Renamed(t, p, q) && r != [] ensures r[..|r| - 1] in Renamed(t, p, q) {
      RenamedParent(t, p, q, r);
    }
    RenamedAt(t, p, q, p);
    assert p + q[|q|..] == p && q in Moved(t, p, q);
  }

  lemma WithoutRooted(t: Tree, q: Path)
    requires Rooted(t)
    ensures Rooted(Without(t, q))
  {
    forall r | r in Without(t, q) && r != [] ensures r[..|r| - 1] in Without(t, q) {
      assert !(q <= r[..|r| - 1]);
    }
  }

  lemma ThinnedRooted(t: Tree, q: Path, chosen: set<Path>)
    requires Rooted(t)
    ensures Rooted(Thinned(t, q, chosen))
    ensures q in t ==> q in Thinned(t, q, chosen)
    ensures forall r :: !(q <= r) && r in t ==> r in Thinned(t, q, chosen)
  {
    var u := Thinned(t, q, chosen);
    forall r | r in u && r != [] ensures r[..|r| - 1] in u {
      assert forall s: Path | s in chosen :: s <= r[..|r| - 1] ==> s <= r;
    }
  }

  datatype Sight = Absent | Present(node: Node) | Unreadable

  function Lstat(t: Tree, p: Path, f: Fate): Sight {
    if f != Works then Unreadable else if p in t then Present(t[p]) else Absent
  }

  // ---- Markers ----

  /** strings.TrimSpace on ASCII text. */
  function Trim(s: string): string {
    if s == [] then s
    else if IsSpace(s[0]) then Trim(s[1..])
    else if IsSpace(s[|s| - 1]) then Trim(s[..|s| - 1])
    else s
  }

  function MarkerText(id: string): string {
    Lower(id) + "\n"
  }

  lemma {:induction false} TrimShortens(s: string)
    ensures |Trim(s)| <= |s|
    decreases |s|
  {
    if s != [] && IsSpace(s[0]) {
      TrimShortens(s[1..]);
    } else if s != [] && IsSpace(s[|s| - 1]) {
      TrimShortens(s[..|s| - 1]);
    }
  }

  /** A marker cut short is still accepted when only its line end is missing, and never when a character of the id
      is. */
  lemma CutMarkerText(id: string, n: nat)
    requires ValidDeploymentId(id) && n <= |MarkerText(id)|
    ensures |MarkerText(id)| == 37
    ensures Trim(MarkerText(id)[..n]) == Lower(id) <==> n >= 36
  {
    var text := MarkerText(id)[..n];
    assert MarkerText(id)[..36] == Lower(id);
    assert !IsSpace(Lower(id)[0]) && !IsSpace(Lower(id)[35]);
    if n == 37 {
      assert text[..36] == Lower(id) && text == MarkerText(id);
    } else if n == 36 {
      assert text == Lower(id);
    } else {
      TrimShortens(text);
    }
  }

  datatype Check = Good | Missing | Bad

  function VerifyMarker(t: Tree, root: Path, id: string, look: Fate, read: Fate): Check {
    match Lstat(t, MarkerPath(root, id), look)
    case Absent => Missing
    case Present(File(text)) => if read == Works && Trim(text) == Lower(id) then Good else Bad
    case _ => Bad
  }

  predicate Marked(t: Tree, root: Path, id: string) {
    VerifyMarker(t, root, id, Works, Works) == Good
  }

  // ---- What a deployment has under a root ----

  function Live(root: Path, id: string): Path {
    root + [Lower(id)]
  }

  predicate Clean(t: Tree, root: Path, id: string) {
    Live(root, id) !in t && QuarantinePath(root, id) !in t && MarkerPath(root, id) !in t
  }

  predicate BothCopies(t: Tree, root: Path, id: string) {
    Live(root, id) in t && QuarantinePath(root, id) in t
  }

  /** The deployment's own state, with at most one copy of its directory. */
  predicate Purgeable(t: Tree, root: Path, id: string) {
    && ValidDeploymentId(id)
    && (Clean(t, root, id) || (
          && Marked(t, root, id)
          && !BothCopies(t, root, id)
          && (Live(root, id) in t ==> t[Live(root, id)] == Folder)
          && (QuarantinePath(root, id) in t ==> t[QuarantinePath(root, id)] == Folder)))
  }

  /** Nothing outside what the deployment owns has changed. */
  ghost predicate OthersIntact(t: Tree, u: Tree, root: Path, id: string) {
    forall p: Path :: !Own(root, id, p) ==> (p in t <==> p in u) && (p in t ==> t[p] == u[p])
  }

  /** What a purge promises, whatever fails. */
  ghost predicate PurgePromise(t: Tree, u: Tree, root: Path, id: string, ok: bool, faultless: bool) {
    && OthersIntact(t, u, root, id)
    && (ok ==> Clean(u, root, id))
    && (!Purgeable(t, root, id) ==> u == t && !ok)
    && (Purgeable(t, root, id) ==> Purgeable(u, root, id))
    && (faultless ==> (ok <==> Purgeable(t, root, id)))
    && (Live(root, id) in u ==> u == t)
    && (Live(root, id) !in t && QuarantinePath(root, id) !in t ==> QuarantinePath(root, id) !in u)
    && (u != t ==> Marked(t, root, id))
  }

  datatype Existence = Yes | No | Refused

  function OwnedDirectoryExists(t: Tree, root: Path, p: Path, id: string, look: Fate, lookMarker: Fate, read: Fate): Existence {
    match Lstat(t, p, look)
    case Absent => No
    case Present(Folder) => if VerifyMarker(t, root, id, lookMarker, read) == Good then Yes else Refused
    case _ => Refused
  }

  lemma ExistenceTells(t: Tree, root: Path, p: Path, id: string, fates: seq<Fate>, i: nat, e: Existence)
    requires e == OwnedDirectoryExists(t, root, p, id, At(fates, i), At(fates, i + 1), At(fates, i + 2))
    ensures e == Yes ==> p in t && t[p] == Folder && Marked(t, root, id)
    ensures e == No ==> p !in t
    ensures e == Refused && Faultless(fates) ==> p in t && (t[p] == Folder ==> !Marked(t, root, id))
  {
    hide Trim;
  }

  lemma MarkerTells(t: Tree, root: Path, id: string, fates: seq<Fate>, c: Check)
    requires c == VerifyMarker(t, root, id, At(fates, 7), At(fates, 8))
    ensures c == Good ==> Marked(t, root, id)
    ensures c == Missing ==> MarkerPath(root, id) !in t && !Marked(t, root, id)
    ensures c == Bad && Faultless(fates) ==> MarkerPath(root, id) in t && !Marked(t, root, id)
  {
    hide Trim;
  }

  // ---- What each call does to the deployment's own state ----

  /** Only the quarantined copy and the marker are left. */
  ghost predicate Quarantined(t: Tree, root: Path, id: string) {
    && Rooted(t) && Marked(t, root, id)
    && Live(root, id) !in t && QuarantinePath(root, id) in t && t[QuarantinePath(root, id)] == Folder
  }

  lemma OwnPathsDiffer(root: Path, id: string)
    requires ValidDeploymentId(id)
    ensures var live, quarantine, marker := Live(root, id), QuarantinePath(root, id), MarkerPath(root, id);
      && Siblings(live, quarantine)
      && !(live <= marker) && !(quarantine <= marker) && !(marker <= live) && !(marker <= quarantine)
      && !(live <= quarantine) && !(quarantine <= live)
  {
    UuidIsComponent(Lower(id));
    var live, quarantine, marker := Live(root, id), QuarantinePath(root, id), MarkerPath(root, id);
    assert live[|root|] == Lower(id) && quarantine[|root|] == PURGING + Lower(id) && marker[|root|] == OWNERS;
  }

  lemma SameMarker(t: Tree, u: Tree, root: Path, id: string)
    requires var m := MarkerPath(root, id); (m in t <==> m in u) && (m in t ==> t[m] == u[m])
    ensures Marked(t, root, id) <==> Marked(u, root, id)
  {
  }

  ghost predicate SameOutside(t: Tree, u: Tree, p: Path, q: Path) {
    forall r: Path :: !(p <= r) && !(q <= r) ==> (r in t <==> r in u) && (r in t ==> t[r] == u[r])
  }

  lemma RenamedOutside(t: Tree, p: Path, q: Path)
    requires Rooted(t) && q !in t
    ensures SameOutside(t, Renamed(t, p, q), p, q)
  {
    var u := Renamed(t, p, q);
    forall r: Path ensures !(p <= r) && !(q <= r) ==> (r in t <==> r in u) && (r in t ==> t[r] == u[r]) {
      RenamedAt(t, p, q, r);
    }
  }

  lemma ThinnedOutside(t: Tree, p: Path, q: Path, chosen: set<Path>)
    ensures SameOutside(t, Thinned(t, q, chosen), p, q)
  {
  }

  lemma WithoutOutside(t: Tree, p: Path, q: Path)
    ensures SameOutside(t, Without(t, q), p, q)
  {
  }

  lemma OutsideIsIntact(t: Tree, u: Tree, root: Path, id: string)
    requires ValidDeploymentId(id) && Marked(t, root, id) && SameOutside(t, u, Live(root, id), QuarantinePath(root, id))
    ensures OthersIntact(t, u, root, id) && Marked(u, root, id)
  {
    OwnPathsDiffer(root, id);
    SameMarker(t, u, root, id);
  }

  lemma RenameQuarantines(t: Tree, root: Path, id: string)
    requires ValidDeploymentId(id) && Rooted(t) && Marked(t, root, id)
    requires Live(root, id) in t && t[Live(root, id)] == Folder && QuarantinePath(root, id) !in t
    ensures var u := Renamed(t, Live(root, id), QuarantinePath(root, id));
      Quarantined(u, root, id) && OthersIntact(t, u, root, id)
  {
    hide Renamed, Rooted, Marked, OthersIntact, SameOutside;
    var live, quarantine := Live(root, id), QuarantinePath(root, id);
    OwnPathsDiffer(root, id);
    RenamedRooted(t, live, quarantine);
    RenamedOutside(t, live, quarantine);
    OutsideIsIntact(t, Renamed(t, live, quarantine), root, id);
  }

  lemma ThinningStays(t: Tree, root: Path, id: string, chosen: set<Path>)
    requires ValidDeploymentId(id) && Quarantined(t, root, id)
    ensures var u := Thinned(t, QuarantinePath(root, id), chosen); Quarantined(u, root, id) && OthersIntact(t, u, root, id)
  {
    var live, quarantine := Live(root, id), QuarantinePath(root, id);
    var u := Thinned(t, quarantine, chosen);
    assert live !in u && (quarantine in u ==> u[quarantine] == t[quarantine]);
    hide Thinned, Rooted, Marked, OthersIntact, SameOutside;
    ThinnedRooted(t, quarantine, chosen);
    ThinnedOutside(t, live, quarantine, chosen);
    OutsideIsIntact(t, u, root, id);
  }

  lemma ClearingLeavesMarker(t: Tree, root: Path, id: string)
    requires ValidDeploymentId(id) && Quarantined(t, root, id)
    ensures var u := Without(t, QuarantinePath(root, id));
      && Rooted(u) && Marked(u, root, id) && OthersIntact(t, u, root, id)
      && Live(root, id) !in u && QuarantinePath(root, id) !in u
  {
    var live, quarantine := Live(root, id), QuarantinePath(root, id);
    WithoutRooted(t, quarantine);
    WithoutOutside(t, live, quarantine);
    OutsideIsIntact(t, Without(t, quarantine), root, id);
  }

  lemma UnmarkingCleans(t: Tree, root: Path, id: string)
    requires ValidDeploymentId(id) && Rooted(t) && Live(root, id) !in t && QuarantinePath(root, id) !in t
    ensures var u := Without(t, MarkerPath(root, id));
      Rooted(u) && Clean(u, root, id) && OthersIntact(t, u, root, id)
  {
    WithoutRooted(t, MarkerPath(root, id));
  }

  lemma IntactNow(t: Tree, root: Path, id: string)
    ensures OthersIntact(t, t, root, id)
  {
  }

  lemma IntactOn(t: Tree, u: Tree, v: Tree, root: Path, id: string)
    requires OthersIntact(t, u, root, id) && OthersIntact(u, v, root, id)
    ensures OthersIntact(t, v, root, id)
  {
    hide Own;
  }

  // ---- Making a directory ----

  /** A marker that a crash or a failed write left without all of its id. */
  predicate Torn(t: Tree, root: Path, id: string) {
    && MarkerPath(root, id) in t
    && var node := t[MarkerPath(root, id)];
       node.File? && |node.text| < 36 && node.text <= MarkerText(id)
  }

  /** What an ensure accepts: each of its three entries is absent or right. */
  predicate Adoptable(t: Tree, root: Path, id: string) {
    && ValidDeploymentId(id)
    && root in t
    && (Live(root, id) in t ==> t[Live(root, id)] == Folder)
    && (OwnersPath(root) in t ==> t[OwnersPath(root)] == Folder)
    && (MarkerPath(root, id) in t ==> Marked(t, root, id))
  }

  /** The deployment's directory is there and is its own. */
  predicate Owned(t: Tree, root: Path, id: string) {
    Live(root, id) in t && t[Live(root, id)] == Folder && Marked(t, root, id)
  }

  /** Entries may have been added at the directory, the owners directory and the marker; none has been changed. */
  ghost predicate Extends(t: Tree, u: Tree, root: Path, id: string) {
    && (forall p: Path :: p in t ==> p in u && u[p] == t[p])
    && (forall p: Path :: p in u && p !in t ==> p == Live(root, id) || p == OwnersPath(root) || p == MarkerPath(root, id))
  }

  /** What an ensure promises, whatever fails: the only way to lose an adoptable deployment is to be stopped between
      making the marker and writing it, and then no later ensure or purge gets through. */
  ghost predicate EnsurePromise(t: Tree, u: Tree, root: Path, id: string, ok: bool, faultless: bool) {
    && Extends(t, u, root, id)
    && (ok ==> Owned(u, root, id))
    && (faultless ==> (ok <==> Adoptable(t, root, id)))
    && (Adoptable(t, root, id) ==> (Adoptable(u, root, id) <==> !Torn(u, root, id)))
    && (MarkerPath(root, id) in u && MarkerPath(root, id) !in t ==> Live(root, id) in u)
  }

  lemma Extended(t: Tree, p: Path, node: Node)
    requires Rooted(t) && p !in t && p != [] && p[..|p| - 1] in t
    ensures Rooted(t[p := node])
  {
    assert forall r :: r in t[p := node] && r != [] ==> r[..|r| - 1] in t[p := node];
  }

  lemma Rewritten(t: Tree, p: Path, node: Node)
    requires Rooted(t) && p in t
    ensures Rooted(t[p := node])
  {
  }

  lemma VerifyTells(t: Tree, root: Path, id: string, look: Fate, read: Fate)
    ensures VerifyMarker(t, root, id, look, read) == Good ==> Marked(t, root, id)
    ensures look == Works && read == Works && Marked(t, root, id) ==> VerifyMarker(t, root, id, look, read) == Good
  {
    hide Trim;
  }

  lemma TextTells(t: Tree, root: Path, id: string, n: nat)
    requires ValidDeploymentId(id) && n <= |MarkerText(id)|
    requires MarkerPath(root, id) in t && t[MarkerPath(root, id)] == File(MarkerText(id)[..n])
    ensures Marked(t, root, id) <==> n >= 36
    ensures Torn(t, root, id) <==> n < 36
  {
    CutMarkerText(id, n);
    hide Trim, MarkerText;
  }

  lemma TornTells(t: Tree, root: Path, id: string)
    requires ValidDeploymentId(id)
    ensures Torn(t, root, id) ==> !Marked(t, root, id)
  {
    if Torn(t, root, id) {
      var text := t[MarkerPath(root, id)].text;
      assert text == MarkerText(id)[..|text|];
      hide Torn, Marked;
      TextTells(t, root, id, |text|);
    }
  }

  lemma Refusal(t: Tree, root: Path, id: string, faultless: bool)
    requires faultless ==> !Adoptable(t, root, id)
    ensures EnsurePromise(t, t, root, id, false, faultless)
  {
    hide Marked, Live, OwnersPath, MarkerPath, Torn;
    if Adoptable(t, root, id) {
      AdoptableNotTorn(t, root, id);
    }
  }

  /** Adding the directory or the owners directory changes nothing about what an ensure accepts. */
  lemma FolderAdded(t: Tree, root: Path, id: string, p: Path, u: Tree)
    requires ValidDeploymentId(id) && root in t && (p == Live(root, id) || p == OwnersPath(root)) && p !in t && u == t[p := Folder]
    ensures Extends(t, u, root, id) && (Adoptable(t, root, id) <==> Adoptable(u, root, id))
    ensures MarkerPath(root, id) in u <==> MarkerPath(root, id) in t
  {
    EntriesDiffer(root, id);
    SameMarker(t, u, root, id);
    hide Marked, Live, OwnersPath, MarkerPath;
  }

  lemma PromiseOn(t: Tree, t': Tree, u: Tree, root: Path, id: string, ok: bool, faultless: bool)
    requires Extends(t, t', root, id) && (Adoptable(t, root, id) <==> Adoptable(t', root, id))
    requires MarkerPath(root, id) in t' <==> MarkerPath(root, id) in t
    requires EnsurePromise(t', u, root, id, ok, faultless)
    ensures EnsurePromise(t, u, root, id, ok, faultless)
  {
    hide Adoptable, Torn, Owned, Live, OwnersPath, MarkerPath;
  }

  lemma RootIsThere(t: Tree, root: Path, id: string)
    requires Rooted(t) && Live(root, id) in t
    ensures root in t
  {
    assert Live(root, id)[..|root|] == root;
  }

  lemma ExtendsNow(t: Tree, root: Path, id: string)
    ensures Extends(t, t, root, id)
  {
  }

  lemma AdoptableNotTorn(t: Tree, root: Path, id: string)
    requires Adoptable(t, root, id)
    ensures !Torn(t, root, id)
  {
    TornTells(t, root, id);
    hide Marked;
  }

  lemma EntriesDiffer(root: Path, id: string)
    requires ValidDeploymentId(id)
    ensures Live(root, id) != OwnersPath(root) && Live(root, id) != MarkerPath(root, id) && OwnersPath(root) != MarkerPath(root, id)
    ensures var p := Live(root, id); p != [] && p[..|p| - 1] == root
    ensures var p := OwnersPath(root); p != [] && p[..|p| - 1] == root
    ensures var p := MarkerPath(root, id); p != [] && p[..|p| - 1] == OwnersPath(root)
  {
    UuidIsComponent(Lower(id));
    assert Live(root, id)[|root|] == Lower(id) && OwnersPath(root)[|root|] == OWNERS;
  }

  // ---- Crash safety ----

  /** One run of a purge, to its end or to a crash. */
  datatype Attempt = Attempt(before: Tree, after: Tree, ok: bool, faultless: bool)

  ghost predicate PurgeRuns(runs: seq<Attempt>, root: Path, id: string) {
    && (forall i | 0 <= i < |runs| ::
          PurgePromise(runs[i].before, runs[i].after, root, id, runs[i].ok, runs[i].faultless))
    && (forall i | 0 < i < |runs| :: runs[i].before == runs[i - 1].after)
  }

  /** From a state that is the deployment's own, any number of interrupted purges followed by one whose calls work
      leaves neither directory nor quarantine nor marker, and nothing of anyone else has changed. */
  lemma {:induction false} PurgeIsCrashSafe(runs: seq<Attempt>, root: Path, id: string)
    requires runs != [] && PurgeRuns(runs, root, id) && Purgeable(runs[0].before, root, id)
    ensures var last := runs[|runs| - 1];
      && OthersIntact(runs[0].before, last.after, root, id)
      && Purgeable(last.before, root, id)
      && (last.faultless ==> last.ok && Clean(last.after, root, id))
  {
    hide OthersIntact, Purgeable, Clean;
    var n := |runs| - 1;
    if n > 0 {
      PurgeIsCrashSafe(runs[..n], root, id);
      IntactOn(runs[0].before, runs[n].before, runs[n].after, root, id);
    }
  }

  /** No purge touches a directory whose marker is missing or another's, nor anything while both copies exist. */
  lemma PurgeRefuses(t: Tree, u: Tree, root: Path, id: string, ok: bool, faultless: bool)
    requires PurgePromise(t, u, root, id, ok, faultless)
    ensures BothCopies(t, root, id) ==> u == t && !ok
    ensures !Marked(t, root, id) && (Live(root, id) in t || QuarantinePath(root, id) in t) ==> u == t && !ok
  {
  }

  /** A directory that has been ensured can be purged, unless a quarantined copy of an earlier purge is still there:
      then there are two copies, and no purge ever gets through again. */
  lemma EnsuredIsPurgeable(t: Tree, u: Tree, root: Path, id: string, faultless: bool)
    requires EnsurePromise(t, u, root, id, true, faultless) && ValidDeploymentId(id)
    ensures Purgeable(u, root, id) <==> QuarantinePath(root, id) !in t
  {
    EnsureKeepsQuarantine(t, u, root, id);
    hide Marked;
  }

  function MarkOf(t: Tree, root: Path, id: string): Host.Mark {
    if MarkerPath(root, id) !in t then Host.Bare else if Marked(t, root, id) then Host.Mark.Marked else Host.Spoilt
  }

  /** The two copies and their marker, as the procedures of the agent see them. */
  function CopiesOf(t: Tree, root: Path, id: string): Host.Directory {
    Host.Directory(Live(root, id) in t, QuarantinePath(root, id) in t, MarkOf(t, root, id))
  }

  lemma MarkedTells(t: Tree, root: Path, id: string)
    ensures Marked(t, root, id) ==> MarkerPath(root, id) in t
  {
  }

  /** The protocol refines the one-call purge of the module Host: every run of it, whatever fails, has one of that
      call's outcomes. */
  lemma PurgeRefinesHost(t: Tree, u: Tree, root: Path, id: string, ok: bool, faultless: bool)
    requires PurgePromise(t, u, root, id, ok, faultless)
    ensures exists o :: Host.PurgeDirectory(CopiesOf(t, root, id), o) == Host.DiskReply(CopiesOf(u, root, id), ok)
  {
    MarkedTells(t, root, id);
    MarkedTells(u, root, id);
    hide Marked, OthersIntact;
    var before, after := CopiesOf(t, root, id), CopiesOf(u, root, id);
    if u == t && !ok {
      assert Host.PurgeDirectory(before, Host.Fail) == Host.DiskReply(after, ok);
    } else if ok {
      assert Host.PurgeDirectory(before, Host.Ok) == Host.DiskReply(after, ok);
    } else if QuarantinePath(root, id) in u {
      assert Host.PurgeDirectory(before, Host.Partial) == Host.DiskReply(after, ok);
    } else if MarkerPath(root, id) !in u {
      assert Host.PurgeDirectory(before, Host.Lost) == Host.DiskReply(after, ok);
    } else {
      assert Host.PurgeDirectory(before, Host.Torn) == Host.DiskReply(after, ok);
    }
  }

  /** So does an ensure. */
  lemma EnsureRefinesHost(t: Tree, u: Tree, root: Path, id: string, ok: bool, faultless: bool)
    requires EnsurePromise(t, u, root, id, ok, faultless) && ValidDeploymentId(id)
    ensures exists o :: Host.EnsureDirectory(CopiesOf(t, root, id), o) == Host.DiskReply(CopiesOf(u, root, id), ok)
  {
    EnsureKeepsQuarantine(t, u, root, id);
    MarkedTells(u, root, id);
    if MarkerPath(root, id) in t {
      SameMarker(t, u, root, id);
    }
    hide Marked, Adoptable, Torn;
    var before, after := CopiesOf(t, root, id), CopiesOf(u, root, id);
    if ok {
      assert Host.EnsureDirectory(before, Host.Ok) == Host.DiskReply(after, ok);
    } else if after == before {
      assert Host.EnsureDirectory(before, Host.Fail) == Host.DiskReply(after, ok);
    } else if after.mark == before.mark {
      assert Host.EnsureDirectory(before, Host.Partial) == Host.DiskReply(after, ok);
    } else if after.mark.Spoilt? {
      assert Host.EnsureDirectory(before, Host.Torn) == Host.DiskReply(after, ok);
    } else {
      assert Host.EnsureDirectory(before, Host.Lost) == Host.DiskReply(after, ok);
    }
  }

  lemma EnsureKeepsQuarantine(t: Tree, u: Tree, root: Path, id: string)
    requires Extends(t, u, root, id) && ValidDeploymentId(id)
    ensures QuarantinePath(root, id) in u <==> QuarantinePath(root, id) in t
  {
    UuidIsComponent(Lower(id));
    assert QuarantinePath(root, id)[|root|] == PURGING + Lower(id) && Live(root, id)[|root|] == Lower(id);
    assert OwnersPath(root)[|root|] == OWNERS && MarkerPath(root, id)[|root|] == OWNERS;
  }

  // ---- Isolation ----

  /** Nothing that `other` owns under `root` differs. */
  ghost predicate Untouched(t: Tree, u: Tree, root: Path, other: string) {
    forall p: Path :: Own(root, other, p) ==> (p in t <==> p in u) && (p in t ==> t[p] == u[p])
  }

  /** A purge of one deployment leaves every other deployment's directory, quarantine and marker under the same
      root, and all deployments' under the other root, as they are. */
  lemma PurgeIsIsolated(t: Tree, u: Tree, panel: Path, backup: Path, id: string, other: string, ok: bool, faultless: bool)
    requires IsPath(panel) && IsPath(backup) && RootsAccepted(panel, backup)
    requires ValidDeploymentId(id) && ValidDeploymentId(other)
    requires PurgePromise(t, u, panel, id, ok, faultless)
    ensures Lower(id) != Lower(other) ==> Untouched(t, u, panel, other)
    ensures Untouched(t, u, backup, other)
  {
    forall p: Path | Own(panel, other, p) && Own(panel, id, p) ensures Lower(id) == Lower(other) {
      OneOwner(panel, id, other, p);
    }
    forall p: Path | Own(backup, other, p) ensures !Own(panel, id, p) {
      if Own(panel, id, p) {
        RootsApart(panel, backup, id, other, p, p);
      }
    }
    hide Own;
  }

  /** So does an ensure. */
  lemma EnsureIsIsolated(t: Tree, u: Tree, root: Path, id: string, other: string, ok: bool, faultless: bool)
    requires ValidDeploymentId(id) && ValidDeploymentId(other) && Lower(id) != Lower(other)
    requires EnsurePromise(t, u, root, id, ok, faultless)
    ensures Untouched(t, u, root, other)
  {
    forall p: Path | Own(root, other, p) ensures p != Live(root, id) && p != OwnersPath(root) && p != MarkerPath(root, id) {
      FirstStep(root, other, p);
      UuidIsComponent(Lower(other));
      if Own(root, id, p) {
        OneOwner(root, id, other, p);
      }
      assert Own(root, id, Live(root, id)) && Own(root, id, MarkerPath(root, id));
      assert MarkerPath(root, other) <= p ==> |p| > |OwnersPath(root)|;
    }
    hide Own, Live, OwnersPath, MarkerPath;
  }

  class Manager {
    const panelRoot: Path
    const backupRoot: Path
    var tree: Tree

    ghost predicate Valid()
      reads this
    {
      IsPath(panelRoot) && IsPath(backupRoot) && RootsAccepted(panelRoot, backupRoot) && Rooted(tree)
    }

    constructor (panelRoot: Path, backupRoot: Path, tree: Tree)
      requires IsPath(panelRoot) && IsPath(backupRoot) && RootsAccepted(panelRoot, backupRoot) && Rooted(tree)
      ensures Valid() && this.panelRoot == panelRoot && this.backupRoot == backupRoot && this.tree == tree
    {
      this.panelRoot, this.backupRoot, this.tree := panelRoot, backupRoot, tree;
    }

    method EnsurePanel(id: string, fates: seq<Fate>, written: nat) returns (ok: bool)
      requires Valid()
      modifies this`tree
      ensures Valid() && EnsurePromise(old(tree), tree, panelRoot, id, ok, Faultless(fates))
    {
      ok := EnsureOwnedDirectory(panelRoot, id, fates, written);
    }

    method EnsureBackup(id: string, fates: seq<Fate>, written: nat) returns (ok: bool)
      requires Valid()
      modifies this`tree
      ensures Valid() && EnsurePromise(old(tree), tree, backupRoot, id, ok, Faultless(fates))
    {
      ok := EnsureOwnedDirectory(backupRoot, id, fates, written);
    }

    method PurgePanel(id: string, fates: seq<Fate>, chosen: set<Path>) returns (ok: bool)
      requires Valid()
      modifies this`tree
      ensures Valid() && PurgePromise(old(tree), tree, panelRoot, id, ok, Faultless(fates))
    {
      ok := PurgeOwnedDirectory(panelRoot, id, fates, chosen);
    }

    method PurgeBackups(id: string, fates: seq<Fate>, chosen: set<Path>) returns (ok: bool)
      requires Valid()
      modifies this`tree
      ensures Valid() && PurgePromise(old(tree), tree, backupRoot, id, ok, Faultless(fates))
    {
      ok := PurgeOwnedDirectory(backupRoot, id, fates, chosen);
    }

    method PurgeOwnedDirectory(root: Path, id: string, fates: seq<Fate>, chosen: set<Path>) returns (ok: bool)
      requires IsPath(root) && Rooted(tree)
      modifies this`tree
      ensures Rooted(tree) && PurgePromise(old(tree), tree, root, id, ok, Faultless(fates))
    {
      hide Renamed, Without, Thinned, Rooted, OthersIntact, OwnedDirectoryExists, VerifyMarker, Marked, Faultless, At, Own, Trim, Siblings, IsUuid, Moved;
      DeploymentPathIs(root, id);
      IntactNow(tree, root, id);
      var path := DeploymentPath(root, id);
      if path.None? {
        return false;
      }
      var quarantine := QuarantinePath(root, id);
      if !IsStrictChild(root, quarantine) {
        return false;
      }
      hide DeploymentPath, IsStrictChild, QuarantinePath, MarkerPath, Live, Lower, Rel, IsPath;
      var pathExists := OwnedDirectoryExists(tree, root, path.value, id, At(fates, 0), At(fates, 1), At(fates, 2));
      ExistenceTells(tree, root, path.value, id, fates, 0, pathExists);
      if pathExists == Refused {
        return false;
      }
      var quarantineExists := OwnedDirectoryExists(tree, root, quarantine, id, At(fates, 3), At(fates, 4), At(fates, 5));
      ExistenceTells(tree, root, quarantine, id, fates, 3, quarantineExists);
      if quarantineExists == Refused {
        return false;
      }
      if pathExists == Yes && quarantineExists == Yes {
        return false;
      }
      WorksIn(fates, 6);
      if pathExists == Yes {
        if At(fates, 6) != Works {
          return false;
        }
        RenameQuarantines(tree, root, id);
        tree := Renamed(tree, path.value, quarantine);
        quarantineExists := Yes;
      }
      var marker := VerifyMarker(tree, root, id, At(fates, 7), At(fates, 8));
      if quarantineExists != Yes {
        MarkerTells(tree, root, id, fates, marker);
        if marker == Missing {
          return true;
        }
        if marker == Bad {
          return false;
        }
        WorksIn(fates, 9);
        if At(fates, 9) != Works {
          return false;
        }
        UnmarkingCleans(tree, root, id);
        tree := Without(tree, MarkerPath(root, id));
        return true;
      }
      ghost var t := tree;
      assert Purgeable(old(tree), root, id) && Quarantined(t, root, id);
      ok := RemoveQuarantined(root, id, marker, fates, chosen);
      IntactOn(old(tree), t, tree, root, id);
    }

    /** The end of a purge, once only the quarantined copy is left. */
    method RemoveQuarantined(root: Path, id: string, marker: Check, fates: seq<Fate>, chosen: set<Path>) returns (ok: bool)
      requires ValidDeploymentId(id) && Quarantined(tree, root, id)
      requires marker == VerifyMarker(tree, root, id, At(fates, 7), At(fates, 8))
      modifies this`tree
      ensures Rooted(tree) && OthersIntact(old(tree), tree, root, id) && Purgeable(tree, root, id)
      ensures Live(root, id) !in tree
      ensures ok ==> Clean(tree, root, id)
      ensures Faultless(fates) ==> ok
    {
      hide Rooted, OthersIntact, Faultless, At, VerifyMarker, Own;
      var quarantine := QuarantinePath(root, id);
      IntactNow(tree, root, id);
      MarkerTells(tree, root, id, fates, marker);
      WorksIn(fates, 10);
      WorksIn(fates, 11);
      if marker != Good || At(fates, 10) == Breaks {
        return false;
      }
      ghost var t := tree;
      if At(fates, 10) == Stops {
        ThinningStays(tree, root, id, chosen);
        tree := Thinned(tree, quarantine, chosen);
        return false;
      }
      ClearingLeavesMarker(tree, root, id);
      tree := Without(tree, quarantine);
      if At(fates, 11) != Works {
        return false;
      }
      UnmarkingCleans(tree, root, id);
      IntactOn(t, tree, Without(tree, MarkerPath(root, id)), root, id);
      tree := Without(tree, MarkerPath(root, id));
      return true;
    }

    /** `written` tells how many characters of a new marker a failing write gets to the disk. */
    method EnsureOwnedDirectory(root: Path, id: string, fates: seq<Fate>, written: nat) returns (ok: bool)
      requires IsPath(root) && Rooted(tree)
      modifies this`tree
      ensures Rooted(tree) && EnsurePromise(old(tree), tree, root, id, ok, Faultless(fates))
    {
      hide Marked, Rooted, Faultless, At, EnsurePromise, Extends;
      ghost var t := tree;
      DeploymentPathIs(root, id);
      var path := DeploymentPath(root, id);
      if path.None? {
        Refusal(t, root, id, Faultless(fates));
        return false;
      }
      assert path.value == Live(root, id);
      hide DeploymentPath, Live, OwnersPath, MarkerPath, Lower;
      EntriesDiffer(root, id);
      ExtendsNow(t, root, id);
      WorksIn(fates, 0);
      WorksIn(fates, 1);
      var found := Lstat(tree, path.value, At(fates, 0));
      if found == Unreadable || (found.Present? && found.node != Folder) {
        Refusal(t, root, id, Faultless(fates));
        return false;
      }
      if found == Absent {
        if At(fates, 1) != Works || root !in tree {
          Refusal(t, root, id, Faultless(fates));
          return false;
        }
        Extended(tree, path.value, Folder);
        FolderAdded(tree, root, id, path.value, tree[path.value := Folder]);
        tree := tree[path.value := Folder];
      }
      WorksIn(fates, 2);
      ghost var t' := tree;
      if At(fates, 2) != Works {
        Refusal(t', root, id, Faultless(fates));
        PromiseOn(t, t', t', root, id, false, Faultless(fates));
        return false;
      }
      RootIsThere(tree, root, id);
      ok := EnsureMarker(root, id, fates, written);
      PromiseOn(t, t', tree, root, id, ok, Faultless(fates));
    }

    /** The end of an ensure, once the directory is there. */
    method EnsureMarker(root: Path, id: string, fates: seq<Fate>, written: nat) returns (ok: bool)
      requires ValidDeploymentId(id) && Rooted(tree) && root in tree && Live(root, id) in tree && tree[Live(root, id)] == Folder
      modifies this`tree
      ensures Rooted(tree) && EnsurePromise(old(tree), tree, root, id, ok, Faultless(fates))
    {
      hide Marked, VerifyMarker, Rooted, Faultless, At, Live, OwnersPath, MarkerPath, EnsurePromise, Extends, Torn;
      ghost var t := tree;
      EntriesDiffer(root, id);
      ExtendsNow(t, root, id);
      WorksIn(fates, 3);
      WorksIn(fates, 4);
      var owners, marker := OwnersPath(root), MarkerPath(root, id);
      if At(fates, 3) != Works || (owners in tree && tree[owners] != Folder) {
        Refusal(t, root, id, Faultless(fates));
        return false;
      }
      if owners !in tree {
        Extended(tree, owners, Folder);
        FolderAdded(tree, root, id, owners, tree[owners := Folder]);
        tree := tree[owners := Folder];
      }
      ghost var t' := tree;
      if At(fates, 4) != Works {
        ok := false;
        Refusal(t', root, id, Faultless(fates));
      } else if marker in tree {
        ok := AdoptMarker(root, id, fates);
      } else {
        ok := WriteMarker(root, id, fates, written);
      }
      PromiseOn(t, t', tree, root, id, ok, Faultless(fates));
    }

    method AdoptMarker(root: Path, id: string, fates: seq<Fate>) returns (ok: bool)
      requires ValidDeploymentId(id) && root in tree && Live(root, id) in tree && tree[Live(root, id)] == Folder
      requires OwnersPath(root) in tree && tree[OwnersPath(root)] == Folder && MarkerPath(root, id) in tree
      ensures EnsurePromise(tree, tree, root, id, ok, Faultless(fates))
    {
      ok := VerifyMarker(tree, root, id, At(fates, 7), At(fates, 8)) == Good;
      VerifyTells(tree, root, id, At(fates, 7), At(fates, 8));
      WorksIn(fates, 7);
      WorksIn(fates, 8);
      TornTells(tree, root, id);
      hide Marked, VerifyMarker, Faultless, At, Live, OwnersPath, MarkerPath;
    }

    method WriteMarker(root: Path, id: string, fates: seq<Fate>, written: nat) returns (ok: bool)
      requires ValidDeploymentId(id) && Rooted(tree) && root in tree && Live(root, id) in tree && tree[Live(root, id)] == Folder
      requires OwnersPath(root) in tree && tree[OwnersPath(root)] == Folder && MarkerPath(root, id) !in tree
      modifies this`tree
      ensures Rooted(tree) && EnsurePromise(old(tree), tree, root, id, ok, Faultless(fates))
    {
      hide Marked, VerifyMarker, Rooted, Faultless, At, Live, OwnersPath, MarkerPath, MarkerText, Torn;
      EntriesDiffer(root, id);
      WorksIn(fates, 5);
      WorksIn(fates, 6);
      CutMarkerText(id, 0);
      var marker := MarkerPath(root, id);
      var part := if At(fates, 5) == Works then 37 else if written < 37 then written else 37;
      Extended(tree, marker, File(""));
      tree := tree[marker := File("")];
      Rewritten(tree, marker, File(MarkerText(id)[..part]));
      tree := tree[marker := File(MarkerText(id)[..part])];
      TextTells(tree, root, id, part);
      if At(fates, 5) != Works {
        return false;
      }
      return At(fates, 6) == Works;
    }
  }
}

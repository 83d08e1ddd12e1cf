/** Backup retention: pruning filters the directory's entries in place, sorts them by name and removes what is too
    many or too old. */
module Retention {
  import opened Common
  import opened Faults
  import opened TextTime

  datatype File = File(isDir: bool, modified: int)

  datatype Entry = Entry(name: string, file: File)

  type Directory = map<string, File>

  predicate IsEncrypted(e: Entry) {
    !e.file.isDir && |e.name| >= 4 && e.name[|e.name| - 4..] == ".enc"
  }

  // ---- The rule ----

  ghost function Newer(d: Directory, name: string): set<string> {
    set n | n in d && IsEncrypted(Entry(n, d[n])) && LexLess(name, n)
  }

  /** What pruning is to remove: an encrypted backup that is not among the `keep` greatest names, or too old. */
  ghost predicate Expired(d: Directory, name: string, keep: int, maxAge: int, now: int) {
    && name in d && IsEncrypted(Entry(name, d[name]))
    && (|Newer(d, name)| >= keep || now - d[name].modified > maxAge)
  }

  // ---- Filtering in place ----

  function Encrypted(s: seq<Entry>): seq<Entry> {
    if s == [] then []
    else if IsEncrypted(s[|s| - 1]) then Encrypted(s[..|s| - 1]) + [s[|s| - 1]]
    else Encrypted(s[..|s| - 1])
  }

  method FilterInPlace(a: array<Entry>) returns (n: nat)
    modifies a
    ensures n <= a.Length && a[..n] == Encrypted(old(a[..]))
  {
    n := 0;
    for i := 0 to a.Length
      invariant n <= i
      invariant a[..n] == Encrypted(old(a[..])[..i])
      invariant a[i..] == old(a[i..])
    {
      assert old(a[..])[..i + 1][..i] == old(a[..])[..i];
      assert a[i] == old(a[..])[i];
      if IsEncrypted(a[i]) {
        a[n] := a[i];
        n := n + 1;
      }
    }
    assert old(a[..])[..a.Length] == old(a[..]);
  }

  ghost predicate Distinct(s: seq<Entry>) {
    forall i, j | 0 <= i < j < |s| :: s[i].name != s[j].name
  }

  lemma {:induction false} EncryptedMembers(s: seq<Entry>)
    requires Distinct(s)
    ensures Distinct(Encrypted(s))
    ensures forall e :: e in Encrypted(s) <==> e in s && IsEncrypted(e)
  {
    if s != [] {
      var before := s[..|s| - 1];
      EncryptedMembers(before);
      assert s == before + [s[|s| - 1]];
      forall i | 0 <= i < |Encrypted(before)| ensures Encrypted(before)[i].name != s[|s| - 1].name {
        assert Encrypted(before)[i] in before;
      }
    }
  }

  // ---- Sorting in place ----

  ghost predicate Descending(s: seq<Entry>) {
    forall i, j | 0 <= i < j < |s| :: LexLess(s[j].name, s[i].name)
  }

  /** Where the greatest name of a[lo..n] is. */
  method Greatest(a: array<Entry>, lo: nat, n: nat) returns (m: nat)
    requires lo < n <= a.Length
    ensures lo <= m < n && forall k | lo <= k < n :: !LexLess(a[m].name, a[k].name)
  {
    m := lo;
    LexLessIrreflexive(a[lo].name);
    for i := lo + 1 to n
      invariant lo <= m < i
      invariant forall k | lo <= k < i :: !LexLess(a[m].name, a[k].name)
    {
      if LexLess(a[m].name, a[i].name) {
        forall k | lo <= k < i ensures !LexLess(a[i].name, a[k].name) {
          if LexLess(a[i].name, a[k].name) {
            LexLessTransitive(a[m].name, a[i].name, a[k].name);
          }
        }
        LexLessIrreflexive(a[i].name);
        m := i;
      }
    }
  }

  /** The first `i` places hold the greatest names, in order. */
  ghost predicate SortedUpTo(s: seq<Entry>, i: nat) {
    i <= |s| && forall j, k | 0 <= j < k < |s| && j < i :: LexLess(s[k].name, s[j].name)
  }

  lemma SwapSorts(s: seq<Entry>, i: nat, m: nat, t: seq<Entry>)
    requires i <= m < |s| && Distinct(s) && SortedUpTo(s, i) && t == s[i := s[m]][m := s[i]]
    requires forall k | i <= k < |s| :: !LexLess(s[m].name, s[k].name)
    ensures Distinct(t) && SortedUpTo(t, i + 1) && multiset(t) == multiset(s)
  {
    forall k | i <= k < |s| && k != m ensures LexLess(s[k].name, s[m].name) {
      LexLessTotal(s[k].name, s[m].name);
    }
    hide LexLess;
    assert forall k | 0 <= k < |s| :: t[k] == if k == i then s[m] else if k == m then s[i] else s[k];
  }

  /** sort.Slice by descending name. */
  method SortDescending(a: array<Entry>, n: nat)
    requires n <= a.Length && Distinct(a[..n])
    modifies a
    ensures multiset(a[..n]) == multiset(old(a[..n])) && a[n..] == old(a[n..])
    ensures Descending(a[..n])
  {
    hide LexLess, Distinct, SortedUpTo;
    assert SortedUpTo(a[..n], 0) by {
      NothingSorted(a[..n]);
    }
    for i := 0 to n
      invariant multiset(a[..n]) == multiset(old(a[..n])) && a[n..] == old(a[n..])
      invariant Distinct(a[..n]) && SortedUpTo(a[..n], i)
    {
      var m := Greatest(a, i, n);
      ghost var s := a[..n];
      a[i], a[m] := a[m], a[i];
      assert a[..n] == s[i := s[m]][m := s[i]];
      SwapSorts(s, i, m, a[..n]);
    }
    AllSorted(a[..n]);
  }

  lemma NothingSorted(s: seq<Entry>)
    ensures SortedUpTo(s, 0)
  {
  }

  lemma AllSorted(s: seq<Entry>)
    requires SortedUpTo(s, |s|)
    ensures Descending(s)
  {
  }

  // ---- Ranks ----

  /** The entries are exactly the encrypted backups of the directory. */
  ghost predicate Covers(s: seq<Entry>, d: Directory) {
    forall e :: e in s <==> e.name in d && d[e.name] == e.file && IsEncrypted(e)
  }

  ghost function NamesOf(s: seq<Entry>): set<string> {
    set i | 0 <= i < |s| :: s[i].name
  }

  lemma {:induction false} CountNames(s: seq<Entry>)
    requires Distinct(s)
    ensures |NamesOf(s)| == |s|
  {
    if s != [] {
      var n := |s| - 1;
      CountNames(s[..n]);
      assert s[n].name !in NamesOf(s[..n]);
      assert NamesOf(s) == NamesOf(s[..n]) + {s[n].name};
    }
  }

  lemma DescendingIsDistinct(s: seq<Entry>)
    requires Descending(s)
    ensures Distinct(s)
  {
    forall i, j | 0 <= i < j < |s| ensures s[i].name != s[j].name {
      LexLessIrreflexive(s[i].name);
    }
  }

  /** In the sorted list an entry's index is the number of newer backups. */
  lemma IndexIsRank(d: Directory, s: seq<Entry>, i: nat)
    requires Descending(s) && Covers(s, d) && i < |s|
    ensures |Newer(d, s[i].name)| == i
  {
    DescendingIsDistinct(s);
    CountNames(s[..i]);
    forall n | n in Newer(d, s[i].name) ensures n in NamesOf(s[..i]) {
      assert Entry(n, d[n]) in s;
      var k :| 0 <= k < |s| && s[k] == Entry(n, d[n]);
      LexLessIrreflexive(n);
      if k > i {
        LexLessTransitive(s[k].name, s[i].name, s[k].name);
      }
    }
    forall n | n in NamesOf(s[..i]) ensures n in Newer(d, s[i].name) {
      var k :| 0 <= k < i && s[..i][k].name == n;
      assert s[k] in s;
    }
    assert Newer(d, s[i].name) == NamesOf(s[..i]);
  }

  /** The names the loop is to remove among the first `i`. */
  ghost function Doomed(s: seq<Entry>, i: nat, keep: int, maxAge: int, now: int): set<string>
    requires i <= |s|
  {
    set k | 0 <= k < i && (k >= keep || now - s[k].file.modified > maxAge) :: s[k].name
  }

  lemma DoomedIsExpired(d: Directory, s: seq<Entry>, keep: int, maxAge: int, now: int)
    requires Descending(s) && Covers(s, d)
    ensures forall n :: n in Doomed(s, |s|, keep, maxAge, now) <==> Expired(d, n, keep, maxAge, now)
  {
    forall n ensures n in Doomed(s, |s|, keep, maxAge, now) <==> Expired(d, n, keep, maxAge, now) {
      if n in d && IsEncrypted(Entry(n, d[n])) {
        assert Entry(n, d[n]) in s;
        var k :| 0 <= k < |s| && s[k] == Entry(n, d[n]);
        IndexIsRank(d, s, k);
        DescendingIsDistinct(s);
      } else {
        forall k | 0 <= k < |s| ensures s[k].name != n {
          assert s[k] in s;
        }
      }
    }
  }

  class Backups {
    var files: Directory

    constructor (files: Directory)
      ensures this.files == files
    {
      this.files := files;
    }

    method ReadDir() returns (a: array<Entry>)
      ensures fresh(a) && Distinct(a[..])
      ensures forall e :: e in a[..] <==> e.name in files && files[e.name] == e.file
    {
      var s: seq<Entry> := [];
      var left := files.Keys;
      while left != {}
        invariant left <= files.Keys && Distinct(s)
        invariant forall e :: e in s <==> e.name in files && e.name !in left && files[e.name] == e.file
        decreases |left|
      {
        var name :| name in left;
        s := s + [Entry(name, files[name])];
        left := left - {name};
      }
      a := new Entry[|s|](i requires 0 <= i < |s| => s[i]);
      assert a[..] == s;
    }

    /** Prune. The first call finds and lists the directory; every later one removes a file. */
    method Prune(keep: int, maxAge: int, now: int, fates: seq<Fate>) returns (ok: bool)
      modifies this
      ensures files.Keys <= old(files).Keys && forall n | n in files :: files[n] == old(files)[n]
      ensures forall n | n in old(files) && !Expired(old(files), n, keep, maxAge, now) :: n in files
      ensures ok ==> forall n | n in files :: !Expired(old(files), n, keep, maxAge, now)
      ensures Faultless(fates) ==> ok
    {
      WorksIn(fates, 0);
      if At(fates, 0) != Works {
        return false;
      }
      var a := ReadDir();
      EncryptedMembers(a[..]);
      var n := FilterInPlace(a);
      assert Covers(a[..n], files);
      ghost var filtered := a[..n];
      SortDescending(a, n);
      ghost var s := a[..n];
      SameMembers(filtered, s);
      DoomedIsExpired(files, s, keep, maxAge, now);
      ok := Remove(a, n, keep, maxAge, now, fates);
    }

    method Remove(a: array<Entry>, n: nat, keep: int, maxAge: int, now: int, fates: seq<Fate>) returns (ok: bool)
      requires n <= a.Length
      modifies this
      ensures files.Keys <= old(files).Keys && forall n | n in files :: files[n] == old(files)[n]
      ensures forall name | name in old(files) && name !in Doomed(a[..n], n, keep, maxAge, now) :: name in files
      ensures ok ==> forall name | name in files :: name !in Doomed(a[..n], n, keep, maxAge, now)
      ensures Faultless(fates) ==> ok
    {
      hide Faultless, At;
      ghost var s := a[..n];
      for i := 0 to n
        invariant files == old(files) - Doomed(s, i, keep, maxAge, now)
      {
        WorksIn(fates, i + 1);
        assert Doomed(s, i, keep, maxAge, now) <= Doomed(s, n, keep, maxAge, now);
        if i >= keep || now - a[i].file.modified > maxAge {
          assert Doomed(s, i + 1, keep, maxAge, now) == Doomed(s, i, keep, maxAge, now) + {s[i].name};
          assert s[i].name in Doomed(s, n, keep, maxAge, now);
          if At(fates, i + 1) != Breaks {
            files := files - {a[i].name};
          }
          if At(fates, i + 1) != Works {
            return false;
          }
        } else {
          assert Doomed(s, i + 1, keep, maxAge, now) == Doomed(s, i, keep, maxAge, now);
        }
      }
      return true;
    }
  }

  lemma SameMembers(s: seq<Entry>, t: seq<Entry>)
    requires multiset(s) == multiset(t)
    ensures forall e :: e in s <==> e in t
  {
    forall e ensures e in s <==> e in t {
      assert e in s <==> e in multiset(s);
      assert e in t <==> e in multiset(t);
    }
  }

  // ---- The names Create gives ----

  function BackupName(t: Instant): string {
    Pad(t.year, 4) + ("" + (Pad(t.month, 2) + ("" + (Pad(t.day, 2) + ("T" + (Pad(t.hour, 2) + ("" + (Pad(t.minute, 2) + ("" + (Pad(t.second, 2) + ("." + (Pad(t.nano, 9) + ("Z.dump.enc" + "")))))))))))))
  }

  /** With the fixed-width fraction of backup names, the greater name is the newer backup. */
  lemma GreaterNameIsNewer(t: Instant, u: Instant)
    requires Valid(t) && Valid(u)
    ensures LexLess(BackupName(t), BackupName(u)) <==> Nanos(t) < Nanos(u)
  {
    hide Pad, LexLess, TenTo;
    SmallPowers();
    var s6, u6 := Pad(t.nano, 9) + ("Z.dump.enc" + ""), Pad(u.nano, 9) + ("Z.dump.enc" + "");
    var s5, u5 := Pad(t.second, 2) + ("." + s6), Pad(u.second, 2) + ("." + u6);
    var s4, u4 := Pad(t.minute, 2) + ("" + s5), Pad(u.minute, 2) + ("" + u5);
    var s3, u3 := Pad(t.hour, 2) + ("" + s4), Pad(u.hour, 2) + ("" + u4);
    var s2, u2 := Pad(t.day, 2) + ("T" + s3), Pad(u.day, 2) + ("T" + u3);
    var s1, u1 := Pad(t.month, 2) + ("" + s2), Pad(u.month, 2) + ("" + u2);
    LexLessIrreflexive("");
    FieldOrder(t.nano, u.nano, 9, "Z.dump.enc", "", "");
    FieldOrder(t.second, u.second, 2, ".", s6, u6);
    FieldOrder(t.minute, u.minute, 2, "", s5, u5);
    FieldOrder(t.hour, u.hour, 2, "", s4, u4);
    FieldOrder(t.day, u.day, 2, "T", s3, u3);
    FieldOrder(t.month, u.month, 2, "", s2, u2);
    FieldOrder(t.year, u.year, 4, "", s1, u1);
    SecondsOrder(t, u);
    SecondsOrder(u, t);
  }

  lemma SmallPowers()
    ensures TenTo(2) == 100 && TenTo(4) == 10000 && TenTo(9) == 1_000_000_000
  {
    TenToNine();
  }

  /** For a directory of backups made by Create, pruning keeps the newest: what counts against a backup is how many
      were made after it. */
  lemma NewerIsLater(d: Directory, made: map<string, Instant>, name: string)
    requires forall n | n in d && IsEncrypted(Entry(n, d[n])) :: n in made && Valid(made[n]) && n == BackupName(made[n])
    requires name in d && IsEncrypted(Entry(name, d[name]))
    ensures Newer(d, name) == set n | n in d && IsEncrypted(Entry(n, d[n])) && Nanos(made[name]) < Nanos(made[n])
  {
    hide BackupName, Nanos, Valid, LexLess;
    forall n | n in d && IsEncrypted(Entry(n, d[n]))
      ensures LexLess(name, n) <==> Nanos(made[name]) < Nanos(made[n])
    {
      GreaterNameIsNewer(made[name], made[n]);
    }
  }
}

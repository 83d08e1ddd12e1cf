/** The files a deployment's secrets are written to before its container is made. They are read-only for their owner,
    and are written in place: what was written once can be written again only by a process that may override file
    modes. */
module SecretFiles {
  import opened Common
  import opened Faults
  import opened Names

  type Files = map<string, string>

  /** filepath.Base(name) is the name itself, and the name is not that of a directory. */
  predicate ValidName(name: string) {
    name != "" && name != "." && name != ".." && '/' !in name
  }

  /** Only the deployment's own directory may differ. */
  ghost predicate OthersSame(before: map<string, Files>, after: map<string, Files>, id: string) {
    before - {Lower(id)} == after - {Lower(id)}
  }

  function FilesOf(dirs: map<string, Files>, id: string): Files {
    if Lower(id) in dirs then dirs[Lower(id)] else map[]
  }

  /** Opening the file for writing is not refused. */
  predicate Writable(files: Files, name: string, privileged: bool) {
    privileged || name !in files
  }

  ghost predicate WritePromise(before: Files, after: Files, name: string, value: string, privileged: bool, ok: bool) {
    && before - {name} == after - {name}
    && (ok ==> name in after && after[name] == value)
    && (name in before ==> name in after)
    && (!Writable(before, name, privileged) ==> !ok && after == before)
  }

  /** The secrets of a create: a name for each value that is not empty. */
  predicate AllWritable(files: Files, values: map<string, string>, privileged: bool) {
    forall name | name in values && values[name] != "" :: Writable(files, name, privileged)
  }

  predicate AllValid(id: string, values: map<string, string>) {
    forall name | name in values && values[name] != "" :: ValidDeploymentId(id) && ValidName(name)
  }

  ghost predicate Written(files: Files, values: map<string, string>) {
    forall name | name in values && values[name] != "" :: name in files && files[name] == values[name]
  }

  class SecretStore {
    var dirs: map<string, Files>
    const privileged: bool

    constructor (dirs: map<string, Files>, privileged: bool)
      ensures this.dirs == dirs && this.privileged == privileged
    {
      this.dirs, this.privileged := dirs, privileged;
    }

    /** MaterializeNamed, with calls k and k + 1: the directory, and os.WriteFile with mode 0400, which truncates and
        writes a file that is there and is refused by that file's own mode. */
    method MaterializeNamed(id: string, name: string, value: string, fates: seq<Fate>, k: nat) returns (ok: bool)
      modifies this`dirs
      ensures OthersSame(old(dirs), dirs, id)
      ensures WritePromise(old(FilesOf(dirs, id)), FilesOf(dirs, id), name, value, privileged, ok)
      ensures Faultless(fates) ==> (ok <==> ValidDeploymentId(id) && ValidName(name) && Writable(old(FilesOf(dirs, id)), name, privileged))
    {
      WorksIn(fates, k);
      WorksIn(fates, k + 1);
      hide Faultless, At, ValidDeploymentId, ValidName, Lower;
      if !ValidDeploymentId(id) || At(fates, k) != Works {
        return false;
      }
      if !ValidName(name) {
        return false;
      }
      var files := if Lower(id) in dirs then dirs[Lower(id)] else map[];
      if (name in files && !privileged) || At(fates, k + 1) == Breaks {
        return false;
      }
      ok := At(fates, k + 1) == Works;
      dirs := dirs[Lower(id) := files[name := if ok then value else ""]];
    }

    /** materializeSecrets: every value that is not empty, in whatever order the map yields them. */
    method MaterializeSecrets(id: string, values: map<string, string>, fates: seq<Fate>) returns (ok: bool)
      modifies this`dirs
      ensures OthersSame(old(dirs), dirs, id)
      ensures ok ==> Written(FilesOf(dirs, id), values)
      ensures forall name | name !in values :: name in FilesOf(dirs, id) <==> name in old(FilesOf(dirs, id))
      ensures forall name | name in old(FilesOf(dirs, id)) :: name in FilesOf(dirs, id)
      ensures Faultless(fates) ==> (ok <==> AllValid(id, values) && AllWritable(old(FilesOf(dirs, id)), values, privileged))
    {
      var left := values.Keys;
      var k := 0;
      hide Faultless, ValidDeploymentId, ValidName, Lower;
      while left != {}
        invariant left <= values.Keys && OthersSame(old(dirs), dirs, id)
        invariant forall name | name in values && name !in left && values[name] != "" ::
          name in FilesOf(dirs, id) && FilesOf(dirs, id)[name] == values[name] && Writable(old(FilesOf(dirs, id)), name, privileged)
        invariant Faultless(fates) ==> forall name | name in values && name !in left && values[name] != "" ::
          ValidDeploymentId(id) && ValidName(name)
        invariant forall name | name in left || name !in values :: name in FilesOf(dirs, id) <==> name in old(FilesOf(dirs, id))
        invariant forall name | name in old(FilesOf(dirs, id)) :: name in FilesOf(dirs, id)
        decreases |left|
      {
        var name :| name in left;
        ghost var before := FilesOf(dirs, id);
        left := left - {name};
        if values[name] != "" {
          ok := MaterializeNamed(id, name, values[name], fates, k);
          ghost var after := FilesOf(dirs, id);
          assert forall other | other != name :: (other in before <==> other in after) && (other in before ==> after[other] == before[other]) by {
            assert forall other | other != name :: other in before <==> other in before - {name};
            assert forall other | other != name :: other in after <==> other in after - {name};
            assert forall other | other != name && other in before :: (before - {name})[other] == before[other];
            assert forall other | other != name && other in after :: (after - {name})[other] == after[other];
          }
          if !ok {
            return;
          }
          k := k + 2;
        }
      }
      ok := true;
    }

    /** RemoveNamed: nothing to do for a file that is not there. */
    method RemoveNamed(id: string, name: string, fates: seq<Fate>, k: nat) returns (ok: bool)
      modifies this`dirs
      ensures OthersSame(old(dirs), dirs, id)
      ensures ok ==> name !in FilesOf(dirs, id)
      ensures FilesOf(dirs, id) - {name} == old(FilesOf(dirs, id)) - {name}
      ensures Faultless(fates) ==> (ok <==> ValidDeploymentId(id) && ValidName(name))
    {
      WorksIn(fates, k);
      hide Faultless, At, ValidDeploymentId, ValidName, Lower;
      if !ValidName(name) || !ValidDeploymentId(id) {
        return false;
      }
      if At(fates, k) != Breaks && Lower(id) in dirs {
        dirs := dirs[Lower(id) := dirs[Lower(id)] - {name}];
      }
      ok := At(fates, k) == Works;
    }

    /** Remove: the deployment's whole directory. */
    method Remove(id: string, fates: seq<Fate>, k: nat) returns (ok: bool)
      modifies this`dirs
      ensures OthersSame(old(dirs), dirs, id)
      ensures ok ==> FilesOf(dirs, id) == map[]
      ensures Faultless(fates) ==> (ok <==> ValidDeploymentId(id))
    {
      WorksIn(fates, k);
      hide Faultless, At, ValidDeploymentId, Lower;
      if !ValidDeploymentId(id) {
        return false;
      }
      if At(fates, k) != Breaks {
        dirs := dirs - {Lower(id)};
      }
      ok := At(fates, k) == Works;
    }
  }

  /** What was written for one create can be written for the next, with no removal between them, exactly when the
      process may override file modes or there was nothing to write. */
  lemma WrittenTwiceIff(files: Files, values: map<string, string>, privileged: bool)
    requires Written(files, values)
    ensures AllWritable(files, values, privileged) <==> privileged || forall name | name in values :: values[name] == ""
  {
    if !privileged && AllWritable(files, values, privileged) {
      forall name | name in values ensures values[name] == "" {
        assert values[name] != "" ==> Writable(files, name, privileged) && name in files;
      }
    }
  }
}

/** What the procedures act on outside the database: one deployment's Docker objects and directories, and the
    PostgreSQL cluster all deployments share. Every call takes the outcome chosen for it by the environment. */
module Host {
  import opened Common
  import opened Store

  /** Lost: the effect happened but the call reports an error. Partial: it stopped halfway and reports one. Unmarked and
      Torn: it stopped between making and marking the first, or the last, of the things it marks as the deployment's. */
  datatype Outcome = Ok | Fail | Lost | Partial | Unmarked | Torn

  /** What a container was made for: the panel of a request, or the backup utility, which carries the same labels. */
  datatype Spec = Spec(request: Request, helper: bool)

  datatype Container = Container(spec: Spec, running: bool)

  /** The containers that carry the deployment's labels, as far as the calls that look for them can tell. */
  datatype Labelled = Absent | Single(value: Container) | Several

  /** A directory's ownership marker: not there, whole, or there and not accepted. */
  datatype Mark = Bare | Marked | Spoilt

  /** A deployment's directory under a storage root, its quarantined copy, and their marker. */
  datatype Directory = Directory(live: bool, quarantined: bool, mark: Mark)

  const NoDirectory := Directory(false, false, Bare)

  /** `installed` is history: the install command succeeded since the last accepted create. */
  datatype Objects = Objects(
    container: Labelled,
    frontend: bool,
    backend: bool,
    panel: Directory,
    backups: Directory,
    installed: bool)

  const NoObjects := Objects(Absent, false, false, NoDirectory, NoDirectory, false)

  /** Everything stored in a database: its tables and other objects by name, each with what it holds. */
  type Content = map<string, int>

  datatype Database = Database(owner: string, marker: Option<Id>, content: Content)

  datatype Cluster = Cluster(databases: map<string, Database>, roles: map<string, Option<Id>>)

  /** A call's reply: the new state of what it acts on, and whether it reported success. */
  datatype DockerReply = DockerReply(x: Objects, ok: bool)

  datatype ClusterReply = ClusterReply(c: Cluster, ok: bool)

  datatype DiskReply = DiskReply(dir: Directory, ok: bool)

  predicate Applied(o: Outcome) {
    o.Ok? || o.Lost?
  }

  /** The outcomes without effect of a call that marks nothing. */
  predicate Ineffective(o: Outcome) {
    o.Fail? || o.Unmarked? || o.Torn?
  }

  // ---- PostgreSQL ----

  predicate OwnsRole(c: Cluster, id: Id, user: string) {
    user in c.roles && c.roles[user] == Some(id)
  }

  predicate OwnsDatabase(c: Cluster, id: Id, name: string) {
    name in c.databases && c.databases[name].marker == Some(id)
  }

  predicate RoleRefused(c: Cluster, id: Id, user: string) {
    user in c.roles && c.roles[user] != Some(id)
  }

  predicate DatabaseRefused(c: Cluster, id: Id, name: string, user: string) {
    name in c.databases && !(c.databases[name].owner == user && c.databases[name].marker == Some(id))
  }

  /** EnsureRoleAndDatabase as one call: the role is made first, even when the database is then refused. */
  function EnsureDatabase(c: Cluster, id: Id, name: string, user: string, o: Outcome): ClusterReply {
    if o.Fail? || RoleRefused(c, id, user) then ClusterReply(c, false)
    else if o.Unmarked? && user !in c.roles then ClusterReply(c.(roles := c.roles[user := None]), false)
    else
      var c1 := c.(roles := c.roles[user := Some(id)]);
      if o.Partial? || o.Unmarked? || DatabaseRefused(c, id, name, user) then ClusterReply(c1, false)
      else if name in c.databases then ClusterReply(c1, o.Ok?)
      else
        ClusterReply(c1.(databases := c.databases[name := Database(user, if o.Torn? then None else Some(id), map[])]), o.Ok?)
  }

  predicate DropRefused(c: Cluster, id: Id, name: string, user: string) {
    RoleRefused(c, id, user) || (name in c.databases && c.databases[name].marker != Some(id))
  }

  /** The role owns another database beside `name`: then the server does not let it go. */
  predicate Encumbered(c: Cluster, name: string, user: string) {
    user in c.roles && exists n :: n in c.databases && n != name && c.databases[n].owner == user
  }

  /** DropRoleAndDatabase as one call: the database goes first, even when the role is then refused. */
  function DropDatabase(c: Cluster, id: Id, name: string, user: string, o: Outcome): ClusterReply {
    if Ineffective(o) || DropRefused(c, id, name, user) then ClusterReply(c, false)
    else
      var c1 := c.(databases := c.databases - {name});
      if o.Partial? || Encumbered(c, name, user) then ClusterReply(c1, false)
      else ClusterReply(c1.(roles := c.roles - {user}), o.Ok?)
  }

  /** What restoring a dump leaves: the objects in the dump as they were, and any others as they are. */
  function Overlaid(now: Content, dump: Content): Content {
    now + dump
  }

  /** The dump is back exactly when nothing has been added to what it covers. */
  lemma OverlaidIsDump(now: Content, dump: Content)
    ensures Overlaid(now, dump) == dump <==> now.Keys <= dump.Keys
  {
    if Overlaid(now, dump) == dump {
      forall k | k in now.Keys ensures k in dump.Keys {
        assert k in now + dump;
      }
    }
    if now.Keys <= dump.Keys {
      assert (now + dump).Keys == dump.Keys;
    }
  }

  function ContentIn(c: Cluster, id: Id, name: string): Content {
    if OwnsDatabase(c, id, name) then c.databases[name].content else map[]
  }

  /** A command run in the panel, or a restore, may leave the deployment's own database with any content. */
  function Rewrite(c: Cluster, id: Id, name: string, content: Content): Cluster {
    if OwnsDatabase(c, id, name) then c.(databases := c.databases[name := c.databases[name].(content := content)])
    else c
  }

  /** The two clusters agree on everything marked for `id`. */
  ghost predicate SameFor(c: Cluster, d: Cluster, id: Id) {
    && (forall n :: OwnsDatabase(c, id, n) || OwnsDatabase(d, id, n) ==>
          n in c.databases && n in d.databases && c.databases[n] == d.databases[n])
    && (forall u :: OwnsRole(c, id, u) <==> OwnsRole(d, id, u))
  }

  // ---- Docker ----

  function EnsureNetworks(x: Objects, o: Outcome): DockerReply {
    if Ineffective(o) then DockerReply(x, false)
    else if o.Partial? then DockerReply(x.(frontend := true), false)
    else DockerReply(x.(frontend := true, backend := true), o.Ok?)
  }

  function RemoveNetworks(x: Objects, o: Outcome): DockerReply {
    if Ineffective(o) then DockerReply(x, false)
    else if o.Partial? then DockerReply(x.(frontend := false), false)
    else DockerReply(x.(frontend := false, backend := false), o.Ok?)
  }

  function Panel(request: Request): Spec {
    Spec(request, false)
  }

  /** A container that is found is returned as it is, whatever it was made for; more than one is an error. */
  function CreateContainer(x: Objects, request: Request, o: Outcome): DockerReply {
    if !Applied(o) || x.container.Several? then DockerReply(x, false)
    else if x.container.Single? then DockerReply(x, o.Ok?)
    else DockerReply(x.(container := Single(Container(Panel(request), false))), o.Ok?)
  }

  function StartContainer(x: Objects, o: Outcome): DockerReply {
    if !Applied(o) || !x.container.Single? then DockerReply(x, false)
    else DockerReply(x.(container := Single(x.container.value.(running := true))), o.Ok?)
  }

  function StopContainer(x: Objects, o: Outcome): DockerReply {
    if x.container.Absent? then DockerReply(x, o.Ok?)
    else if !Applied(o) || x.container.Several? then DockerReply(x, false)
    else DockerReply(x.(container := Single(x.container.value.(running := false))), o.Ok?)
  }

  function RemoveContainer(x: Objects, o: Outcome): DockerReply {
    if x.container.Absent? then DockerReply(x, o.Ok?)
    else if !Applied(o) || x.container.Several? then DockerReply(x, false)
    else DockerReply(x.(container := Absent), o.Ok?)
  }

  /** The one container that is found runs. */
  predicate IsRunning(x: Objects) {
    x.container.Single? && x.container.value.running
  }

  /** The backup utility's container may still be there, running or not, when its call is over: when its removal
      failed, or the process died. */
  function WithHelper(x: Objects, request: Request, leaves: Option<bool>): Objects {
    if leaves.None? then x
    else x.(container := if x.container.Absent? then Single(Container(Spec(request, true), leaves.value)) else Several)
  }

  // ---- Directories ----

  /** Make the directory, then its marker; a marker that is not accepted is refused once the directory is there. */
  function EnsureDirectory(d: Directory, o: Outcome): DiskReply {
    if o.Fail? then DiskReply(d, false)
    else if d.mark.Spoilt? then DiskReply(d.(live := true), false)
    else if o.Torn? && d.mark.Bare? then DiskReply(d.(live := true, mark := Spoilt), false)
    else if Applied(o) then DiskReply(d.(live := true, mark := Marked), o.Ok?)
    else DiskReply(d.(live := true), false)
  }

  /** Nothing is there, or one marked copy at most. */
  predicate Purgeable(d: Directory) {
    d == NoDirectory || (d.mark.Marked? && !(d.live && d.quarantined))
  }

  /** Rename into quarantine, remove recursively, unmark. */
  function PurgeDirectory(d: Directory, o: Outcome): DiskReply {
    if o.Fail? || !Purgeable(d) then DiskReply(d, false)
    else if Applied(o) then DiskReply(NoDirectory, o.Ok?)
    else if o.Torn? then DiskReply(d.(live := false, quarantined := false), false)
    else DiskReply(d.(live := false, quarantined := d.live || d.quarantined), false)
  }
}

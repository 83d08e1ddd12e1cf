/** The worker's procedures as they are written, one call after another with early returns, each proved to do what
    the program of the module Programs does from its entry to its return. */
module Procedures {
  import opened Common
  import opened Lifecycle
  import opened Store
  import opened Host
  import opened Programs

  /** A program run from one frame to its return, or until the oracles are used up. */
  function Exec(f: Frame, v: View, es: seq<Oracle>, k: nat): Config
    decreases |es| - k
  {
    if f.pc.Returned? || k >= |es| then Config(f, v)
    else
      var c := Advance(f, v, es[k]);
      Exec(c.f, c.v, es, k + 1)
  }

  /** Where a program began. */
  datatype Origin = Origin(f: Frame, v: View)

  /** The program is at `f` and `v` before its k-th call. */
  ghost predicate IsAt(o: Origin, es: seq<Oracle>, f: Frame, v: View, k: nat) {
    Exec(o.f, o.v, es, 0) == Exec(f, v, es, k)
  }

  /** The program has returned `r` and left `v`. */
  ghost predicate Ends(o: Origin, es: seq<Oracle>, r: Result, v: View) {
    var c := Exec(o.f, o.v, es, 0);
    c.f.pc == Returned(r) && c.v == v
  }

  lemma Turn(o: Origin, es: seq<Oracle>, f: Frame, v: View, k: nat, g: Frame, w: View)
    requires IsAt(o, es, f, v, k) && k < |es| && !f.pc.Returned? && Config(g, w) == Advance(f, v, es[k])
    ensures IsAt(o, es, g, w, k + 1)
    ensures g.pc.Returned? ==> Ends(o, es, g.pc.result, w)
  {
    hide Advance;
  }

  lemma Begins(f: Frame, v: View, es: seq<Oracle>)
    ensures IsAt(Origin(f, v), es, f, v, 0)
  {
  }

  function ResultOf(ok: bool): Result {
    if ok then Nil else Err
  }

  /** The view of one deployment, which the procedures change call by call. Every helper makes one call, the k-th,
      and follows the program from `f` to the point `next`, or to its error return. */
  class Worker {
    var row: Option<Row>
    var x: Objects
    var c: Cluster

    function Now(): View
      reads this
    {
      View(row, x, c)
    }

    constructor (v: View)
      ensures Now() == v
    {
      row, x, c := v.row, v.x, v.c;
    }

    /** transition: nothing to do, an edge that is no edge, or UpdateState. */
    method Transition(d: Row, to: Lifecycle.State, o: Outcome) returns (d': Row, ok: bool)
      modifies this`row
      ensures Moved(d', row, ok) == Programs.Transition(d, old(row), to, o)
    {
      d', ok := d, true;
      if d.state == to {
        return;
      }
      if !CanTransition(d.state, to) {
        return;
      }
      var m := MoveRow(row, to, "");
      if !Applied(o) || m.1 != Done {
        ok := false;
        return;
      }
      row := m.0;
      if o == Ok {
        d' := d.(state := to);
      }
      ok := o == Ok;
    }

    method Move(ghost s: Origin, ghost f: Frame, d: Row, to: Lifecycle.State, es: seq<Oracle>, k: nat, ghost next: Pc)
      returns (d': Row, ok: bool)
      requires IsAt(s, es, f, Now(), k) && k < |es| && !f.pc.Returned? && f.d == d
      requires Advance(f, Now(), es[k]) == Moving(f, Now(), to, es[k].outcome, next)
      modifies this`row
      ensures ok ==> IsAt(s, es, Frame(f.job, next, d', f.u), Now(), k + 1)
      ensures if ok then next.Returned? ==> Ends(s, es, next.result, Now()) else Ends(s, es, Err, Now())
    {
      hide Advance, Exec;
      d', ok := Transition(d, to, es[k].outcome);
      Turn(s, es, f, old(Now()), k, Frame(f.job, After(ok, next), d', f.u), Now());
    }

    method Docker(ghost s: Origin, ghost f: Frame, r: DockerReply, es: seq<Oracle>, k: nat, ghost next: Pc) returns (ok: bool)
      requires IsAt(s, es, f, Now(), k) && k < |es| && !f.pc.Returned? && Advance(f, Now(), es[k]) == ByDocker(f, Now(), r, next)
      modifies this`x
      ensures if ok then IsAt(s, es, Goto(f, next), Now(), k + 1) else Ends(s, es, Err, Now())
    {
      hide Advance, Exec;
      x := r.x;
      ok := r.ok;
      Turn(s, es, f, old(Now()), k, Goto(f, After(ok, next)), Now());
    }

    /** A Docker call whose report is ignored. */
    method Ignored(ghost s: Origin, ghost f: Frame, r: DockerReply, es: seq<Oracle>, k: nat, ghost next: Pc)
      requires IsAt(s, es, f, Now(), k) && k < |es| && !f.pc.Returned? && Advance(f, Now(), es[k]) == Unchecked(f, Now(), r, next)
      modifies this`x
      ensures IsAt(s, es, Goto(f, next), Now(), k + 1)
    {
      hide Advance, Exec;
      x := r.x;
      Turn(s, es, f, old(Now()), k, Goto(f, next), Now());
    }

    /** A call that changes nothing here: pulling an image, waiting for health. */
    method Check(ghost s: Origin, ghost f: Frame, es: seq<Oracle>, k: nat, ghost next: Pc) returns (ok: bool)
      requires IsAt(s, es, f, Now(), k) && k < |es| && !f.pc.Returned?
      requires Advance(f, Now(), es[k]) == ByCheck(f, Now(), es[k].outcome, next)
      ensures if ok then IsAt(s, es, Goto(f, next), Now(), k + 1) else Ends(s, es, Err, Now())
    {
      hide Advance, Exec;
      ok := es[k].outcome == Ok;
      Turn(s, es, f, Now(), k, Goto(f, After(ok, next)), Now());
    }

    method Postgres(ghost s: Origin, ghost f: Frame, r: ClusterReply, es: seq<Oracle>, k: nat, ghost next: Pc) returns (ok: bool)
      requires IsAt(s, es, f, Now(), k) && k < |es| && !f.pc.Returned? && Advance(f, Now(), es[k]) == ByCluster(f, Now(), r, next)
      modifies this`c
      ensures if ok then IsAt(s, es, Goto(f, next), Now(), k + 1) else Ends(s, es, Err, Now())
    {
      hide Advance, Exec;
      c := r.c;
      ok := r.ok;
      Turn(s, es, f, old(Now()), k, Goto(f, After(ok, next)), Now());
    }

    method Panel(ghost s: Origin, ghost f: Frame, r: DiskReply, es: seq<Oracle>, k: nat, ghost next: Pc) returns (ok: bool)
      requires IsAt(s, es, f, Now(), k) && k < |es| && !f.pc.Returned? && Advance(f, Now(), es[k]) == ByPanel(f, Now(), r, next)
      modifies this`x
      ensures if ok then IsAt(s, es, Goto(f, next), Now(), k + 1) else Ends(s, es, Err, Now())
    {
      hide Advance, Exec;
      x := x.(panel := r.dir);
      ok := r.ok;
      Turn(s, es, f, old(Now()), k, Goto(f, After(ok, next)), Now());
    }

    method Backups(ghost s: Origin, ghost f: Frame, r: DiskReply, es: seq<Oracle>, k: nat, ghost next: Pc) returns (ok: bool)
      requires IsAt(s, es, f, Now(), k) && k < |es| && !f.pc.Returned? && Advance(f, Now(), es[k]) == ByBackups(f, Now(), r, next)
      modifies this`x
      ensures if ok then IsAt(s, es, Goto(f, next), Now(), k + 1) else Ends(s, es, Err, Now())
    {
      hide Advance, Exec;
      x := x.(backups := r.dir);
      ok := r.ok;
      Turn(s, es, f, old(Now()), k, Goto(f, After(ok, next)), Now());
    }

    /** SaveDeployment. */
    method Save(ghost s: Origin, ghost f: Frame, d: Row, o: Outcome, es: seq<Oracle>, k: nat, ghost next: Pc) returns (ok: bool)
      requires IsAt(s, es, f, Now(), k) && k < |es| && !f.pc.Returned? && Advance(f, Now(), es[k]) == Saving(f, Now(), d, o, next)
      modifies this`row
      ensures if ok then IsAt(s, es, Frame(f.job, next, d, f.u), Now(), k + 1) else Ends(s, es, Err, Now())
      ensures ok <==> o == Ok && old(row).Some?
      ensures old(row).Some? ==> row.Some?
    {
      hide Advance, Exec;
      ok := false;
      if Applied(o) && row.Some? {
        row := Some(d);
        ok := o == Ok;
      }
      Turn(s, es, f, old(Now()), k, Frame(f.job, After(ok, next), d, f.u), Now());
    }

    /** A command in the container, which may rewrite the database whatever it reports. */
    method Command(id: Id, e: Oracle) returns (ok: bool)
      modifies this`c
      ensures Now() == CommandView(old(Now()), id, e.content) && ok == CommandOk(old(Now()), e.outcome)
    {
      ok := IsRunning(x) && e.outcome == Ok;
      if IsRunning(x) {
        c := Rewrite(c, id, x.container.value.spec.request.database, e.content);
      }
    }

    /** A first read that sends the procedure back with an error. */
    ghost method Refuse(s: Origin, f: Frame, es: seq<Oracle>, k: nat)
      requires IsAt(s, es, f, Now(), k) && k < |es| && !f.pc.Returned? && Advance(f, Now(), es[k]) == Failing(f, Now())
      ensures Ends(s, es, Err, Now())
    {
      Turn(s, es, f, Now(), k, Goto(f, Returned(Err)), Now());
    }

    // ---- create ----

    /** From the first read to the pulled image. */
    method Prepare(ghost s: Origin, job: Job, ghost u: Locals, es: seq<Oracle>) returns (d: Row, ok: bool)
      requires |es| >= 18 && IsAt(s, es, Frame(job, Provisioning(Load), BlankRow, u), Now(), 0)
      modifies this
      ensures if ok then IsAt(s, es, Frame(job, Provisioning(ToCreatingContainer), d, u), Now(), 7) else Ends(s, es, Err, Now())
    {
      hide Exec, IsAt, Ends, Moving, ByDocker, ByCheck, ByPanel, ByBackups, ByCluster, Saving, Unchecked, EnsureDatabase, DropDatabase, EnsureNetworks, RemoveNetworks, EnsureDirectory, PurgeDirectory, CreateContainer, StartContainer, StopContainer, RemoveContainer;
      hide StopStep, StartStep, UpgradeStep, RemoveStep, ResetStep;
      ghost var f := Frame(job, Provisioning(Load), BlankRow, u);
      d, ok := BlankRow, false;
      if row.None? || es[0].outcome != Ok || row.value.secret.None? {
        Refuse(s, f, es, 0);
        return;
      }
      d := row.value;
      Turn(s, es, f, Now(), 0, Frame(job, Provisioning(ToCreatingDatabase), d, u), Now());
      d, ok := Move(s, Frame(job, Provisioning(ToCreatingDatabase), d, u), d, CreatingDatabase, es, 1, Provisioning(MakeDatabase));
      if !ok {
        return;
      }
      ok := Postgres(s, Frame(job, Provisioning(MakeDatabase), d, u),
                     EnsureDatabase(c, job.id, d.request.database, d.request.username, es[2].outcome), es, 2, Provisioning(ToPullingImage));
      if !ok {
        return;
      }
      d, ok := Move(s, Frame(job, Provisioning(ToPullingImage), d, u), d, PullingImage, es, 3, Provisioning(MakeNetworks));
      if !ok {
        return;
      }
      ok := Docker(s, Frame(job, Provisioning(MakeNetworks), d, u), EnsureNetworks(x, es[4].outcome), es, 4, Provisioning(MakePanel));
      if !ok {
        return;
      }
      ok := Panel(s, Frame(job, Provisioning(MakePanel), d, u), EnsureDirectory(x.panel, es[5].outcome), es, 5, Provisioning(ProvisionPc.PullImage));
      if !ok {
        return;
      }
      ok := Check(s, Frame(job, Provisioning(ProvisionPc.PullImage), d, u), es, 6, Provisioning(ToCreatingContainer));
    }

    /** From the container to its runtime. */
    method Launch(ghost s: Origin, job: Job, d0: Row, ghost u: Locals, es: seq<Oracle>) returns (d: Row, ok: bool)
      requires |es| >= 18 && IsAt(s, es, Frame(job, Provisioning(ToCreatingContainer), d0, u), Now(), 7)
      modifies this
      ensures if ok then IsAt(s, es, Frame(job, Provisioning(ToMigrating), d, u), Now(), 12) else Ends(s, es, Err, Now())
    {
      hide Exec, IsAt, Ends, Moving, ByDocker, ByCheck, ByPanel, ByBackups, ByCluster, Saving, Unchecked, EnsureDatabase, DropDatabase, EnsureNetworks, RemoveNetworks, EnsureDirectory, PurgeDirectory, CreateContainer, StartContainer, StopContainer, RemoveContainer;
      hide StopStep, StartStep, UpgradeStep, RemoveStep, ResetStep;
      d, ok := Move(s, Frame(job, Provisioning(ToCreatingContainer), d0, u), d0, CreatingContainer, es, 7, Provisioning(MakeContainer));
      if !ok {
        return;
      }
      ok := Docker(s, Frame(job, Provisioning(MakeContainer), d, u), CreateContainer(x, d.request, es[8].outcome), es, 8, Provisioning(ToStarting));
      if !ok {
        return;
      }
      d, ok := Move(s, Frame(job, Provisioning(ToStarting), d, u), d, Starting, es, 9, Provisioning(StartIt));
      if !ok {
        return;
      }
      ok := Docker(s, Frame(job, Provisioning(StartIt), d, u), StartContainer(x, es[10].outcome), es, 10, Provisioning(WaitRuntime));
      if !ok {
        return;
      }
      ok := Check(s, Frame(job, Provisioning(WaitRuntime), d, u), es, 11, Provisioning(ToMigrating));
    }

    /** The install command. */
    method RunInstall(ghost s: Origin, job: Job, ghost d: Row, ghost u: Locals, es: seq<Oracle>, k: nat) returns (ok: bool)
      requires k < |es| && IsAt(s, es, Frame(job, Provisioning(Install), d, u), Now(), k)
      modifies this`x, this`c
      ensures if ok then IsAt(s, es, Frame(job, Provisioning(ForgetBootstrap), d, u), Now(), k + 1) else Ends(s, es, Err, Now())
    {
      hide Exec, IsAt, Ends;
      ghost var v := Now();
      ok := Command(job.id, es[k]);
      if ok {
        x := x.(installed := true);
      }
      Turn(s, es, Frame(job, Provisioning(Install), d, u), v, k, Frame(job, After(ok, Provisioning(ForgetBootstrap)), d, u), Now());
    }

    /** The bootstrap secret is dropped and the row saved. */
    method Forget(ghost s: Origin, job: Job, d0: Row, ghost u: Locals, es: seq<Oracle>, k: nat) returns (d: Row, ok: bool)
      requires k < |es| && IsAt(s, es, Frame(job, Provisioning(ForgetBootstrap), d0, u), Now(), k)
      modifies this`row
      ensures if ok then IsAt(s, es, Frame(job, Provisioning(ToHealthchecking), d, u), Now(), k + 1) else Ends(s, es, Err, Now())
    {
      hide Exec, IsAt, Ends, Moving, ByDocker, ByCheck, ByPanel, ByBackups, ByCluster, Saving, Unchecked, EnsureDatabase, DropDatabase, EnsureNetworks, RemoveNetworks, EnsureDirectory, PurgeDirectory, CreateContainer, StartContainer, StopContainer, RemoveContainer;
      hide StopStep, StartStep, UpgradeStep, RemoveStep, ResetStep;
      d := d0.(bootstrap := None);
      ok := Save(s, Frame(job, Provisioning(ForgetBootstrap), d0, u), d, es[k].outcome, es, k, Provisioning(ToHealthchecking));
    }

    /** From the installation to the active state. */
    method InstallPanel(ghost s: Origin, job: Job, d0: Row, ghost u: Locals, es: seq<Oracle>) returns (ok: bool)
      requires |es| >= 18 && IsAt(s, es, Frame(job, Provisioning(ToMigrating), d0, u), Now(), 12)
      modifies this
      ensures Ends(s, es, ResultOf(ok), Now())
    {
      hide Exec, IsAt, Ends, Moving, ByDocker, ByCheck, ByPanel, ByBackups, ByCluster, Saving, Unchecked, EnsureDatabase, DropDatabase, EnsureNetworks, RemoveNetworks, EnsureDirectory, PurgeDirectory, CreateContainer, StartContainer, StopContainer, RemoveContainer;
      hide StopStep, StartStep, UpgradeStep, RemoveStep, ResetStep;
      var d: Row;
      d, ok := Move(s, Frame(job, Provisioning(ToMigrating), d0, u), d0, Migrating, es, 12, Provisioning(Install));
      if !ok {
        return;
      }
      ok := RunInstall(s, job, d, u, es, 13);
      if !ok {
        return;
      }
      d, ok := Forget(s, job, d, u, es, 14);
      if !ok {
        return;
      }
      d, ok := Move(s, Frame(job, Provisioning(ToHealthchecking), d, u), d, Healthchecking, es, 15, Provisioning(CheckHealth));
      if !ok {
        return;
      }
      ok := Check(s, Frame(job, Provisioning(CheckHealth), d, u), es, 16, Provisioning(ToActive));
      if !ok {
        return;
      }
      d, ok := Move(s, Frame(job, Provisioning(ToActive), d, u), d, Active, es, 17, Returned(Nil));
    }

    /** provision. */
    method ProvisionDeployment(job: Job, ghost u: Locals, es: seq<Oracle>) returns (ok: bool)
      requires |es| >= 18
      modifies this
      ensures Ends(Origin(Frame(job, Provisioning(Load), BlankRow, u), old(Now())), es, ResultOf(ok), Now())
    {
      hide *;
      ghost var s := Origin(Frame(job, Provisioning(Load), BlankRow, u), Now());
      Begins(Frame(job, Provisioning(Load), BlankRow, u), Now(), es);
      FailedIsErr();
      var d: Row;
      d, ok := Prepare(s, job, u, es);
      if !ok {
        return;
      }
      d, ok := Launch(s, job, d, u, es);
      if !ok {
        return;
      }
      ok := InstallPanel(s, job, d, u, es);
    }

    // ---- stop, start, restart ----

    /** stop, up to where a restart would go on. */
    method StopPanel(ghost s: Origin, job: Job, ghost u: Locals, es: seq<Oracle>) returns (d: Row, ok: bool, k: nat)
      requires |es| >= 3 && IsAt(s, es, Frame(job, Stopping(LoadStop), BlankRow, u), Now(), 0)
      modifies this
      ensures k <= 3
      ensures if ok then IsAt(s, es, Frame(job, AfterStop(job.kind), d, u), Now(), k) else Ends(s, es, Err, Now())
      ensures ok && job.kind != Restart ==> Ends(s, es, Nil, Now())
    {
      hide Exec, IsAt, Ends, Moving, ByDocker, ByCheck, ByPanel, ByBackups, ByCluster, Saving, Unchecked, EnsureDatabase, DropDatabase, EnsureNetworks, RemoveNetworks, EnsureDirectory, PurgeDirectory, CreateContainer, StartContainer, StopContainer, RemoveContainer;
      hide Provision, StartStep, UpgradeStep, RemoveStep, ResetStep;
      ghost var f := Frame(job, Stopping(LoadStop), BlankRow, u);
      d, ok, k := BlankRow, false, 1;
      if row.None? || es[0].outcome != Ok {
        Refuse(s, f, es, 0);
        return;
      }
      d := row.value;
      if d.state == Stopped {
        ok := true;
        Turn(s, es, f, Now(), 0, Frame(job, AfterStop(job.kind), d, u), Now());
        return;
      }
      if d.state != Active {
        Refuse(s, f, es, 0);
        return;
      }
      Turn(s, es, f, Now(), 0, Frame(job, Stopping(StopIt), d, u), Now());
      ok := Docker(s, Frame(job, Stopping(StopIt), d, u), StopContainer(x, es[1].outcome), es, 1, Stopping(ToStopped));
      if !ok {
        return;
      }
      d, ok := Move(s, Frame(job, Stopping(ToStopped), d, u), d, Stopped, es, 2, AfterStop(job.kind));
      k := 3;
    }

    /** start, from the k-th call on. */
    method StartPanel(ghost s: Origin, job: Job, ghost d0: Row, ghost u: Locals, es: seq<Oracle>, k: nat) returns (ok: bool)
      requires |es| >= k + 6 && IsAt(s, es, Frame(job, Starts(LoadStart), d0, u), Now(), k)
      modifies this
      ensures Ends(s, es, ResultOf(ok), Now())
    {
      hide Exec, IsAt, Ends, Moving, ByDocker, ByCheck, ByPanel, ByBackups, ByCluster, Saving, Unchecked, EnsureDatabase, DropDatabase, EnsureNetworks, RemoveNetworks, EnsureDirectory, PurgeDirectory, CreateContainer, StartContainer, StopContainer, RemoveContainer;
      hide Provision, StopStep, UpgradeStep, RemoveStep, ResetStep;
      if row.None? || es[k].outcome != Ok || (row.value.state != Stopped && row.value.state != Starting) {
        Refuse(s, Frame(job, Starts(LoadStart), d0, u), es, k);
        return false;
      }
      var d := row.value;
      Turn(s, es, Frame(job, Starts(LoadStart), d0, u), Now(), k, Frame(job, Starts(MarkStarting), d, u), Now());
      d, ok := Move(s, Frame(job, Starts(MarkStarting), d, u), d, Starting, es, k + 1, Starts(StartAgain));
      if !ok {
        return;
      }
      ok := Docker(s, Frame(job, Starts(StartAgain), d, u), StartContainer(x, es[k + 2].outcome), es, k + 2, Starts(MarkHealthchecking));
      if !ok {
        return;
      }
      d, ok := Move(s, Frame(job, Starts(MarkHealthchecking), d, u), d, Healthchecking, es, k + 3, Starts(CheckAgain));
      if !ok {
        return;
      }
      ok := Check(s, Frame(job, Starts(CheckAgain), d, u), es, k + 4, Starts(MarkActive));
      if !ok {
        return;
      }
      d, ok := Move(s, Frame(job, Starts(MarkActive), d, u), d, Active, es, k + 5, Returned(Nil));
    }

    /** The start, stop and restart branches of execute. */
    method Power(job: Job, ghost u: Locals, es: seq<Oracle>) returns (ok: bool)
      requires |es| >= 9 && (job.kind == Start || job.kind == Stop || job.kind == Restart)
      modifies this
      ensures Ends(Origin(Frame(job, Entry(job.kind), BlankRow, u), old(Now())), es, ResultOf(ok), Now())
    {
      ghost var s := Origin(Frame(job, Entry(job.kind), BlankRow, u), Now());
      Begins(Frame(job, Entry(job.kind), BlankRow, u), Now(), es);
      hide Exec, IsAt, Ends, Advance;
      if job.kind == Start {
        ok := StartPanel(s, job, BlankRow, u, es, 0);
        return;
      }
      var d: Row;
      var k: nat;
      d, ok, k := StopPanel(s, job, u, es);
      if ok && job.kind == Restart {
        ok := StartPanel(s, job, d, u, es, k);
      }
    }

    // ---- delete ----

    /** remove, up to the networks. */
    method TearDown(ghost s: Origin, job: Job, ghost u: Locals, es: seq<Oracle>) returns (d: Row, ok: bool)
      requires |es| >= 9 && IsAt(s, es, Frame(job, Removing(LoadRemove), BlankRow, u), Now(), 0)
      modifies this
      ensures if ok then IsAt(s, es, Frame(job, AfterNetworks(job.kind), d, u), Now(), 5) else Ends(s, es, Err, Now())
    {
      hide Exec, IsAt, Ends, Moving, ByDocker, ByCheck, ByPanel, ByBackups, ByCluster, Saving, Unchecked, EnsureDatabase, DropDatabase, EnsureNetworks, RemoveNetworks, EnsureDirectory, PurgeDirectory, CreateContainer, StartContainer, StopContainer, RemoveContainer;
      hide Provision, StopStep, StartStep, UpgradeStep, ResetStep;
      ghost var f := Frame(job, Removing(LoadRemove), BlankRow, u);
      d, ok := BlankRow, false;
      if row.None? || es[0].outcome != Ok {
        Refuse(s, f, es, 0);
        return;
      }
      d := row.value;
      if d.state != Deleting && !CanTransition(d.state, Deleting) {
        Refuse(s, f, es, 0);
        return;
      }
      Turn(s, es, f, Now(), 0, Frame(job, Removing(ToDeleting), d, u), Now());
      d, ok := Move(s, Frame(job, Removing(ToDeleting), d, u), d, Deleting, es, 1, Removing(StopFirst));
      if !ok {
        return;
      }
      Ignored(s, Frame(job, Removing(StopFirst), d, u), StopContainer(x, es[2].outcome), es, 2, Removing(DropContainer));
      ok := Docker(s, Frame(job, Removing(DropContainer), d, u), RemoveContainer(x, es[3].outcome), es, 3, Removing(DropNetworks));
      if !ok {
        return;
      }
      ok := Docker(s, Frame(job, Removing(DropNetworks), d, u), RemoveNetworks(x, es[4].outcome), es, 4, AfterNetworks(job.kind));
    }

    /** remove. */
    method RemoveDeployment(job: Job, ghost u: Locals, es: seq<Oracle>) returns (ok: bool)
      requires |es| >= 9
      modifies this
      ensures Ends(Origin(Frame(job, Removing(LoadRemove), BlankRow, u), old(Now())), es, ResultOf(ok), Now())
    {
      ghost var s := Origin(Frame(job, Removing(LoadRemove), BlankRow, u), Now());
      Begins(Frame(job, Removing(LoadRemove), BlankRow, u), Now(), es);
      hide Exec, IsAt, Ends, Moving, ByDocker, ByCheck, ByPanel, ByBackups, ByCluster, Saving, Unchecked, EnsureDatabase, DropDatabase, EnsureNetworks, RemoveNetworks, EnsureDirectory, PurgeDirectory, CreateContainer, StartContainer, StopContainer, RemoveContainer;
      hide Provision, StopStep, StartStep, UpgradeStep, ResetStep;
      var d: Row;
      d, ok := TearDown(s, job, u, es);
      if !ok {
        return;
      }
      var k := 5;
      if job.kind == DeletePurge {
        ok := Postgres(s, Frame(job, Removing(DropCluster), d, u),
                       DropDatabase(c, job.id, d.request.database, d.request.username, es[5].outcome), es, 5, Removing(RemovePc.PurgePanel));
        if !ok {
          return;
        }
        ok := Panel(s, Frame(job, Removing(RemovePc.PurgePanel), d, u), PurgeDirectory(x.panel, es[6].outcome), es, 6, Removing(RemovePc.PurgeBackups));
        if !ok {
          return;
        }
        ok := Backups(s, Frame(job, Removing(RemovePc.PurgeBackups), d, u), PurgeDirectory(x.backups, es[7].outcome), es, 7, Removing(ToDeleted));
        if !ok {
          return;
        }
        k := 8;
      }
      d, ok := Move(s, Frame(job, Removing(ToDeleted), d, u), d, Deleted, es, k, Returned(Nil));
    }

    // ---- upgrade ----

    /** From the first read to the backup. */
    method Approach(ghost s: Origin, job: Job, ghost u0: Locals, es: seq<Oracle>) returns (d: Row, u: Locals, ok: bool)
      requires |es| >= 20 && IsAt(s, es, Frame(job, Upgrading(LoadUpgrade), BlankRow, u0), Now(), 0)
      modifies this
      ensures if ok then IsAt(s, es, Frame(job, Upgrading(UpPull), d, u), Now(), 5) && job.payload.UpgradeTo? else Ends(s, es, Err, Now())
    {
      hide Exec, IsAt, Ends, Moving, ByDocker, ByCheck, ByPanel, ByBackups, ByCluster, Saving, Unchecked, EnsureDatabase, DropDatabase, EnsureNetworks, RemoveNetworks, EnsureDirectory, PurgeDirectory, CreateContainer, StartContainer, StopContainer, RemoveContainer;
      hide Provision, StopStep, StartStep, RemoveStep, ResetStep;
      ghost var f := Frame(job, Upgrading(LoadUpgrade), BlankRow, u0);
      d, u, ok := BlankRow, NoLocals, false;
      if !job.payload.UpgradeTo? || row.None? || es[0].outcome != Ok || (row.value.state != Active && row.value.state != Stopped)
        || job.payload.image == row.value.request.image
      {
        Refuse(s, f, es, 0);
        return;
      }
      d := row.value;
      u := NoLocals.(wasStopped := d.state == Stopped, oldImage := d.request.image);
      Turn(s, es, f, Now(), 0, Frame(job, Upgrading(ToUpdating), d, u), Now());
      d, ok := Move(s, Frame(job, Upgrading(ToUpdating), d, u), d, Updating, es, 1, Upgrading(UpNetworks));
      if !ok {
        return;
      }
      ok := Docker(s, Frame(job, Upgrading(UpNetworks), d, u), EnsureNetworks(x, es[2].outcome), es, 2, Upgrading(UpPanel));
      if !ok {
        return;
      }
      ok := Panel(s, Frame(job, Upgrading(UpPanel), d, u), EnsureDirectory(x.panel, es[3].outcome), es, 3, Upgrading(TakeBackup));
      if !ok {
        return;
      }
      ghost var v := Now();
      f := Frame(job, Upgrading(TakeBackup), d, u);
      var r, made := EnsureDirectory(x.backups, es[4].outcome), Applied(es[4].outcome) && !x.backups.mark.Spoilt?;
      x := x.(backups := r.dir);
      if made {
        x := WithHelper(x, d.request, es[4].leaves);
      }
      if !r.ok || !OwnsDatabase(c, job.id, d.request.database) {
        Turn(s, es, f, v, 4, Goto(f, Returned(Err)), Now());
        return d, u, false;
      }
      u := u.(backup := c.databases[d.request.database].content);
      Turn(s, es, f, v, 4, Frame(job, Upgrading(UpPull), d, u), Now());
    }

    /** From the pull to the saved new image. */
    method Replace(ghost s: Origin, job: Job, d0: Row, u: Locals, es: seq<Oracle>) returns (d: Row, ok: bool)
      requires |es| >= 20 && IsAt(s, es, Frame(job, Upgrading(UpPull), d0, u), Now(), 5) && job.payload.UpgradeTo?
      modifies this
      ensures if ok then IsAt(s, es, Frame(job, Upgrading(UpCreate), d, u), Now(), 9) else Ends(s, es, Err, Now())
      ensures ok ==> row.Some?
    {
      hide Exec, IsAt, Ends, Moving, ByDocker, ByCheck, ByPanel, ByBackups, ByCluster, Saving, Unchecked, EnsureDatabase, DropDatabase, EnsureNetworks, RemoveNetworks, EnsureDirectory, PurgeDirectory, CreateContainer, StartContainer, StopContainer, RemoveContainer;
      hide Provision, StopStep, StartStep, RemoveStep, ResetStep;
      d := d0;
      ok := Check(s, Frame(job, Upgrading(UpPull), d, u), es, 5, Upgrading(UpStop));
      if !ok {
        return;
      }
      Ignored(s, Frame(job, Upgrading(UpStop), d, u), StopContainer(x, es[6].outcome), es, 6, Upgrading(UpRemove));
      ok := Docker(s, Frame(job, Upgrading(UpRemove), d, u), RemoveContainer(x, es[7].outcome), es, 7, Upgrading(SaveNewImage));
      if !ok {
        return;
      }
      ghost var f := Frame(job, Upgrading(SaveNewImage), d, u);
      d := WithImage(d, job.payload.image);
      ok := Save(s, f, d, es[8].outcome, es, 8, Upgrading(UpCreate));
    }

    /** A Docker call of the trial: a failure leads to the rollback. */
    method Try(ghost s: Origin, ghost f: Frame, r: DockerReply, es: seq<Oracle>, k: nat, ghost next: UpgradePc) returns (ok: bool)
      requires IsAt(s, es, f, Now(), k) && k < |es| && !f.pc.Returned? && Advance(f, Now(), es[k]) == Trying(f, Now(), r, next)
      modifies this`x
      ensures IsAt(s, es, Goto(f, OnTrial(ok, next)), Now(), k + 1)
    {
      hide Advance, Exec;
      x := r.x;
      ok := r.ok;
      Turn(s, es, f, old(Now()), k, Goto(f, OnTrial(ok, next)), Now());
    }

    /** The migration command. */
    method RunMigration(ghost s: Origin, job: Job, ghost d: Row, ghost u: Locals, es: seq<Oracle>, k: nat) returns (ok: bool)
      requires k < |es| && IsAt(s, es, Frame(job, Upgrading(Migrate), d, u), Now(), k)
      modifies this`c
      ensures IsAt(s, es, Frame(job, OnTrial(ok, UpHealth), d, u.(migrated := true)), Now(), k + 1)
    {
      hide Exec, IsAt, Ends;
      ghost var v := Now();
      ok := Command(job.id, es[k]);
      Turn(s, es, Frame(job, Upgrading(Migrate), d, u), v, k, Frame(job, OnTrial(ok, UpHealth), d, u.(migrated := true)), Now());
    }

    /** The trial of the new image. */
    method Trial(ghost s: Origin, job: Job, d: Row, u0: Locals, es: seq<Oracle>) returns (ok: bool, k: nat, u: Locals)
      requires |es| >= 20 && IsAt(s, es, Frame(job, Upgrading(UpCreate), d, u0), Now(), 9)
      modifies this`x, this`c
      ensures k <= 13 && u == u0.(migrated := u.migrated)
      ensures IsAt(s, es, Frame(job, OnTrial(ok, if u.wasStopped then StopAgain else Settle), d, u), Now(), k)
    {
      hide Exec, IsAt, Ends, Moving, ByDocker, ByCheck, ByPanel, ByBackups, ByCluster, Saving, Unchecked, EnsureDatabase, DropDatabase, EnsureNetworks, RemoveNetworks, EnsureDirectory, PurgeDirectory, CreateContainer, StartContainer, StopContainer, RemoveContainer;
      hide Provision, StopStep, StartStep, RemoveStep, ResetStep;
      hide Trying;
      k, u := 10, u0;
      ok := Try(s, Frame(job, Upgrading(UpCreate), d, u), CreateContainer(x, d.request, es[9].outcome), es, 9, UpStart);
      if !ok {
        return;
      }
      k := 11;
      ok := Try(s, Frame(job, Upgrading(UpStart), d, u), StartContainer(x, es[10].outcome), es, 10, Migrate);
      if !ok {
        return;
      }
      k := 12;
      ok := RunMigration(s, job, d, u, es, 11);
      u := u.(migrated := true);
      if !ok {
        return;
      }
      k := 13;
      ok := es[12].outcome == Ok;
      Turn(s, es, Frame(job, Upgrading(UpHealth), d, u), Now(), 12,
           Frame(job, OnTrial(ok, if u.wasStopped then StopAgain else Settle), d, u), Now());
    }

    /** The failed container goes, and the backup comes back. */
    method Restore(ghost s: Origin, job: Job, d: Row, u0: Locals, es: seq<Oracle>, k: nat) returns (u: Locals, ok: bool)
      requires |es| >= k + 2 && IsAt(s, es, Frame(job, Upgrading(BackRemove), d, u0), Now(), k)
      modifies this`x, this`c
      ensures u == u0.(stale := u.stale, kept := u.kept, grown := u.grown)
      ensures if ok then IsAt(s, es, Frame(job, Upgrading(SaveOldImage), d, u), Now(), k + 2) else Ends(s, es, Err, Now())
    {
      hide Exec, IsAt, Ends, Moving, ByDocker, ByCheck, ByPanel, ByBackups, ByCluster, Saving, Unchecked, EnsureDatabase, DropDatabase, EnsureNetworks, RemoveNetworks, EnsureDirectory, PurgeDirectory, CreateContainer, StartContainer, StopContainer, RemoveContainer;
      hide Provision, StopStep, StartStep, RemoveStep, ResetStep;
      ghost var v := Now();
      x := RemoveContainer(x, es[k].outcome).x;
      u := u0.(stale := !x.container.Absent?, kept := false);
      Turn(s, es, Frame(job, Upgrading(BackRemove), d, u0), v, k, Frame(job, Upgrading(BackRestore), d, u), Now());
      v := Now();
      ghost var f := Frame(job, Upgrading(BackRestore), d, u);
      x := WithHelper(x, d.request, es[k + 1].leaves);
      u := u.(kept := es[k + 1].leaves.Some?, grown := ContentIn(c, job.id, d.request.database));
      ok := false;
      if OwnsDatabase(c, job.id, d.request.database) {
        var content := if Applied(es[k + 1].outcome) then Overlaid(c.databases[d.request.database].content, u0.backup) else es[k + 1].content;
        c := Rewrite(c, job.id, d.request.database, content);
        ok := es[k + 1].outcome == Ok;
      }
      Turn(s, es, f, v, k + 1, Frame(job, After(ok, Upgrading(SaveOldImage)), d, u), Now());
    }

    /** The old image is saved; the report is dropped. */
    method SaveOld(ghost s: Origin, job: Job, d0: Row, u: Locals, es: seq<Oracle>, k: nat) returns (d: Row)
      requires k < |es| && IsAt(s, es, Frame(job, Upgrading(SaveOldImage), d0, u), Now(), k) && row.Some?
      modifies this`row
      ensures row.Some? && IsAt(s, es, Frame(job, Upgrading(BackCreate), d, u), Now(), k + 1)
    {
      hide Exec, IsAt, Ends, Moving, ByDocker, ByCheck, ByPanel, ByBackups, ByCluster, Saving, Unchecked, EnsureDatabase, DropDatabase, EnsureNetworks, RemoveNetworks, EnsureDirectory, PurgeDirectory, CreateContainer, StartContainer, StopContainer, RemoveContainer;
      hide Provision, StopStep, StartStep, RemoveStep, ResetStep;
      d := WithImage(d0, u.oldImage);
      var _ := Save(s, Frame(job, Upgrading(SaveOldImage), d0, u), d, Ok, es, k, Upgrading(BackCreate));
    }

    /** The rollback: the backup is restored, the old image saved and its container made again. */
    method RollBack(ghost s: Origin, job: Job, d0: Row, u0: Locals, es: seq<Oracle>, k: nat) returns (r: Result)
      requires |es| >= k + 7 && IsAt(s, es, Frame(job, Upgrading(BackRemove), d0, u0), Now(), k) && row.Some?
      modifies this
      ensures Ends(s, es, r, Now()) && r != Nil
    {
      hide Exec, IsAt, Ends, Moving, ByDocker, ByCheck, ByPanel, ByBackups, ByCluster, Saving, Unchecked, EnsureDatabase, DropDatabase, EnsureNetworks, RemoveNetworks, EnsureDirectory, PurgeDirectory, CreateContainer, StartContainer, StopContainer, RemoveContainer;
      hide Provision, StopStep, StartStep, RemoveStep, ResetStep;
      var u, ok := Restore(s, job, d0, u0, es, k);
      if !ok {
        return Err;
      }
      var d := SaveOld(s, job, d0, u, es, k + 2);
      ok := Docker(s, Frame(job, Upgrading(BackCreate), d, u), CreateContainer(x, d.request, es[k + 3].outcome), es, k + 3, Upgrading(BackStart));
      if !ok {
        return Err;
      }
      ok := Docker(s, Frame(job, Upgrading(BackStart), d, u), StartContainer(x, es[k + 4].outcome), es, k + 4, Upgrading(BackHealth));
      if !ok {
        return Err;
      }
      ok := Check(s, Frame(job, Upgrading(BackHealth), d, u), es, k + 5, Upgrading(BackActive));
      if !ok {
        return Err;
      }
      var _, _ := BackToWork(s, job, d, u, es, k + 6);
      return RolledBack;
    }

    /** The last transition of the rollback, whose report is dropped. */
    method BackToWork(ghost s: Origin, job: Job, d0: Row, ghost u: Locals, es: seq<Oracle>, k: nat) returns (d: Row, ok: bool)
      requires k < |es| && IsAt(s, es, Frame(job, Upgrading(BackActive), d0, u), Now(), k)
      modifies this`row
      ensures Ends(s, es, RolledBack, Now())
    {
      hide Exec, IsAt, Ends, Programs.Transition;
      d, ok := Transition(d0, Active, Ok);
      Turn(s, es, Frame(job, Upgrading(BackActive), d0, u), old(Now()), k, Frame(job, Returned(RolledBack), d, u), Now());
    }

    /** The end of a successful trial: stopped again if it was, and the old backups pruned whatever came before. */
    method SettleDown(ghost s: Origin, job: Job, d0: Row, u0: Locals, es: seq<Oracle>, k0: nat) returns (ok: bool)
      requires |es| >= k0 + 3 && IsAt(s, es, Frame(job, Upgrading(if u0.wasStopped then StopAgain else Settle), d0, u0), Now(), k0)
      modifies this
      ensures Ends(s, es, ResultOf(ok), Now())
    {
      hide Exec, IsAt, Ends, Programs.Transition;
      var k := k0;
      ghost var u, v := u0, Now();
      if u0.wasStopped {
        x := StopContainer(x, es[k].outcome).x;
        u := u0.(halted := !IsRunning(x));
        Turn(s, es, Frame(job, Upgrading(StopAgain), d0, u0), v, k, Frame(job, Upgrading(Settle), d0, u), Now());
        k := k + 1;
      }
      v := Now();
      var d: Row;
      d, ok := Transition(d0, if u0.wasStopped then Stopped else Active, es[k].outcome);
      Turn(s, es, Frame(job, Upgrading(Settle), d0, u), v, k, Frame(job, Upgrading(Prune(ResultOf(ok))), d, u), Now());
      Turn(s, es, Frame(job, Upgrading(Prune(ResultOf(ok))), d, u), Now(), k + 1, Frame(job, Returned(ResultOf(ok)), d, u), Now());
    }

    /** upgrade. */
    method UpgradeDeployment(job: Job, ghost u0: Locals, es: seq<Oracle>) returns (r: Result)
      requires |es| >= 20
      modifies this
      ensures Ends(Origin(Frame(job, Upgrading(LoadUpgrade), BlankRow, u0), old(Now())), es, r, Now())
    {
      ghost var s := Origin(Frame(job, Upgrading(LoadUpgrade), BlankRow, u0), Now());
      Begins(Frame(job, Upgrading(LoadUpgrade), BlankRow, u0), Now(), es);
      hide Exec, IsAt, Ends, Advance;
      var d, u, ok := Approach(s, job, u0, es);
      if !ok {
        return Err;
      }
      d, ok := Replace(s, job, d, u, es);
      if !ok {
        return Err;
      }
      var k: nat;
      ok, k, u := Trial(s, job, d, u, es);
      if !ok {
        r := RollBack(s, job, d, u, es, k);
        return;
      }
      ok := SettleDown(s, job, d, u, es, k);
      return ResultOf(ok);
    }

    // ---- admin reset ----

    /** resetAdmin. */
    method ResetAdmin(job: Job, ghost u: Locals, es: seq<Oracle>) returns (ok: bool)
      requires |es| >= 1
      modifies this
      ensures Ends(Origin(Frame(job, Resetting, BlankRow, u), old(Now())), es, ResultOf(ok), Now())
    {
      ghost var f := Frame(job, Resetting, BlankRow, u);
      Begins(f, Now(), es);
      hide Exec, IsAt, Ends;
      ok := Command(job.id, es[0]);
      Turn(Origin(f, old(Now())), es, f, old(Now()), 0, Goto(f, Returned(ResultOf(ok))), Now());
    }
  }

  lemma FailedIsErr()
    ensures ResultOf(false) == Err && ResultOf(true) == Nil
  {
  }
}

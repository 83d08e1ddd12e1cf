/** The queue worker's procedures as programs with a program counter. One step is one call to the database or
    to the outside, together with the local computation after it. */
module Programs {
  import opened Common
  import opened Lifecycle
  import opened Store
  import opened Host

  /** What a procedure returns; RolledBack is the error that must not fail the deployment. */
  datatype Result = Nil | Err | RolledBack

  datatype ProvisionPc =
    | Load
    | ToCreatingDatabase
    | MakeDatabase
    | ToPullingImage
    | MakeNetworks
    | MakePanel
    | PullImage
    | ToCreatingContainer
    | MakeContainer
    | ToStarting
    | StartIt
    | WaitRuntime
    | ToMigrating
    | Install
    | ForgetBootstrap
    | ToHealthchecking
    | CheckHealth
    | ToActive

  datatype StopPc = LoadStop | StopIt | ToStopped

  datatype StartPc = LoadStart | MarkStarting | StartAgain | MarkHealthchecking | CheckAgain | MarkActive

  datatype UpgradePc =
    | LoadUpgrade
    | ToUpdating
    | UpNetworks
    | UpPanel
    | TakeBackup
    | UpPull
    | UpStop
    | UpRemove
    | SaveNewImage
    | UpCreate
    | UpStart
    | Migrate
    | UpHealth
    | BackRemove
    | BackRestore
    | SaveOldImage
    | BackCreate
    | BackStart
    | BackHealth
    | BackActive
    | StopAgain
    | Settle
    | Prune(result: Result)

  datatype RemovePc =
    | LoadRemove
    | ToDeleting
    | StopFirst
    | DropContainer
    | DropNetworks
    | DropCluster
    | PurgePanel
    | PurgeBackups
    | ToDeleted

  datatype Pc =
    | Provisioning(provision: ProvisionPc)
    | Stopping(stop: StopPc)
    | Starts(start: StartPc)
    | Upgrading(upgrade: UpgradePc)
    | Removing(remove: RemovePc)
    | Resetting
    | Returned(result: Result)

  /** The operation a worker runs. */
  datatype Job = Job(op: OpId, id: Id, kind: Kind, payload: Payload)

  /** Locals of upgrade. The rest is history: whether the migration command ran, what the database held before the
      restore, whether a container outlived the rollback's removal, whether the utility container of the restore did,
      and whether the last stop took effect. */
  datatype Locals = Locals(
    wasStopped: bool,
    oldImage: string,
    backup: Content,
    migrated: bool,
    grown: Content,
    stale: bool,
    kept: bool,
    halted: bool)

  const NoLocals := Locals(false, "", map[], false, map[], false, false, false)

  /** A worker's stack frame; `d` is the procedure's in-memory copy of the row. */
  datatype Frame = Frame(job: Job, pc: Pc, d: Row, u: Locals)

  /** What one call draws from the environment: its outcome, the content a command leaves in the database, and
      whether a utility container outlives the call, running or not. */
  datatype Oracle = Oracle(outcome: Outcome, content: Content, leaves: Option<bool>)

  /** The part of the world a procedure for one deployment reads and writes. */
  datatype View = View(row: Option<Row>, x: Objects, c: Cluster)

  datatype Config = Config(f: Frame, v: View)

  const BlankRow := Row(Request("", "", "", ""), Pending, "", None, None, "")

  function Entry(kind: Kind): Pc {
    match kind
    case Create => Provisioning(Load)
    case Start => Starts(LoadStart)
    case Stop => Stopping(LoadStop)
    case Restart => Stopping(LoadStop)
    case Upgrade => Upgrading(LoadUpgrade)
    case DeleteSoft => Removing(LoadRemove)
    case DeletePurge => Removing(LoadRemove)
    case AdminReset => Resetting
  }

  function NewFrame(op: OpId, o: Operation): Frame {
    Frame(Job(op, o.deployment, o.kind, o.payload), Entry(o.kind), BlankRow, NoLocals)
  }

  // ---- Database calls ----

  /** A procedure's local row and the stored row after `transition(d, to)`, and whether it returned nil. A move
      that is no edge of the table is skipped. */
  datatype Moved = Moved(d: Row, row: Option<Row>, ok: bool)

  function Transition(d: Row, row: Option<Row>, to: Lifecycle.State, o: Outcome): Moved {
    if d.state == to || !CanTransition(d.state, to) then Moved(d, row, true)
    else if !Applied(o) || MoveRow(row, to, "").1 != Done then Moved(d, row, false)
    else Moved(if o.Ok? then d.(state := to) else d, MoveRow(row, to, "").0, o.Ok?)
  }

  function After(ok: bool, next: Pc): Pc {
    if ok then next else Returned(Err)
  }

  function Goto(f: Frame, pc: Pc): Frame {
    Frame(f.job, pc, f.d, f.u)
  }

  function Failing(f: Frame, v: View): Config {
    Config(Goto(f, Returned(Err)), v)
  }

  function Moving(f: Frame, v: View, to: Lifecycle.State, o: Outcome, next: Pc): Config {
    var m := Transition(f.d, v.row, to, o);
    Config(Frame(f.job, After(m.ok, next), m.d, f.u), View(m.row, v.x, v.c))
  }

  /** The whole-row write of SaveDeployment: it fails when the row is gone. */
  function Saving(f: Frame, v: View, d: Row, o: Outcome, next: Pc): Config {
    if !Applied(o) || v.row.None? then Config(Frame(f.job, Returned(Err), d, f.u), v)
    else Config(Frame(f.job, After(o.Ok?, next), d, f.u), View(Some(d), v.x, v.c))
  }

  // ---- Outside calls ----

  function ByDocker(f: Frame, v: View, r: DockerReply, next: Pc): Config {
    Config(Goto(f, After(r.ok, next)), View(v.row, r.x, v.c))
  }

  function ByCluster(f: Frame, v: View, r: ClusterReply, next: Pc): Config {
    Config(Goto(f, After(r.ok, next)), View(v.row, v.x, r.c))
  }

  function ByPanel(f: Frame, v: View, r: DiskReply, next: Pc): Config {
    Config(Goto(f, After(r.ok, next)), View(v.row, v.x.(panel := r.dir), v.c))
  }

  function ByBackups(f: Frame, v: View, r: DiskReply, next: Pc): Config {
    Config(Goto(f, After(r.ok, next)), View(v.row, v.x.(backups := r.dir), v.c))
  }

  /** A call with no modelled effect. */
  function ByCheck(f: Frame, v: View, o: Outcome, next: Pc): Config {
    Config(Goto(f, After(o.Ok?, next)), v)
  }

  /** A command run inside the container needs a running container, and whatever it reports it may have changed
      the database. */
  function CommandView(v: View, id: Id, content: Content): View {
    if IsRunning(v.x) then View(v.row, v.x, Rewrite(v.c, id, v.x.container.value.spec.request.database, content)) else v
  }

  predicate CommandOk(v: View, o: Outcome) {
    IsRunning(v.x) && o.Ok?
  }

  // ---- create ----

  function Loaded(f: Frame, v: View, o: Outcome): Config {
    if v.row.None? || !o.Ok? || v.row.value.secret.None? then Failing(f, v)
    else Config(Frame(f.job, Provisioning(ToCreatingDatabase), v.row.value, f.u), v)
  }

  function Installing(f: Frame, v: View, e: Oracle): Config {
    var w := CommandView(v, f.job.id, e.content);
    if CommandOk(v, e.outcome) then
      Config(Goto(f, Provisioning(ForgetBootstrap)), View(w.row, w.x.(installed := true), w.c))
    else Config(Goto(f, Returned(Err)), w)
  }

  function MakingDatabase(f: Frame, v: View, o: Outcome): Config {
    ByCluster(f, v, EnsureDatabase(v.c, f.job.id, f.d.request.database, f.d.request.username, o), Provisioning(ToPullingImage))
  }

  function Provision(f: Frame, v: View, pc: ProvisionPc, e: Oracle): Config {
    match pc
    case Load => Loaded(f, v, e.outcome)
    case ToCreatingDatabase => Moving(f, v, CreatingDatabase, e.outcome, Provisioning(MakeDatabase))
    case MakeDatabase => MakingDatabase(f, v, e.outcome)
    case ToPullingImage => Moving(f, v, PullingImage, e.outcome, Provisioning(MakeNetworks))
    case MakeNetworks => ByDocker(f, v, EnsureNetworks(v.x, e.outcome), Provisioning(MakePanel))
    case MakePanel => ByPanel(f, v, EnsureDirectory(v.x.panel, e.outcome), Provisioning(ProvisionPc.PullImage))
    case PullImage => ByCheck(f, v, e.outcome, Provisioning(ToCreatingContainer))
    case ToCreatingContainer => Moving(f, v, CreatingContainer, e.outcome, Provisioning(MakeContainer))
    case MakeContainer => ByDocker(f, v, CreateContainer(v.x, f.d.request, e.outcome), Provisioning(ToStarting))
    case ToStarting => Moving(f, v, Starting, e.outcome, Provisioning(StartIt))
    case StartIt => ByDocker(f, v, StartContainer(v.x, e.outcome), Provisioning(WaitRuntime))
    case WaitRuntime => ByCheck(f, v, e.outcome, Provisioning(ToMigrating))
    case ToMigrating => Moving(f, v, Migrating, e.outcome, Provisioning(Install))
    case Install => Installing(f, v, e)
    case ForgetBootstrap => Saving(f, v, f.d.(bootstrap := None), e.outcome, Provisioning(ToHealthchecking))
    case ToHealthchecking => Moving(f, v, Healthchecking, e.outcome, Provisioning(CheckHealth))
    case CheckHealth => ByCheck(f, v, e.outcome, Provisioning(ToActive))
    case ToActive => Moving(f, v, Active, e.outcome, Returned(Nil))
  }

  // ---- stop, start, restart ----

  function AfterStop(kind: Kind): Pc {
    if kind == Restart then Starts(LoadStart) else Returned(Nil)
  }

  function LoadedForStop(f: Frame, v: View, o: Outcome): Config {
    if v.row.None? || !o.Ok? then Failing(f, v)
    else if v.row.value.state == Stopped then Config(Frame(f.job, AfterStop(f.job.kind), v.row.value, f.u), v)
    else if v.row.value.state != Active then Failing(f, v)
    else Config(Frame(f.job, Stopping(StopIt), v.row.value, f.u), v)
  }

  function StopStep(f: Frame, v: View, pc: StopPc, e: Oracle): Config {
    match pc
    case LoadStop => LoadedForStop(f, v, e.outcome)
    case StopIt => ByDocker(f, v, StopContainer(v.x, e.outcome), Stopping(ToStopped))
    case ToStopped => Moving(f, v, Stopped, e.outcome, AfterStop(f.job.kind))
  }

  function LoadedForStart(f: Frame, v: View, o: Outcome): Config {
    if v.row.None? || !o.Ok? then Failing(f, v)
    else if v.row.value.state != Stopped && v.row.value.state != Starting then Failing(f, v)
    else Config(Frame(f.job, Starts(MarkStarting), v.row.value, f.u), v)
  }

  function StartStep(f: Frame, v: View, pc: StartPc, e: Oracle): Config {
    match pc
    case LoadStart => LoadedForStart(f, v, e.outcome)
    case MarkStarting => Moving(f, v, Starting, e.outcome, Starts(StartAgain))
    case StartAgain => ByDocker(f, v, StartContainer(v.x, e.outcome), Starts(MarkHealthchecking))
    case MarkHealthchecking => Moving(f, v, Healthchecking, e.outcome, Starts(CheckAgain))
    case CheckAgain => ByCheck(f, v, e.outcome, Starts(MarkActive))
    case MarkActive => Moving(f, v, Active, e.outcome, Returned(Nil))
  }

  // ---- upgrade ----

  function LoadedForUpgrade(f: Frame, v: View, o: Outcome): Config {
    if !f.job.payload.UpgradeTo? || v.row.None? || !o.Ok? then Failing(f, v)
    else if v.row.value.state != Active && v.row.value.state != Stopped then Failing(f, v)
    else if f.job.payload.image == v.row.value.request.image then Failing(f, v)
    else
      var d := v.row.value;
      Config(Frame(f.job, Upgrading(ToUpdating), d, NoLocals.(wasStopped := d.state == Stopped, oldImage := d.request.image)), v)
  }

  /** The dump runs in a container of its own once the directory is there. */
  function BackingUp(f: Frame, v: View, e: Oracle): Config {
    var r := EnsureDirectory(v.x.backups, e.outcome);
    var w := View(v.row, WithHelper(v.x.(backups := r.dir), f.d.request, if Applied(e.outcome) && !v.x.backups.mark.Spoilt? then e.leaves else None), v.c);
    var name := f.d.request.database;
    if !r.ok || !OwnsDatabase(v.c, f.job.id, name) then Failing(f, w)
    else Config(Frame(f.job, Upgrading(UpPull), f.d, f.u.(backup := v.c.databases[name].content)), w)
  }

  /** An unchecked call: the next step is taken whatever it reports. */
  function Unchecked(f: Frame, v: View, r: DockerReply, next: Pc): Config {
    Config(Goto(f, next), View(v.row, r.x, v.c))
  }

  function WithImage(d: Row, image: string): Row {
    d.(request := d.request.(image := image))
  }

  function SavingNewImage(f: Frame, v: View, o: Outcome): Config {
    if !f.job.payload.UpgradeTo? then Failing(f, v)
    else Saving(f, v, WithImage(f.d, f.job.payload.image), o, Upgrading(UpCreate))
  }

  /** The new image's trial: a failure leads to the rollback, not to a return. */
  function OnTrial(ok: bool, next: UpgradePc): Pc {
    Upgrading(if ok then next else BackRemove)
  }

  function Trying(f: Frame, v: View, r: DockerReply, next: UpgradePc): Config {
    Config(Goto(f, OnTrial(r.ok, next)), View(v.row, r.x, v.c))
  }

  function RunningMigration(f: Frame, v: View, e: Oracle): Config {
    Config(
      Frame(f.job, OnTrial(CommandOk(v, e.outcome), UpHealth), f.d, f.u.(migrated := true)),
      CommandView(v, f.job.id, e.content))
  }

  function RemovingTrial(f: Frame, v: View, r: DockerReply): Config {
    Config(Frame(f.job, Upgrading(BackRestore), f.d, f.u.(stale := !r.x.container.Absent?, kept := false)), View(v.row, r.x, v.c))
  }

  /** So does the restore, which replaces what the dump covers and leaves the rest. */
  function Restoring(f: Frame, v: View, e: Oracle): Config {
    var grown := ContentIn(v.c, f.job.id, f.d.request.database);
    var content := if Applied(e.outcome) then Overlaid(grown, f.u.backup) else e.content;
    var ok := OwnsDatabase(v.c, f.job.id, f.d.request.database) && e.outcome.Ok?;
    Config(
      Frame(f.job, After(ok, Upgrading(SaveOldImage)), f.d, f.u.(kept := e.leaves.Some?, grown := grown)),
      View(v.row, WithHelper(v.x, f.d.request, e.leaves), Rewrite(v.c, f.job.id, f.d.request.database, content)))
  }

  /** The last calls of the rollback drop their database errors. */
  function BackToActive(f: Frame, v: View): Config {
    var m := Transition(f.d, v.row, Active, Ok);
    Config(Frame(f.job, Returned(RolledBack), m.d, f.u), View(m.row, v.x, v.c))
  }

  function StoppingAgain(f: Frame, v: View, r: DockerReply): Config {
    Config(Frame(f.job, Upgrading(Settle), f.d, f.u.(halted := !IsRunning(r.x))), View(v.row, r.x, v.c))
  }

  function Settling(f: Frame, v: View, o: Outcome): Config {
    var m := Transition(f.d, v.row, if f.u.wasStopped then Stopped else Active, o);
    Config(Frame(f.job, Upgrading(Prune(if m.ok then Nil else Err)), m.d, f.u), View(m.row, v.x, v.c))
  }

  function UpgradeStep(f: Frame, v: View, pc: UpgradePc, e: Oracle): Config {
    match pc
    case LoadUpgrade => LoadedForUpgrade(f, v, e.outcome)
    case ToUpdating => Moving(f, v, Updating, e.outcome, Upgrading(UpNetworks))
    case UpNetworks => ByDocker(f, v, EnsureNetworks(v.x, e.outcome), Upgrading(UpPanel))
    case UpPanel => ByPanel(f, v, EnsureDirectory(v.x.panel, e.outcome), Upgrading(TakeBackup))
    case TakeBackup => BackingUp(f, v, e)
    case UpPull => ByCheck(f, v, e.outcome, Upgrading(UpStop))
    case UpStop => Unchecked(f, v, StopContainer(v.x, e.outcome), Upgrading(UpRemove))
    case UpRemove => ByDocker(f, v, RemoveContainer(v.x, e.outcome), Upgrading(SaveNewImage))
    case SaveNewImage => SavingNewImage(f, v, e.outcome)
    case UpCreate => Trying(f, v, CreateContainer(v.x, f.d.request, e.outcome), UpStart)
    case UpStart => Trying(f, v, StartContainer(v.x, e.outcome), Migrate)
    case Migrate => RunningMigration(f, v, e)
    case UpHealth => Config(Goto(f, OnTrial(e.outcome.Ok?, if f.u.wasStopped then StopAgain else Settle)), v)
    case BackRemove => RemovingTrial(f, v, RemoveContainer(v.x, e.outcome))
    case BackRestore => Restoring(f, v, e)
    case SaveOldImage => Saving(f, v, WithImage(f.d, f.u.oldImage), Ok, Upgrading(BackCreate))
    case BackCreate => ByDocker(f, v, CreateContainer(v.x, f.d.request, e.outcome), Upgrading(BackStart))
    case BackStart => ByDocker(f, v, StartContainer(v.x, e.outcome), Upgrading(BackHealth))
    case BackHealth => ByCheck(f, v, e.outcome, Upgrading(BackActive))
    case BackActive => BackToActive(f, v)
    case StopAgain => StoppingAgain(f, v, StopContainer(v.x, e.outcome))
    case Settle => Settling(f, v, e.outcome)
    case Prune(result) => Config(Goto(f, Returned(result)), v)
  }

  // ---- delete ----

  function LoadedForRemove(f: Frame, v: View, o: Outcome): Config {
    if v.row.None? || !o.Ok? then Failing(f, v)
    else if v.row.value.state != Deleting && !CanTransition(v.row.value.state, Deleting) then Failing(f, v)
    else Config(Frame(f.job, Removing(ToDeleting), v.row.value, f.u), v)
  }

  function Dropping(f: Frame, v: View, o: Outcome): Config {
    ByCluster(f, v, DropDatabase(v.c, f.job.id, f.d.request.database, f.d.request.username, o), Removing(PurgePanel))
  }

  function AfterNetworks(kind: Kind): Pc {
    Removing(if kind == DeletePurge then DropCluster else ToDeleted)
  }

  function RemoveStep(f: Frame, v: View, pc: RemovePc, e: Oracle): Config {
    match pc
    case LoadRemove => LoadedForRemove(f, v, e.outcome)
    case ToDeleting => Moving(f, v, Deleting, e.outcome, Removing(StopFirst))
    case StopFirst => Unchecked(f, v, StopContainer(v.x, e.outcome), Removing(DropContainer))
    case DropContainer => ByDocker(f, v, RemoveContainer(v.x, e.outcome), Removing(DropNetworks))
    case DropNetworks => ByDocker(f, v, RemoveNetworks(v.x, e.outcome), AfterNetworks(f.job.kind))
    case DropCluster => Dropping(f, v, e.outcome)
    case PurgePanel => ByPanel(f, v, PurgeDirectory(v.x.panel, e.outcome), Removing(PurgeBackups))
    case PurgeBackups => ByBackups(f, v, PurgeDirectory(v.x.backups, e.outcome), Removing(ToDeleted))
    case ToDeleted => Moving(f, v, Deleted, e.outcome, Returned(Nil))
  }

  // ---- admin reset ----

  /** A command in the panel; no lifecycle move. */
  function ResetStep(f: Frame, v: View, e: Oracle): Config {
    Config(Goto(f, After(CommandOk(v, e.outcome), Returned(Nil))), CommandView(v, f.job.id, e.content))
  }

  function Advance(f: Frame, v: View, e: Oracle): Config {
    match f.pc
    case Provisioning(pc) => Provision(f, v, pc, e)
    case Stopping(pc) => StopStep(f, v, pc, e)
    case Starts(pc) => StartStep(f, v, pc, e)
    case Upgrading(pc) => UpgradeStep(f, v, pc, e)
    case Removing(pc) => RemoveStep(f, v, pc, e)
    case Resetting => ResetStep(f, v, e)
    case Returned(_) => Config(f, v)
  }
}

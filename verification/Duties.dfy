/** What each call of a procedure has to do, told from the program point alone: what it may change, what it has changed
    when the procedure goes on, and whether its report must be heeded. The programs are proved to keep to it. */
module Duties {
  import opened Common
  import opened Lifecycle
  import opened Store
  import opened Host
  import opened Programs
  import opened Invariant

  // ---- What a call may change ----

  datatype Piece = TheRow | TheContainer | TheNetworks | ThePanel | TheBackups | ThePostgres | TheInstallation

  predicate Kept(p: Piece, v: View, w: View) {
    match p
    case TheRow => w.row == v.row
    case TheContainer => w.x.container == v.x.container
    case TheNetworks => w.x.frontend == v.x.frontend && w.x.backend == v.x.backend
    case ThePanel => w.x.panel == v.x.panel
    case TheBackups => w.x.backups == v.x.backups
    case ThePostgres => w.c == v.c
    case TheInstallation => w.x.installed == v.x.installed
  }

  /** The state a lifecycle move is to. */
  function Target(f: Frame): Option<State> {
    match f.pc
    case Provisioning(p) => (
      match p
      case ToCreatingDatabase => Some(CreatingDatabase)
      case ToPullingImage => Some(PullingImage)
      case ToCreatingContainer => Some(CreatingContainer)
      case ToStarting => Some(Starting)
      case ToMigrating => Some(Migrating)
      case ToHealthchecking => Some(Healthchecking)
      case ToActive => Some(Active)
      case _ => None)
    case Stopping(p) => if p.ToStopped? then Some(Stopped) else None
    case Starts(p) => (
      match p
      case MarkStarting => Some(Starting)
      case MarkHealthchecking => Some(Healthchecking)
      case MarkActive => Some(Active)
      case _ => None)
    case Upgrading(p) => (
      match p
      case ToUpdating => Some(Updating)
      case BackActive => Some(Active)
      case Settle => Some(if f.u.wasStopped then Stopped else Active)
      case _ => None)
    case Removing(p) => if p.ToDeleting? then Some(Deleting) else if p.ToDeleted? then Some(Deleted) else None
    case _ => None
  }

  predicate SavesRow(pc: Pc) {
    pc == Provisioning(ForgetBootstrap) || pc == Upgrading(SaveNewImage) || pc == Upgrading(SaveOldImage)
  }

  function Touched(f: Frame): set<Piece> {
    if Target(f).Some? || SavesRow(f.pc) then {TheRow}
    else
      match f.pc
      case Provisioning(p) => (
        match p
        case MakeDatabase => {ThePostgres}
        case MakeNetworks => {TheNetworks}
        case MakePanel => {ThePanel}
        case MakeContainer => {TheContainer}
        case StartIt => {TheContainer}
        case Install => {ThePostgres, TheInstallation}
        case _ => {})
      case Stopping(p) => if p.StopIt? then {TheContainer} else {}
      case Starts(p) => if p.StartAgain? then {TheContainer} else {}
      case Upgrading(p) => (
        match p
        case UpNetworks => {TheNetworks}
        case UpPanel => {ThePanel}
        case TakeBackup => {TheBackups, TheContainer}
        case UpStop => {TheContainer}
        case UpRemove => {TheContainer}
        case UpCreate => {TheContainer}
        case UpStart => {TheContainer}
        case Migrate => {ThePostgres}
        case BackRemove => {TheContainer}
        case BackRestore => {ThePostgres, TheContainer}
        case BackCreate => {TheContainer}
        case BackStart => {TheContainer}
        case StopAgain => {TheContainer}
        case _ => {})
      case Removing(p) => (
        match p
        case StopFirst => {TheContainer}
        case DropContainer => {TheContainer}
        case DropNetworks => {TheNetworks}
        case DropCluster => {ThePostgres}
        case PurgePanel => {ThePanel}
        case PurgeBackups => {TheBackups}
        case _ => {})
      case Resetting => {ThePostgres}
      case Returned(_) => {}
  }

  // ---- Which reports count ----

  /** A move that makes no call, because the in-memory state is there already or has no such edge. */
  predicate IsSkipped(f: Frame) {
    Target(f).Some? && (f.d.state == Target(f).value || !CanTransition(f.d.state, Target(f).value))
  }

  /** Calls whose report is dropped: the stops before a removal, the removal and the last writes of a rollback, the stop
      after an upgrade, and pruning. */
  predicate IsDropped(pc: Pc) {
    || (pc.Upgrading? && (pc.upgrade.UpStop? || pc.upgrade.BackRemove? || pc.upgrade.SaveOldImage? || pc.upgrade.BackActive?
          || pc.upgrade.StopAgain? || pc.upgrade.Prune?))
    || pc == Removing(StopFirst)
  }

  predicate Heeds(f: Frame) {
    !IsSkipped(f) && !IsDropped(f.pc) && !f.pc.Returned?
  }

  predicate OnTrialRun(pc: Pc) {
    pc == Upgrading(UpCreate) || pc == Upgrading(UpStart) || pc == Upgrading(Migrate) || pc == Upgrading(UpHealth)
  }

  /** Where a call that did not work takes the procedure: a trial is rolled back, an upgrade that cannot write its last
      state prunes first, and everything else returns the error. */
  function Upset(pc: Pc): Pc {
    if OnTrialRun(pc) then Upgrading(BackRemove) else if pc == Upgrading(Settle) then Upgrading(Prune(Err)) else Returned(Err)
  }

  // ---- What a call that worked has done ----

  predicate MovedTo(f: Frame, v: View, g: Frame, w: View, to: State) {
    if IsSkipped(f) then w.row == v.row && g.d == f.d
    else v.row.Some? && w.row == Some(v.row.value.(state := to, failedStep := "")) && g.d == f.d.(state := to)
  }

  predicate Saved(v: View, g: Frame, w: View, row: Row) {
    v.row.Some? && w.row == Some(row) && g.d == row
  }

  /** A container that is found is taken as it is; otherwise one is made from the request, and not yet started. */
  predicate ContainerMade(request: Request, x: Objects, y: Objects) {
    match x.container
    case Absent => y.container == Single(Container(Spec(request, false), false))
    case Single(_) => y.container == x.container
    case Several => false
  }

  predicate ContainerRuns(x: Objects, y: Objects, running: bool) {
    match x.container
    case Absent => !running && y.container.Absent?
    case Single(value) => y.container == Single(Container(value.spec, running))
    case Several => false
  }

  predicate ContainerGone(x: Objects, y: Objects) {
    !x.container.Several? && y.container.Absent?
  }

  /** The utility's container stays exactly when the environment has it outlive its call. */
  predicate HelperStays(request: Request, x: Objects, leaves: Option<bool>, y: Objects) {
    match leaves
    case None => y.container == x.container
    case Some(running) =>
      if x.container.Absent? then y.container == Single(Container(Spec(request, true), running)) else y.container.Several?
  }

  predicate DirectoryMade(d: Directory, e: Directory) {
    !d.mark.Spoilt? && e == Directory(true, d.quarantined, Marked)
  }

  predicate DirectoryGone(d: Directory, e: Directory) {
    e == Directory(false, false, Bare) && (d == e || (d.mark.Marked? && !(d.live && d.quarantined)))
  }

  predicate ContentNow(c: Cluster, d: Cluster, id: Id, name: string, content: Content) {
    if name in c.databases && c.databases[name].marker == Some(id) then
      d.roles == c.roles && d.databases == c.databases[name := Database(c.databases[name].owner, Some(id), content)]
    else d == c
  }

  /** A command runs in the panel and may leave any content in the panel's database. */
  predicate Commanded(id: Id, v: View, e: Oracle, w: View) {
    && v.x.container.Single? && v.x.container.value.running
    && ContentNow(v.c, w.c, id, v.x.container.value.spec.request.database, e.content)
  }

  predicate DatabaseMade(id: Id, q: Request, c: Cluster, d: Cluster) {
    && (q.username in c.roles ==> c.roles[q.username] == Some(id))
    && d.roles == c.roles[q.username := Some(id)]
    && (if q.database in c.databases then
          d.databases == c.databases && d.databases[q.database].owner == q.username && d.databases[q.database].marker == Some(id)
        else d.databases == c.databases[q.database := Database(q.username, Some(id), map[])])
  }

  predicate DatabaseGone(id: Id, q: Request, c: Cluster, d: Cluster) {
    && (q.username in c.roles ==> c.roles[q.username] == Some(id))
    && (q.database in c.databases ==> c.databases[q.database].marker == Some(id))
    && d.databases == c.databases - {q.database} && d.roles == c.roles - {q.username}
    && (q.username in c.roles ==> forall n | n in d.databases :: d.databases[n].owner != q.username)
  }

  predicate Loaded(v: View, g: Frame) {
    v.row == Some(g.d)
  }

  predicate DidProvision(f: Frame, v: View, e: Oracle, g: Frame, w: View)
    requires f.pc.Provisioning?
  {
    match f.pc.provision
    case Load => Loaded(v, g) && g.d.secret.Some?
    case MakeDatabase => DatabaseMade(f.job.id, f.d.request, v.c, w.c)
    case MakeNetworks => w.x.frontend && w.x.backend
    case MakePanel => DirectoryMade(v.x.panel, w.x.panel)
    case MakeContainer => ContainerMade(f.d.request, v.x, w.x)
    case StartIt => ContainerRuns(v.x, w.x, true)
    case Install => Commanded(f.job.id, v, e, w) && w.x.installed
    case ForgetBootstrap => Saved(v, g, w, f.d.(bootstrap := None))
    case _ => true
  }

  predicate DidStart(f: Frame, v: View, g: Frame, w: View)
    requires f.pc.Starts?
  {
    match f.pc.start
    case LoadStart => Loaded(v, g) && (g.d.state == Stopped || g.d.state == Starting)
    case StartAgain => ContainerRuns(v.x, w.x, true)
    case _ => true
  }

  predicate DidStop(f: Frame, v: View, g: Frame, w: View)
    requires f.pc.Stopping?
  {
    match f.pc.stop
    case LoadStop => Loaded(v, g) && (g.d.state == Stopped || g.d.state == Active)
    case StopIt => ContainerRuns(v.x, w.x, false)
    case ToStopped => true
  }

  /** The upgrade's locals after a call: what it was asked to remember, and nothing else. */
  predicate Recalls(f: Frame, v: View, e: Oracle, g: Frame, w: View)
    requires f.pc.Upgrading?
  {
    var name := f.d.request.database;
    match f.pc.upgrade
    case LoadUpgrade => g.u == NoLocals.(wasStopped := g.d.state == Stopped, oldImage := g.d.request.image)
    case TakeBackup =>
      OwnsDatabase(v.c, f.job.id, name) && g.u == f.u.(backup := v.c.databases[name].content)
    case Migrate => g.u == f.u.(migrated := true)
    case BackRemove => g.u == f.u.(stale := !w.x.container.Absent?, kept := false)
    case BackRestore =>
      OwnsDatabase(v.c, f.job.id, name) && g.u == f.u.(kept := e.leaves.Some?, grown := v.c.databases[name].content)
    case StopAgain => g.u == f.u.(halted := !(w.x.container.Single? && w.x.container.value.running))
    case _ => g.u == f.u
  }

  predicate DidUpgrade(f: Frame, v: View, e: Oracle, g: Frame, w: View)
    requires f.pc.Upgrading?
  {
    match f.pc.upgrade
    case LoadUpgrade =>
      && Loaded(v, g) && (g.d.state == Active || g.d.state == Stopped)
      && f.job.payload.UpgradeTo? && f.job.payload.image != g.d.request.image
    case UpNetworks => w.x.frontend && w.x.backend
    case UpPanel => DirectoryMade(v.x.panel, w.x.panel)
    case TakeBackup => DirectoryMade(v.x.backups, w.x.backups) && HelperStays(f.d.request, v.x, e.leaves, w.x)
    case UpStop => e.outcome.Ok? && !v.x.container.Several? ==> ContainerRuns(v.x, w.x, false)
    case UpRemove => ContainerGone(v.x, w.x)
    case SaveNewImage =>
      f.job.payload.UpgradeTo? && Saved(v, g, w, f.d.(request := f.d.request.(image := f.job.payload.image)))
    case UpCreate => ContainerMade(f.d.request, v.x, w.x)
    case UpStart => ContainerRuns(v.x, w.x, true)
    case Migrate => Commanded(f.job.id, v, e, w)
    case BackRemove => e.outcome.Ok? && !v.x.container.Several? ==> ContainerGone(v.x, w.x)
    case BackRestore =>
      && OwnsDatabase(v.c, f.job.id, f.d.request.database)
      && ContentNow(v.c, w.c, f.job.id, f.d.request.database, v.c.databases[f.d.request.database].content + f.u.backup)
      && HelperStays(f.d.request, v.x, e.leaves, w.x)
    case SaveOldImage => Saved(v, g, w, f.d.(request := f.d.request.(image := f.u.oldImage)))
    case BackCreate => ContainerMade(f.d.request, v.x, w.x)
    case BackStart => ContainerRuns(v.x, w.x, true)
    case StopAgain => e.outcome.Ok? && !v.x.container.Several? ==> ContainerRuns(v.x, w.x, false)
    case _ => true
  }

  predicate DidRemove(f: Frame, v: View, e: Oracle, g: Frame, w: View)
    requires f.pc.Removing?
  {
    match f.pc.remove
    case LoadRemove => Loaded(v, g) && (g.d.state == Deleting || !Transient(g.d.state))
    case StopFirst => e.outcome.Ok? && !v.x.container.Several? ==> ContainerRuns(v.x, w.x, false)
    case DropContainer => ContainerGone(v.x, w.x)
    case DropNetworks => !w.x.frontend && !w.x.backend
    case DropCluster => DatabaseGone(f.job.id, f.d.request, v.c, w.c)
    case PurgePanel => DirectoryGone(v.x.panel, w.x.panel)
    case PurgeBackups => DirectoryGone(v.x.backups, w.x.backups)
    case _ => true
  }

  predicate IsLoad(pc: Pc) {
    || pc == Provisioning(Load) || pc == Stopping(LoadStop) || pc == Starts(LoadStart)
    || pc == Upgrading(LoadUpgrade) || pc == Removing(LoadRemove)
  }

  /** The call made at frame `f` has done its part, and the procedure remembers what it should. */
  predicate Did(f: Frame, v: View, e: Oracle, g: Frame, w: View) {
    && g.job == f.job
    && (Target(f).Some? && (f.pc != Upgrading(BackActive) || v.row == Some(f.d)) ==> MovedTo(f, v, g, w, Target(f).value))
    && (Target(f).None? && !SavesRow(f.pc) && !IsLoad(f.pc) ==> g.d == f.d)
    && (if f.pc.Upgrading? then Recalls(f, v, e, g, w) else g.u == f.u)
    && match f.pc
       case Provisioning(_) => DidProvision(f, v, e, g, w)
       case Stopping(_) => DidStop(f, v, g, w)
       case Starts(_) => DidStart(f, v, g, w)
       case Upgrading(_) => DidUpgrade(f, v, e, g, w)
       case Removing(_) => DidRemove(f, v, e, g, w)
       case Resetting => Commanded(f.job.id, v, e, w)
       case Returned(_) => true
  }

  /** A call whose report, where it counts, was good, and which did its part. */
  predicate Fulfilled(f: Frame, v: View, e: Oracle, g: Frame, w: View) {
    (Heeds(f) ==> e.outcome.Ok?) && Did(f, v, e, g, w)
  }

  predicate MayMove(row: Option<Row>, to: State) {
    row.Some? && (row.value.state == to || CanTransition(row.value.state, to))
  }

  /** What a call that reported an error has written into the row: all that it was to write, if it took effect all the
      same, and nothing otherwise. */
  predicate RowOnError(f: Frame, v: View, e: Oracle, w: View) {
    if e.outcome.Lost? && Target(f).Some? && MayMove(v.row, Target(f).value) then
      w.row == Some(v.row.value.(state := Target(f).value, failedStep := ""))
    else if e.outcome.Lost? && f.pc == Provisioning(ForgetBootstrap) && v.row.Some? then
      w.row == Some(f.d.(bootstrap := None))
    else if e.outcome.Lost? && f.pc == Upgrading(SaveNewImage) && v.row.Some? && f.job.payload.UpgradeTo? then
      w.row == Some(f.d.(request := f.d.request.(image := f.job.payload.image)))
    else w.row == v.row
  }

  /** The procedure has gone on from `f`: it has neither turned to an error nor to the rollback. */
  predicate GoesOn(f: Frame, g: Frame) {
    f.pc.Returned? || (g.pc != Upset(f.pc) && g.pc != Returned(Err))
  }

  // ---- The programs keep to it ----

  lemma BuildDoes(f: Frame, v: View, pc: ProvisionPc, e: Oracle, c: Config)
    requires f.pc == Provisioning(pc) && c == Provision(f, v, pc, e)
    requires Place(pc) <= 8
    ensures GoesOn(f, c.f) ==> Fulfilled(f, v, e, c.f, c.v)
    ensures Heeds(f) && !e.outcome.Ok? ==> c.f.pc == Upset(f.pc) && RowOnError(f, v, e, c.v)
    ensures forall p :: p !in Touched(f) ==> Kept(p, v, c.v)
  {
    match pc
    case _ =>
  }

  lemma LaunchDoes(f: Frame, v: View, pc: ProvisionPc, e: Oracle, c: Config)
    requires f.pc == Provisioning(pc) && c == Provision(f, v, pc, e)
    requires Place(pc) > 8
    ensures GoesOn(f, c.f) ==> Fulfilled(f, v, e, c.f, c.v)
    ensures Heeds(f) && !e.outcome.Ok? ==> c.f.pc == Upset(f.pc) && RowOnError(f, v, e, c.v)
    ensures forall p :: p !in Touched(f) ==> Kept(p, v, c.v)
  {
    match pc
    case _ =>
  }

  lemma ProvisionDoes(f: Frame, v: View, pc: ProvisionPc, e: Oracle, c: Config)
    requires f.pc == Provisioning(pc) && c == Provision(f, v, pc, e)
    ensures GoesOn(f, c.f) ==> Fulfilled(f, v, e, c.f, c.v)
    ensures Heeds(f) && !e.outcome.Ok? ==> c.f.pc == Upset(f.pc) && RowOnError(f, v, e, c.v)
    ensures forall p :: p !in Touched(f) ==> Kept(p, v, c.v)
  {
    hide *;
    if Place(pc) <= 8 {
      BuildDoes(f, v, pc, e, c);
    } else {
      LaunchDoes(f, v, pc, e, c);
    }
  }

  lemma PowerDoes(f: Frame, v: View, e: Oracle, c: Config)
    requires (f.pc.Stopping? || f.pc.Starts? || f.pc.Resetting?) && c == Advance(f, v, e)
    ensures GoesOn(f, c.f) ==> Fulfilled(f, v, e, c.f, c.v)
    ensures Heeds(f) && !e.outcome.Ok? ==> c.f.pc == Upset(f.pc) && RowOnError(f, v, e, c.v)
    ensures forall p :: p !in Touched(f) ==> Kept(p, v, c.v)
  {
    match f.pc
    case Stopping(pc) =>
    case Starts(pc) =>
    case Resetting =>
  }

  /** Before the new image is saved. */
  predicate Prepares(pc: UpgradePc) {
    pc.LoadUpgrade? || pc.ToUpdating? || pc.UpNetworks? || pc.UpPanel? || pc.TakeBackup? || pc.UpPull? || pc.UpStop? || pc.UpRemove?
  }

  predicate RollsBack(pc: UpgradePc) {
    pc.BackRemove? || pc.BackRestore? || pc.SaveOldImage? || pc.BackCreate? || pc.BackStart? || pc.BackHealth? || pc.BackActive?
  }

  lemma ApproachDoes(f: Frame, v: View, pc: UpgradePc, e: Oracle, c: Config)
    requires f.pc == Upgrading(pc) && c == UpgradeStep(f, v, pc, e)
    requires Prepares(pc)
    ensures GoesOn(f, c.f) ==> Fulfilled(f, v, e, c.f, c.v)
    ensures Heeds(f) && !e.outcome.Ok? ==> c.f.pc == Upset(f.pc) && RowOnError(f, v, e, c.v)
    ensures forall p :: p !in Touched(f) ==> Kept(p, v, c.v)
  {
    match pc
    case _ =>
  }

  lemma BackDoes(f: Frame, v: View, pc: UpgradePc, e: Oracle, c: Config)
    requires f.pc == Upgrading(pc) && c == UpgradeStep(f, v, pc, e)
    requires RollsBack(pc)
    ensures GoesOn(f, c.f) ==> Fulfilled(f, v, e, c.f, c.v)
    ensures Heeds(f) && !e.outcome.Ok? ==> c.f.pc == Upset(f.pc) && RowOnError(f, v, e, c.v)
    ensures forall p :: p !in Touched(f) ==> Kept(p, v, c.v)
  {
    match pc
    case _ =>
  }

  lemma TrialDoes(f: Frame, v: View, pc: UpgradePc, e: Oracle, c: Config)
    requires f.pc == Upgrading(pc) && c == UpgradeStep(f, v, pc, e)
    requires !Prepares(pc) && !RollsBack(pc)
    ensures GoesOn(f, c.f) ==> Fulfilled(f, v, e, c.f, c.v)
    ensures Heeds(f) && !e.outcome.Ok? ==> c.f.pc == Upset(f.pc) && RowOnError(f, v, e, c.v)
    ensures forall p :: p !in Touched(f) ==> Kept(p, v, c.v)
  {
    match pc
    case _ =>
  }

  lemma UpgradeDoes(f: Frame, v: View, pc: UpgradePc, e: Oracle, c: Config)
    requires f.pc == Upgrading(pc) && c == UpgradeStep(f, v, pc, e)
    ensures GoesOn(f, c.f) ==> Fulfilled(f, v, e, c.f, c.v)
    ensures Heeds(f) && !e.outcome.Ok? ==> c.f.pc == Upset(f.pc) && RowOnError(f, v, e, c.v)
    ensures forall p :: p !in Touched(f) ==> Kept(p, v, c.v)
  {
    hide *;
    if Prepares(pc) {
      ApproachDoes(f, v, pc, e, c);
    } else if RollsBack(pc) {
      BackDoes(f, v, pc, e, c);
    } else {
      TrialDoes(f, v, pc, e, c);
    }
  }

  lemma RemoveDoes(f: Frame, v: View, pc: RemovePc, e: Oracle, c: Config)
    requires f.pc == Removing(pc) && c == RemoveStep(f, v, pc, e)
    ensures GoesOn(f, c.f) ==> Fulfilled(f, v, e, c.f, c.v)
    ensures Heeds(f) && !e.outcome.Ok? ==> c.f.pc == Upset(f.pc) && RowOnError(f, v, e, c.v)
    ensures forall p :: p !in Touched(f) ==> Kept(p, v, c.v)
  {
    match pc
    case _ =>
  }

  /** Every step of every procedure: one that goes on has done what its program point is for, on a good report wherever
      the report counts; a bad report that counts ends in the error, or begins the rollback; and nothing but what the
      call is about has changed. */
  lemma StepsDoTheirPart(f: Frame, v: View, e: Oracle)
    ensures var c := Advance(f, v, e);
      && (GoesOn(f, c.f) ==> Fulfilled(f, v, e, c.f, c.v))
      && (Heeds(f) && !e.outcome.Ok? ==> c.f.pc == Upset(f.pc) && RowOnError(f, v, e, c.v))
      && (forall p :: p !in Touched(f) ==> Kept(p, v, c.v))
  {
    var c := Advance(f, v, e);
    match f.pc
    case Provisioning(pc) => ProvisionDoes(f, v, pc, e, c);
    case Stopping(_) => PowerDoes(f, v, e, c);
    case Starts(_) => PowerDoes(f, v, e, c);
    case Upgrading(pc) => UpgradeDoes(f, v, pc, e, c);
    case Removing(pc) => RemoveDoes(f, v, pc, e, c);
    case Resetting => PowerDoes(f, v, e, c);
    case Returned(_) =>
  }
}

/** What holds of one deployment while a worker is at each program point of its procedure. */
module Invariant {
  import opened Common
  import opened Lifecycle
  import opened Store
  import opened Host
  import opened Programs

  // ---- Facts about a deployment and the operation that owns it ----

  predicate OnCreatePath(s: Lifecycle.State) {
    s.CreatingDatabase? || s.PullingImage? || s.CreatingContainer? || s.Migrating?
  }

  /** A transient state belongs to a kind of operation. */
  predicate Owned(s: Lifecycle.State, owner: Option<Kind>) {
    && (OnCreatePath(s) ==> owner == Some(Create))
    && (s.Starting? || s.Healthchecking? ==> owner == Some(Create) || owner == Some(Start) || owner == Some(Restart))
    && (s.Updating? ==> owner == Some(Upgrade))
    && (s.Deleting? ==> owner == Some(DeleteSoft) || owner == Some(DeletePurge))
  }

  /** The row of a deployment whose queued or running operation, if any, is of kind `owner`. */
  predicate RowOk(owner: Option<Kind>, row: Row, x: Objects) {
    && Owned(row.state, owner)
    && row.secret.Some? && row.reference == REFERENCE
    && (row.state != Failed ==> row.failedStep == "")
    && (Usable(row.state) ==> row.bootstrap.None?)
    && (row.state.Starting? && owner != Some(Create) ==> row.bootstrap.None?)
    && (row.bootstrap.None? ==> x.installed)
    && (owner == Some(Create) ==> Rank(row.state) >= 0)
  }

  /** During a create, the container is the one found when the create was accepted or one built from the row. */
  predicate ContainerOk(found: Option<Spec>, row: Row, x: Objects) {
    if x.container.Single? then x.container.value.spec == found.Or(Panel(row.request)) else found.None?
  }

  // ---- Provision ----

  function Place(pc: ProvisionPc): nat {
    match pc
    case Load => 0
    case ToCreatingDatabase => 1
    case MakeDatabase => 2
    case ToPullingImage => 3
    case MakeNetworks => 4
    case MakePanel => 5
    case PullImage => 6
    case ToCreatingContainer => 7
    case MakeContainer => 8
    case ToStarting => 9
    case StartIt => 10
    case WaitRuntime => 11
    case ToMigrating => 12
    case Install => 13
    case ForgetBootstrap => 14
    case ToHealthchecking => 15
    case CheckHealth => 16
    case ToActive => 17
  }

  /** The least and greatest place on the creation path the stored state can have at a program point: a rerun
      may start anywhere, and from Active it falls back to Starting. */
  predicate OnPath(n: nat, s: Lifecycle.State) {
    && (n >= 1 ==> 0 <= Rank(s))
    && (n >= 2 ==> 1 <= Rank(s))
    && (n >= 4 ==> 2 <= Rank(s))
    && (n >= 8 ==> 3 <= Rank(s))
    && (n >= 10 ==> 4 <= Rank(s) <= 6)
    && (n >= 13 ==> 5 <= Rank(s))
    && (n >= 16 ==> 6 <= Rank(s))
  }

  /** What the calls before place `n` have left behind. */
  predicate Built(n: nat, id: Id, q: Request, x: Objects, c: Cluster) {
    && (n >= 3 ==> OwnsDatabase(c, id, q.database) && OwnsRole(c, id, q.username))
    && (n >= 5 ==> x.frontend && x.backend)
    && (n >= 6 ==> x.panel.live && x.panel.mark.Marked?)
    && (n >= 9 ==> x.container.Single?)
    && (n >= 11 ==> IsRunning(x))
    && (n >= 14 ==> x.installed)
  }

  predicate ProvisionOk(f: Frame, v: View, pc: ProvisionPc) {
    var n := Place(pc);
    n == 0 || (
      && v.row == Some(f.d)
      && OnPath(n, f.d.state)
      && Built(n, f.job.id, f.d.request, v.x, v.c)
      && (n >= 15 ==> f.d.bootstrap.None?))
  }

  // ---- The other procedures ----

  predicate StopOk(f: Frame, v: View, pc: StopPc) {
    pc.LoadStop? || (v.row == Some(f.d) && f.d.state == Active && (pc.ToStopped? ==> !IsRunning(v.x)))
  }

  predicate StartOk(f: Frame, v: View, pc: StartPc) {
    pc.LoadStart? || (
      && v.row == Some(f.d)
      && (pc.MarkStarting? ==> f.d.state == Stopped || f.d.state == Starting)
      && (pc.StartAgain? || pc.MarkHealthchecking? ==> f.d.state == Starting)
      && (pc.CheckAgain? || pc.MarkActive? ==> f.d.state == Healthchecking)
      && (pc.MarkHealthchecking? || pc.CheckAgain? || pc.MarkActive? ==> IsRunning(v.x)))
  }

  /** The container is built from the row as it stands. */
  predicate Fits(f: Frame, v: View) {
    v.x.container.Single? && v.x.container.value.spec == Panel(f.d.request)
  }

  predicate IsNew(f: Frame) {
    f.job.payload.UpgradeTo? && f.d.request.image == f.job.payload.image != f.u.oldImage
  }

  /** During the rollback: a container that survived the removal is still the new image's, a utility container that
      survived the restore is found in the panel's place, and both together are too many. */
  predicate BackContainer(f: Frame, v: View) {
    if f.u.stale && f.u.kept then v.x.container.Several?
    else if f.u.stale then
      && f.job.payload.UpgradeTo? && v.x.container.Single? && !v.x.container.value.spec.helper
      && v.x.container.value.spec.request.image == f.job.payload.image
    else if f.u.kept then v.x.container.Single? && v.x.container.value.spec.helper
    else v.x.container.Absent? || Fits(f, v)
  }

  predicate Restored(f: Frame, v: View) {
    OwnsDatabase(v.c, f.job.id, f.d.request.database) && v.c.databases[f.d.request.database].content == f.u.backup
  }

  /** The restore has put the backup over what it found, which only a migration can have changed. */
  predicate Reset(f: Frame, v: View) {
    && OwnsDatabase(v.c, f.job.id, f.d.request.database)
    && v.c.databases[f.d.request.database].content == Overlaid(f.u.grown, f.u.backup)
    && (!f.u.migrated ==> f.u.grown == f.u.backup)
  }

  /** Updating, with the old or the new image in the row. */
  predicate OldPhase(f: Frame) {
    f.d.state == Updating && f.d.request.image == f.u.oldImage
  }

  predicate NewPhase(f: Frame) {
    f.d.state == Updating && IsNew(f)
  }

  predicate Cleared(f: Frame, v: View) {
    BackContainer(f, v) && (!f.u.stale && !f.u.kept ==> v.x.container.Absent?)
  }

  /** Before the new image is saved, after, and from the moment the old image is saved back. */
  predicate WithOldImage(pc: UpgradePc) {
    pc.UpNetworks? || pc.UpPanel? || pc.TakeBackup? || pc.UpPull? || pc.UpStop? || pc.UpRemove? || pc.SaveNewImage?
      || pc.BackCreate? || pc.BackStart? || pc.BackHealth? || pc.BackActive?
  }

  predicate WithNewImage(pc: UpgradePc) {
    pc.UpCreate? || pc.UpStart? || pc.Migrate? || pc.UpHealth? || pc.StopAgain? || pc.Settle?
      || pc.BackRemove? || pc.BackRestore? || pc.SaveOldImage?
  }

  /** Where the database holds exactly the backup taken in this run, where it does unless the migration has run, and
      where the backup has been restored. */
  predicate AsBackedUp(pc: UpgradePc) {
    pc.UpPull? || pc.UpStop? || pc.UpRemove? || pc.SaveNewImage? || pc.UpCreate? || pc.UpStart? || pc.Migrate?
  }

  predicate PerhapsMigrated(pc: UpgradePc) {
    pc.UpHealth? || pc.BackRemove? || pc.BackRestore?
  }

  predicate AfterRestore(pc: UpgradePc) {
    pc.SaveOldImage? || pc.BackCreate? || pc.BackStart? || pc.BackHealth? || pc.BackActive?
  }

  predicate UpgradePoint(f: Frame, v: View, pc: UpgradePc) {
    && (pc.ToUpdating? ==>
          f.d.state == (if f.u.wasStopped then Stopped else Active) && f.d.request.image == f.u.oldImage)
    && (WithOldImage(pc) ==> OldPhase(f))
    && (WithNewImage(pc) ==> NewPhase(f))
    && (AsBackedUp(pc) || (PerhapsMigrated(pc) && !f.u.migrated) ==> Restored(f, v))
    && (AfterRestore(pc) ==> Reset(f, v))
    && (pc.SaveNewImage? || pc.UpCreate? ==> v.x.container.Absent?)
    && (pc.UpStart? || pc.Migrate? || pc.UpHealth? || pc.StopAgain? || pc.Settle? ==> Fits(f, v))
    && (pc.Migrate? || pc.UpHealth? ==> IsRunning(v.x))
    && (pc.StopAgain? ==> f.u.wasStopped)
    && (pc.Settle? ==> EndRun(f, v))
    && (pc.BackRemove? ==> v.x.container.Absent? || Fits(f, v))
    && (pc.BackRestore? ==> !f.u.kept)
    && (pc.BackRestore? || pc.SaveOldImage? || pc.BackCreate? ==> Cleared(f, v))
    && (pc.BackStart? || pc.BackHealth? || pc.BackActive? ==> BackContainer(f, v) && v.x.container.Single?)
    && (pc.BackHealth? || pc.BackActive? ==> IsRunning(v.x))
  }

  predicate UpgradeOk(f: Frame, v: View, pc: UpgradePc) {
    && (pc.Prune? ==> pc.result != RolledBack && (pc.result == Nil ==> UpgradeDone(f, v)))
    && (!pc.Prune? && !pc.LoadUpgrade? ==>
          v.row == Some(f.d) && f.job.payload.UpgradeTo? && f.job.payload.image != f.u.oldImage && UpgradePoint(f, v, pc))
  }

  /** The panel runs, unless it was stopped before and the last stop took effect. */
  predicate EndRun(f: Frame, v: View) {
    IsRunning(v.x) <==> !(f.u.wasStopped && f.u.halted)
  }

  /** A nil return of upgrade. */
  predicate UpgradeDone(f: Frame, v: View) {
    && v.row == Some(f.d) && IsNew(f) && Fits(f, v)
    && f.d.state == (if f.u.wasStopped then Stopped else Active)
    && EndRun(f, v)
  }

  /** The rollback error of upgrade. */
  predicate RollbackDone(f: Frame, v: View) {
    && v.row == Some(f.d) && f.d.request.image == f.u.oldImage
    && f.d.state == Active
    && Reset(f, v) && BackContainer(f, v) && IsRunning(v.x)
  }

  function RemovePlace(pc: RemovePc): nat {
    match pc
    case LoadRemove => 0
    case ToDeleting => 1
    case StopFirst => 2
    case DropContainer => 3
    case DropNetworks => 4
    case DropCluster => 5
    case PurgePanel => 6
    case PurgeBackups => 7
    case ToDeleted => 8
  }

  /** What the calls before place `n` have removed. */
  predicate Gone(n: nat, f: Frame, v: View) {
    && (n >= 4 ==> v.x.container.Absent?)
    && (n >= 5 ==> !v.x.frontend && !v.x.backend)
    && (f.job.kind == DeletePurge ==>
          && (n >= 6 ==> !OwnsDatabase(v.c, f.job.id, f.d.request.database) && !OwnsRole(v.c, f.job.id, f.d.request.username))
          && (n >= 7 ==> v.x.panel == NoDirectory)
          && (n >= 8 ==> v.x.backups == NoDirectory))
  }

  predicate RemoveOk(f: Frame, v: View, pc: RemovePc) {
    var n := RemovePlace(pc);
    && v.row.Some?
    && (n >= 2 ==> f.d.state == Deleting && v.row.value.state == Deleting)
    && (n == 1 ==>
          && (f.d.state == Deleting || CanTransition(f.d.state, Deleting))
          && (v.row == Some(f.d) || (v.row.value.state == Pending && (f.d.state == Failed || f.d.state == Deleted))))
    && (5 <= n <= 7 ==> f.job.kind == DeletePurge)
    && Gone(n, f, v)
  }

  // ---- Frames by kind of operation ----

  /** A nil return of create: the deployment is active and everything it needs is in place. */
  predicate CreateDone(f: Frame, v: View) {
    v.row == Some(f.d) && f.d.state == Active && Built(14, f.job.id, f.d.request, v.x, v.c)
  }

  predicate CreateFrame(f: Frame, v: View) {
    || f.pc == Returned(Err)
    || (f.pc.Provisioning? && ProvisionOk(f, v, f.pc.provision))
    || (f.pc == Returned(Nil) && CreateDone(f, v))
  }

  predicate PowerDone(f: Frame, v: View) {
    && v.row.Some?
    && (if f.job.kind == Stop then v.row.value.state == Stopped else v.row.value.state == Active && IsRunning(v.x))
  }

  predicate PowerFrame(f: Frame, v: View) {
    || f.pc == Returned(Err)
    || (f.pc.Stopping? && f.job.kind != Start && StopOk(f, v, f.pc.stop))
    || (f.pc.Starts? && f.job.kind != Stop && StartOk(f, v, f.pc.start))
    || (f.pc == Returned(Nil) && PowerDone(f, v))
  }

  predicate UpgradeFrame(f: Frame, v: View) {
    || f.pc == Returned(Err)
    || (f.pc.Upgrading? && UpgradeOk(f, v, f.pc.upgrade))
    || (f.pc == Returned(Nil) && UpgradeDone(f, v))
    || (f.pc == Returned(RolledBack) && RollbackDone(f, v))
  }

  predicate DeleteDone(f: Frame, v: View) {
    v.row.Some? && (v.row.value.state == Deleted || v.row.value.state == Pending) && Gone(9, f, v)
  }

  predicate DeleteFrame(f: Frame, v: View) {
    || f.pc == Returned(Err)
    || (f.pc.Removing? && RemoveOk(f, v, f.pc.remove))
    || (f.pc == Returned(Nil) && DeleteDone(f, v))
  }

  predicate ResetFrame(f: Frame, v: View) {
    f.pc == Returned(Err) || f.pc == Resetting || (f.pc == Returned(Nil) && IsRunning(v.x))
  }

  predicate IsPower(kind: Kind) {
    kind == Start || kind == Stop || kind == Restart
  }

  predicate IsDelete(kind: Kind) {
    kind == DeleteSoft || kind == DeletePurge
  }

  predicate FrameOk(f: Frame, v: View) {
    && (f.job.kind == Create ==> CreateFrame(f, v))
    && (IsPower(f.job.kind) ==> PowerFrame(f, v))
    && (f.job.kind == Upgrade ==> UpgradeFrame(f, v))
    && (IsDelete(f.job.kind) ==> DeleteFrame(f, v))
    && (f.job.kind == AdminReset ==> ResetFrame(f, v))
  }

  predicate DeploymentOk(kind: Kind, v: View, found: Option<Spec>) {
    && v.row.Some?
    && RowOk(Some(kind), v.row.value, v.x)
    && (kind == Create ==> ContainerOk(found, v.row.value, v.x))
  }

  /** Everything kept about a deployment while a worker runs its operation. */
  predicate LocalOk(f: Frame, v: View, found: Option<Spec>) {
    DeploymentOk(f.job.kind, v, found) && FrameOk(f, v)
  }

  /** The stored state moves along an edge of the table or stays. */
  predicate AlongEdge(before: Option<Row>, after: Option<Row>) {
    before.Some? ==> after.Some? && (after.value.state == before.value.state || CanTransition(before.value.state, after.value.state))
  }
}

/** Every step of every procedure keeps the invariant of its own deployment, moves the stored state only along
    edges of the table, and leaves what other deployments own in PostgreSQL alone. */
module Preservation {
  import opened Common
  import opened Lifecycle
  import opened Store
  import opened Host
  import opened Programs
  import opened Invariant

  ghost predicate OthersKept(c: Cluster, d: Cluster, id: Id) {
    forall other: Id :: other != id ==> SameFor(c, d, other)
  }

  /** One step's promise, beside the frame's own invariant. */
  ghost predicate StepOk(f: Frame, v: View, found: Option<Spec>, g: Frame, w: View) {
    && g.job == f.job
    && DeploymentOk(f.job.kind, w, found)
    && AlongEdge(v.row, w.row)
    && OthersKept(v.c, w.c, f.job.id)
  }

  lemma EnsureKeepsOthers(c: Cluster, id: Id, name: string, user: string, o: Outcome)
    ensures OthersKept(c, EnsureDatabase(c, id, name, user, o).c, id)
  {
  }

  lemma DropKeepsOthers(c: Cluster, id: Id, name: string, user: string, o: Outcome)
    ensures OthersKept(c, DropDatabase(c, id, name, user, o).c, id)
  {
  }

  lemma RewriteKeepsOthers(c: Cluster, id: Id, name: string, content: Content)
    ensures OthersKept(c, Rewrite(c, id, name, content), id)
  {
  }

  /** A transition made from a local row equal to the stored one keeps the two equal, or returns an error. */
  lemma MovesTogether(f: Frame, v: View, to: Lifecycle.State, o: Outcome, next: Pc, g: Frame, w: View)
    requires v.row == Some(f.d) && f.d.failedStep == "" && Config(g, w) == Moving(f, v, to, o, next)
    ensures
      && w.x == v.x && w.c == v.c && AlongEdge(v.row, w.row)
      && g.job == f.job && g.u == f.u
      && (|| (g.pc == Returned(Err) && (w.row == v.row || w.row == Some(f.d.(state := to))))
          || (g.pc == next && w.row == Some(g.d)
              && g.d == if f.d.state == to || !CanTransition(f.d.state, to) then f.d else f.d.(state := to)))
  {
  }

  lemma FirstMoveKeeps(f: Frame, v: View, pc: ProvisionPc, e: Oracle, found: Option<Spec>, g: Frame, w: View)
    requires f.job.kind == Create && f.pc == Provisioning(pc) && DeploymentOk(Create, v, found) && ProvisionOk(f, v, pc)
    requires Config(g, w) == Provision(f, v, pc, e)
    requires pc.ToCreatingDatabase?
    ensures StepOk(f, v, found, g, w) && CreateFrame(g, w)
  {
    MovesTogether(f, v, CreatingDatabase, e.outcome, Provisioning(MakeDatabase), g, w);
  }

  lemma SecondMoveKeeps(f: Frame, v: View, pc: ProvisionPc, e: Oracle, found: Option<Spec>, g: Frame, w: View)
    requires f.job.kind == Create && f.pc == Provisioning(pc) && DeploymentOk(Create, v, found) && ProvisionOk(f, v, pc)
    requires Config(g, w) == Provision(f, v, pc, e)
    requires pc.ToPullingImage?
    ensures StepOk(f, v, found, g, w) && CreateFrame(g, w)
  {
    MovesTogether(f, v, PullingImage, e.outcome, Provisioning(MakeNetworks), g, w);
  }

  lemma ThirdMoveKeeps(f: Frame, v: View, pc: ProvisionPc, e: Oracle, found: Option<Spec>, g: Frame, w: View)
    requires f.job.kind == Create && f.pc == Provisioning(pc) && DeploymentOk(Create, v, found) && ProvisionOk(f, v, pc)
    requires Config(g, w) == Provision(f, v, pc, e)
    requires pc.ToCreatingContainer?
    ensures StepOk(f, v, found, g, w) && CreateFrame(g, w)
  {
    MovesTogether(f, v, CreatingContainer, e.outcome, Provisioning(MakeContainer), g, w);
  }

  lemma StartingMoveKeeps(f: Frame, v: View, pc: ProvisionPc, e: Oracle, found: Option<Spec>, g: Frame, w: View)
    requires f.job.kind == Create && f.pc == Provisioning(pc) && DeploymentOk(Create, v, found) && ProvisionOk(f, v, pc)
    requires Config(g, w) == Provision(f, v, pc, e)
    requires pc.ToStarting?
    ensures StepOk(f, v, found, g, w) && CreateFrame(g, w)
  {
    MovesTogether(f, v, Starting, e.outcome, Provisioning(StartIt), g, w);
  }

  lemma MigratingMoveKeeps(f: Frame, v: View, pc: ProvisionPc, e: Oracle, found: Option<Spec>, g: Frame, w: View)
    requires f.job.kind == Create && f.pc == Provisioning(pc) && DeploymentOk(Create, v, found) && ProvisionOk(f, v, pc)
    requires Config(g, w) == Provision(f, v, pc, e)
    requires pc.ToMigrating?
    ensures StepOk(f, v, found, g, w) && CreateFrame(g, w)
  {
    MovesTogether(f, v, Migrating, e.outcome, Provisioning(Install), g, w);
  }

  lemma LastMovesKeep(f: Frame, v: View, pc: ProvisionPc, e: Oracle, found: Option<Spec>, g: Frame, w: View)
    requires f.job.kind == Create && f.pc == Provisioning(pc) && DeploymentOk(Create, v, found) && ProvisionOk(f, v, pc)
    requires Config(g, w) == Provision(f, v, pc, e)
    requires pc.ToHealthchecking? || pc.ToActive?
    ensures StepOk(f, v, found, g, w) && CreateFrame(g, w)
  {
    match pc
    case ToHealthchecking => MovesTogether(f, v, Healthchecking, e.outcome, Provisioning(CheckHealth), g, w);
    case ToActive => MovesTogether(f, v, Active, e.outcome, Returned(Nil), g, w);
  }

  lemma EarlyCallsKeep(f: Frame, v: View, pc: ProvisionPc, e: Oracle, found: Option<Spec>, g: Frame, w: View)
    requires f.job.kind == Create && f.pc == Provisioning(pc) && DeploymentOk(Create, v, found) && ProvisionOk(f, v, pc)
    requires Config(g, w) == Provision(f, v, pc, e)
    requires pc.Load? || pc.MakeNetworks? || pc.MakePanel? || pc.PullImage?
    ensures StepOk(f, v, found, g, w) && CreateFrame(g, w)
  {
    match pc
    case Load =>
    case MakeNetworks =>
    case MakePanel =>
    case PullImage =>
  }

  lemma LateCallsKeep(f: Frame, v: View, pc: ProvisionPc, e: Oracle, found: Option<Spec>, g: Frame, w: View)
    requires f.job.kind == Create && f.pc == Provisioning(pc) && DeploymentOk(Create, v, found) && ProvisionOk(f, v, pc)
    requires Config(g, w) == Provision(f, v, pc, e)
    requires pc.MakeContainer? || pc.StartIt? || pc.WaitRuntime?
    ensures StepOk(f, v, found, g, w) && CreateFrame(g, w)
  {
    match pc
    case MakeContainer =>
    case StartIt =>
    case WaitRuntime =>
  }

  lemma LastCallsKeep(f: Frame, v: View, pc: ProvisionPc, e: Oracle, found: Option<Spec>, g: Frame, w: View)
    requires f.job.kind == Create && f.pc == Provisioning(pc) && DeploymentOk(Create, v, found) && ProvisionOk(f, v, pc)
    requires Config(g, w) == Provision(f, v, pc, e)
    requires pc.ForgetBootstrap? || pc.CheckHealth?
    ensures StepOk(f, v, found, g, w) && CreateFrame(g, w)
  {
    match pc
    case ForgetBootstrap =>
    case CheckHealth =>
  }

  lemma ClusterCallsKeep(f: Frame, v: View, pc: ProvisionPc, e: Oracle, found: Option<Spec>, g: Frame, w: View)
    requires f.job.kind == Create && f.pc == Provisioning(pc) && DeploymentOk(Create, v, found) && ProvisionOk(f, v, pc)
    requires Config(g, w) == Provision(f, v, pc, e)
    requires pc.MakeDatabase? || pc.Install?
    ensures StepOk(f, v, found, g, w) && CreateFrame(g, w)
  {
    match pc
    case MakeDatabase => EnsureKeepsOthers(v.c, f.job.id, f.d.request.database, f.d.request.username, e.outcome);
    case Install => RewriteKeepsOthers(v.c, f.job.id, v.x.container.value.spec.request.database, e.content);
  }

  lemma ProvisionKeeps(f: Frame, v: View, pc: ProvisionPc, e: Oracle, found: Option<Spec>, g: Frame, w: View)
    requires f.job.kind == Create && f.pc == Provisioning(pc) && DeploymentOk(Create, v, found) && ProvisionOk(f, v, pc)
    requires Config(g, w) == Provision(f, v, pc, e)
    ensures StepOk(f, v, found, g, w) && CreateFrame(g, w)
  {
    hide *;
    match pc
    case ToCreatingDatabase => FirstMoveKeeps(f, v, pc, e, found, g, w);
    case ToPullingImage => SecondMoveKeeps(f, v, pc, e, found, g, w);
    case ToCreatingContainer => ThirdMoveKeeps(f, v, pc, e, found, g, w);
    case ToStarting => StartingMoveKeeps(f, v, pc, e, found, g, w);
    case ToMigrating => MigratingMoveKeeps(f, v, pc, e, found, g, w);
    case ToHealthchecking => LastMovesKeep(f, v, pc, e, found, g, w);
    case ToActive => LastMovesKeep(f, v, pc, e, found, g, w);
    case Load => EarlyCallsKeep(f, v, pc, e, found, g, w);
    case MakeNetworks => EarlyCallsKeep(f, v, pc, e, found, g, w);
    case MakePanel => EarlyCallsKeep(f, v, pc, e, found, g, w);
    case PullImage => EarlyCallsKeep(f, v, pc, e, found, g, w);
    case MakeContainer => LateCallsKeep(f, v, pc, e, found, g, w);
    case StartIt => LateCallsKeep(f, v, pc, e, found, g, w);
    case WaitRuntime => LateCallsKeep(f, v, pc, e, found, g, w);
    case ForgetBootstrap => LastCallsKeep(f, v, pc, e, found, g, w);
    case CheckHealth => LastCallsKeep(f, v, pc, e, found, g, w);
    case MakeDatabase => ClusterCallsKeep(f, v, pc, e, found, g, w);
    case Install => ClusterCallsKeep(f, v, pc, e, found, g, w);
  }

  lemma StopKeeps(f: Frame, v: View, pc: StopPc, e: Oracle, g: Frame, w: View)
    requires f.job.kind != Start && IsPower(f.job.kind) && f.pc == Stopping(pc) && DeploymentOk(f.job.kind, v, None) && StopOk(f, v, pc)
    requires Config(g, w) == StopStep(f, v, pc, e)
    ensures StepOk(f, v, None, g, w) && PowerFrame(g, w)
  {
    match pc
    case LoadStop =>
    case StopIt =>
    case ToStopped => MovesTogether(f, v, Stopped, e.outcome, AfterStop(f.job.kind), g, w);
  }

  lemma StartCallsKeep(f: Frame, v: View, pc: StartPc, e: Oracle, g: Frame, w: View)
    requires f.job.kind != Stop && IsPower(f.job.kind) && f.pc == Starts(pc) && DeploymentOk(f.job.kind, v, None) && StartOk(f, v, pc)
    requires Config(g, w) == StartStep(f, v, pc, e)
    requires pc.LoadStart? || pc.StartAgain? || pc.CheckAgain?
    ensures StepOk(f, v, None, g, w) && PowerFrame(g, w)
  {
    match pc
    case LoadStart =>
    case StartAgain =>
    case CheckAgain =>
  }

  lemma StartMovesKeep(f: Frame, v: View, pc: StartPc, e: Oracle, g: Frame, w: View)
    requires f.job.kind != Stop && IsPower(f.job.kind) && f.pc == Starts(pc) && DeploymentOk(f.job.kind, v, None) && StartOk(f, v, pc)
    requires Config(g, w) == StartStep(f, v, pc, e)
    requires pc.MarkStarting? || pc.MarkHealthchecking? || pc.MarkActive?
    ensures StepOk(f, v, None, g, w) && PowerFrame(g, w)
  {
    match pc
    case MarkStarting => MovesTogether(f, v, Starting, e.outcome, Starts(StartAgain), g, w);
    case MarkHealthchecking => MovesTogether(f, v, Healthchecking, e.outcome, Starts(CheckAgain), g, w);
    case MarkActive => MovesTogether(f, v, Active, e.outcome, Returned(Nil), g, w);
  }

  lemma StartKeeps(f: Frame, v: View, pc: StartPc, e: Oracle, g: Frame, w: View)
    requires f.job.kind != Stop && IsPower(f.job.kind) && f.pc == Starts(pc) && DeploymentOk(f.job.kind, v, None) && StartOk(f, v, pc)
    requires Config(g, w) == StartStep(f, v, pc, e)
    ensures StepOk(f, v, None, g, w) && PowerFrame(g, w)
  {
    hide *;
    match pc
    case LoadStart => StartCallsKeep(f, v, pc, e, g, w);
    case StartAgain => StartCallsKeep(f, v, pc, e, g, w);
    case CheckAgain => StartCallsKeep(f, v, pc, e, g, w);
    case MarkStarting => StartMovesKeep(f, v, pc, e, g, w);
    case MarkHealthchecking => StartMovesKeep(f, v, pc, e, g, w);
    case MarkActive => StartMovesKeep(f, v, pc, e, g, w);
  }

  lemma ApproachKeeps(f: Frame, v: View, pc: UpgradePc, e: Oracle, g: Frame, w: View)
    requires f.job.kind == Upgrade && f.pc == Upgrading(pc) && DeploymentOk(f.job.kind, v, None) && UpgradeOk(f, v, pc)
    requires Config(g, w) == UpgradeStep(f, v, pc, e)
    requires pc.LoadUpgrade? || pc.ToUpdating?
    ensures StepOk(f, v, None, g, w) && UpgradeFrame(g, w)
  {
    match pc
    case LoadUpgrade =>
    case ToUpdating => MovesTogether(f, v, Updating, e.outcome, Upgrading(UpNetworks), g, w);
  }

  lemma PrepareKeeps(f: Frame, v: View, pc: UpgradePc, e: Oracle, g: Frame, w: View)
    requires f.job.kind == Upgrade && f.pc == Upgrading(pc) && DeploymentOk(f.job.kind, v, None) && UpgradeOk(f, v, pc)
    requires Config(g, w) == UpgradeStep(f, v, pc, e)
    requires pc.UpNetworks? || pc.UpPanel?
    ensures StepOk(f, v, None, g, w) && UpgradeFrame(g, w)
  {
    match pc
    case UpNetworks =>
    case UpPanel =>
  }

  lemma BackupKeeps(f: Frame, v: View, pc: UpgradePc, e: Oracle, g: Frame, w: View)
    requires f.job.kind == Upgrade && f.pc == Upgrading(pc) && DeploymentOk(f.job.kind, v, None) && UpgradeOk(f, v, pc)
    requires Config(g, w) == UpgradeStep(f, v, pc, e)
    requires pc.TakeBackup?
    ensures StepOk(f, v, None, g, w) && UpgradeFrame(g, w)
  {
    match pc
    case TakeBackup =>
  }

  lemma ReplaceKeeps(f: Frame, v: View, pc: UpgradePc, e: Oracle, g: Frame, w: View)
    requires f.job.kind == Upgrade && f.pc == Upgrading(pc) && DeploymentOk(f.job.kind, v, None) && UpgradeOk(f, v, pc)
    requires Config(g, w) == UpgradeStep(f, v, pc, e)
    requires pc.UpPull? || pc.UpStop?
    ensures StepOk(f, v, None, g, w) && UpgradeFrame(g, w)
  {
    match pc
    case UpPull =>
    case UpStop =>
  }

  lemma SwapKeeps(f: Frame, v: View, pc: UpgradePc, e: Oracle, g: Frame, w: View)
    requires f.job.kind == Upgrade && f.pc == Upgrading(pc) && DeploymentOk(f.job.kind, v, None) && UpgradeOk(f, v, pc)
    requires Config(g, w) == UpgradeStep(f, v, pc, e)
    requires pc.UpRemove? || pc.SaveNewImage?
    ensures StepOk(f, v, None, g, w) && UpgradeFrame(g, w)
  {
    match pc
    case UpRemove =>
    case SaveNewImage =>
  }

  lemma LaunchKeeps(f: Frame, v: View, pc: UpgradePc, e: Oracle, g: Frame, w: View)
    requires f.job.kind == Upgrade && f.pc == Upgrading(pc) && DeploymentOk(f.job.kind, v, None) && UpgradeOk(f, v, pc)
    requires Config(g, w) == UpgradeStep(f, v, pc, e)
    requires pc.UpCreate? || pc.UpStart?
    ensures StepOk(f, v, None, g, w) && UpgradeFrame(g, w)
  {
    match pc
    case UpCreate =>
    case UpStart =>
  }

  lemma TrialKeeps(f: Frame, v: View, pc: UpgradePc, e: Oracle, g: Frame, w: View)
    requires f.job.kind == Upgrade && f.pc == Upgrading(pc) && DeploymentOk(f.job.kind, v, None) && UpgradeOk(f, v, pc)
    requires Config(g, w) == UpgradeStep(f, v, pc, e)
    requires pc.Migrate? || pc.UpHealth?
    ensures StepOk(f, v, None, g, w) && UpgradeFrame(g, w)
  {
    match pc
    case Migrate => RewriteKeepsOthers(v.c, f.job.id, v.x.container.value.spec.request.database, e.content);
    case UpHealth =>
  }

  lemma RestoreKeeps(f: Frame, v: View, pc: UpgradePc, e: Oracle, g: Frame, w: View)
    requires f.job.kind == Upgrade && f.pc == Upgrading(pc) && DeploymentOk(f.job.kind, v, None) && UpgradeOk(f, v, pc)
    requires Config(g, w) == UpgradeStep(f, v, pc, e)
    requires pc.BackRemove?
    ensures StepOk(f, v, None, g, w) && UpgradeFrame(g, w)
  {
    match pc
    case BackRemove =>
  }

  lemma RewindKeeps(f: Frame, v: View, pc: UpgradePc, e: Oracle, g: Frame, w: View)
    requires f.job.kind == Upgrade && f.pc == Upgrading(pc) && DeploymentOk(f.job.kind, v, None) && UpgradeOk(f, v, pc)
    requires Config(g, w) == UpgradeStep(f, v, pc, e)
    requires pc.BackRestore?
    ensures StepOk(f, v, None, g, w) && UpgradeFrame(g, w)
  {
    RewriteKeepsOthers(v.c, f.job.id, f.d.request.database, if Applied(e.outcome) then Overlaid(ContentIn(v.c, f.job.id, f.d.request.database), f.u.backup) else e.content);
  }

  lemma RevertKeeps(f: Frame, v: View, pc: UpgradePc, e: Oracle, g: Frame, w: View)
    requires f.job.kind == Upgrade && f.pc == Upgrading(pc) && DeploymentOk(f.job.kind, v, None) && UpgradeOk(f, v, pc)
    requires Config(g, w) == UpgradeStep(f, v, pc, e)
    requires pc.SaveOldImage?
    ensures StepOk(f, v, None, g, w) && UpgradeFrame(g, w)
  {
    match pc
    case SaveOldImage =>
  }

  lemma RecoverKeeps(f: Frame, v: View, pc: UpgradePc, e: Oracle, g: Frame, w: View)
    requires f.job.kind == Upgrade && f.pc == Upgrading(pc) && DeploymentOk(f.job.kind, v, None) && UpgradeOk(f, v, pc)
    requires Config(g, w) == UpgradeStep(f, v, pc, e)
    requires pc.BackCreate? || pc.BackStart?
    ensures StepOk(f, v, None, g, w) && UpgradeFrame(g, w)
  {
    match pc
    case BackCreate =>
    case BackStart =>
  }

  lemma CheckKeeps(f: Frame, v: View, pc: UpgradePc, e: Oracle, g: Frame, w: View)
    requires f.job.kind == Upgrade && f.pc == Upgrading(pc) && DeploymentOk(f.job.kind, v, None) && UpgradeOk(f, v, pc)
    requires Config(g, w) == UpgradeStep(f, v, pc, e)
    requires pc.BackHealth?
    ensures StepOk(f, v, None, g, w) && UpgradeFrame(g, w)
  {
    match pc
    case BackHealth =>
  }

  lemma ReturnKeeps(f: Frame, v: View, pc: UpgradePc, e: Oracle, g: Frame, w: View)
    requires f.job.kind == Upgrade && f.pc == Upgrading(pc) && DeploymentOk(f.job.kind, v, None) && UpgradeOk(f, v, pc)
    requires Config(g, w) == UpgradeStep(f, v, pc, e)
    requires pc.BackActive?
    ensures StepOk(f, v, None, g, w) && UpgradeFrame(g, w)
  {
    match pc
    case BackActive =>
  }

  lemma SettleKeeps(f: Frame, v: View, pc: UpgradePc, e: Oracle, g: Frame, w: View)
    requires f.job.kind == Upgrade && f.pc == Upgrading(pc) && DeploymentOk(f.job.kind, v, None) && UpgradeOk(f, v, pc)
    requires Config(g, w) == UpgradeStep(f, v, pc, e)
    requires pc.StopAgain? || pc.Settle? || pc.Prune?
    ensures StepOk(f, v, None, g, w) && UpgradeFrame(g, w)
  {
    match pc
    case StopAgain =>
    case Settle =>
    case Prune(result) =>
  }

  lemma UpgradeKeeps(f: Frame, v: View, pc: UpgradePc, e: Oracle, g: Frame, w: View)
    requires f.job.kind == Upgrade && f.pc == Upgrading(pc) && DeploymentOk(f.job.kind, v, None) && UpgradeOk(f, v, pc)
    requires Config(g, w) == UpgradeStep(f, v, pc, e)
    ensures StepOk(f, v, None, g, w) && UpgradeFrame(g, w)
  {
    hide *;
    match pc
    case LoadUpgrade => ApproachKeeps(f, v, pc, e, g, w);
    case ToUpdating => ApproachKeeps(f, v, pc, e, g, w);
    case UpNetworks => PrepareKeeps(f, v, pc, e, g, w);
    case UpPanel => PrepareKeeps(f, v, pc, e, g, w);
    case TakeBackup => BackupKeeps(f, v, pc, e, g, w);
    case UpPull => ReplaceKeeps(f, v, pc, e, g, w);
    case UpStop => ReplaceKeeps(f, v, pc, e, g, w);
    case UpRemove => SwapKeeps(f, v, pc, e, g, w);
    case SaveNewImage => SwapKeeps(f, v, pc, e, g, w);
    case UpCreate => LaunchKeeps(f, v, pc, e, g, w);
    case UpStart => LaunchKeeps(f, v, pc, e, g, w);
    case Migrate => TrialKeeps(f, v, pc, e, g, w);
    case UpHealth => TrialKeeps(f, v, pc, e, g, w);
    case BackRemove => RestoreKeeps(f, v, pc, e, g, w);
    case BackRestore => RewindKeeps(f, v, pc, e, g, w);
    case SaveOldImage => RevertKeeps(f, v, pc, e, g, w);
    case BackCreate => RecoverKeeps(f, v, pc, e, g, w);
    case BackStart => RecoverKeeps(f, v, pc, e, g, w);
    case BackHealth => CheckKeeps(f, v, pc, e, g, w);
    case BackActive => ReturnKeeps(f, v, pc, e, g, w);
    case StopAgain => SettleKeeps(f, v, pc, e, g, w);
    case Settle => SettleKeeps(f, v, pc, e, g, w);
    case Prune(result) => SettleKeeps(f, v, pc, e, g, w);
  }

  lemma LeaveKeeps(f: Frame, v: View, pc: RemovePc, e: Oracle, g: Frame, w: View)
    requires IsDelete(f.job.kind) && f.pc == Removing(pc) && DeploymentOk(f.job.kind, v, None) && RemoveOk(f, v, pc)
    requires Config(g, w) == RemoveStep(f, v, pc, e)
    requires pc.LoadRemove? || pc.ToDeleting? || pc.ToDeleted?
    ensures StepOk(f, v, None, g, w) && DeleteFrame(g, w)
  {
    match pc
    case LoadRemove =>
    case ToDeleting =>
    case ToDeleted =>
  }

  lemma TearDownKeeps(f: Frame, v: View, pc: RemovePc, e: Oracle, g: Frame, w: View)
    requires IsDelete(f.job.kind) && f.pc == Removing(pc) && DeploymentOk(f.job.kind, v, None) && RemoveOk(f, v, pc)
    requires Config(g, w) == RemoveStep(f, v, pc, e)
    requires pc.StopFirst? || pc.DropContainer? || pc.DropNetworks?
    ensures StepOk(f, v, None, g, w) && DeleteFrame(g, w)
  {
    match pc
    case StopFirst =>
    case DropContainer =>
    case DropNetworks =>
  }

  lemma PurgeKeeps(f: Frame, v: View, pc: RemovePc, e: Oracle, g: Frame, w: View)
    requires IsDelete(f.job.kind) && f.pc == Removing(pc) && DeploymentOk(f.job.kind, v, None) && RemoveOk(f, v, pc)
    requires Config(g, w) == RemoveStep(f, v, pc, e)
    requires pc.DropCluster? || pc.PurgePanel? || pc.PurgeBackups?
    ensures StepOk(f, v, None, g, w) && DeleteFrame(g, w)
  {
    match pc
    case DropCluster => DropKeepsOthers(v.c, f.job.id, f.d.request.database, f.d.request.username, e.outcome);
    case PurgePanel =>
    case PurgeBackups =>
  }

  lemma RemoveKeeps(f: Frame, v: View, pc: RemovePc, e: Oracle, g: Frame, w: View)
    requires IsDelete(f.job.kind) && f.pc == Removing(pc) && DeploymentOk(f.job.kind, v, None) && RemoveOk(f, v, pc)
    requires Config(g, w) == RemoveStep(f, v, pc, e)
    ensures StepOk(f, v, None, g, w) && DeleteFrame(g, w)
  {
    hide *;
    match pc
    case LoadRemove => LeaveKeeps(f, v, pc, e, g, w);
    case ToDeleting => LeaveKeeps(f, v, pc, e, g, w);
    case ToDeleted => LeaveKeeps(f, v, pc, e, g, w);
    case StopFirst => TearDownKeeps(f, v, pc, e, g, w);
    case DropContainer => TearDownKeeps(f, v, pc, e, g, w);
    case DropNetworks => TearDownKeeps(f, v, pc, e, g, w);
    case DropCluster => PurgeKeeps(f, v, pc, e, g, w);
    case PurgePanel => PurgeKeeps(f, v, pc, e, g, w);
    case PurgeBackups => PurgeKeeps(f, v, pc, e, g, w);
  }

  lemma ResetKeeps(f: Frame, v: View, e: Oracle, g: Frame, w: View)
    requires f.job.kind == AdminReset && DeploymentOk(AdminReset, v, None)
    requires Config(g, w) == ResetStep(f, v, e)
    ensures StepOk(f, v, None, g, w) && ResetFrame(g, w)
  {
    if IsRunning(v.x) {
      RewriteKeepsOthers(v.c, f.job.id, v.x.container.value.spec.request.database, e.content);
    }
  }
}

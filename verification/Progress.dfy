/** Procedures end: each of their own steps brings the return nearer, and a run whose outside calls succeed
    returns nil. */
module Progress {
  import opened Common
  import opened Lifecycle
  import opened Store
  import opened Host
  import opened Programs
  import opened Invariant
  import opened Preservation
  import opened Agent
  import opened Soundness
  import Queue

  function StopPlace(pc: StopPc): nat {
    match pc
    case LoadStop => 0
    case StopIt => 1
    case ToStopped => 2
  }

  function StartPlace(pc: StartPc): nat {
    match pc
    case LoadStart => 0
    case MarkStarting => 1
    case StartAgain => 2
    case MarkHealthchecking => 3
    case CheckAgain => 4
    case MarkActive => 5
  }

  function UpgradePlace(pc: UpgradePc): nat {
    match pc
    case LoadUpgrade => 0
    case ToUpdating => 1
    case UpNetworks => 2
    case UpPanel => 3
    case TakeBackup => 4
    case UpPull => 5
    case UpStop => 6
    case UpRemove => 7
    case SaveNewImage => 8
    case UpCreate => 9
    case UpStart => 10
    case Migrate => 11
    case UpHealth => 12
    case StopAgain => 13
    case BackRemove => 13
    case BackRestore => 14
    case SaveOldImage => 15
    case BackCreate => 16
    case BackStart => 17
    case BackHealth => 18
    case BackActive => 19
    case Settle => 14
    case Prune(_) => 19
  }

  /** More steps than a procedure can still take. */
  function Left(pc: Pc): nat {
    match pc
    case Provisioning(p) => 18 - Place(p)
    case Stopping(p) => 9 - StopPlace(p)
    case Starts(p) => 6 - StartPlace(p)
    case Upgrading(p) => 20 - UpgradePlace(p)
    case Removing(p) => 9 - RemovePlace(p)
    case Resetting => 1
    case Returned(_) => 0
  }

  lemma ForwardShrinks(f: Frame, v: View, pc: UpgradePc, e: Oracle, c: Config)
    requires f.pc == Upgrading(pc) && c == UpgradeStep(f, v, pc, e) && UpgradePlace(pc) < 9
    ensures Left(c.f.pc) < Left(f.pc)
  {
    hide EnsureNetworks, EnsureDirectory, StopContainer, RemoveContainer, CreateContainer, StartContainer, CommandView, CommandOk, Rewrite;
    hide Programs.Transition, OwnsDatabase, WithImage, WithHelper, Overlaid, ContentIn;
    match pc
    case _ =>
  }

  lemma TrialShrinks(f: Frame, v: View, pc: UpgradePc, e: Oracle, c: Config)
    requires f.pc == Upgrading(pc) && c == UpgradeStep(f, v, pc, e) && 9 <= UpgradePlace(pc) <= 12
    ensures Left(c.f.pc) < Left(f.pc)
  {
    hide EnsureNetworks, EnsureDirectory, StopContainer, RemoveContainer, CreateContainer, StartContainer, CommandView, CommandOk, Rewrite;
    hide Programs.Transition, OwnsDatabase, WithImage, WithHelper, Overlaid, ContentIn;
    match pc
    case _ =>
  }

  lemma BackwardShrinks(f: Frame, v: View, pc: UpgradePc, e: Oracle, c: Config)
    requires f.pc == Upgrading(pc) && c == UpgradeStep(f, v, pc, e) && UpgradePlace(pc) > 12
    ensures Left(c.f.pc) < Left(f.pc)
  {
    hide EnsureNetworks, EnsureDirectory, StopContainer, RemoveContainer, CreateContainer, StartContainer, CommandView, CommandOk, Rewrite;
    hide Programs.Transition, OwnsDatabase, WithImage, WithHelper, Overlaid, ContentIn;
    match pc
    case _ =>
  }

  lemma UpgradeShrinks(f: Frame, v: View, pc: UpgradePc, e: Oracle, c: Config)
    requires f.pc == Upgrading(pc) && c == UpgradeStep(f, v, pc, e)
    ensures Left(c.f.pc) < Left(f.pc)
  {
    hide *;
    if UpgradePlace(pc) < 9 {
      ForwardShrinks(f, v, pc, e, c);
    } else if UpgradePlace(pc) <= 12 {
      TrialShrinks(f, v, pc, e, c);
    } else {
      BackwardShrinks(f, v, pc, e, c);
    }
  }

  lemma ProvisionShrinks(f: Frame, v: View, pc: ProvisionPc, e: Oracle, c: Config)
    requires f.pc == Provisioning(pc) && c == Provision(f, v, pc, e)
    ensures Left(c.f.pc) < Left(f.pc)
  {
    hide EnsureNetworks, EnsureDirectory, EnsureDatabase, CreateContainer, StartContainer, CommandView, CommandOk, Programs.Transition;
    match pc
    case _ =>
  }

  lemma OthersShrink(f: Frame, v: View, e: Oracle, c: Config)
    requires (f.pc.Stopping? || f.pc.Starts? || f.pc.Removing? || f.pc.Resetting?) && c == Advance(f, v, e)
    ensures Left(c.f.pc) < Left(f.pc)
  {
    hide StopContainer, StartContainer, RemoveContainer, RemoveNetworks, PurgeDirectory, DropDatabase, Programs.Transition, CommandView, CommandOk;
    match f.pc
    case Stopping(pc) =>
    case Starts(pc) =>
    case Removing(pc) =>
    case Resetting =>
  }

  /** Whatever its calls report, a procedure returns within a fixed number of its own steps: no step loops. */
  lemma StepsShrink(f: Frame, v: View, e: Oracle, c: Config)
    requires !f.pc.Returned? && c == Advance(f, v, e)
    ensures Left(c.f.pc) < Left(f.pc)
  {
    assert f.pc.Provisioning? ==> c == Provision(f, v, f.pc.provision, e) && f.pc == Provisioning(f.pc.provision);
    assert f.pc.Upgrading? ==> c == UpgradeStep(f, v, f.pc.upgrade, e) && f.pc == Upgrading(f.pc.upgrade);
    hide *;
    if f.pc.Provisioning? {
      ProvisionShrinks(f, v, f.pc.provision, e, c);
    } else if f.pc.Upgrading? {
      UpgradeShrinks(f, v, f.pc.upgrade, e, c);
    } else {
      OthersShrink(f, v, e, c);
    }
  }

  /** Not on an error path. */
  predicate OnCourse(pc: Pc) {
    && (pc.Returned? ==> pc.result == Nil)
    && (pc.Upgrading? ==>
          && !pc.upgrade.BackRemove? && !pc.upgrade.BackRestore? && !pc.upgrade.SaveOldImage? && !pc.upgrade.BackCreate?
          && !pc.upgrade.BackStart? && !pc.upgrade.BackHealth? && !pc.upgrade.BackActive?
          && (pc.upgrade.Prune? ==> pc.upgrade.result == Nil))
  }

  /** The stored state lets the procedure past its first read. Creates and deletes need nothing here. */
  predicate Accepts(pc: Pc, job: Job, row: Row) {
    && (pc == Stopping(LoadStop) ==> row.state == Active || row.state == Stopped)
    && (pc == Starts(LoadStart) ==> row.state == Stopped || row.state == Starting)
    && (pc == Upgrading(LoadUpgrade) ==>
          && (row.state == Active || row.state == Stopped)
          && job.payload.UpgradeTo? && job.payload.image != row.request.image)
  }

  /** Nothing outside refuses the next call: names are free or the deployment's own, directories are not
      duplicated, at most one container carries the deployment's labels, and the one a command or start needs is
      there. */
  predicate Allowed(f: Frame, v: View) {
    var id, q := f.job.id, f.d.request;
    && (f.pc == Provisioning(MakeDatabase) ==>
          !RoleRefused(v.c, id, q.username) && !DatabaseRefused(v.c, id, q.database, q.username))
    && (f.pc == Provisioning(MakeContainer) || f.pc == Stopping(StopIt) || f.pc == Upgrading(UpRemove) || f.pc == Removing(DropContainer) ==>
          !v.x.container.Several?)
    && (f.pc == Starts(StartAgain) ==> v.x.container.Single?)
    && (f.pc == Provisioning(MakePanel) || f.pc == Upgrading(UpPanel) ==> !v.x.panel.mark.Spoilt?)
    && (f.pc == Upgrading(TakeBackup) ==> OwnsDatabase(v.c, id, q.database) && !v.x.backups.mark.Spoilt?)
    && (f.pc == Removing(DropCluster) ==> !DropRefused(v.c, id, q.database, q.username) && !Encumbered(v.c, q.database, q.username))
    && (f.pc == Removing(PurgePanel) ==> Purgeable(v.x.panel))
    && (f.pc == Removing(PurgeBackups) ==> Purgeable(v.x.backups))
    && (f.pc == Resetting ==> IsRunning(v.x))
  }

  lemma BuildStays(f: Frame, v: View, pc: ProvisionPc, found: Option<Spec>, e: Oracle, c: Config)
    requires f.job.kind == Create && f.pc == Provisioning(pc) && DeploymentOk(Create, v, found) && ProvisionOk(f, v, pc)
    requires Allowed(f, v) && e.outcome == Ok && c == Provision(f, v, pc, e) && Place(pc) <= 8
    ensures OnCourse(c.f.pc)
  {
    assert pc != Load ==> v.row == Some(f.d) && Built(Place(pc), f.job.id, f.d.request, v.x, v.c);
    assert v.row.Some? && v.row.value.secret.Some?;
    hide DeploymentOk, ProvisionOk, OnPath, EnsureNetworks, EnsureDirectory, CommandView;
    match pc
    case _ =>
  }

  lemma LaunchStays(f: Frame, v: View, pc: ProvisionPc, found: Option<Spec>, e: Oracle, c: Config)
    requires f.job.kind == Create && f.pc == Provisioning(pc) && DeploymentOk(Create, v, found) && ProvisionOk(f, v, pc)
    requires Allowed(f, v) && e.outcome == Ok && c == Provision(f, v, pc, e) && Place(pc) > 8
    ensures OnCourse(c.f.pc)
  {
    assert v.row == Some(f.d) && Built(Place(pc), f.job.id, f.d.request, v.x, v.c);
    hide DeploymentOk, ProvisionOk, OnPath, CommandView;
    match pc
    case _ =>
  }

  lemma ProvisionStays(f: Frame, v: View, pc: ProvisionPc, found: Option<Spec>, e: Oracle, c: Config)
    requires f.job.kind == Create && f.pc == Provisioning(pc) && DeploymentOk(Create, v, found) && ProvisionOk(f, v, pc)
    requires Allowed(f, v) && e.outcome == Ok && c == Provision(f, v, pc, e)
    ensures OnCourse(c.f.pc)
  {
    hide *;
    if Place(pc) <= 8 {
      BuildStays(f, v, pc, found, e, c);
    } else {
      LaunchStays(f, v, pc, found, e, c);
    }
  }

  lemma PowerStays(f: Frame, v: View, e: Oracle, c: Config)
    requires f.pc.Stopping? || f.pc.Starts?
    requires v.row.Some? && Accepts(f.pc, f.job, v.row.value) && Allowed(f, v)
    requires f.pc.Stopping? ==> StopOk(f, v, f.pc.stop)
    requires f.pc.Starts? ==> StartOk(f, v, f.pc.start)
    requires e.outcome == Ok && c == Advance(f, v, e)
    ensures OnCourse(c.f.pc)
  {
    match f.pc
    case Stopping(pc) =>
    case Starts(pc) =>
  }

  lemma ApproachStays(f: Frame, v: View, pc: UpgradePc, e: Oracle, c: Config)
    requires f.pc == Upgrading(pc) && v.row.Some? && UpgradeOk(f, v, pc) && OnCourse(f.pc) && UpgradePlace(pc) < 9
    requires Accepts(f.pc, f.job, v.row.value) && Allowed(f, v) && e.outcome == Ok && c == UpgradeStep(f, v, pc, e)
    ensures OnCourse(c.f.pc)
  {
    hide WithHelper, Overlaid, Rewrite, BackContainer;
    match pc
    case _ =>
  }

  lemma TrialStays(f: Frame, v: View, pc: UpgradePc, e: Oracle, c: Config)
    requires f.pc == Upgrading(pc) && v.row.Some? && UpgradeOk(f, v, pc) && OnCourse(f.pc) && UpgradePlace(pc) >= 9
    requires Accepts(f.pc, f.job, v.row.value) && Allowed(f, v) && e.outcome == Ok && c == UpgradeStep(f, v, pc, e)
    ensures OnCourse(c.f.pc)
  {
    hide WithHelper, Overlaid, Rewrite, BackContainer;
    match pc
    case _ =>
  }

  lemma UpgradeStays(f: Frame, v: View, pc: UpgradePc, e: Oracle, c: Config)
    requires f.pc == Upgrading(pc) && v.row.Some? && UpgradeOk(f, v, pc) && OnCourse(f.pc)
    requires Accepts(f.pc, f.job, v.row.value) && Allowed(f, v) && e.outcome == Ok && c == UpgradeStep(f, v, pc, e)
    ensures OnCourse(c.f.pc)
  {
    hide *;
    if UpgradePlace(pc) < 9 {
      ApproachStays(f, v, pc, e, c);
    } else {
      TrialStays(f, v, pc, e, c);
    }
  }

  lemma RemoveStays(f: Frame, v: View, pc: RemovePc, e: Oracle, c: Config)
    requires IsDelete(f.job.kind) && f.pc == Removing(pc) && DeploymentOk(f.job.kind, v, None) && RemoveOk(f, v, pc)
    requires Allowed(f, v) && e.outcome == Ok && c == RemoveStep(f, v, pc, e)
    ensures OnCourse(c.f.pc)
  {
    match pc
    case _ =>
  }

  lemma StaysOnCourse(f: Frame, v: View, found: Option<Spec>, e: Oracle, c: Config)
    requires LocalOk(f, v, found) && OnCourse(f.pc) && e.outcome == Ok && c == Advance(f, v, e)
    requires Accepts(f.pc, f.job, v.row.value) && Allowed(f, v)
    ensures OnCourse(c.f.pc)
  {
    match f.pc
    case Provisioning(pc) => ProvisionStays(f, v, pc, found, e, c);
    case Stopping(pc) => PowerStays(f, v, e, c);
    case Starts(pc) => PowerStays(f, v, e, c);
    case Upgrading(pc) => UpgradeStays(f, v, pc, e, c);
    case Removing(pc) => RemoveStays(f, v, pc, e, c);
    case Resetting =>
    case Returned(_) =>
  }

  // ---- Runs ----

  /** An event that does not interrupt worker `w`. */
  predicate Spares(e: Event, w: WorkerId) {
    e != Crash && e != Event.Abandon(w) && !(e.Finish? && e.w == w)
  }

  /** A step that neither interrupts worker `w` nor lets its call fail or be refused; anything else may happen
      beside it. */
  ghost predicate SmoothStep(a: World, w: WorkerId, e: Event) {
    && Spares(e, w)
    && (e.Work? && e.w == w && w in a.frames ==>
          var f := a.frames[w];
          var v := ViewOf(a, f.job.id);
          e.e.outcome == Ok && Allowed(f, v) && (v.row.Some? ==> Accepts(f.pc, f.job, v.row.value)))
  }

  ghost predicate Smooth(a: World, w: WorkerId, events: seq<Event>) {
    forall i | 0 <= i < |events| :: SmoothStep(Run(a, events[..i]), w, events[i])
  }

  predicate IsWork(e: Event, w: WorkerId) {
    e.Work? && e.w == w
  }

  function Works(events: seq<Event>, w: WorkerId): nat {
    if events == [] then 0 else Works(events[..|events| - 1], w) + (if IsWork(events[|events| - 1], w) then 1 else 0)
  }

  /** Worker `w` runs this job, is on course, and has at most `n` steps to go. */
  predicate Going(a: World, w: WorkerId, job: Job, n: int) {
    w in a.frames && a.frames[w].job == job && OnCourse(a.frames[w].pc) && (Left(a.frames[w].pc) == 0 || Left(a.frames[w].pc) <= n)
  }

  lemma LocalProgress(f: Frame, v: View, found: Option<Spec>, o: Oracle, c: Config)
    requires LocalOk(f, v, found) && OnCourse(f.pc) && o.outcome == Ok && c == Advance(f, v, o)
    requires (v.row.Some? ==> Accepts(f.pc, f.job, v.row.value)) && Allowed(f, v)
    ensures OnCourse(c.f.pc) && (if f.pc.Returned? then c.f.pc == f.pc else Left(c.f.pc) < Left(f.pc))
  {
    assert f.pc.Returned? ==> c.f.pc == f.pc;
    assert v.row.Some?;
    hide *;
    StaysOnCourse(f, v, found, o, c);
    if !f.pc.Returned? {
      StepsShrink(f, v, o, c);
    }
  }

  lemma StepKeepsJob(f: Frame, v: View, found: Option<Spec>, c: Config)
    requires StepOk(f, v, found, c.f, c.v)
    ensures c.f.job == f.job && c.v.row.Some?
  {
  }

  lemma SmoothWork(a: World, w: WorkerId, o: Oracle, n: int)
    requires SmoothStep(a, w, Work(w, o)) && w in a.frames && Going(a, w, a.frames[w].job, n)
    ensures var f, v := a.frames[w], ViewOf(a, a.frames[w].job.id);
      OnCourse(f.pc) && o.outcome == Ok && Allowed(f, v) && (v.row.Some? ==> Accepts(f.pc, f.job, v.row.value))
  {
  }

  lemma WorkGoes(a: World, w: WorkerId, b: World, c: Config, n: int)
    requires Going(a, w, c.f.job, n) && WorkShape(a, w, b, c) && OnCourse(c.f.pc)
    requires if a.frames[w].pc.Returned? then c.f.pc == a.frames[w].pc else Left(c.f.pc) < Left(a.frames[w].pc)
    ensures Going(b, w, c.f.job, n - 1)
  {
    hide OnCourse;
  }

  lemma OwnWork(a: World, w: WorkerId, o: Oracle, b: World, n: int)
    requires Sound(a) && w in a.frames && b == Step(a, Work(w, o)) && SmoothStep(a, w, Work(w, o))
    requires Going(a, w, a.frames[w].job, n)
    ensures Going(b, w, a.frames[w].job, n - 1)
  {
    hide *;
    var f, v := a.frames[w], ViewOf(a, a.frames[w].job.id);
    var c := Advance(f, v, o);
    FrameOwns(a, w);
    FrameIsLocal(a, w);
    WorkLocal(a, w, o, c);
    StepKeepsJob(f, v, FoundFor(a, w), c);
    SmoothWork(a, w, o, n);
    WorkShapes(a, w, o, b, c);
    LocalProgress(f, v, FoundBy(a, f.job.op), o, c);
    WorkGoes(a, w, b, c, n);
  }
}

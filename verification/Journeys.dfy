/** The way of a worker through its procedure, call by call, and what a return tells about it: which calls were made, in
    which order, on what, with which reports. */
module Journeys {
  import opened Common
  import opened Lifecycle
  import opened Store
  import opened Host
  import opened Programs
  import opened Invariant
  import opened Preservation
  import opened Agent
  import opened Soundness
  import opened Progress
  import opened Convergence
  import opened Duties
  import opened Outcomes
  import Queue

  // ---- Routes ----

  const CREATE: seq<Pc> := [
    Provisioning(Load), Provisioning(ToCreatingDatabase), Provisioning(MakeDatabase), Provisioning(ToPullingImage),
    Provisioning(MakeNetworks), Provisioning(MakePanel), Provisioning(ProvisionPc.PullImage), Provisioning(ToCreatingContainer),
    Provisioning(MakeContainer), Provisioning(ToStarting), Provisioning(StartIt), Provisioning(WaitRuntime),
    Provisioning(ToMigrating), Provisioning(Install), Provisioning(ForgetBootstrap), Provisioning(ToHealthchecking),
    Provisioning(CheckHealth), Provisioning(ToActive)]

  const STOP: seq<Pc> := [Stopping(LoadStop), Stopping(StopIt), Stopping(ToStopped)]

  const START: seq<Pc> := [
    Starts(LoadStart), Starts(MarkStarting), Starts(StartAgain), Starts(MarkHealthchecking), Starts(CheckAgain), Starts(MarkActive)]

  const UPGRADE: seq<Pc> := [
    Upgrading(LoadUpgrade), Upgrading(ToUpdating), Upgrading(UpNetworks), Upgrading(UpPanel), Upgrading(TakeBackup),
    Upgrading(UpPull), Upgrading(UpStop), Upgrading(UpRemove), Upgrading(SaveNewImage), Upgrading(UpCreate),
    Upgrading(UpStart), Upgrading(Migrate), Upgrading(UpHealth)]

  const ROLLBACK: seq<Pc> := [
    Upgrading(BackRemove), Upgrading(BackRestore), Upgrading(SaveOldImage), Upgrading(BackCreate), Upgrading(BackStart),
    Upgrading(BackHealth), Upgrading(BackActive)]

  const DELETE: seq<Pc> := [
    Removing(LoadRemove), Removing(ToDeleting), Removing(StopFirst), Removing(DropContainer), Removing(DropNetworks)]

  const PURGE: seq<Pc> := [Removing(DropCluster), Removing(PurgePanel), Removing(PurgeBackups)]

  /** The calls of a procedure that returns nil; `stopped` tells whether it found its deployment stopped. */
  function Route(kind: Kind, stopped: bool): seq<Pc> {
    match kind
    case Create => CREATE
    case Start => START
    case Stop => if stopped then STOP[..1] else STOP
    case Restart => (if stopped then STOP[..1] else STOP) + START
    case Upgrade => UPGRADE + (if stopped then [Upgrading(StopAgain)] else []) + [Upgrading(Settle), Upgrading(Prune(Nil))]
    case DeleteSoft => DELETE + [Removing(ToDeleted)]
    case DeletePurge => DELETE + PURGE + [Removing(ToDeleted)]
    case AdminReset => [Resetting]
  }

  /** The calls of an upgrade whose n-th call failed on trial and that was rolled back. */
  function WayBack(n: nat): seq<Pc>
    requires n <= |UPGRADE|
  {
    UPGRADE[..n] + ROLLBACK
  }

  function Stage(route: seq<Pc>, n: nat, end: Result): Pc {
    if n < |route| then route[n] else Returned(end)
  }

  // ---- Visits ----

  /** One call of a worker's procedure: the frame it was made from, what it found and drew, and the frame and what else
      it left. */
  datatype Visit = Visit(f: Frame, v: View, e: Oracle, g: Frame, w: View)

  /** The call did its part, on a good report where the report counts, and changed nothing else. */
  predicate WentWell(x: Visit) {
    Fulfilled(x.f, x.v, x.e, x.g, x.w) && forall p | p !in Touched(x.f) :: Kept(p, x.v, x.w)
  }

  /** The first read found a stopped deployment. */
  predicate FoundStopped(t: seq<Visit>) {
    t != [] && t[0].v.row.Some? && t[0].v.row.value.state == Stopped
  }

  /** So far along `route`, each call done but the one with number `miss`, which reported an error. */
  predicate Follows(route: seq<Pc>, end: Result, miss: int, pc: Pc, t: seq<Visit>) {
    && |t| <= |route| && pc == Stage(route, |t|, end)
    && (forall i | 0 <= i < |t| :: t[i].f.pc == route[i] && (if i == miss then !t[i].e.outcome.Ok? else WentWell(t[i])))
  }

  predicate IsLost(pc: Pc) {
    pc == Returned(Err) || pc == Upgrading(Prune(Err))
  }

  /** How many calls of the rollback are behind. */
  function BackPlace(pc: Pc): int {
    match pc
    case Upgrading(p) => (
      match p
      case BackRemove => 0
      case BackRestore => 1
      case SaveOldImage => 2
      case BackCreate => 3
      case BackStart => 4
      case BackHealth => 5
      case BackActive => 6
      case _ => -1)
    case Returned(result) => if result == RolledBack then 7 else -1
    case _ => -1
  }

  predicate TurnedBack(pc: Pc, t: seq<Visit>) {
    && BackPlace(pc) >= 0
    && var n := |t| - BackPlace(pc);
       10 <= n <= 13 && Follows(WayBack(n), RolledBack, n - 1, pc, t)
  }

  predicate OnTrack(f: Frame, t: seq<Visit>) {
    || IsLost(f.pc)
    || Follows(Route(f.job.kind, FoundStopped(t)), Nil, -1, f.pc, t)
    || (f.job.kind == Upgrade && TurnedBack(f.pc, t))
  }

  /** The migration command was run. */
  predicate Migrated(t: seq<Visit>) {
    exists i | 0 <= i < |t| :: t[i].f.pc == Upgrading(Migrate)
  }

  /** Each call starts from the frame the one before has left. */
  predicate Linked(f: Frame, t: seq<Visit>) {
    && (forall i | 0 <= i < |t| - 1 :: t[i].g == t[i + 1].f)
    && (t != [] ==> t[|t| - 1].g == f)
    && (forall i | 0 <= i < |t| :: t[i].f.job == f.job && FrameOk(t[i].f, t[i].v))
    && (f.job.kind == Upgrade && t != [] ==>
          IsLost(f.pc) || (f.u.wasStopped == FoundStopped(t) && (f.u.migrated ==> Migrated(t))))
  }

  // ---- One more call ----

  lemma FollowsOn(route: seq<Pc>, end: Result, miss: int, pc: Pc, t: seq<Visit>, x: Visit)
    requires Follows(route, end, miss, pc, t) && |t| < |route| && x.f.pc == pc
    requires if |t| == miss then !x.e.outcome.Ok? else WentWell(x)
    requires x.g.pc == Stage(route, |t| + 1, end)
    ensures Follows(route, end, miss, x.g.pc, t + [x])
  {
    hide Fulfilled;
  }

  lemma CreateGoesOn(n: nat, pc: ProvisionPc, f: Frame, v: View, e: Oracle, c: Config)
    requires n < |CREATE| && f.pc == CREATE[n] == Provisioning(pc) && c == Provision(f, v, pc, e) && GoesOn(f, c.f)
    ensures c.f.pc == Stage(CREATE, n + 1, Nil)
  {
    hide EnsureDatabase, EnsureNetworks, EnsureDirectory, CreateContainer, StartContainer, Programs.Transition, CommandView, CommandOk;
    match pc
    case _ =>
  }

  lemma PowerGoesOn(n: nat, stopped: bool, f: Frame, v: View, e: Oracle, c: Config)
    requires IsPower(f.job.kind) && n < |Route(f.job.kind, stopped)| && f.pc == Route(f.job.kind, stopped)[n]
    requires n == 0 && v.row.Some? ==> (v.row.value.state == Stopped <==> stopped)
    requires c == Advance(f, v, e) && GoesOn(f, c.f)
    ensures c.f.pc == Stage(Route(f.job.kind, stopped), n + 1, Nil)
  {
    hide StopContainer, StartContainer, Programs.Transition;
    match f.pc
    case Stopping(pc) =>
    case Starts(pc) =>
  }

  lemma ApproachGoesOn(n: nat, stopped: bool, pc: UpgradePc, f: Frame, v: View, e: Oracle, c: Config)
    requires n < |Route(Upgrade, stopped)| && f.pc == Route(Upgrade, stopped)[n] == Upgrading(pc)
    requires n > 0 ==> f.u.wasStopped == stopped
    requires UpgradePlace(pc) < 9
    requires c == UpgradeStep(f, v, pc, e) && GoesOn(f, c.f)
    ensures c.f.pc == Stage(Route(Upgrade, stopped), n + 1, Nil)
  {
    hide EnsureNetworks, EnsureDirectory, StopContainer, RemoveContainer, CreateContainer, StartContainer, CommandView, CommandOk, Rewrite;
    hide Programs.Transition, OwnsDatabase, WithImage, WithHelper, Overlaid, ContentIn;
    match pc
    case _ =>
  }

  lemma TrialGoesOn(n: nat, stopped: bool, pc: UpgradePc, f: Frame, v: View, e: Oracle, c: Config)
    requires n < |Route(Upgrade, stopped)| && f.pc == Route(Upgrade, stopped)[n] == Upgrading(pc)
    requires n > 0 ==> f.u.wasStopped == stopped
    requires UpgradePlace(pc) >= 9
    requires c == UpgradeStep(f, v, pc, e) && GoesOn(f, c.f)
    ensures c.f.pc == Stage(Route(Upgrade, stopped), n + 1, Nil)
  {
    hide EnsureNetworks, EnsureDirectory, StopContainer, RemoveContainer, CreateContainer, StartContainer, CommandView, CommandOk, Rewrite;
    hide Programs.Transition, OwnsDatabase, WithImage, WithHelper, Overlaid, ContentIn;
    match pc
    case _ =>
  }

  lemma UpgradeGoesOn(n: nat, stopped: bool, pc: UpgradePc, f: Frame, v: View, e: Oracle, c: Config)
    requires n < |Route(Upgrade, stopped)| && f.pc == Route(Upgrade, stopped)[n] == Upgrading(pc)
    requires n > 0 ==> f.u.wasStopped == stopped
    requires c == UpgradeStep(f, v, pc, e) && GoesOn(f, c.f)
    ensures c.f.pc == Stage(Route(Upgrade, stopped), n + 1, Nil)
  {
    hide *;
    if UpgradePlace(pc) < 9 {
      ApproachGoesOn(n, stopped, pc, f, v, e, c);
    } else {
      TrialGoesOn(n, stopped, pc, f, v, e, c);
    }
  }

  lemma RollbackGoesOn(n: nat, i: nat, pc: UpgradePc, f: Frame, v: View, e: Oracle, c: Config)
    requires n <= 13 && i < 7 && f.pc == WayBack(n)[n + i] == Upgrading(pc)
    requires c == UpgradeStep(f, v, pc, e) && GoesOn(f, c.f)
    ensures c.f.pc == Stage(WayBack(n), n + i + 1, RolledBack) && BackPlace(c.f.pc) == i + 1 && BackPlace(f.pc) == i
  {
    hide EnsureNetworks, EnsureDirectory, StopContainer, RemoveContainer, CreateContainer, StartContainer, CommandView, CommandOk, Rewrite;
    hide Programs.Transition, OwnsDatabase, WithImage, WithHelper, Overlaid, ContentIn;
    match pc
    case _ =>
  }

  lemma RemoveGoesOn(n: nat, stopped: bool, pc: RemovePc, f: Frame, v: View, e: Oracle, c: Config)
    requires IsDelete(f.job.kind) && n < |Route(f.job.kind, stopped)| && f.pc == Route(f.job.kind, stopped)[n] == Removing(pc)
    requires c == RemoveStep(f, v, pc, e) && GoesOn(f, c.f)
    ensures c.f.pc == Stage(Route(f.job.kind, stopped), n + 1, Nil)
  {
    hide StopContainer, RemoveContainer, RemoveNetworks, DropDatabase, PurgeDirectory, Programs.Transition;
    match pc
    case _ =>
  }

  /** The route's first call does not depend on what it will find. */
  lemma FirstStage(kind: Kind, stopped: bool, other: bool, pc: Pc)
    requires Follows(Route(kind, stopped), Nil, -1, pc, [])
    ensures Follows(Route(kind, other), Nil, -1, pc, [])
  {
  }

  lemma FoundAfter(t: seq<Visit>, x: Visit)
    ensures t != [] ==> FoundStopped(t + [x]) == FoundStopped(t)
    ensures t == [] ==> t + [x] == [x] && FoundStopped([x]) == (x.v.row.Some? && x.v.row.value.state == Stopped)
  {
  }

  /** The frame stands on the route as found, before one more call. */
  lemma SameRoute(f: Frame, t: seq<Visit>, x: Visit)
    requires Follows(Route(f.job.kind, FoundStopped(t)), Nil, -1, f.pc, t)
    ensures Follows(Route(f.job.kind, FoundStopped(t + [x])), Nil, -1, f.pc, t)
  {
    hide Follows, Route;
    FoundAfter(t, x);
    if t == [] {
      FirstStage(f.job.kind, FoundStopped(t), FoundStopped(t + [x]), f.pc);
    }
  }

  lemma OnRoute(kind: Kind, stopped: bool, pc: Pc, t: seq<Visit>)
    requires Follows(Route(kind, stopped), Nil, -1, pc, t) && !pc.Returned?
    ensures |t| < |Route(kind, stopped)| && pc == Route(kind, stopped)[|t|]
    ensures kind == Create ==> pc.Provisioning?
    ensures kind == Upgrade ==> pc.Upgrading?
    ensures IsDelete(kind) ==> pc.Removing?
    ensures kind == AdminReset ==> pc.Resetting?
    ensures IsPower(kind) ==> pc.Stopping? || pc.Starts?
  {
    hide WentWell;
  }

  /** A call that goes on takes its procedure to the next stage of its route. */
  lemma GoesAlong(f: Frame, v: View, e: Oracle, c: Config, t: seq<Visit>, x: Visit)
    requires x == Visit(f, v, e, c.f, c.v) && c == Advance(f, v, e) && !f.pc.Returned? && GoesOn(f, c.f)
    requires Follows(Route(f.job.kind, FoundStopped(t + [x])), Nil, -1, f.pc, t)
    requires f.job.kind == Upgrade && t != [] ==> f.u.wasStopped == FoundStopped(t)
    ensures Follows(Route(f.job.kind, FoundStopped(t + [x])), Nil, -1, c.f.pc, t + [x])
  {
    hide *;
    var kind, stopped, n := f.job.kind, FoundStopped(t + [x]), |t|;
    OnRoute(kind, stopped, f.pc, t);
    FoundAfter(t, x);
    StepsDoTheirPart(f, v, e);
    ByProcedure(f, v, e, c);
    VisitWentWell(x);
    RoutesAre(stopped);
    KindIsOne(kind);
    if kind == Create {
      CreateGoesOn(n, f.pc.provision, f, v, e, c);
    } else if kind == Upgrade {
      UpgradeGoesOn(n, stopped, f.pc.upgrade, f, v, e, c);
    } else if IsDelete(kind) {
      RemoveGoesOn(n, stopped, f.pc.remove, f, v, e, c);
    } else if kind == AdminReset {
      ResetGoesOn(n, stopped, f, v, e, c);
    } else {
      PowerGoesOn(n, stopped, f, v, e, c);
    }
    FollowsOn(Route(kind, stopped), Nil, -1, f.pc, t, x);
  }

  lemma RoutesAre(stopped: bool)
    ensures Route(Create, stopped) == CREATE && Route(Start, stopped) == START
    ensures Route(Stop, stopped) == if stopped then STOP[..1] else STOP
    ensures Route(Restart, stopped) == (if stopped then STOP[..1] else STOP) + START
    ensures Route(AdminReset, stopped) == [Resetting]
  {
  }

  lemma KindIsOne(kind: Kind)
    ensures kind == Create || kind == Upgrade || IsDelete(kind) || kind == AdminReset || IsPower(kind)
  {
  }

  lemma VisitWentWell(x: Visit)
    requires Fulfilled(x.f, x.v, x.e, x.g, x.w) && forall p :: p !in Touched(x.f) ==> Kept(p, x.v, x.w)
    ensures WentWell(x)
  {
    hide Fulfilled, Touched, Kept;
  }

  lemma ByProcedure(f: Frame, v: View, e: Oracle, c: Config)
    requires c == Advance(f, v, e)
    ensures f.pc.Provisioning? ==> c == Provision(f, v, f.pc.provision, e) && f.pc == Provisioning(f.pc.provision)
    ensures f.pc.Upgrading? ==> c == UpgradeStep(f, v, f.pc.upgrade, e) && f.pc == Upgrading(f.pc.upgrade)
    ensures f.pc.Removing? ==> c == RemoveStep(f, v, f.pc.remove, e) && f.pc == Removing(f.pc.remove)
  {
    hide Provision, UpgradeStep, RemoveStep;
  }

  lemma ResetGoesOn(n: nat, stopped: bool, f: Frame, v: View, e: Oracle, c: Config)
    requires n < |Route(AdminReset, stopped)| && f.pc == Route(AdminReset, stopped)[n]
    requires c == Advance(f, v, e) && GoesOn(f, c.f)
    ensures c.f.pc == Stage(Route(AdminReset, stopped), n + 1, Nil)
  {
    hide CommandView;
  }

  /** A call on trial that does not go on has reported an error, for nothing else can refuse it. */
  lemma TrialFails(f: Frame, v: View, e: Oracle, c: Config)
    requires f.job.kind == Upgrade && FrameOk(f, v) && OnTrialRun(f.pc) && c == Advance(f, v, e) && !GoesOn(f, c.f)
    ensures !e.outcome.Ok? && c.f.pc == Upgrading(BackRemove)
  {
    assert UpgradeOk(f, v, f.pc.upgrade);
  }

  lemma TurnsBack(f: Frame, v: View, e: Oracle, c: Config, t: seq<Visit>, x: Visit)
    requires x == Visit(f, v, e, c.f, c.v) && c == Advance(f, v, e) && FrameOk(f, v) && f.job.kind == Upgrade
    requires OnTrialRun(f.pc) && !GoesOn(f, c.f) && Follows(Route(Upgrade, FoundStopped(t + [x])), Nil, -1, f.pc, t)
    ensures TurnedBack(c.f.pc, t + [x])
  {
    TrialFails(f, v, e, c);
    hide Advance, FrameOk, WentWell, OnTrialRun, Route, FoundStopped, WayBack;
    var n := |t| + 1;
    TrialPlace(f.pc, FoundStopped(t + [x]), |t|);
    WayBackIs(FoundStopped(t + [x]), n);
    TurningBack(FoundStopped(t + [x]), f.pc, t, x, n);
  }

  lemma TurningBack(stopped: bool, pc: Pc, t: seq<Visit>, x: Visit, n: nat)
    requires Follows(Route(Upgrade, stopped), Nil, -1, pc, t) && n == |t| + 1 && 10 <= n <= 13
    requires x.f.pc == pc && x.g.pc == Upgrading(BackRemove) && !x.e.outcome.Ok?
    requires |WayBack(n)| == n + 7 && WayBack(n)[n] == Upgrading(BackRemove)
    requires n <= |Route(Upgrade, stopped)| && WayBack(n)[..n] == Route(Upgrade, stopped)[..n]
    ensures TurnedBack(x.g.pc, t + [x])
  {
    hide WentWell, Route, WayBack;
    forall i | 0 <= i < n ensures (t + [x])[i].f.pc == WayBack(n)[i] {
      assert WayBack(n)[i] == WayBack(n)[..n][i] == Route(Upgrade, stopped)[..n][i] == Route(Upgrade, stopped)[i];
    }
  }

  lemma WayBackIs(stopped: bool, n: nat)
    requires 10 <= n <= 13
    ensures |WayBack(n)| == n + 7 && WayBack(n)[n] == Upgrading(BackRemove)
    ensures n <= |Route(Upgrade, stopped)| && WayBack(n)[..n] == Route(Upgrade, stopped)[..n]
  {
  }

  lemma TrialPlace(pc: Pc, stopped: bool, n: nat)
    requires OnTrialRun(pc) && n < |Route(Upgrade, stopped)| && pc == Route(Upgrade, stopped)[n]
    ensures 9 <= n <= 12
  {
  }

  lemma GoesBack(f: Frame, v: View, e: Oracle, c: Config, t: seq<Visit>, x: Visit)
    requires x == Visit(f, v, e, c.f, c.v) && c == Advance(f, v, e) && !f.pc.Returned? && GoesOn(f, c.f)
    requires TurnedBack(f.pc, t)
    ensures TurnedBack(c.f.pc, t + [x])
  {
    StepsDoTheirPart(f, v, e);
    var i := BackPlace(f.pc);
    var n := |t| - i;
    assert WentWell(x) && f.pc == WayBack(n)[n + i];
    assert c == UpgradeStep(f, v, f.pc.upgrade, e) && f.pc == Upgrading(f.pc.upgrade);
    hide Advance, Follows, Fulfilled, WentWell;
    RollbackGoesOn(n, i, f.pc.upgrade, f, v, e, c);
    FollowsOn(WayBack(n), RolledBack, n - 1, f.pc, t, x);
  }

  lemma BackIsNoTrial(f: Frame, g: Frame, t: seq<Visit>)
    requires TurnedBack(f.pc, t) && !f.pc.Returned? && !GoesOn(f, g)
    ensures IsLost(g.pc)
  {
  }

  lemma LostStaysLost(f: Frame, v: View, e: Oracle)
    requires IsLost(f.pc)
    ensures IsLost(Advance(f, v, e).f.pc)
  {
  }

  lemma StaysOnTrack(f: Frame, v: View, e: Oracle, c: Config, t: seq<Visit>, x: Visit)
    requires x == Visit(f, v, e, c.f, c.v) && c == Advance(f, v, e) && !f.pc.Returned? && FrameOk(f, v)
    requires OnTrack(f, t) && Linked(f, t) && c.f.job == f.job
    ensures OnTrack(c.f, t + [x])
  {
    hide Advance, FrameOk, Follows, TurnedBack, Route;
    if IsLost(f.pc) {
      LostStaysLost(f, v, e);
    } else if Follows(Route(f.job.kind, FoundStopped(t)), Nil, -1, f.pc, t) {
      SameRoute(f, t, x);
      if GoesOn(f, c.f) {
        GoesAlong(f, v, e, c, t, x);
      } else if OnTrialRun(f.pc) {
        OnRoute(f.job.kind, FoundStopped(t + [x]), f.pc, t);
        TurnsBack(f, v, e, c, t, x);
      }
    } else if GoesOn(f, c.f) {
      GoesBack(f, v, e, c, t, x);
    } else {
      BackIsNoTrial(f, c.f, t);
    }
  }

  lemma WasStopped(f: Frame, v: View, e: Oracle, c: Config, t: seq<Visit>, x: Visit)
    requires x == Visit(f, v, e, c.f, c.v) && c == Advance(f, v, e) && f.job.kind == Upgrade && !IsLost(c.f.pc)
    requires OnTrack(f, t) && Linked(f, t) && !f.pc.Returned?
    ensures c.f.u.wasStopped == FoundStopped(t + [x]) && (c.f.u.migrated ==> Migrated(t + [x]))
  {
    FoundAfter(t, x);
    if IsLost(f.pc) {
      LostStaysLost(f, v, e);
    }
    UpgradePlaces(f, t);
    StepsDoTheirPart(f, v, e);
    hide OnTrack;
    if f.pc == Upgrading(LoadUpgrade) {
      assert GoesOn(f, c.f);
      hide Advance;
    } else {
      assert f.u.wasStopped == FoundStopped(t);
      KeepsStopped(f, v, f.pc.upgrade, e);
      MigratedOn(t, x, f.u.migrated);
    }
  }

  /** Only the first call of an upgrade is made without one before it. */
  lemma UpgradePlaces(f: Frame, t: seq<Visit>)
    requires f.job.kind == Upgrade && OnTrack(f, t) && !f.pc.Returned?
    ensures f.pc.Upgrading? && (!IsLost(f.pc) ==> (f.pc == Upgrading(LoadUpgrade) <==> t == []))
  {
    hide WentWell;
  }

  lemma MigratedOn(t: seq<Visit>, x: Visit, migrated: bool)
    requires migrated ==> Migrated(t)
    ensures migrated || x.f.pc == Upgrading(Migrate) ==> Migrated(t + [x])
  {
    if migrated {
      var i :| 0 <= i < |t| && t[i].f.pc == Upgrading(Migrate);
      assert (t + [x])[i] == t[i];
    } else {
      assert (t + [x])[|t|] == x;
    }
  }

  lemma KeepsStopped(f: Frame, v: View, pc: UpgradePc, e: Oracle)
    requires f.pc == Upgrading(pc) && !pc.LoadUpgrade?
    ensures UpgradeStep(f, v, pc, e).f.u.wasStopped == f.u.wasStopped
    ensures UpgradeStep(f, v, pc, e).f.u.migrated == (f.u.migrated || pc.Migrate?)
  {
    hide EnsureNetworks, EnsureDirectory, StopContainer, RemoveContainer, CreateContainer, StartContainer, CommandView, CommandOk, Rewrite;
    hide Programs.Transition, OwnsDatabase, WithImage, WithHelper, Overlaid, ContentIn;
    match pc
    case _ =>
  }

  lemma StaysLinked(f: Frame, v: View, e: Oracle, c: Config, t: seq<Visit>, x: Visit)
    requires x == Visit(f, v, e, c.f, c.v) && c == Advance(f, v, e) && !f.pc.Returned? && FrameOk(f, v)
    requires OnTrack(f, t) && Linked(f, t) && c.f.job == f.job
    ensures Linked(c.f, t + [x])
  {
    if f.job.kind == Upgrade && !IsLost(c.f.pc) {
      WasStopped(f, v, e, c, t, x);
    }
    hide Advance, OnTrack, FrameOk;
  }

  // ---- Runs ----

  /** The call worker `w` makes in this event, if it makes one. */
  ghost function VisitsIn(a: World, w: WorkerId, e: Event): seq<Visit> {
    if IsWork(e, w) && w in a.frames && !a.frames[w].pc.Returned? then
      var f, b := a.frames[w], Step(a, e);
      [Visit(f, ViewOf(a, f.job.id), e.e, b.frames[w], ViewOf(b, f.job.id))]
    else []
  }

  /** The calls worker `w` makes in a run from `a`. */
  ghost function Trail(a: World, w: WorkerId, events: seq<Event>): seq<Visit> {
    if events == [] then []
    else
      var n := |events| - 1;
      Trail(a, w, events[..n]) + VisitsIn(Run(a, events[..n]), w, events[n])
  }

  /** What is known of a worker after the calls `t`: where it is, and that its container is as the last call left it. */
  ghost predicate Tracked(a: World, w: WorkerId, job: Job, t: seq<Visit>) {
    && Sound(a)
    && w in a.frames && a.frames[w].job == job
    && OnTrack(a.frames[w], t) && Linked(a.frames[w], t)
    && (t != [] ==> Obj(a.objects, job.id).container == t[|t| - 1].w.x.container)
  }

  lemma OwnTracked(a: World, w: WorkerId, o: Oracle, b: World, job: Job, t: seq<Visit>)
    requires Tracked(a, w, job, t) && b == Step(a, Work(w, o)) && !a.frames[w].pc.Returned?
    ensures VisitsIn(a, w, Work(w, o)) == [Visit(a.frames[w], ViewOf(a, job.id), o, b.frames[w], ViewOf(b, job.id))]
    ensures Tracked(b, w, job, t + VisitsIn(a, w, Work(w, o)))
  {
    var f, v := a.frames[w], ViewOf(a, job.id);
    assert f.job == job && FrameOk(f, v) && Sound(a) && OnTrack(f, t) && Linked(f, t);
    hide *;
    var c := Advance(f, v, o);
    FrameOwns(a, w);
    WorkLocal(a, w, o, c);
    StepKeepsJob(f, v, FoundFor(a, w), c);
    WorkShapes(a, w, o, b, c);
    WorkKeeps(a, w, o, b);
    VisitIs(a, w, o, b, c);
    var x := Visit(f, v, o, c.f, c.v);
    StaysOnTrack(f, v, o, c, t, x);
    StaysLinked(f, v, o, c, t, x);
    TrackedNow(a, w, b, c, job, t, x);
  }

  lemma VisitIs(a: World, w: WorkerId, o: Oracle, b: World, c: Config)
    requires w in a.frames && b == Step(a, Work(w, o)) && !a.frames[w].pc.Returned? && WorkShape(a, w, b, c)
    ensures w in b.frames && VisitsIn(a, w, Work(w, o)) == [Visit(a.frames[w], ViewOf(a, a.frames[w].job.id), o, c.f, c.v)]
    ensures b.frames[w] == c.f && ViewOf(b, a.frames[w].job.id) == c.v
  {
    hide Step;
    assert ViewOf(b, a.frames[w].job.id) == c.v;
  }

  lemma TrackedNow(a: World, w: WorkerId, b: World, c: Config, job: Job, t: seq<Visit>, x: Visit)
    requires WorkShape(a, w, b, c) && Sound(b) && c.f.job == job == a.frames[w].job && x.w == c.v
    requires OnTrack(c.f, t + [x]) && Linked(c.f, t + [x])
    ensures Tracked(b, w, job, t + [x])
  {
    hide Sound, OnTrack, Linked;
  }

  lemma OtherTracked(a: World, w: WorkerId, b: World, job: Job, t: seq<Visit>)
    requires Tracked(a, w, job, t) && Undisturbed(a, b, w) && Sound(b)
    ensures Tracked(b, w, job, t)
  {
    hide Sound, OnTrack, Linked, SameFor;
  }

  lemma StepTracks(a: World, w: WorkerId, e: Event, b: World, job: Job, t: seq<Visit>)
    requires Tracked(a, w, job, t) && b == Step(a, e) && Spares(e, w)
    ensures Tracked(b, w, job, t + VisitsIn(a, w, e))
  {
    assert Sound(a) && w in a.frames;
    assert IsWork(e, w) ==> e == Work(w, e.e);
    hide *;
    if IsWork(e, w) && !a.frames[w].pc.Returned? {
      OwnTracked(a, w, e.e, b, job, t);
    } else {
      NoVisit(a, w, e, t);
      if IsWork(e, w) {
        ReturnedRests(a, w, e.e, b);
      } else {
        StepKeeps(a, e, b);
        OthersLeave(a, w, e, b);
      }
      OtherTracked(a, w, b, job, t);
    }
  }

  lemma NoVisit(a: World, w: WorkerId, e: Event, t: seq<Visit>)
    requires !(IsWork(e, w) && w in a.frames && !a.frames[w].pc.Returned?)
    ensures t + VisitsIn(a, w, e) == t
  {
    hide Step;
  }

  lemma ReturnedRests(a: World, w: WorkerId, o: Oracle, b: World)
    requires Sound(a) && w in a.frames && a.frames[w].pc.Returned? && b == Step(a, Work(w, o))
    ensures Undisturbed(a, b, w) && Sound(b)
  {
    hide *;
    var f, v := a.frames[w], ViewOf(a, a.frames[w].job.id);
    var c := Advance(f, v, o);
    NothingLeft(f, v, o);
    FrameOwns(a, w);
    WorkKeeps(a, w, o, b);
    ViewIs(a, f.job.id);
    WorkShapes(a, w, o, b, c);
    RestShape(a, w, b, c);
  }

  lemma NothingLeft(f: Frame, v: View, o: Oracle)
    requires f.pc.Returned?
    ensures Advance(f, v, o) == Config(f, v)
  {
  }

  lemma RestShape(a: World, w: WorkerId, b: World, c: Config)
    requires WorkShape(a, w, b, c) && c == Config(a.frames[w], ViewOf(a, a.frames[w].job.id))
    ensures Undisturbed(a, b, w)
  {
    hide SameFor, OwnsDatabase, OwnsRole;
    SameForItself(a.cluster, a.frames[w].job.id);
  }

  lemma SameForItself(c: Cluster, id: Id)
    ensures SameFor(c, c, id)
  {
  }

  lemma {:induction false} RunTracks(a: World, w: WorkerId, events: seq<Event>, job: Job, t: seq<Visit>)
    requires Tracked(a, w, job, t) && forall i | 0 <= i < |events| :: Spares(events[i], w)
    ensures Tracked(Run(a, events), w, job, t + Trail(a, w, events))
  {
    hide Step, Tracked, Spares, VisitsIn;
    if events == [] {
      assert t + Trail(a, w, events) == t;
    } else {
      var n := |events| - 1;
      RunTracks(a, w, events[..n], job, t);
      StepTracks(Run(a, events[..n]), w, events[n], Run(a, events), job, t + Trail(a, w, events[..n]));
      assert t + Trail(a, w, events) == t + Trail(a, w, events[..n]) + VisitsIn(Run(a, events[..n]), w, events[n]);
    }
  }

  // ---- What a return tells ----

  lemma Enters(a: World, w: WorkerId)
    requires Sound(a) && w in a.frames && a.frames[w].pc == Route(a.frames[w].job.kind, false)[0]
    ensures Tracked(a, w, a.frames[w].job, [])
  {
    hide Sound, Route;
    RoutesBegin(a.frames[w].job.kind);
  }

  lemma RoutesBegin(kind: Kind)
    ensures Route(kind, false) != []
  {
  }

  /** The worker runs the operation it has claimed, from the first call of its route. */
  lemma ClaimEnters(a: World, w: WorkerId, op: OpId, b: World)
    requires Reachable(a) && w !in a.q.claims && Claimable(a.q.db, op) && b == Step(a, Event.Claim(w, op))
    ensures var o := a.q.db.ops[op]; Tracked(b, w, Job(op, o.deployment, o.kind, o.payload), [])
  {
    assert op in a.q.db.ops;
    hide *;
    ReachableIsSound(a);
    SoundTells(a);
    ClaimKeeps(a, w, op, b);
    ClaimShape(a, w, op, b);
    EntryIs(op, a.q.db.ops[op]);
    Enters(b, w);
  }

  lemma EntryIs(op: OpId, o: Operation)
    ensures var f := NewFrame(op, o);
      && f.job == Job(op, o.deployment, o.kind, o.payload)
      && Route(o.kind, false) != [] && f.pc == Route(o.kind, false)[0]
  {
  }

  /** All calls of the route were made in order, each with a good report where it counts, and each did its part. */
  predicate Completed(route: seq<Pc>, t: seq<Visit>) {
    |t| == |route| && forall i | 0 <= i < |t| :: t[i].f.pc == route[i] && WentWell(t[i])
  }

  /** All calls of an upgrade but the last one on trial were made and went well, that one reported an error, and all calls
      of the rollback were made and went well. */
  predicate RolledAllBack(t: seq<Visit>) {
    && 17 <= |t| <= 20
    && forall i | 0 <= i < |t| ::
         t[i].f.pc == WayBack(|t| - 7)[i] && (if i == |t| - 8 then !t[i].e.outcome.Ok? else WentWell(t[i]))
  }

  lemma ReturnTells(a: World, w: WorkerId, job: Job, t: seq<Visit>)
    requires Tracked(a, w, job, t)
    ensures w in a.frames && a.frames[w].job == job && Linked(a.frames[w], t)
    ensures a.frames[w].pc == Returned(Nil) ==> Completed(Route(job.kind, FoundStopped(t)), t)
    ensures a.frames[w].pc == Returned(RolledBack) ==> job.kind == Upgrade && RolledAllBack(t)
  {
    hide Sound, WentWell, FrameOk, Linked;
    var f := a.frames[w];
    if Follows(Route(f.job.kind, FoundStopped(t)), Nil, -1, f.pc, t) {
      NilStage(job.kind, FoundStopped(t), f.pc, t);
    } else if TurnedBack(f.pc, t) {
      NoWayToNil(f.pc, t);
    }
  }

  lemma NilStage(kind: Kind, stopped: bool, pc: Pc, t: seq<Visit>)
    requires Follows(Route(kind, stopped), Nil, -1, pc, t)
    ensures pc == Returned(Nil) ==> Completed(Route(kind, stopped), t)
    ensures pc != Returned(RolledBack)
  {
    hide WentWell;
  }

  lemma NoWayToNil(pc: Pc, t: seq<Visit>)
    requires TurnedBack(pc, t)
    ensures pc != Returned(Nil) && (pc == Returned(RolledBack) ==> RolledAllBack(t))
  {
    hide WentWell;
  }

  /** What a worker returns it has earned. In every run in which nothing interrupts it, from its claim to a nil return it
      has made every call of its operation's procedure, in order, each has reported success wherever the report counts,
      and each has done its part. An upgrade that was rolled back has failed in exactly one call on trial, and has then
      made every call of the rollback, with success wherever the report counts. */
  lemma ReturnsAreEarned(a: World, w: WorkerId, op: OpId, events: seq<Event>)
    requires Reachable(a) && w !in a.q.claims && Claimable(a.q.db, op)
    requires forall i | 0 <= i < |events| :: Spares(events[i], w)
    ensures var o, b := a.q.db.ops[op], Step(a, Event.Claim(w, op));
      var r, t := Run(b, events), Trail(b, w, events);
      && w in r.frames && r.frames[w].job == Job(op, o.deployment, o.kind, o.payload)
      && (r.frames[w].pc == Returned(Nil) ==> Completed(Route(o.kind, FoundStopped(t)), t))
      && (r.frames[w].pc == Returned(RolledBack) ==> o.kind == Upgrade && RolledAllBack(t))
  {
    hide *;
    var b := Step(a, Event.Claim(w, op));
    assert op in a.q.db.ops by {
      ClaimableTells(a.q.db, op);
    }
    var o := a.q.db.ops[op];
    var job, t := Job(op, o.deployment, o.kind, o.payload), Trail(b, w, events);
    ClaimEnters(a, w, op, b);
    RunTracks(b, w, events, job, []);
    assert [] + t == t;
    ReturnTells(Run(b, events), w, job, t);
  }

  lemma ClaimableTells(db: Db, op: OpId)
    requires Claimable(db, op)
    ensures op in db.ops
  {
  }

  // ---- Create, stop, start, restart, admin reset ----

  /** The call was made on a running panel, in this state, and reported success. */
  predicate CheckedIn(x: Visit, pc: Pc, state: State) {
    && x.f.pc == pc && x.e.outcome.Ok?
    && x.v.row.Some? && x.v.row.value.state == state && IsRunning(x.v.x)
  }

  lemma CreateVisits(f: Frame, t: seq<Visit>)
    requires f.job.kind == Create && Linked(f, t) && Completed(CREATE, t)
    ensures |t| == 18 && t[6].f.pc == Provisioning(ProvisionPc.PullImage) && t[6].e.outcome.Ok?
    ensures t[11].f.pc == Provisioning(WaitRuntime) && t[11].e.outcome.Ok? && IsRunning(t[11].v.x)
    ensures t[13].f.pc == Provisioning(Install) && t[13].e.outcome.Ok? && IsRunning(t[13].v.x)
    ensures CheckedIn(t[16], Provisioning(CheckHealth), Healthchecking)
  {
    hide *;
    CreateStations();
    VisitAt(f, CREATE, t, 6);
    VisitAt(f, CREATE, t, 11);
    VisitAt(f, CREATE, t, 13);
    VisitAt(f, CREATE, t, 16);
    CreateVisit(t[6]);
    CreateVisit(t[11]);
    CreateVisit(t[13]);
    CreateVisit(t[16]);
  }

  lemma CreateStations()
    ensures |CREATE| == 18 && CREATE[6] == Provisioning(ProvisionPc.PullImage) && CREATE[11] == Provisioning(WaitRuntime)
    ensures CREATE[13] == Provisioning(Install) && CREATE[16] == Provisioning(CheckHealth)
  {
  }

  lemma VisitAt(f: Frame, route: seq<Pc>, t: seq<Visit>, n: nat)
    requires Linked(f, t) && Completed(route, t) && n < |route|
    ensures |t| == |route| && t[n].f.pc == route[n] && t[n].f.job == f.job && WentWell(t[n]) && FrameOk(t[n].f, t[n].v)
  {
    hide WentWell, FrameOk;
  }

  lemma CreateVisit(x: Visit)
    requires x.f.job.kind == Create && x.f.pc.Provisioning? && WentWell(x) && FrameOk(x.f, x.v)
    ensures var p := x.f.pc.provision;
      && (p.PullImage? || p.WaitRuntime? || p.Install? || p.CheckHealth? ==> x.e.outcome.Ok?)
      && (p.WaitRuntime? || p.Install? || p.CheckHealth? ==> IsRunning(x.v.x))
      && (p.CheckHealth? ==> CheckedIn(x, Provisioning(CheckHealth), Healthchecking))
  {
    assert ProvisionOk(x.f, x.v, x.f.pc.provision);
    hide Did;
  }

  /** A create that returned nil has pulled the image, waited for the runtime, installed and checked the health of a
      running panel, and each of these calls has reported success. */
  lemma CreateIsChecked(a: World, w: WorkerId, op: OpId, events: seq<Event>)
    requires Reachable(a) && w !in a.q.claims && Claimable(a.q.db, op) && a.q.db.ops[op].kind == Create
    requires forall i | 0 <= i < |events| :: Spares(events[i], w)
    ensures var b := Step(a, Event.Claim(w, op));
      var r, t := Run(b, events), Trail(b, w, events);
      w in r.frames && (r.frames[w].pc == Returned(Nil) ==>
        && |t| == 18
        && t[6].f.pc == Provisioning(ProvisionPc.PullImage) && t[6].e.outcome.Ok?
        && t[11].f.pc == Provisioning(WaitRuntime) && t[11].e.outcome.Ok? && IsRunning(t[11].v.x)
        && t[13].f.pc == Provisioning(Install) && t[13].e.outcome.Ok? && IsRunning(t[13].v.x)
        && CheckedIn(t[16], Provisioning(CheckHealth), Healthchecking))
  {
    hide *;
    ClaimableTells(a.q.db, op);
    var b, o := Step(a, Event.Claim(w, op)), a.q.db.ops[op];
    var r, t, job := Run(b, events), Trail(b, w, events), Job(op, o.deployment, o.kind, o.payload);
    Arrives(a, w, op, events);
    ReturnTells(r, w, job, t);
    if r.frames[w].pc == Returned(Nil) {
      RoutesAre(FoundStopped(t));
      CreateVisits(r.frames[w], t);
    }
  }

  /** A claim and what follows it, up to any point. */
  lemma Arrives(a: World, w: WorkerId, op: OpId, events: seq<Event>)
    requires Reachable(a) && w !in a.q.claims && Claimable(a.q.db, op)
    requires forall i | 0 <= i < |events| :: Spares(events[i], w)
    ensures op in a.q.db.ops
    ensures var o, b := a.q.db.ops[op], Step(a, Event.Claim(w, op));
      Tracked(Run(b, events), w, Job(op, o.deployment, o.kind, o.payload), Trail(b, w, events))
  {
    hide *;
    var b := Step(a, Event.Claim(w, op));
    ClaimableTells(a.q.db, op);
    var o := a.q.db.ops[op];
    ClaimEnters(a, w, op, b);
    RunTracks(b, w, events, Job(op, o.deployment, o.kind, o.payload), []);
    assert [] + Trail(b, w, events) == Trail(b, w, events);
  }

  lemma StopVisits(f: Frame, t: seq<Visit>)
    requires IsPower(f.job.kind) && Linked(f, t) && !FoundStopped(t) && |t| >= 3
    requires forall i | 0 <= i < 3 :: t[i].f.pc == STOP[i] && WentWell(t[i])
    ensures t[1].f.pc == Stopping(StopIt) && t[1].e.outcome.Ok? && !IsRunning(t[1].w.x)
    ensures t[2].f.pc == Stopping(ToStopped) && !IsRunning(t[2].v.x) && !IsRunning(t[2].w.x)
  {
    assert t[1].f.pc == STOP[1] && t[2].f.pc == STOP[2];
    assert WentWell(t[1]) && WentWell(t[2]) && FrameOk(t[2].f, t[2].v);
    assert Kept(TheContainer, t[2].v, t[2].w);
    hide Linked;
  }

  /** A stop that returned nil on a deployment it did not find stopped has stopped its container, if there is one: when it
      has made its last call none runs, and none does as long as the worker is there. */
  lemma StopStops(a: World, w: WorkerId, op: OpId, events: seq<Event>)
    requires Reachable(a) && w !in a.q.claims && Claimable(a.q.db, op) && a.q.db.ops[op].kind == Stop
    requires forall i | 0 <= i < |events| :: Spares(events[i], w)
    ensures var b, id := Step(a, Event.Claim(w, op)), a.q.db.ops[op].deployment;
      var r, t := Run(b, events), Trail(b, w, events);
      w in r.frames && (r.frames[w].pc == Returned(Nil) ==>
        && RowOf(r.q.db, id).Some? && RowOf(r.q.db, id).value.state == Stopped
        && (if FoundStopped(t) then |t| == 1 else
              |t| == 3 && t[1].f.pc == Stopping(StopIt) && t[1].e.outcome.Ok? && !IsRunning(Obj(r.objects, id))))
  {
    hide *;
    ClaimableTells(a.q.db, op);
    var b, o := Step(a, Event.Claim(w, op)), a.q.db.ops[op];
    var r, t, job := Run(b, events), Trail(b, w, events), Job(op, o.deployment, o.kind, o.payload);
    Arrives(a, w, op, events);
    ReturnTells(r, w, job, t);
    if r.frames[w].pc == Returned(Nil) {
      RoutesAre(FoundStopped(t));
      LastLeaves(r, w, job, t);
      FrameIsLocal(r, w);
      ViewIs(r, o.deployment);
      StopDone(r.frames[w], ViewOf(r, o.deployment), FoundBy(r, op));
      StopEnds(r.frames[w], t);
      if !FoundStopped(t) {
        StopVisits(r.frames[w], t);
        SameContainer(t[2].w.x, Obj(r.objects, o.deployment));
      }
    }
  }

  lemma LastLeaves(a: World, w: WorkerId, job: Job, t: seq<Visit>)
    requires Tracked(a, w, job, t)
    ensures Sound(a) && (t != [] ==> Obj(a.objects, job.id).container == t[|t| - 1].w.x.container)
  {
    hide Sound, OnTrack, Linked;
  }

  lemma SameContainer(x: Objects, y: Objects)
    requires x.container == y.container
    ensures IsRunning(x) <==> IsRunning(y)
  {
  }

  lemma StopDone(f: Frame, v: View, found: Option<Spec>)
    requires LocalOk(f, v, found) && f.job.kind == Stop && f.pc == Returned(Nil)
    ensures v.row.Some? && v.row.value.state == Stopped && IsPower(f.job.kind)
  {
  }

  lemma StopEnds(f: Frame, t: seq<Visit>)
    requires Completed(if FoundStopped(t) then STOP[..1] else STOP, t)
    ensures |t| == if FoundStopped(t) then 1 else 3
    ensures !FoundStopped(t) ==> forall i | 0 <= i < 3 :: t[i].f.pc == STOP[i] && WentWell(t[i])
  {
    hide WentWell;
  }

  lemma RestartEnds(t: seq<Visit>) returns (n: nat)
    requires Completed((if FoundStopped(t) then STOP[..1] else STOP) + START, t)
    ensures n == (if FoundStopped(t) then 1 else 3) && |t| == n + 6
    ensures !FoundStopped(t) ==> forall i | 0 <= i < 3 :: t[i].f.pc == STOP[i] && WentWell(t[i])
    ensures forall i | 0 <= i < 6 :: t[n + i].f.pc == START[i] && WentWell(t[n + i])
  {
    hide WentWell;
    var route := (if FoundStopped(t) then STOP[..1] else STOP) + START;
    n := |t| - 6;
    forall i | 0 <= i < 6 ensures t[n + i].f.pc == START[i] && WentWell(t[n + i]) {
      assert route[n + i] == START[i];
    }
  }

  lemma StartVisits(f: Frame, t: seq<Visit>, n: nat)
    requires IsPower(f.job.kind) && Linked(f, t) && |t| == n + 6
    requires forall i | 0 <= i < 6 :: t[n + i].f.pc == START[i] && WentWell(t[n + i])
    ensures t[n + 2].f.pc == Starts(StartAgain) && t[n + 2].e.outcome.Ok? && IsRunning(t[n + 2].w.x)
    ensures CheckedIn(t[n + 4], Starts(CheckAgain), Healthchecking)
  {
    assert t[n + 2].f.pc == START[2] && t[n + 4].f.pc == START[4];
    assert WentWell(t[n + 2]) && WentWell(t[n + 4]) && FrameOk(t[n + 4].f, t[n + 4].v);
    hide Linked;
  }

  /** A start or restart that returned nil has started the container and checked a running panel's health, both with
      success, and the deployment is active. A restart that did not find its deployment stopped has before that stopped
      the container: between the two it did not run. */
  lemma RestartStopsAndStarts(a: World, w: WorkerId, op: OpId, events: seq<Event>)
    requires Reachable(a) && w !in a.q.claims && Claimable(a.q.db, op)
    requires a.q.db.ops[op].kind == Start || a.q.db.ops[op].kind == Restart
    requires forall i | 0 <= i < |events| :: Spares(events[i], w)
    ensures var b, o := Step(a, Event.Claim(w, op)), a.q.db.ops[op];
      var r, t := Run(b, events), Trail(b, w, events);
      w in r.frames && (r.frames[w].pc == Returned(Nil) ==>
        && |t| == (if o.kind == Start then 6 else if FoundStopped(t) then 7 else 9)
        && (var n := |t| - 6;
            t[n + 2].f.pc == Starts(StartAgain) && t[n + 2].e.outcome.Ok? && CheckedIn(t[n + 4], Starts(CheckAgain), Healthchecking))
        && (o.kind == Restart && !FoundStopped(t) ==>
              t[1].f.pc == Stopping(StopIt) && t[1].e.outcome.Ok? && !IsRunning(t[1].w.x) && !IsRunning(t[2].v.x) && !IsRunning(t[2].w.x))
        && RowOf(r.q.db, o.deployment).Some? && RowOf(r.q.db, o.deployment).value.state == Active
        && IsRunning(Obj(r.objects, o.deployment)))
  {
    hide *;
    ClaimableTells(a.q.db, op);
    var b, o := Step(a, Event.Claim(w, op)), a.q.db.ops[op];
    var r, t, job := Run(b, events), Trail(b, w, events), Job(op, o.deployment, o.kind, o.payload);
    Arrives(a, w, op, events);
    ReturnTells(r, w, job, t);
    if r.frames[w].pc == Returned(Nil) {
      RoutesAre(FoundStopped(t));
      LastLeaves(r, w, job, t);
      FrameIsLocal(r, w);
      ViewIs(r, o.deployment);
      PowerUp(r.frames[w], ViewOf(r, o.deployment), FoundBy(r, op));
      if o.kind == Start {
        StartEnds(t);
        StartVisits(r.frames[w], t, 0);
      } else {
        var n := RestartEnds(t);
        StartVisits(r.frames[w], t, n);
        if !FoundStopped(t) {
          StopVisits(r.frames[w], t);
        }
      }
    }
  }

  lemma StartEnds(t: seq<Visit>)
    requires Completed(START, t)
    ensures |t| == 6 && forall i | 0 <= i < 6 :: t[0 + i].f.pc == START[i] && WentWell(t[0 + i])
  {
    hide WentWell;
  }

  lemma PowerUp(f: Frame, v: View, found: Option<Spec>)
    requires LocalOk(f, v, found) && (f.job.kind == Start || f.job.kind == Restart) && f.pc == Returned(Nil)
    ensures v.row.Some? && v.row.value.state == Active && IsRunning(v.x) && IsPower(f.job.kind)
  {
  }

  // ---- A failed call ----

  /** A call whose report counts and is bad ends its operation in failure and leaves the deployment failed, whatever the
      procedure and the program point, except on the trial of an upgrade, which is rolled back. */
  lemma FailedCallFails(a: World, w: WorkerId, o: Oracle, text: string)
    requires Reachable(a) && w in a.frames && Heeds(a.frames[w]) && !o.outcome.Ok?
    ensures var job, b := a.frames[w].job, Step(a, Work(w, o));
      && w in b.frames && b.frames[w].pc == Upset(a.frames[w].pc)
      && (b.frames[w].pc == Returned(Err) ==>
            var db' := Step(b, Event.Finish(w, text)).q.db;
            && job.op in db'.ops && db'.ops[job.op].status == Failure
            && job.id in db'.rows && (db'.rows[job.id].state == Failed || db'.rows[job.id].state == Deleted))
  {
    hide *;
    var f, b := a.frames[w], Step(a, Work(w, o));
    var v := ViewOf(a, f.job.id);
    var c := Advance(f, v, o);
    ReachableIsSound(a);
    ReachableOn(a, Work(w, o));
    FrameOwns(a, w);
    WorkLocal(a, w, o, c);
    StepKeepsJob(f, v, FoundFor(a, w), c);
    WorkShapes(a, w, o, b, c);
    ShapeIs(a, w, b, c);
    StepsDoTheirPart(f, v, o);
    if b.frames[w].pc == Returned(Err) {
      ErrorEndsFailed(b, w, text);
    }
  }

  /** An admin reset that returned nil has run its command in the running panel, which has reported success. */
  lemma ResetWasRun(a: World, w: WorkerId, op: OpId, events: seq<Event>)
    requires Reachable(a) && w !in a.q.claims && Claimable(a.q.db, op) && a.q.db.ops[op].kind == AdminReset
    requires forall i | 0 <= i < |events| :: Spares(events[i], w)
    ensures var b := Step(a, Event.Claim(w, op));
      var r, t := Run(b, events), Trail(b, w, events);
      w in r.frames && (r.frames[w].pc == Returned(Nil) ==>
        |t| == 1 && t[0].f.pc == Resetting && t[0].e.outcome.Ok? && IsRunning(t[0].v.x)
        && Commanded(a.q.db.ops[op].deployment, t[0].v, t[0].e, t[0].w))
  {
    hide *;
    ClaimableTells(a.q.db, op);
    var b, o := Step(a, Event.Claim(w, op)), a.q.db.ops[op];
    var r, t, job := Run(b, events), Trail(b, w, events), Job(op, o.deployment, o.kind, o.payload);
    Arrives(a, w, op, events);
    ReturnTells(r, w, job, t);
    if r.frames[w].pc == Returned(Nil) {
      RoutesAre(FoundStopped(t));
      ResetVisit(r.frames[w], t);
    }
  }

  lemma ResetVisit(f: Frame, t: seq<Visit>)
    requires Completed([Resetting], t) && Linked(f, t)
    ensures |t| == 1 && t[0].f.pc == Resetting && t[0].e.outcome.Ok? && IsRunning(t[0].v.x)
    ensures Commanded(f.job.id, t[0].v, t[0].e, t[0].w)
  {
    assert WentWell(t[0]) && t[0].f.job == f.job && t[0].f.pc == Resetting;
    hide FrameOk;
  }
}

/** What an upgrade leaves behind, from the moment its worker has claimed it to its return. */
module Upgrades {
  import opened Common
  import opened Lifecycle
  import opened Store
  import opened Host
  import opened Programs
  import opened Invariant
  import opened Preservation
  import opened Agent
  import opened Soundness
  import opened Progress
  import opened Convergence
  import opened Outcomes
  import opened Duties
  import opened Journeys
  import Queue

  function ContentOf(c: Cluster, id: Id, name: string): Option<Content> {
    if OwnsDatabase(c, id, name) then Some(c.databases[name].content) else None
  }

  /** The row with another image and state. */
  function Dressed(row: Row, image: string, state: Lifecycle.State): Row {
    WithImage(row, image).(state := state)
  }

  predicate BeforeBackup(pc: UpgradePc) {
    pc.LoadUpgrade? || pc.ToUpdating? || pc.UpNetworks? || pc.UpPanel? || pc.TakeBackup?
  }

  predicate Lost(pc: Pc) {
    pc == Returned(Err) || pc == Upgrading(Prune(Err))
  }

  predicate Alive(row: Option<Row>) {
    row.Some? && row.value.state != Failed && row.value.state != Deleted
  }

  /** What an upgrade that began from `row0` and `content` remembers of them. */
  predicate Began(f: Frame, row: Option<Row>, c: Cluster, row0: Row, content: Option<Content>) {
    && Alive(row)
    && (f.pc == Upgrading(LoadUpgrade) ==> row == Some(row0))
    && (f.pc.Upgrading? && BeforeBackup(f.pc.upgrade) ==> ContentOf(c, f.job.id, row0.request.database) == content)
    && (f.pc != Upgrading(LoadUpgrade) && !Lost(f.pc) ==>
          && f.job.payload.UpgradeTo?
          && f.u.wasStopped == (row0.state == Stopped) && f.u.oldImage == row0.request.image
          && f.d == Dressed(row0, f.d.request.image, f.d.state))
    && (!(f.pc.Upgrading? && BeforeBackup(f.pc.upgrade)) && !Lost(f.pc) ==> content == Some(f.u.backup))
  }

  lemma ForwardBegan(f: Frame, v: View, pc: UpgradePc, e: Oracle, c: Config, row0: Row, content: Option<Content>)
    requires f.pc == Upgrading(pc) && c == UpgradeStep(f, v, pc, e) && Began(f, v.row, v.c, row0, content)
    requires UpgradeOk(f, v, pc)
    requires BeforeBackup(pc)
    ensures Began(c.f, c.v.row, c.v.c, row0, content)
  {
    match pc
    case LoadUpgrade =>
    case ToUpdating =>
    case UpNetworks =>
    case UpPanel =>
    case TakeBackup =>
  }

  predicate IsChange(pc: UpgradePc) {
    pc.UpPull? || pc.UpStop? || pc.UpRemove? || pc.SaveNewImage? || pc.UpCreate?
  }

  lemma ChangeBegan(f: Frame, v: View, pc: UpgradePc, e: Oracle, c: Config, row0: Row, content: Option<Content>)
    requires f.pc == Upgrading(pc) && c == UpgradeStep(f, v, pc, e) && Began(f, v.row, v.c, row0, content)
    requires UpgradeOk(f, v, pc)
    requires IsChange(pc)
    ensures Began(c.f, c.v.row, c.v.c, row0, content)
  {
    hide ContentOf, UpgradePoint;
    match pc
    case _ =>
  }

  lemma TrialBegan(f: Frame, v: View, pc: UpgradePc, e: Oracle, c: Config, row0: Row, content: Option<Content>)
    requires f.pc == Upgrading(pc) && c == UpgradeStep(f, v, pc, e) && Began(f, v.row, v.c, row0, content)
    requires UpgradeOk(f, v, pc)
    requires pc.UpStart? || pc.Migrate? || pc.UpHealth?
    ensures Began(c.f, c.v.row, c.v.c, row0, content)
  {
    hide ContentOf, UpgradePoint, WithHelper;
    match pc
    case _ =>
  }

  predicate IsEnd(pc: UpgradePc) {
    pc.StopAgain? || pc.Settle? || pc.Prune?
  }

  lemma EndBegan(f: Frame, v: View, pc: UpgradePc, e: Oracle, c: Config, row0: Row, content: Option<Content>)
    requires f.pc == Upgrading(pc) && c == UpgradeStep(f, v, pc, e) && Began(f, v.row, v.c, row0, content)
    requires UpgradeOk(f, v, pc)
    requires IsEnd(pc)
    ensures Began(c.f, c.v.row, c.v.c, row0, content)
  {
    hide ContentOf, UpgradePoint;
    assert pc.Settle? ==> f.d.state == Updating by {
      SettlesFromUpdating(f, v, pc);
    }
    match pc
    case _ =>
  }

  lemma SettlesFromUpdating(f: Frame, v: View, pc: UpgradePc)
    requires UpgradeOk(f, v, pc)
    ensures pc.Settle? ==> f.d.state == Updating
  {
  }

  lemma BackBegan(f: Frame, v: View, pc: UpgradePc, e: Oracle, c: Config, row0: Row, content: Option<Content>)
    requires f.pc == Upgrading(pc) && c == UpgradeStep(f, v, pc, e) && Began(f, v.row, v.c, row0, content)
    requires UpgradeOk(f, v, pc)
    requires RollsBack(pc)
    ensures Began(c.f, c.v.row, c.v.c, row0, content)
  {
    hide ContentOf, UpgradePoint;
    match pc
    case _ =>
  }

  lemma StepBegan(f: Frame, v: View, e: Oracle, c: Config, row0: Row, content: Option<Content>)
    requires FrameOk(f, v) && f.job.kind == Upgrade
    requires c == Advance(f, v, e) && Began(f, v.row, v.c, row0, content)
    ensures Began(c.f, c.v.row, c.v.c, row0, content)
  {
    assert f.pc.Upgrading? || f.pc.Returned?;
    if f.pc.Upgrading? {
      assert UpgradeOk(f, v, f.pc.upgrade);
      assert c == UpgradeStep(f, v, f.pc.upgrade, e) && f.pc == Upgrading(f.pc.upgrade);
      hide *;
      if BeforeBackup(f.pc.upgrade) {
        ForwardBegan(f, v, f.pc.upgrade, e, c, row0, content);
      } else if RollsBack(f.pc.upgrade) {
        BackBegan(f, v, f.pc.upgrade, e, c, row0, content);
      } else if IsChange(f.pc.upgrade) {
        ChangeBegan(f, v, f.pc.upgrade, e, c, row0, content);
      } else if IsEnd(f.pc.upgrade) {
        EndBegan(f, v, f.pc.upgrade, e, c, row0, content);
      } else {
        TrialBegan(f, v, f.pc.upgrade, e, c, row0, content);
      }
    }
  }

  // ---- Runs ----

  ghost predicate Uninterrupted(events: seq<Event>, w: WorkerId) {
    forall i | 0 <= i < |events| :: Spares(events[i], w)
  }

  ghost predicate Upgrades(a: World, w: WorkerId, job: Job, row0: Row, content: Option<Content>) {
    && Sound(a)
    && w in a.frames && a.frames[w].job == job && job.kind == Upgrade
    && Began(a.frames[w], RowOf(a.q.db, job.id), a.cluster, row0, content)
  }

  lemma OwnUpgrades(a: World, w: WorkerId, b: World, c: Config, job: Job, row0: Row, content: Option<Content>)
    requires WorkShape(a, w, b, c) && Sound(b) && c.f.job == job == a.frames[w].job && job.kind == Upgrade
    requires Began(c.f, c.v.row, c.v.c, row0, content)
    ensures Upgrades(b, w, job, row0, content)
  {
    hide Sound, Began;
    assert RowOf(b.q.db, job.id) == c.v.row;
  }

  lemma OtherUpgrades(a: World, w: WorkerId, b: World, job: Job, row0: Row, content: Option<Content>)
    requires Upgrades(a, w, job, row0, content) && Undisturbed(a, b, w) && Sound(b)
    requires row0.state == Active || row0.state == Stopped
    ensures Upgrades(b, w, job, row0, content)
  {
    var name := row0.request.database;
    assert OwnsDatabase(a.cluster, job.id, name) || OwnsDatabase(b.cluster, job.id, name) ==>
      a.cluster.databases[name] == b.cluster.databases[name];
    assert ContentOf(a.cluster, job.id, name) == ContentOf(b.cluster, job.id, name);
    hide Sound, ContentOf, SameFor;
  }

  lemma WorkUpgrades(a: World, w: WorkerId, o: Oracle, b: World, job: Job, row0: Row, content: Option<Content>)
    requires Upgrades(a, w, job, row0, content) && b == Step(a, Work(w, o))
    ensures Upgrades(b, w, job, row0, content)
  {
    var f, v := a.frames[w], ViewOf(a, job.id);
    assert f.job == job && job.kind == Upgrade && FrameOk(f, v) && Sound(a) && Began(f, v.row, v.c, row0, content);
    hide *;
    var c := Advance(f, v, o);
    FrameOwns(a, w);
    WorkLocal(a, w, o, c);
    StepKeepsJob(f, v, FoundFor(a, w), c);
    WorkShapes(a, w, o, b, c);
    StepBegan(f, v, o, c, row0, content);
    WorkKeeps(a, w, o, b);
    OwnUpgrades(a, w, b, c, job, row0, content);
  }

  lemma StepUpgrades(a: World, w: WorkerId, e: Event, b: World, job: Job, row0: Row, content: Option<Content>)
    requires Upgrades(a, w, job, row0, content) && b == Step(a, e) && Spares(e, w)
    requires row0.state == Active || row0.state == Stopped
    ensures Upgrades(b, w, job, row0, content)
  {
    assert Sound(a) && w in a.frames && a.frames[w].job == job;
    assert IsWork(e, w) ==> e == Work(w, e.e);
    hide *;
    if IsWork(e, w) {
      WorkUpgrades(a, w, e.e, b, job, row0, content);
    } else {
      StepKeeps(a, e, b);
      OthersLeave(a, w, e, b);
      OtherUpgrades(a, w, b, job, row0, content);
    }
  }

  lemma {:induction false} RunUpgrades(a: World, w: WorkerId, events: seq<Event>, job: Job, row0: Row, content: Option<Content>)
    requires Upgrades(a, w, job, row0, content) && Uninterrupted(events, w)
    requires row0.state == Active || row0.state == Stopped
    ensures Upgrades(Run(a, events), w, job, row0, content)
  {
    hide Step, Upgrades, Spares;
    if events == [] {
    } else {
      var m := |events| - 1;
      RunUpgrades(a, w, events[..m], job, row0, content);
      StepUpgrades(Run(a, events[..m]), w, events[m], Run(a, events), job, row0, content);
    }
  }

  // ---- The outcome ----

  /** The upgrade took: only the image has changed, in the row and in the container, and the panel runs again
      unless it was stopped before. `halted` tells whether the last stop took effect. */
  predicate Upgraded(row: Option<Row>, x: Objects, row0: Row, image: string, halted: bool) {
    && row == Some(WithImage(row0, image)) && image != row0.request.image
    && x.container == Single(Container(Panel(row.value.request), !(row0.state == Stopped && halted)))
  }

  /** The upgrade was taken back: the old image is in the row and the panel runs.
      `stale` tells whether a container outlived the rollback's removal: then that one, of the new image, runs. `kept`
      tells whether the utility container of the restore was left: then that one was taken for the panel. Not both,
      because two containers are refused. */
  predicate TakenBack(row: Option<Row>, x: Objects, row0: Row, image: string, stale: bool, kept: bool) {
    && row == Some(row0.(state := Active))
    && x.container.Single? && x.container.value.running && !(stale && kept)
    && var spec := x.container.value.spec;
       && (stale ==> !spec.helper && spec.request.image == image)
       && (kept ==> spec.helper)
       && (!stale && !kept ==> spec == Panel(row0.request))
  }

  lemma ReturnsNil(f: Frame, v: View, found: Option<Spec>, row0: Row, content: Option<Content>)
    requires LocalOk(f, v, found) && f.job.kind == Upgrade && Began(f, v.row, v.c, row0, content)
    requires (row0.state == Active || row0.state == Stopped) && f.pc == Returned(Nil)
    ensures f.job.payload.UpgradeTo? && Upgraded(v.row, v.x, row0, f.job.payload.image, f.u.halted)
  {
    assert UpgradeDone(f, v);
    hide ContentOf, DeploymentOk, UpgradeFrame;
  }

  lemma ReturnsRolledBack(f: Frame, v: View, found: Option<Spec>, row0: Row, content: Option<Content>)
    requires LocalOk(f, v, found) && f.job.kind == Upgrade && Began(f, v.row, v.c, row0, content)
    requires f.pc == Returned(RolledBack)
    ensures f.job.payload.UpgradeTo? && TakenBack(v.row, v.x, row0, f.job.payload.image, f.u.stale, f.u.kept)
    ensures content.Some? && ContentOf(v.c, f.job.id, row0.request.database) == Some(Overlaid(f.u.grown, content.value))
    ensures !f.u.migrated ==> f.u.grown == content.value
  {
    assert RollbackDone(f, v);
    assert WithImage(row0, row0.request.image) == row0;
    hide DeploymentOk, UpgradeFrame;
  }

  lemma UpgradesOut(a: World, w: WorkerId, job: Job, row0: Row, content: Option<Content>)
    requires Upgrades(a, w, job, row0, content)
    ensures Sound(a) && w in a.frames && a.frames[w].job == job && job.kind == Upgrade
    ensures Began(a.frames[w], RowOf(a.q.db, job.id), a.cluster, row0, content) && Alive(RowOf(a.q.db, job.id))
  {
    hide Sound, Alive;
  }

  lemma UpgradesIn(a: World, w: WorkerId, id: Id)
    requires Sound(a) && w in a.frames && a.frames[w].job.kind == Upgrade && a.frames[w].pc == Upgrading(LoadUpgrade)
    requires id == a.frames[w].job.id && id in a.q.db.rows && Alive(RowOf(a.q.db, id))
    ensures Upgrades(a, w, a.frames[w].job, a.q.db.rows[id], ContentOf(a.cluster, id, a.q.db.rows[id].request.database))
  {
    hide Sound, ContentOf;
  }

  // ---- What its calls tell ----

  /** The calls of an upgrade that returned nil: the migration and the health check were made on the running trial and
      reported success; `halted` tells whether the last stop, if there was one, left no panel running. */
  predicate TriedAndKept(t: seq<Visit>, stopped: bool, halted: bool) {
    && Completed(Route(Upgrade, stopped), t) && |t| == (if stopped then 16 else 15)
    && t[11].f.pc == Upgrading(Migrate) && t[11].e.outcome.Ok? && IsRunning(t[11].v.x)
    && t[12].f.pc == Upgrading(UpHealth) && t[12].e.outcome.Ok? && IsRunning(t[12].v.x)
    && (stopped ==>
          && t[13].f.pc == Upgrading(StopAgain) && halted == !IsRunning(t[13].w.x)
          && (t[13].e.outcome.Ok? ==> halted))
  }

  /** The last seven calls of an upgrade that was rolled back: the removal of the trial, whose container is `stale` if it
      outlived it; the restore, whose utility container was `kept` if it outlived it, over the content `grown`; and before
      the last move the check of the old panel's health, with success. */
  predicate TriedAndTakenBack(t: seq<Visit>, id: Id, name: string, stale: bool, kept: bool, grown: Content) {
    && RolledAllBack(t)
    && var n := |t| - 7;
       && t[n].f.pc == Upgrading(BackRemove) && stale == !t[n].w.x.container.Absent? && (t[n].e.outcome.Ok? ==> !stale)
       && t[n + 1].f.pc == Upgrading(BackRestore) && t[n + 1].e.outcome.Ok? && kept == t[n + 1].e.leaves.Some?
       && ContentOf(t[n + 1].v.c, id, name) == Some(grown)
       && t[n + 5].f.pc == Upgrading(BackHealth) && t[n + 5].e.outcome.Ok? && IsRunning(t[n + 5].v.x)
  }

  lemma UpgradeStations(stopped: bool)
    ensures var route := Route(Upgrade, stopped);
      && |route| == (if stopped then 16 else 15)
      && route[11] == Upgrading(Migrate) && route[12] == Upgrading(UpHealth)
      && (stopped ==> route[13] == Upgrading(StopAgain) && route[14] == Upgrading(Settle) && route[15] == Upgrading(Prune(Nil)))
  {
  }

  lemma BackStations(n: nat)
    requires 10 <= n <= 13
    ensures var route := WayBack(n);
      && |route| == n + 7
      && route[n] == Upgrading(BackRemove) && route[n + 1] == Upgrading(BackRestore) && route[n + 2] == Upgrading(SaveOldImage)
      && route[n + 3] == Upgrading(BackCreate) && route[n + 4] == Upgrading(BackStart)
      && route[n + 5] == Upgrading(BackHealth) && route[n + 6] == Upgrading(BackActive)
  {
  }

  lemma TrialVisit(x: Visit)
    requires x.f.job.kind == Upgrade && x.f.pc.Upgrading? && WentWell(x) && FrameOk(x.f, x.v)
    ensures var p := x.f.pc.upgrade;
      && (p.Migrate? || p.UpHealth? || p.BackRestore? || p.BackHealth? ==> x.e.outcome.Ok?)
      && (p.Migrate? || p.UpHealth? || p.BackHealth? ==> IsRunning(x.v.x))
      && (p.StopAgain? ==> x.g.u.halted == !IsRunning(x.w.x) && (x.e.outcome.Ok? ==> x.g.u.halted))
      && (p.BackRemove? ==> x.g.u.stale == !x.w.x.container.Absent? && (x.e.outcome.Ok? ==> !x.g.u.stale))
      && (p.BackActive? ==> x.g.d.request == x.f.d.request)
  {
    assert UpgradeOk(x.f, x.v, x.f.pc.upgrade);
  }

  lemma KeepingVisit(x: Visit)
    requires x.f.pc.Upgrading? && WentWell(x)
    ensures var p := x.f.pc.upgrade;
      && (p.Settle? || p.Prune? ==> x.g.u == x.f.u)
      && (p.BackRestore? ==>
            && x.g.u.stale == x.f.u.stale && x.g.u.kept == x.e.leaves.Some? && x.g.d == x.f.d
            && ContentOf(x.v.c, x.f.job.id, x.f.d.request.database) == Some(x.g.u.grown))
      && (p.SaveOldImage? || p.BackCreate? || p.BackStart? || p.BackHealth? ==>
            x.g.u == x.f.u && x.g.d.request.database == x.f.d.request.database)
      && (p.BackActive? ==> x.g.u == x.f.u)
  {
  }

  lemma LinkAt(f: Frame, t: seq<Visit>, n: nat)
    requires Linked(f, t) && n < |t|
    ensures t[n].g == (if n + 1 < |t| then t[n + 1].f else f) && t[n].f.job == f.job && FrameOk(t[n].f, t[n].v)
  {
    hide FrameOk;
  }

  lemma NilRecalls(f: Frame, t: seq<Visit>, stopped: bool)
    requires f.job.kind == Upgrade && Linked(f, t) && Completed(Route(Upgrade, stopped), t)
    ensures TriedAndKept(t, stopped, f.u.halted)
  {
    hide WentWell, FrameOk, Route, Linked;
    UpgradeStations(stopped);
    LinkAt(f, t, 11);
    LinkAt(f, t, 12);
    TrialVisit(t[11]);
    TrialVisit(t[12]);
    if stopped {
      LinkAt(f, t, 13);
      LinkAt(f, t, 14);
      LinkAt(f, t, 15);
      TrialVisit(t[13]);
      KeepingVisit(t[14]);
      KeepingVisit(t[15]);
    }
  }

  /** The rollback's calls after the restore change neither locals nor the name of the database. */
  lemma BackLinks(f: Frame, t: seq<Visit>, n: nat)
    requires f.job.kind == Upgrade && Linked(f, t) && RolledAllBack(t) && n == |t| - 7
    ensures t[n + 1].g.u == f.u && t[n + 1].g.d.request.database == f.d.request.database && t[n].g == t[n + 1].f
    ensures t[n].f.job == f.job && t[n + 1].f.job == f.job && t[n + 5].f.job == f.job
    ensures FrameOk(t[n].f, t[n].v) && FrameOk(t[n + 1].f, t[n + 1].v) && FrameOk(t[n + 5].f, t[n + 5].v)
  {
    hide WentWell, FrameOk, WayBack, Linked;
    BackStations(n);
    LinkAt(f, t, n);
    LinkAt(f, t, n + 1);
    LinkAt(f, t, n + 2);
    LinkAt(f, t, n + 3);
    LinkAt(f, t, n + 4);
    LinkAt(f, t, n + 5);
    LinkAt(f, t, n + 6);
    KeepingVisit(t[n + 2]);
    KeepingVisit(t[n + 3]);
    KeepingVisit(t[n + 4]);
    KeepingVisit(t[n + 5]);
    KeepingVisit(t[n + 6]);
    TrialVisit(t[n + 6]);
  }

  lemma BackRecalls(f: Frame, t: seq<Visit>)
    requires f.job.kind == Upgrade && Linked(f, t) && RolledAllBack(t)
    ensures TriedAndTakenBack(t, f.job.id, f.d.request.database, f.u.stale, f.u.kept, f.u.grown)
  {
    var n := |t| - 7;
    hide WentWell, FrameOk, WayBack, Linked;
    BackStations(n);
    BackLinks(f, t, n);
    TrialVisit(t[n]);
    TrialVisit(t[n + 1]);
    TrialVisit(t[n + 5]);
    KeepingVisit(t[n + 1]);
  }

  /** The data after a rollback: what the database held before, over whatever was there when the dump was restored, which
      is exactly what it held before when the migration was not run. */
  predicate DataBack(c: Cluster, d: Cluster, id: Id, name: string, grown: Content, migrated: bool) {
    && OwnsDatabase(c, id, name)
    && var was := c.databases[name].content;
       && ContentOf(d, id, name) == Some(Overlaid(grown, was))
       && (ContentOf(d, id, name) == Some(was) <==> grown.Keys <= was.Keys)
       && (!migrated ==> grown == was)
  }

  /** An upgrade claimed on an active or stopped deployment, with any other work beside it, ends in one of three
      ways. Nil: the migration and the health check of the new image have reported success, the new image is in the row
      and in the container, and the state it started from is back. Rolled back: one call on trial has reported an error and
      at last the check of the old panel success, the old image is in the row and, unless a container was left over, in the
      container, the deployment is active, and the database holds what it held when the upgrade began, over whatever else
      it held when the dump was restored. Any other error leaves the deployment failed. */
  lemma UpgradeOutcome(a: World, w: WorkerId, events: seq<Event>, id: Id, text: string)
    requires Reachable(a) && w in a.frames && a.frames[w].job.kind == Upgrade && a.frames[w].pc == Upgrading(LoadUpgrade)
    requires id == a.frames[w].job.id && id in a.q.db.rows
    requires a.q.db.rows[id].state == Active || a.q.db.rows[id].state == Stopped
    requires Uninterrupted(events, w)
    ensures var b, t, row0, job := Run(a, events), Trail(a, w, events), a.q.db.rows[id], a.frames[w].job;
      && w in b.frames && b.frames[w].job == job
      && var pc, row, x := b.frames[w].pc, RowOf(b.q.db, id), Obj(b.objects, id);
         && (pc == Returned(Nil) ==>
               exists halted :: job.payload.UpgradeTo? && TriedAndKept(t, row0.state == Stopped, halted)
                                && Upgraded(row, x, row0, job.payload.image, halted))
         && (pc == Returned(RolledBack) ==>
               exists stale, kept, grown ::
                 job.payload.UpgradeTo? && TriedAndTakenBack(t, id, row0.request.database, stale, kept, grown)
                 && TakenBack(row, x, row0, job.payload.image, stale, kept)
                 && DataBack(a.cluster, b.cluster, id, row0.request.database, grown, Migrated(t)))
         && (pc == Returned(Err) ==>
               var db' := Step(b, Event.Finish(w, text)).q.db; id in db'.rows && db'.rows[id].state == Failed)
  {
    hide *;
    var b, t, row0, job := Run(a, events), Trail(a, w, events), a.q.db.rows[id], a.frames[w].job;
    var content := ContentOf(a.cluster, id, row0.request.database);
    ReachableIsSound(a);
    AliveRow(a.q.db, id);
    UpgradesIn(a, w, id);
    RunUpgrades(a, w, events, job, row0, content);
    UpgradesOut(b, w, job, row0, content);
    FrameIsLocal(b, w);
    ViewIs(b, id);
    UpgradeTrail(a, w, events);
    ContentOwned(a.cluster, id, row0.request.database);
    var f := b.frames[w];
    if f.pc == Returned(Nil) {
      ReturnsNil(f, ViewOf(b, id), FoundBy(b, job.op), row0, content);
      RowsStopped(f, t, RowOf(b.q.db, id), b.cluster, row0, content);
      NilRecalls(f, t, FoundStopped(t));
      assert TriedAndKept(t, row0.state == Stopped, f.u.halted);
    }
    if f.pc == Returned(RolledBack) {
      ReturnsRolledBack(f, ViewOf(b, id), FoundBy(b, job.op), row0, content);
      OverlaidIsDump(f.u.grown, content.value);
      RowsStopped(f, t, RowOf(b.q.db, id), b.cluster, row0, content);
      BackRecalls(f, t);
      DataIsBack(a.cluster, b.cluster, id, row0.request.database, f.u.grown, content, Migrated(t));
      assert TriedAndTakenBack(t, id, row0.request.database, f.u.stale, f.u.kept, f.u.grown);
    }
    if f.pc == Returned(Err) {
      FinishEffect(b, w, text, Step(b, Event.Finish(w, text)));
      ClaimHolds(b, w);
      FailsWith(b.q.db, job.op, FailedRow(b.q.db.rows[id], text), Step(b, Event.Finish(w, text)).q.db);
      AnyRowFails(f, ViewOf(b, id), FoundBy(b, job.op), text);
      NotDeleted(RowOf(b.q.db, id));
    }
  }

  lemma UpgradeTrail(a: World, w: WorkerId, events: seq<Event>)
    requires Reachable(a) && w in a.frames && a.frames[w].job.kind == Upgrade && a.frames[w].pc == Upgrading(LoadUpgrade)
    requires Uninterrupted(events, w)
    ensures var f, t := Run(a, events).frames, Trail(a, w, events);
      && w in f && Linked(f[w], t)
      && (f[w].pc == Returned(Nil) ==> Completed(Route(Upgrade, FoundStopped(t)), t))
      && (f[w].pc == Returned(RolledBack) ==> RolledAllBack(t))
  {
    assert forall i | 0 <= i < |events| :: Spares(events[i], w);
    hide *;
    var job, t := a.frames[w].job, Trail(a, w, events);
    ReachableIsSound(a);
    UpgradeBegins();
    Enters(a, w);
    RunTracks(a, w, events, job, []);
    assert [] + t == t;
    ReturnTells(Run(a, events), w, job, t);
  }

  lemma UpgradeBegins()
    ensures Route(Upgrade, false) != [] && Route(Upgrade, false)[0] == Upgrading(LoadUpgrade)
  {
  }

  /** What the upgrade remembers is what it has found. */
  lemma RowsStopped(f: Frame, t: seq<Visit>, row: Option<Row>, c: Cluster, row0: Row, content: Option<Content>)
    requires f.job.kind == Upgrade && Linked(f, t) && Began(f, row, c, row0, content)
    requires f.pc == Returned(Nil) || f.pc == Returned(RolledBack)
    requires f.pc == Returned(Nil) ==> Completed(Route(Upgrade, FoundStopped(t)), t)
    requires f.pc == Returned(RolledBack) ==> RolledAllBack(t)
    ensures FoundStopped(t) == (row0.state == Stopped) && (f.u.migrated ==> Migrated(t))
    ensures f.d.request.database == row0.request.database
  {
    assert t != [];
    hide Completed, RolledAllBack, FoundStopped, Migrated, FrameOk, ContentOf;
  }

  lemma DataIsBack(c: Cluster, d: Cluster, id: Id, name: string, grown: Content, content: Option<Content>, migrated: bool)
    requires content.Some? && ContentOf(c, id, name) == content && ContentOf(d, id, name) == Some(Overlaid(grown, content.value))
    requires !migrated ==> grown == content.value
    requires Overlaid(grown, content.value) == content.value <==> grown.Keys <= content.value.Keys
    ensures DataBack(c, d, id, name, grown, migrated)
  {
    hide Overlaid;
  }

  lemma AliveRow(db: Db, id: Id)
    requires id in db.rows && (db.rows[id].state == Active || db.rows[id].state == Stopped)
    ensures Alive(RowOf(db, id))
  {
  }

  lemma NotDeleted(row: Option<Row>)
    requires Alive(row)
    ensures row.Some? && row.value.state != Deleted
  {
  }

  lemma ContentOwned(c: Cluster, id: Id, name: string)
    ensures ContentOf(c, id, name).Some? <==> OwnsDatabase(c, id, name)
    ensures OwnsDatabase(c, id, name) ==> name in c.databases && ContentOf(c, id, name) == Some(c.databases[name].content)
  {
  }
}

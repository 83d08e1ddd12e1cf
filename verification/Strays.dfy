/** Containers the backup utility leaves behind. It runs under the very labels the panel is looked up by, so that one
    that outlives its call is counted, and found, as if it were the panel. */
module Strays {
  import opened Common
  import opened Lifecycle
  import opened Store
  import opened Host
  import opened Programs
  import opened Invariant
  import opened Agent
  import opened Soundness
  import opened Convergence
  import opened Runs
  import Outcomes
  import Queue

  // ---- More than one container ----

  lemma ProvisionKeepsSeveral(f: Frame, v: View, pc: ProvisionPc, e: Oracle)
    requires v.x.container.Several?
    ensures Provision(f, v, pc, e).v.x.container.Several?
  {
    match pc
    case _ =>
  }

  lemma UpgradeKeepsSeveral(f: Frame, v: View, pc: UpgradePc, e: Oracle)
    requires v.x.container.Several?
    ensures UpgradeStep(f, v, pc, e).v.x.container.Several?
  {
    match pc
    case _ =>
  }

  lemma RemoveKeepsSeveral(f: Frame, v: View, pc: RemovePc, e: Oracle)
    requires v.x.container.Several?
    ensures RemoveStep(f, v, pc, e).v.x.container.Several?
  {
    match pc
    case _ =>
  }

  /** No call of any procedure removes one of several containers. */
  lemma AdvanceKeepsSeveral(f: Frame, v: View, e: Oracle)
    requires v.x.container.Several?
    ensures Advance(f, v, e).v.x.container.Several?
  {
    match f.pc
    case Provisioning(pc) => ProvisionKeepsSeveral(f, v, pc, e);
    case Upgrading(pc) => UpgradeKeepsSeveral(f, v, pc, e);
    case Removing(pc) => RemoveKeepsSeveral(f, v, pc, e);
    case Stopping(_) =>
    case Starts(_) =>
    case Resetting =>
    case Returned(_) =>
  }

  lemma StepKeepsSeveral(a: World, e: Event, id: Id)
    requires Obj(a.objects, id).container.Several?
    ensures Obj(Step(a, e).objects, id).container.Several?
  {
    hide Advance, Queue.Run, Calls;
    if e.Work? && e.w in a.frames && a.frames[e.w].job.id == id {
      AdvanceKeepsSeveral(a.frames[e.w], ViewOf(a, id), e.e);
    }
  }

  lemma {:induction false} SeveralForEver(a: World, events: seq<Event>, id: Id)
    requires Obj(a.objects, id).container.Several?
    ensures Obj(Run(a, events).objects, id).container.Several?
  {
    hide Step;
    if events != [] {
      SeveralForEver(a, events[..|events| - 1], id);
      StepKeepsSeveral(Run(a, events[..|events| - 1]), events[|events| - 1], id);
    }
  }

  lemma NothingReturns(f: Frame, v: View, found: Option<Spec>)
    requires LocalOk(f, v, found) && v.x.container.Several? && f.pc.Returned?
    ensures f.pc.result == Err || (f.job.kind == Stop && v.row.Some? && v.row.value.state == Stopped)
  {
  }

  lemma {:induction false} RowStays(a: World, events: seq<Event>, id: Id)
    requires Reachable(a) && Obj(a.objects, id).container.Several? && id in a.q.db.rows
    ensures id in Run(a, events).q.db.rows
  {
    hide *;
    if events == [] {
      RunOfNothing(a);
    } else {
      var m := |events| - 1;
      var b := Run(a, events[..m]);
      RunLast(a, events);
      RowStays(a, events[..m], id);
      SeveralForEver(a, events[..m], id);
      Outcomes.RunReaches(a, events[..m]);
      StepKeepsSeveral(b, events[m], id);
      Outcomes.PurgeIsAtomic(b, events[m], id);
      if id !in Run(a, events).q.db.rows {
        RemovedIsNotSeveral(Obj(Run(a, events).objects, id), Run(a, events).cluster, id, b.frames[events[m].w].d.request);
      }
    }
  }

  lemma RunOfNothing(a: World)
    ensures Run(a, []) == a
  {
  }

  lemma RemovedIsNotSeveral(x: Objects, c: Cluster, id: Id, q: Request)
    requires Removed(x, c, id, q, true)
    ensures !x.container.Several?
  {
  }

  /** Once two containers carry a deployment's labels, that is for ever, whatever the agent is asked to do: no operation
      on it ever ends without an error again, except the stop of a deployment that is stopped, and its row stays. */
  lemma SeveralBlocks(a: World, events: seq<Event>, id: Id, w: WorkerId)
    requires Reachable(a) && Obj(a.objects, id).container.Several?
    ensures var b := Run(a, events);
      && Obj(b.objects, id).container.Several?
      && (id in a.q.db.rows ==> id in b.q.db.rows)
      && (w in b.frames && b.frames[w].job.id == id && b.frames[w].pc.Returned? ==>
            var f := b.frames[w];
            f.pc.result == Err || (f.job.kind == Stop && id in b.q.db.rows && b.q.db.rows[id].state == Stopped))
  {
    hide *;
    var b := Run(a, events);
    SeveralForEver(a, events, id);
    Outcomes.RunReaches(a, events);
    if id in a.q.db.rows {
      RowStays(a, events, id);
    }
    if w in b.frames && b.frames[w].job.id == id && b.frames[w].pc.Returned? {
      ReachableIsSound(b);
      FrameIsLocal(b, w);
      ViewIs(b, id);
      NothingReturns(b.frames[w], ViewOf(b, id), FoundBy(b, b.frames[w].job.op));
    }
  }

  // ---- A utility container in the panel's place ----

  /** A create never replaces the container it found: where that is the utility's, it makes no panel. */
  lemma FoundIsKept(a: World, w: WorkerId)
    requires Reachable(a) && w in a.frames && a.frames[w].job.kind == Create
    ensures var found, x := FoundBy(a, a.frames[w].job.op), Obj(a.objects, a.frames[w].job.id);
      && (found.Some? ==> x.container.Single? && x.container.value.spec == found.value)
      && (x.container.Absent? ==> found.None?)
      && (x.container.Single? && x.container.value.spec.helper ==> found == Some(x.container.value.spec))
  {
    ReachableIsSound(a);
    FrameIsLocal(a, w);
    hide Sound, Reachable, FrameOk, RowOk;
  }

  // ---- A run to either ----

  const OLD := Request("old", "panel", "panel", "")
  const NEW := "new"

  /** An active deployment's worker is about to upgrade it. */
  predicate Upgradable(v: View) {
    && v.row.Some? && v.row.value.request == OLD && v.row.value.state == Active && v.row.value.failedStep == ""
    && v.row.value.secret.Some?
    && v.x.container == Single(Container(Panel(OLD), true))
    && v.x.panel.mark.Marked? && v.x.backups == NoDirectory
    && OwnsDatabase(v.c, ID, OLD.database)
  }

  lemma StartsUnopposed(v: View)
    requires v.x == NoObjects && v.c == EMPTY_CLUSTER
    ensures Unopposed(Entered(0, Create, NoPayload), v, OLD) && NoObjects.(installed := false) == NoObjects
  {
  }

  lemma AfterCreate(f: Frame, v: View, found: Option<Spec>)
    requires LocalOk(f, v, found) && v.row.Some? && v.row.value.state == Active && v.row.value.request == OLD
    requires Provisioned(v.x, v.c, ID, OLD, Panel(OLD)) && v.x.backups == NoDirectory
    ensures Upgradable(v)
  {
  }

  lemma EnteredCreates(a: World, v: View)
    requires Works(a, 0, Entered(0, Create, NoPayload), v) && v.row.Some? && v.row.value.request == OLD && v.x.container.Absent?
    requires Unopposed(Entered(0, Create, NoPayload), v, OLD)
    ensures WORKER in a.frames && a.frames[WORKER].job == Job(0, ID, Create, NoPayload) && a.frames[WORKER].pc.Provisioning?
    ensures Reachable(a) && ID in a.q.db.rows && a.q.db.rows[ID].request == OLD && FoundBy(a, 0) == None
    ensures Unopposed(a.frames[WORKER], ViewOf(a, ID), OLD)
  {
    WorksTells(a, 0, Entered(0, Create, NoPayload), v);
    FoundIsKept(a, WORKER);
    hide Reachable, Unopposed;
  }

  const ASKED := View(Some(Queue.NewRow(CallOf(0, OLD))), NoObjects, EMPTY_CLUSTER)

  lemma CreateStarts() returns (a: World)
    ensures Works(a, 0, Entered(0, Create, NoPayload), ASKED)
  {
    StartsUnopposed(ASKED);
    hide *;
    a := Beginning();
    a := AsksFresh(a, 0, View(None, NoObjects, EMPTY_CLUSTER), OLD);
    a := Claims(a, 0, Create, NoPayload, ASKED);
  }

  lemma CreateRuns(a: World) returns (b: World, f: Frame, v: View)
    requires Works(a, 0, Entered(0, Create, NoPayload), ASKED)
    ensures Works(b, 0, f, v) && f.pc == Returned(Nil) && f.job.kind != DeletePurge && Upgradable(v)
  {
    assert ASKED.row.value.request == OLD && ASKED.x.container.Absent? && ASKED.x.backups == NoDirectory;
    EnteredIs(0, Create, NoPayload);
    hide *;
    StartsUnopposed(ASKED);
    EnteredCreates(a, ASKED);
    var found := FoundBy(a, a.frames[WORKER].job.op);
    var c := ManySteps(a, 0, Entered(0, Create, NoPayload), ASKED, 18);
    b, f, v := Run(a, Working(WORKER, 18)), c.f, c.v;
    CreateCompletes(a, WORKER, ID, OLD);
    CreatedIs(b, f, v, found);
  }

  lemma Created() returns (a: World, v: View)
    ensures Idle(a, 1, v) && Upgradable(v)
  {
    hide *;
    a := CreateStarts();
    var f: Frame;
    a, f, v := CreateRuns(a);
    a := EndsWell(a, 0, f, v);
  }

  lemma CreatedIs(b: World, f: Frame, v: View, found: Option<Spec>)
    requires Works(b, 0, f, v) && WORKER in b.frames && b.frames[WORKER].pc == Returned(Nil)
    requires f.job == Entered(0, Create, NoPayload).job && v.x.backups == NoDirectory
    requires ID in b.q.db.rows && b.q.db.rows[ID].state == Active && b.q.db.rows[ID].request == OLD
    requires Provisioned(Obj(b.objects, ID), b.cluster, ID, OLD, found.Or(Panel(OLD))) && found == None
    ensures f.pc == Returned(Nil) && f.job.kind != DeletePurge && Upgradable(v)
  {
    hide *;
    WorksTells(b, 0, f, v);
    ReachableIsSound(b);
    FrameIsLocal(b, WORKER);
    ViewIs(b, ID);
    WorksView(b, 0, f, v);
    NoneOr(found, Panel(OLD));
    EnteredIs(0, Create, NoPayload);
    AfterCreate(f, v, FoundBy(b, 0));
  }

  lemma NoneOr(found: Option<Spec>, s: Spec)
    requires found == None
    ensures found.Or(s) == s
  {
  }

  function At(pc: Pc, d: Row, u: Locals): Frame {
    Frame(Job(1, ID, Upgrade, UpgradeTo(NEW)), pc, d, u)
  }

  const BEFORE := NoLocals.(oldImage := "old")

  lemma Loads(v: View)
    requires Upgradable(v)
    ensures Advance(Entered(1, Upgrade, UpgradeTo(NEW)), v, GOOD) == Config(At(Upgrading(ToUpdating), v.row.value, BEFORE), v)
  {
    assert "old"[0] != "new"[0];
  }

  function Updated(row: Row): Row {
    row.(state := Updating)
  }

  /** The view once the upgrade has reached its backup. */
  function Prepared(v: View): View
    requires v.row.Some?
  {
    View(Some(Updated(v.row.value)), v.x.(frontend := true, backend := true, panel := v.x.panel.(live := true, mark := Marked)), v.c)
  }

  lemma Moves(v: View)
    requires Upgradable(v)
    ensures Advance(At(Upgrading(ToUpdating), v.row.value, BEFORE), v, GOOD) ==
      Config(At(Upgrading(UpNetworks), Updated(v.row.value), BEFORE), v.(row := Some(Updated(v.row.value))))
  {
  }

  lemma Connects(d: Row, v: View)
    ensures Advance(At(Upgrading(UpNetworks), d, BEFORE), v, GOOD) ==
      Config(At(Upgrading(UpPanel), d, BEFORE), v.(x := v.x.(frontend := true, backend := true)))
    ensures Advance(At(Upgrading(UpPanel), d, BEFORE), v, GOOD) ==
      if v.x.panel.mark.Spoilt? then Config(At(Returned(Err), d, BEFORE), v.(x := v.x.(panel := v.x.panel.(live := true))))
      else Config(At(Upgrading(TakeBackup), d, BEFORE), v.(x := v.x.(panel := v.x.panel.(live := true, mark := Marked))))
  {
  }

  lemma Prepares(a: World, v: View) returns (b: World)
    requires Works(a, 1, Entered(1, Upgrade, UpgradeTo(NEW)), v) && Upgradable(v)
    ensures Works(b, 1, At(Upgrading(TakeBackup), Updated(v.row.value), BEFORE), Prepared(v))
  {
    UpgradableRow(v);
    var row, d := v.row.value, Updated(v.row.value);
    var v1 := v.(row := Some(d));
    var v2 := v1.(x := v1.x.(frontend := true, backend := true));
    assert Prepared(v) == v2.(x := v2.x.(panel := v2.x.panel.(live := true, mark := Marked))) && !v2.x.panel.mark.Spoilt?;
    hide *;
    Loads(v);
    b := OneStep(a, 1, Entered(1, Upgrade, UpgradeTo(NEW)), v, GOOD, Config(At(Upgrading(ToUpdating), row, BEFORE), v));
    Moves(v);
    b := OneStep(b, 1, At(Upgrading(ToUpdating), row, BEFORE), v, GOOD, Config(At(Upgrading(UpNetworks), d, BEFORE), v1));
    Connects(d, v1);
    b := OneStep(b, 1, At(Upgrading(UpNetworks), d, BEFORE), v1, GOOD, Config(At(Upgrading(UpPanel), d, BEFORE), v2));
    Connects(d, v2);
    b := OneStep(b, 1, At(Upgrading(UpPanel), d, BEFORE), v2, GOOD, Config(At(Upgrading(TakeBackup), d, BEFORE), Prepared(v)));
  }

  /** An active deployment, and an upgrade of it that has reached its backup. */
  lemma ReachesBackup() returns (a: World, v: View)
    ensures Upgradable(v) && Works(a, 1, At(Upgrading(TakeBackup), Updated(v.row.value), BEFORE), Prepared(v))
  {
    hide *;
    a, v := Created();
    UpgradableRow(v);
    a := AsksUpgrade(a, 1, v, NEW);
    a := Claims(a, 1, Upgrade, UpgradeTo(NEW), v);
    a := Prepares(a, v);
  }

  lemma UpgradableRow(v: View)
    requires Upgradable(v)
    ensures v.row.Some?
  {
  }

  lemma Refuses(v: View, row: Row)
    requires v.row == Some(row) && row.state == Updating && row.failedStep == ""
    ensures Advance(Entered(1, Upgrade, UpgradeTo(NEW)), v, GOOD).f.pc == Returned(Err)
    ensures Advance(Entered(1, Upgrade, UpgradeTo(NEW)), v, GOOD).v == v
    ensures FailedRow(row, "") == row.(state := Failed)
  {
  }

  /** The process dies, and the rerun of the upgrade is refused. */
  lemma Dies(a: World, f: Frame, v: View, row: Row) returns (b: World)
    requires Works(a, 1, f, v) && f.job == Job(1, ID, Upgrade, UpgradeTo(NEW)) && v.row == Some(row)
    requires row.state == Updating && row.failedStep == ""
    ensures Idle(b, 2, v.(row := Some(row.(state := Failed))))
  {
    hide *;
    b := Crashes(a, 1, f, v);
    b := Claims(b, 1, Upgrade, UpgradeTo(NEW), v);
    Refuses(v, row);
    var c := Advance(Entered(1, Upgrade, UpgradeTo(NEW)), v, GOOD);
    b := OneStep(b, 1, Entered(1, Upgrade, UpgradeTo(NEW)), v, GOOD, c);
    b := EndsFailed(b, 1, c.f, v);
  }

  /** The call stops halfway, or the process does, and the utility container is left. */
  const DYING := Oracle(Lost, map[], Some(true))

  /** A deployment that two containers carry the labels of, which failed and could be deleted or created anew. */
  ghost predicate Stuck(a: World) {
    && Reachable(a) && ID in a.q.db.rows && a.q.db.rows[ID].state == Failed && ID !in a.q.db.active
    && Obj(a.objects, ID).container.Several?
  }

  lemma DumpLeaves(v: View)
    requires Upgradable(v)
    ensures var d := Updated(v.row.value); var c := Advance(At(Upgrading(TakeBackup), d, BEFORE), Prepared(v), DYING);
      && c.f.job == Job(1, ID, Upgrade, UpgradeTo(NEW)) && c.v.row == Some(d) && c.v.x.container.Several?
      && d.state == Updating && d.failedStep == ""
  {
  }

  lemma IsStuck(a: World, v: View)
    requires Idle(a, 2, v) && v.row.Some? && v.row.value.state == Failed && v.x.container.Several?
    ensures Stuck(a)
  {
    hide Reachable;
  }

  /** There is a run to such a deployment: one create, one upgrade of it, and a process that dies while the backup
      utility runs. SeveralBlocks says what becomes of it. */
  lemma DyingBackupBlocks()
    ensures exists a: World :: Stuck(a)
  {
    hide *;
    var a, v := ReachesBackup();
    UpgradableRow(v);
    DumpLeaves(v);
    var d := Updated(v.row.value);
    var f := At(Upgrading(TakeBackup), d, BEFORE);
    var c := Advance(f, Prepared(v), DYING);
    a := OneStep(a, 1, f, Prepared(v), DYING, c);
    a := Dies(a, c.f, c.v, d);
    IsStuck(a, c.v.(row := Some(d.(state := Failed))));
  }

  // ---- A run that leaves only the utility's container ----

  const BAD := Oracle(Fail, map[], None)

  function Backed(v: View): Locals
    requires OLD.database in v.c.databases
  {
    BEFORE.(backup := v.c.databases[OLD.database].content)
  }

  lemma Dumps(d: Row, v: View)
    requires d.request == OLD && OwnsDatabase(v.c, ID, OLD.database) && !v.x.backups.mark.Spoilt?
    ensures Advance(At(Upgrading(TakeBackup), d, BEFORE), v, GOOD) ==
      Config(At(Upgrading(UpPull), d, Backed(v)), v.(x := v.x.(backups := v.x.backups.(live := true, mark := Marked))))
  {
  }

  lemma Empties(d: Row, u: Locals, v: View)
    ensures Advance(At(Upgrading(UpPull), d, u), v, GOOD) == Config(At(Upgrading(UpStop), d, u), v)
    ensures v.x.container.Single? ==> var c := Advance(At(Upgrading(UpStop), d, u), v, GOOD);
      c.f == At(Upgrading(UpRemove), d, u) && c.v == v.(x := c.v.x) && c.v.x.container.Single? && c.v.x == v.x.(container := c.v.x.container)
    ensures v.x.container.Single? ==>
      Advance(At(Upgrading(UpRemove), d, u), v, GOOD) == Config(At(Upgrading(SaveNewImage), d, u), v.(x := v.x.(container := Absent)))
  {
  }

  lemma Saves(d: Row, u: Locals, v: View)
    requires v.row.Some?
    ensures Advance(At(Upgrading(SaveNewImage), d, u), v, GOOD) ==
      Config(At(Upgrading(UpCreate), WithImage(d, NEW), u), v.(row := Some(WithImage(d, NEW))))
  {
  }

  lemma GivesUp(d: Row, u: Locals, v: View)
    requires v.x.container.Absent?
    ensures Advance(At(Upgrading(UpCreate), d, u), v, BAD) == Config(At(Upgrading(BackRemove), d, u), v)
    ensures !u.stale && !u.kept ==> Advance(At(Upgrading(BackRemove), d, u), v, GOOD) == Config(At(Upgrading(BackRestore), d, u), v)
  {
  }

  lemma RestoreLeaves(d: Row, u: Locals, v: View)
    requires v.x.container.Absent?
    ensures var c := Advance(At(Upgrading(BackRestore), d, u), v, DYING);
      c.f.job == Job(1, ID, Upgrade, UpgradeTo(NEW)) && c.v.row == v.row && HelperOnly(c.v.x)
  {
  }

  predicate HelperOnly(x: Objects) {
    x.container.Single? && x.container.value.spec.helper
  }

  /** The old panel is gone. */
  lemma TakesDown(a: World, d: Row, v: View) returns (b: World, u: Locals, w: View)
    requires Works(a, 1, At(Upgrading(TakeBackup), d, BEFORE), v)
    requires d.request == OLD && OwnsDatabase(v.c, ID, OLD.database) && v.x.container.Single? && !v.x.backups.mark.Spoilt?
    ensures Works(b, 1, At(Upgrading(SaveNewImage), d, u), w) && w.row == v.row && w.x.container.Absent? && !u.stale && !u.kept
  {
    u := Backed(v);
    assert !u.stale && !u.kept;
    hide *;
    var v1 := v.(x := v.x.(backups := v.x.backups.(live := true, mark := Marked)));
    Dumps(d, v);
    b := OneStep(a, 1, At(Upgrading(TakeBackup), d, BEFORE), v, GOOD, Config(At(Upgrading(UpPull), d, u), v1));
    Empties(d, u, v1);
    b := OneStep(b, 1, At(Upgrading(UpPull), d, u), v1, GOOD, Config(At(Upgrading(UpStop), d, u), v1));
    var c := Advance(At(Upgrading(UpStop), d, u), v1, GOOD);
    b := OneStep(b, 1, At(Upgrading(UpStop), d, u), v1, GOOD, c);
    Empties(d, u, c.v);
    w := c.v.(x := c.v.x.(container := Absent));
    b := OneStep(b, 1, At(Upgrading(UpRemove), d, u), c.v, GOOD, Config(At(Upgrading(SaveNewImage), d, u), w));
  }

  /** The new panel cannot be made, and the process dies while the rollback restores the backup. */
  lemma TurnsBack(a: World, d: Row, u: Locals, v: View) returns (b: World, f: Frame, w: View)
    requires Works(a, 1, At(Upgrading(SaveNewImage), d, u), v) && v.row.Some? && v.x.container.Absent? && !u.stale && !u.kept
    ensures Works(b, 1, f, w) && f.job == Job(1, ID, Upgrade, UpgradeTo(NEW)) && w.row == Some(WithImage(d, NEW)) && HelperOnly(w.x)
  {
    hide *;
    var d' := WithImage(d, NEW);
    var v1 := v.(row := Some(d'));
    Saves(d, u, v);
    b := OneStep(a, 1, At(Upgrading(SaveNewImage), d, u), v, GOOD, Config(At(Upgrading(UpCreate), d', u), v1));
    GivesUp(d', u, v1);
    b := OneStep(b, 1, At(Upgrading(UpCreate), d', u), v1, BAD, Config(At(Upgrading(BackRemove), d', u), v1));
    b := OneStep(b, 1, At(Upgrading(BackRemove), d', u), v1, GOOD, Config(At(Upgrading(BackRestore), d', u), v1));
    RestoreLeaves(d', u, v1);
    var c := Advance(At(Upgrading(BackRestore), d', u), v1, DYING);
    f, w := c.f, c.v;
    b := OneStep(b, 1, At(Upgrading(BackRestore), d', u), v1, DYING, c);
  }

  /** A worker runs a create that has found the utility's container. */
  ghost predicate Displaced(a: World) {
    && Reachable(a) && WORKER in a.frames && a.frames[WORKER].job.kind == Create
    && var found := FoundBy(a, a.frames[WORKER].job.op); found.Some? && found.value.helper
  }

  lemma BackupIsReady(v: View)
    requires Upgradable(v)
    ensures var d, w := Updated(v.row.value), Prepared(v);
      && d.request == OLD && d.state == Updating && d.failedStep == "" && OwnsDatabase(w.c, ID, OLD.database) && w.x.container.Single?
      && !w.x.backups.mark.Spoilt? && w.row == Some(d)
  {
  }

  lemma StillUpdating(d: Row)
    requires d.state == Updating && d.failedStep == ""
    ensures var d' := WithImage(d, NEW); d'.state == Updating && d'.failedStep == "" && d'.(state := Failed).state == Failed
  {
  }

  /** There is a run to such a create, from which FoundIsKept and CreateCompletes tell that it makes no panel: the
      process dies while a rollback's restore runs, and the deployment is created anew. */
  lemma DyingRestoreDisplaces()
    ensures exists a: World :: Displaced(a)
  {
    hide *;
    var a, v := ReachesBackup();
    UpgradableRow(v);
    BackupIsReady(v);
    var d := Updated(v.row.value);
    var u, w, f;
    a, u, w := TakesDown(a, d, Prepared(v));
    a, f, w := TurnsBack(a, d, u, w);
    StillUpdating(d);
    a := Dies(a, f, w, WithImage(d, NEW));
    a := Renewed(a, w.(row := Some(WithImage(d, NEW).(state := Failed))));
  }

  /** A create asked for while only the utility's container is there. */
  lemma Renewed(a: World, v: View) returns (b: World)
    requires Idle(a, 2, v) && v.row.Some? && v.row.value.state == Failed && HelperOnly(v.x)
    ensures Displaced(b)
  {
    assert CallOf(2, OLD).CreateCall?;
    hide *;
    var w := View(Some(Queue.RenewedRow(v.row.value, CallOf(2, OLD))), v.x.(installed := false), v.c);
    b := AsksAgain(a, 2, v, OLD);
    b := Claims(b, 2, Create, NoPayload, w);
    IsDisplaced(b, v.x, w);
  }

  lemma IsDisplaced(a: World, x: Objects, v: View)
    requires Works(a, 2, Entered(2, Create, NoPayload), v) && HelperOnly(x) && v.x == x.(installed := false)
    ensures Displaced(a)
  {
    WorksTells(a, 2, Entered(2, Create, NoPayload), v);
    FoundIsKept(a, WORKER);
    hide Reachable;
  }
}

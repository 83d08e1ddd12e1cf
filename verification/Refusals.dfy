/** Refusals that last. A purge is refused for ever when the deployment's role owns a second database of it, and a create
    and a purge when the marker of its directory was cut short: both are states the agent makes itself. */
module Refusals {
  import opened Common
  import opened Lifecycle
  import opened Store
  import opened Host
  import opened Programs
  import opened Invariant
  import opened Preservation
  import opened Agent
  import opened Soundness
  import Progress
  import opened Convergence
  import opened Runs
  import Leftovers
  import Outcomes
  import Queue

  // ---- A role that owns another database ----

  /** A database and a role of the deployment, the one owned by the other. */
  predicate Held(c: Cluster, id: Id, name: string, user: string) {
    OwnsDatabase(c, id, name) && c.databases[name].owner == user && OwnsRole(c, id, user)
  }

  predicate SameNames(r: Request, q: Request) {
    r.database == q.database && r.username == q.username
  }

  predicate Named(row: Option<Row>, q: Request) {
    row.Some? ==> SameNames(row.value.request, q)
  }

  /** A delete past its first read works from these names. */
  predicate Knows(f: Frame, q: Request) {
    IsDelete(f.job.kind) && f.pc != Removing(LoadRemove) && f.pc != Returned(Err) ==> SameNames(f.d.request, q)
  }

  lemma ProvisionHolds(f: Frame, v: View, pc: ProvisionPc, e: Oracle, name: string, user: string)
    requires Held(v.c, f.job.id, name, user)
    ensures Held(Provision(f, v, pc, e).v.c, f.job.id, name, user)
  {
    match pc
    case _ =>
  }

  lemma UpgradeHolds(f: Frame, v: View, pc: UpgradePc, e: Oracle, name: string, user: string)
    requires Held(v.c, f.job.id, name, user)
    ensures Held(UpgradeStep(f, v, pc, e).v.c, f.job.id, name, user)
  {
    match pc
    case _ =>
  }

  /** The server keeps the role for the sake of the other database. */
  lemma DropHolds(c: Cluster, id: Id, name: string, q: Request, o: Outcome)
    requires Held(c, id, name, q.username) && name != q.database
    ensures Held(DropDatabase(c, id, q.database, q.username, o).c, id, name, q.username)
  {
    assert Encumbered(c, q.database, q.username);
  }

  lemma RemoveHolds(f: Frame, v: View, pc: RemovePc, e: Oracle, c: Config, name: string, q: Request)
    requires f.pc == Removing(pc) && IsDelete(f.job.kind) && Held(v.c, f.job.id, name, q.username) && name != q.database
    requires Knows(f, q) && Named(v.row, q) && c == RemoveStep(f, v, pc, e)
    ensures Held(c.v.c, f.job.id, name, q.username) && Knows(c.f, q)
  {
    if pc.DropCluster? {
      DropHolds(v.c, f.job.id, name, q, e.outcome);
    }
    hide Held, DropDatabase;
    match pc
    case _ =>
  }

  lemma AdvanceHolds(f: Frame, v: View, e: Oracle, c: Config, name: string, q: Request)
    requires FrameOk(f, v) && Held(v.c, f.job.id, name, q.username) && name != q.database
    requires Knows(f, q) && Named(v.row, q) && c == Advance(f, v, e) && c.f.job == f.job
    ensures Held(c.v.c, f.job.id, name, q.username) && Knows(c.f, q)
  {
    assert f.pc.Removing? ==> IsDelete(f.job.kind);
    assert IsDelete(f.job.kind) ==> f.pc.Removing? || f.pc.Returned?;
    hide FrameOk;
    match f.pc
    case Provisioning(pc) => ProvisionHolds(f, v, pc, e, name, q.username);
    case Upgrading(pc) => UpgradeHolds(f, v, pc, e, name, q.username);
    case Removing(pc) => RemoveHolds(f, v, pc, e, c, name, q);
    case Stopping(_) =>
    case Starts(_) =>
    case Resetting =>
    case Returned(_) =>
  }

  /** Of this deployment the role owns the other database, and every delete of it works from these names. */
  ghost predicate Bound(a: World, id: Id, name: string, q: Request) {
    && Sound(a)
    && Held(a.cluster, id, name, q.username)
    && forall w | w in a.frames && a.frames[w].job.id == id :: Knows(a.frames[w], q)
  }

  lemma SameForHolds(c: Cluster, d: Cluster, id: Id, name: string, user: string)
    requires SameFor(c, d, id) && Held(c, id, name, user)
    ensures Held(d, id, name, user)
  {
    assert OwnsRole(c, id, user) <==> OwnsRole(d, id, user);
  }

  lemma ShapeBinds(a: World, w: WorkerId, b: World, c: Config, id: Id, name: string, q: Request)
    requires Bound(a, id, name, q) && WorkShape(a, w, b, c) && Sound(b) && c.f.job == a.frames[w].job
    requires Held(c.v.c, id, name, q.username) && (c.f.job.id == id ==> Knows(c.f, q))
    ensures Bound(b, id, name, q)
  {
    hide Sound, Held, Knows;
  }

  lemma WorkBinds(a: World, w: WorkerId, o: Oracle, b: World, id: Id, name: string, q: Request)
    requires Bound(a, id, name, q) && name != q.database && Named(RowOf(a.q.db, id), q) && w in a.frames && b == Step(a, Work(w, o))
    ensures Bound(b, id, name, q)
  {
    var f, v := a.frames[w], ViewOf(a, a.frames[w].job.id);
    assert Sound(a) && FrameOk(f, v) && Held(a.cluster, id, name, q.username) && (f.job.id == id ==> Knows(f, q));
    assert v.c == a.cluster && v.row == RowOf(a.q.db, f.job.id);
    hide *;
    var c := Advance(f, v, o);
    FrameOwns(a, w);
    WorkLocal(a, w, o, c);
    Progress.StepKeepsJob(f, v, FoundFor(a, w), c);
    WorkShapes(a, w, o, b, c);
    WorkKeeps(a, w, o, b);
    if f.job.id == id {
      AdvanceHolds(f, v, o, c, name, q);
    } else {
      StepSpares(f, v, FoundFor(a, w), c, id);
      SameForHolds(v.c, c.v.c, id, name, q.username);
    }
    ShapeBinds(a, w, b, c, id, name, q);
  }

  /** Anything but a worker's step leaves the cluster alone and adds no frame past its first read. */
  lemma QuietBinds(a: World, e: Event, b: World, id: Id, name: string, q: Request)
    requires Bound(a, id, name, q) && b == Step(a, e) && (e.Work? ==> e.w !in a.frames) && Sound(b)
    ensures Bound(b, id, name, q)
  {
    hide Sound, Held, Queue.Run, Calls, Claimable;
  }

  lemma StepBinds(a: World, e: Event, b: World, id: Id, name: string, q: Request)
    requires Bound(a, id, name, q) && name != q.database && Named(RowOf(a.q.db, id), q) && b == Step(a, e)
    ensures Bound(b, id, name, q)
  {
    assert Sound(a);
    assert e.Work? ==> e == Work(e.w, e.e);
    hide *;
    if e.Work? && e.w in a.frames {
      WorkBinds(a, e.w, e.e, b, id, name, q);
    } else {
      StepKeeps(a, e, b);
      QuietBinds(a, e, b, id, name, q);
    }
  }

  lemma NoPurgeReturns(a: World, w: WorkerId, id: Id, name: string, q: Request)
    requires Bound(a, id, name, q) && w in a.frames && a.frames[w].job.id == id && a.frames[w].job.kind == DeletePurge
    ensures a.frames[w].pc != Returned(Nil)
  {
    FrameIsLocal(a, w);
    assert ViewOf(a, id).c == a.cluster && FrameOk(a.frames[w], ViewOf(a, id)) && Knows(a.frames[w], q);
    hide Sound;
  }

  ghost predicate NamesStay(a: World, events: seq<Event>, id: Id, q: Request) {
    forall i | 0 <= i <= |events| :: Named(RowOf(Run(a, events[..i]).q.db, id), q)
  }

  lemma NamesBefore(a: World, events: seq<Event>, id: Id, q: Request)
    requires NamesStay(a, events, id, q) && events != []
    ensures NamesStay(a, events[..|events| - 1], id, q)
    ensures Named(RowOf(Run(a, events[..|events| - 1]).q.db, id), q)
  {
    hide Run, Named;
    var before := events[..|events| - 1];
    forall i | 0 <= i <= |before| ensures Named(RowOf(Run(a, before[..i]).q.db, id), q) {
      assert before[..i] == events[..i];
    }
  }

  lemma {:induction false} RunBinds(a: World, events: seq<Event>, id: Id, name: string, q: Request)
    requires Reachable(a) && id in a.q.db.rows && Bound(a, id, name, q) && name != q.database && NamesStay(a, events, id, q)
    ensures var b := Run(a, events); Bound(b, id, name, q) && id in b.q.db.rows
  {
    hide *;
    if events == [] {
      RunOfNothing(a);
    } else {
      var m := |events| - 1;
      var b := Run(a, events[..m]);
      NamesBefore(a, events, id, q);
      RunLast(a, events);
      RunBinds(a, events[..m], id, name, q);
      StepBinds(b, events[m], Run(a, events), id, name, q);
      Outcomes.RunReaches(a, events[..m]);
      Outcomes.PurgeIsAtomic(b, events[m], id);
      if id !in Run(a, events).q.db.rows {
        NoPurgeReturns(b, events[m].w, id, name, q);
      }
    }
  }

  lemma RunOfNothing(a: World)
    ensures Run(a, []) == a
  {
  }

  lemma BoundAtRest(a: World, id: Id, name: string, q: Request)
    requires Reachable(a) && Held(a.cluster, id, name, q.username) && forall w | w in a.frames :: a.frames[w].job.id != id
    ensures Bound(a, id, name, q)
  {
    ReachableIsSound(a);
    hide Reachable, Sound;
  }

  /** While the role named in a deployment's row owns another database of that deployment, no purge of it ever returns
      nil, whatever else is asked for or fails, as long as it is not created anew under other names: both stay, and so
      does the row. */
  lemma SharedRoleBlocks(a: World, events: seq<Event>, id: Id, name: string, q: Request, w: WorkerId)
    requires Reachable(a) && id in a.q.db.rows && Held(a.cluster, id, name, q.username) && name != q.database
    requires (forall v | v in a.frames :: a.frames[v].job.id != id) && NamesStay(a, events, id, q)
    ensures var b := Run(a, events);
      && Held(b.cluster, id, name, q.username) && id in b.q.db.rows
      && (w in b.frames && b.frames[w].job.id == id && b.frames[w].job.kind == DeletePurge ==> b.frames[w].pc != Returned(Nil))
  {
    hide *;
    var b := Run(a, events);
    BoundAtRest(a, id, name, q);
    RunBinds(a, events, id, name, q);
    BoundHolds(b, id, name, q);
    if w in b.frames && b.frames[w].job.id == id && b.frames[w].job.kind == DeletePurge {
      NoPurgeReturns(b, w, id, name, q);
    }
  }

  lemma BoundHolds(a: World, id: Id, name: string, q: Request)
    requires Bound(a, id, name, q)
    ensures Held(a.cluster, id, name, q.username)
  {
  }

  // ---- The run to it ----

  const FIRST := Leftovers.FIRST
  const SHARED := Request("image", "b", "ua", "")

  function RowOfShared(): Row {
    Queue.RenewedRow(Leftovers.Broken(Leftovers.Row1()), CallOf(1, SHARED))
  }

  /** A failed deployment, with nothing under way, whose role owns another database of it. */
  ghost predicate Entangled(a: World) {
    && Reachable(a) && a.frames == map[] && a.q.db.active == map[]
    && ID in a.q.db.rows && a.q.db.rows[ID].state == Failed && a.q.db.rows[ID].request == SHARED
    && Held(a.cluster, ID, "a", SHARED.username) && "a" != SHARED.database
  }

  lemma SharedIs()
    ensures var row := RowOfShared();
      && row == Queue.RenewedRow(Leftovers.Broken(Leftovers.Row1()), CallOf(1, SHARED))
      && row.request == SHARED && row.state == Pending && row.secret.Some? && row.failedStep == ""
      && SHARED.database !in Leftovers.One().databases && !RoleRefused(Leftovers.One(), ID, SHARED.username)
      && Leftovers.Broken(Leftovers.Row1()).state == Failed && NoObjects.(installed := false) == NoObjects
      && Held(Leftovers.Made(Leftovers.One(), SHARED), ID, "a", SHARED.username) && "a" != SHARED.database
  {
    assert "a"[0] != "b"[0];
  }

  lemma IsEntangled(a: World, v: View)
    requires Idle(a, 2, v) && v.row == Some(Leftovers.Broken(RowOfShared())) && v.c == Leftovers.Made(Leftovers.One(), SHARED)
    ensures Entangled(a)
  {
    SharedIs();
    hide Reachable, Leftovers.One, Leftovers.Made, RowOfShared, Held;
  }

  /** There is a run to such a deployment: a create fails once its database is made, and a second one, under another
      database name and the same role, likewise. */
  lemma OneRoleTwoDatabases()
    ensures exists a: World :: Entangled(a)
  {
    SharedIs();
    hide *;
    var a := Leftovers.FirstAttempt();
    a := AsksAgain(a, 1, View(Some(Leftovers.Broken(Leftovers.Row1())), NoObjects, Leftovers.One()), SHARED);
    a := Leftovers.Attempt(a, 1, View(Some(RowOfShared()), NoObjects, Leftovers.One()), RowOfShared());
    IsEntangled(a, View(Some(Leftovers.Broken(RowOfShared())), NoObjects, Leftovers.Made(Leftovers.One(), SHARED)));
  }

  // ---- A marker that was cut short ----

  /** No call mends a spoilt marker. */
  lemma AdvanceKeepsSpoilt(f: Frame, v: View, e: Oracle)
    requires v.x.panel.mark.Spoilt?
    ensures Advance(f, v, e).v.x.panel.mark.Spoilt?
  {
    match f.pc
    case Provisioning(pc) => ProvisionKeepsSpoilt(f, v, pc, e);
    case Upgrading(pc) => UpgradeKeepsSpoilt(f, v, pc, e);
    case Removing(pc) => RemoveKeepsSpoilt(f, v, pc, e);
    case Stopping(_) =>
    case Starts(_) =>
    case Resetting =>
    case Returned(_) =>
  }

  lemma ProvisionKeepsSpoilt(f: Frame, v: View, pc: ProvisionPc, e: Oracle)
    requires v.x.panel.mark.Spoilt?
    ensures Provision(f, v, pc, e).v.x.panel.mark.Spoilt?
  {
    match pc
    case _ =>
  }

  lemma UpgradeKeepsSpoilt(f: Frame, v: View, pc: UpgradePc, e: Oracle)
    requires v.x.panel.mark.Spoilt?
    ensures UpgradeStep(f, v, pc, e).v.x.panel.mark.Spoilt?
  {
    match pc
    case _ =>
  }

  lemma RemoveKeepsSpoilt(f: Frame, v: View, pc: RemovePc, e: Oracle)
    requires v.x.panel.mark.Spoilt?
    ensures RemoveStep(f, v, pc, e).v.x.panel.mark.Spoilt?
  {
    match pc
    case _ =>
  }

  lemma StepKeepsSpoilt(a: World, e: Event, id: Id)
    requires Obj(a.objects, id).panel.mark.Spoilt?
    ensures Obj(Step(a, e).objects, id).panel.mark.Spoilt?
  {
    hide Advance, Queue.Run, Calls;
    if e.Work? && e.w in a.frames && a.frames[e.w].job.id == id {
      AdvanceKeepsSpoilt(a.frames[e.w], ViewOf(a, id), e.e);
    }
  }

  lemma {:induction false} SpoiltForEver(a: World, events: seq<Event>, id: Id)
    requires Obj(a.objects, id).panel.mark.Spoilt?
    ensures Obj(Run(a, events).objects, id).panel.mark.Spoilt?
  {
    hide Step;
    if events != [] {
      SpoiltForEver(a, events[..|events| - 1], id);
      StepKeepsSpoilt(Run(a, events[..|events| - 1]), events[|events| - 1], id);
    }
  }

  lemma NeitherReturns(f: Frame, v: View, found: Option<Spec>)
    requires LocalOk(f, v, found) && v.x.panel.mark.Spoilt? && (f.job.kind == Create || f.job.kind == DeletePurge)
    ensures f.pc != Returned(Nil)
  {
  }

  /** Once the marker of a deployment's panel directory is spoilt it is so for ever, and no create and no purge of the
      deployment returns nil again. */
  lemma SpoiltBlocks(a: World, events: seq<Event>, id: Id, w: WorkerId)
    requires Reachable(a) && Obj(a.objects, id).panel.mark.Spoilt?
    ensures var b := Run(a, events);
      && Obj(b.objects, id).panel.mark.Spoilt?
      && (w in b.frames && b.frames[w].job.id == id && (b.frames[w].job.kind == Create || b.frames[w].job.kind == DeletePurge) ==>
            b.frames[w].pc != Returned(Nil))
  {
    hide *;
    var b := Run(a, events);
    SpoiltForEver(a, events, id);
    Outcomes.RunReaches(a, events);
    if w in b.frames && b.frames[w].job.id == id && (b.frames[w].job.kind == Create || b.frames[w].job.kind == DeletePurge) {
      ReachableIsSound(b);
      FrameIsLocal(b, w);
      ViewIs(b, id);
      NeitherReturns(b.frames[w], ViewOf(b, id), FoundBy(b, b.frames[w].job.op));
    }
  }

  // ---- The run to it ----

  const CUT := Oracle(Torn, map[], None)

  function Pulling(row: Row): Row {
    row.(state := PullingImage)
  }

  lemma ThenMovesOn(n: nat, v: View, d: Row)
    requires v.row == Some(d) && d.state == CreatingDatabase && d.failedStep == ""
    ensures Advance(Leftovers.At(n, Provisioning(ToPullingImage), d), v, GOOD) ==
      Config(Leftovers.At(n, Provisioning(MakeNetworks), Pulling(d)), v.(row := Some(Pulling(d))))
  {
  }

  lemma ThenConnects(n: nat, v: View, d: Row)
    ensures Advance(Leftovers.At(n, Provisioning(MakeNetworks), d), v, GOOD) ==
      Config(Leftovers.At(n, Provisioning(MakePanel), d), v.(x := v.x.(frontend := true, backend := true)))
  {
  }

  lemma ThenCuts(n: nat, v: View, d: Row)
    requires v.x.panel.mark.Bare?
    ensures var c := Advance(Leftovers.At(n, Provisioning(MakePanel), d), v, CUT);
      c.f == Leftovers.At(n, Returned(Err), d) && c.v.row == v.row && c.v.x.panel.mark.Spoilt?
  {
  }

  /** A failed deployment, with nothing under way, the marker of whose directory is spoilt. */
  ghost predicate Cut(a: World) {
    && Reachable(a) && a.frames == map[] && a.q.db.active == map[]
    && ID in a.q.db.rows && a.q.db.rows[ID].state == Failed && Obj(a.objects, ID).panel.mark.Spoilt?
  }

  lemma PullingFails(d: Row)
    requires d.failedStep == ""
    ensures FailedRow(Pulling(d), "").state == Failed
  {
  }

  lemma IsCut(a: World, n: nat, v: View)
    requires Idle(a, n, v) && v.row.Some? && v.row.value.state == Failed && v.x.panel.mark.Spoilt?
    ensures Cut(a)
  {
    hide Reachable;
  }

  lemma ReachesPanel(a: World, v: View, d: Row) returns (b: World, w: View)
    requires Works(a, 0, Leftovers.At(0, Provisioning(ToPullingImage), d), v) && v.row == Some(d)
    requires d.state == CreatingDatabase && d.failedStep == "" && v.x.panel.mark.Bare?
    ensures Works(b, 0, Leftovers.At(0, Provisioning(MakePanel), Pulling(d)), w) && w.row == Some(Pulling(d)) && w.x.panel.mark.Bare?
  {
    var v1 := v.(row := Some(Pulling(d)));
    w := v1.(x := v1.x.(frontend := true, backend := true));
    hide *;
    ThenMovesOn(0, v, d);
    b := OneStep(a, 0, Leftovers.At(0, Provisioning(ToPullingImage), d), v, GOOD, Config(Leftovers.At(0, Provisioning(MakeNetworks), Pulling(d)), v1));
    ThenConnects(0, v1, Pulling(d));
    b := OneStep(b, 0, Leftovers.At(0, Provisioning(MakeNetworks), Pulling(d)), v1, GOOD, Config(Leftovers.At(0, Provisioning(MakePanel), Pulling(d)), w));
  }

  lemma CutsShort(a: World, v: View, d: Row) returns (b: World)
    requires Works(a, 0, Leftovers.At(0, Provisioning(MakePanel), Pulling(d)), v) && v.row == Some(Pulling(d)) && v.x.panel.mark.Bare?
    requires d.failedStep == ""
    ensures Cut(b)
  {
    hide *;
    ThenCuts(0, v, Pulling(d));
    var c := Advance(Leftovers.At(0, Provisioning(MakePanel), Pulling(d)), v, CUT);
    b := OneStep(a, 0, Leftovers.At(0, Provisioning(MakePanel), Pulling(d)), v, CUT, c);
    Leftovers.AtReturned(0, Pulling(d));
    b := EndsFailed(b, 0, c.f, c.v);
    PullingFails(d);
    IsCut(b, 1, View(Some(FailedRow(Pulling(d), "")), c.v.x, c.v.c));
  }

  lemma CreatingIs()
    ensures var d := Leftovers.Creating(Leftovers.Row1()); d.state == CreatingDatabase && d.failedStep == "" && NoObjects.panel.mark.Bare?
  {
  }

  /** There is a run to such a deployment: a create that stops while it writes the marker. */
  lemma CutMarker()
    ensures exists a: World :: Cut(a)
  {
    hide *;
    CreatingIs();
    var d := Leftovers.Creating(Leftovers.Row1());
    var a := Leftovers.Reaches();
    var w;
    a, w := ReachesPanel(a, View(Some(d), NoObjects, Leftovers.One()), d);
    a := CutsShort(a, w, d);
  }
}

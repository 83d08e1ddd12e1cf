/** A deployment's data is destroyed only by a purge somebody paid a token for. */
module Destruction {
  import opened Common
  import opened Lifecycle
  import opened Store
  import opened Host
  import opened Programs
  import opened Invariant
  import opened Preservation
  import opened Agent
  import opened Soundness
  import PurgeTokens
  import Queue

  /** Nothing marked for `id` in PostgreSQL and none of its directories is lost. */
  ghost predicate DataKept(c: Cluster, x: Objects, d: Cluster, y: Objects, id: Id) {
    && (forall n :: OwnsDatabase(c, id, n) ==> OwnsDatabase(d, id, n))
    && (forall u :: OwnsRole(c, id, u) ==> OwnsRole(d, id, u))
    && (x.panel.live ==> y.panel.live)
    && (x.panel.quarantined ==> y.panel.quarantined)
    && (x.backups.live ==> y.backups.live)
    && (x.backups.quarantined ==> y.backups.quarantined)
  }

  lemma EnsureKeepsData(c: Cluster, id: Id, name: string, user: string, o: Outcome, d: Cluster)
    requires d == EnsureDatabase(c, id, name, user, o).c
    ensures forall n :: OwnsDatabase(c, id, n) ==> OwnsDatabase(d, id, n)
    ensures forall u :: OwnsRole(c, id, u) ==> OwnsRole(d, id, u)
  {
  }

  lemma ProvisionDestroysNothing(f: Frame, v: View, pc: ProvisionPc, e: Oracle, c: Config)
    requires c == Provision(f, v, pc, e)
    ensures DataKept(v.c, v.x, c.v.c, c.v.x, f.job.id)
  {
    EnsureKeepsData(v.c, f.job.id, f.d.request.database, f.d.request.username, e.outcome,
                    EnsureDatabase(v.c, f.job.id, f.d.request.database, f.d.request.username, e.outcome).c);
    hide EnsureDatabase;
    match pc
    case _ =>
  }

  lemma UpgradeDestroysNothing(f: Frame, v: View, pc: UpgradePc, e: Oracle, c: Config)
    requires c == UpgradeStep(f, v, pc, e)
    ensures DataKept(v.c, v.x, c.v.c, c.v.x, f.job.id)
  {
    match pc
    case _ =>
  }

  lemma RemoveDestroysNothing(f: Frame, v: View, pc: RemovePc, e: Oracle, c: Config)
    requires f.job.kind != DeletePurge && RemoveOk(f, v, pc) && c == RemoveStep(f, v, pc, e)
    ensures DataKept(v.c, v.x, c.v.c, c.v.x, f.job.id)
  {
    match pc
    case _ =>
  }

  /** No procedure but a purge destroys its deployment's data. */
  lemma OnlyPurgeDestroys(f: Frame, v: View, e: Oracle, c: Config)
    requires f.job.kind != DeletePurge && FrameOk(f, v) && c == Advance(f, v, e)
    ensures DataKept(v.c, v.x, c.v.c, c.v.x, f.job.id)
  {
    match f.pc
    case Provisioning(pc) => ProvisionDestroysNothing(f, v, pc, e, c);
    case Upgrading(pc) => UpgradeDestroysNothing(f, v, pc, e, c);
    case Removing(pc) => RemoveDestroysNothing(f, v, pc, e, c);
    case Stopping(pc) =>
    case Starts(pc) =>
    case Resetting =>
    case Returned(_) =>
  }

  /** Worker `w` is running a queued purge of `id`, and one issuance of a token for `id` paid for it. */
  predicate PurgeRunning(a: World, w: WorkerId, id: Id) {
    && w in a.frames && w in a.q.claims
    && var op := a.q.claims[w];
       && op in a.q.db.ops && a.q.db.ops[op].kind == DeletePurge && a.q.db.ops[op].deployment == id
       && a.q.db.ops[op].status == Running
       && op in a.q.grants && a.q.grants[op] < |a.q.issued| && a.q.issued[a.q.grants[op]] == id
  }

  lemma ReachableGrants(a: World)
    requires Reachable(a)
    ensures forall op :: op in a.q.db.ops && a.q.db.ops[op].kind == DeletePurge ==>
      op in a.q.grants && a.q.grants[op] < |a.q.issued| && a.q.issued[a.q.grants[op]] == a.q.db.ops[op].deployment
    ensures forall o, p :: o in a.q.grants && p in a.q.grants && o != p ==> a.q.grants[o] != a.q.grants[p]
  {
    var objects, cluster, events :| a == Run(Begin(objects, cluster), events);
    AgentRefinesQueue(objects, cluster, events);
    PurgeTokens.PurgesArePaidFor(AllCalls(Begin(objects, cluster), events));
  }

  lemma WorkSpares(a: World, w: WorkerId, b: World, c: Config, id: Id)
    requires WorkShape(a, w, b, c) && OthersKept(a.cluster, c.v.c, a.frames[w].job.id)
    requires DataKept(a.cluster, Obj(a.objects, a.frames[w].job.id), c.v.c, c.v.x, a.frames[w].job.id) || id != a.frames[w].job.id
    ensures DataKept(a.cluster, Obj(a.objects, id), b.cluster, Obj(b.objects, id), id)
  {
    if id != a.frames[w].job.id {
      assert SameFor(a.cluster, c.v.c, id);
      assert Obj(b.objects, id) == Obj(a.objects, id);
    }
  }

  lemma WorkDestroys(a: World, w: WorkerId, o: Oracle, b: World, id: Id)
    requires Sound(a) && w in a.frames && b == Step(a, Work(w, o))
    ensures DataKept(a.cluster, Obj(a.objects, id), b.cluster, Obj(b.objects, id), id)
      || (a.frames[w].job.id == id && a.frames[w].job.kind == DeletePurge)
  {
    var f, v := a.frames[w], ViewOf(a, a.frames[w].job.id);
    var c := Advance(f, v, o);
    FrameOwns(a, w);
    WorkLocal(a, w, o, c);
    FrameIsLocal(a, w);
    assert OthersKept(v.c, c.v.c, f.job.id) && c.v.row.Some? && FrameOk(f, v);
    assert v.c == a.cluster && v.x == Obj(a.objects, f.job.id);
    hide *;
    WorkShapes(a, w, o, b, c);
    if f.job.kind != DeletePurge {
      OnlyPurgeDestroys(f, v, o, c);
      WorkSpares(a, w, b, c, id);
    } else if id != f.job.id {
      WorkSpares(a, w, b, c, id);
    }
  }

  lemma NothingElseDestroys(a: World, e: Event, b: World, id: Id)
    requires b == Step(a, e) && (e.Work? ==> e.w !in a.frames)
    ensures DataKept(a.cluster, Obj(a.objects, id), b.cluster, Obj(b.objects, id), id)
  {
    hide Queue.Run, Calls, Claimable;
    assert b.cluster == a.cluster;
    assert Obj(b.objects, id).panel == Obj(a.objects, id).panel && Obj(b.objects, id).backups == Obj(a.objects, id).backups;
  }

  lemma WorkerOfPurge(a: World, w: WorkerId)
    requires Reachable(a) && w in a.frames && a.frames[w].job.kind == DeletePurge
    ensures PurgeRunning(a, w, a.frames[w].job.id)
  {
    ReachableIsSound(a);
    assert w in a.q.claims && a.q.claims[w] == a.frames[w].job.op;
    var op := a.q.claims[w];
    assert op in a.q.db.ops && a.q.db.ops[op].kind == DeletePurge && a.q.db.ops[op].status == Running;
    assert a.q.db.ops[op].deployment == a.frames[w].job.id;
    hide Reachable, Sound;
    ReachableGrants(a);
  }

  /** In every run, a step after which a deployment owns a database, role or directory less is a step of a worker
      running a purge of that deployment, for which a token had been issued; and no two purges ever share an
      issuance. */
  lemma DestructionIsAuthorised(a: World, e: Event, id: Id)
    requires Reachable(a)
    ensures var b := Step(a, e);
      || DataKept(a.cluster, Obj(a.objects, id), b.cluster, Obj(b.objects, id), id)
      || (e.Work? && PurgeRunning(a, e.w, id))
    ensures forall o, p :: o in a.q.grants && p in a.q.grants && o != p ==> a.q.grants[o] != a.q.grants[p]
  {
    hide *;
    ReachableIsSound(a);
    ReachableGrants(a);
    if e.Work? && e.w in a.frames {
      WorkDestroys(a, e.w, e.e, Step(a, e), id);
      if a.frames[e.w].job.kind == DeletePurge {
        WorkerOfPurge(a, e.w);
      }
    } else {
      NothingElseDestroys(a, e, Step(a, e), id);
    }
  }
}

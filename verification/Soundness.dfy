/** The invariant of the whole agent, over every interleaving of API calls, workers and crashes. */
module Soundness {
  import opened Common
  import opened Lifecycle
  import opened Store
  import opened Host
  import opened Programs
  import opened Invariant
  import opened Preservation
  import opened Agent
  import Queue
  import Submission

  /** The kind of the queued or running operation of a deployment. */
  function OwnerOf(db: Db, id: Id): Option<Kind> {
    if id in db.active && db.active[id] in db.ops then Some(db.ops[db.active[id]].kind) else None
  }

  /** Every row suits the operation that owns its deployment. */
  ghost predicate RowsOk(db: Db, objects: map<Id, Objects>) {
    forall id :: id in db.rows ==> RowOk(OwnerOf(db, id), db.rows[id], Obj(objects, id))
  }

  /** Every queued or running operation has its row; a create also knows the container it found. */
  ghost predicate OwnersOk(db: Db, objects: map<Id, Objects>, found: map<OpId, Option<Spec>>) {
    forall id | id in db.active ::
      && id in db.rows
      && (OwnerOf(db, id) == Some(Create) ==>
            db.active[id] in found && ContainerOk(found[db.active[id]], db.rows[id], Obj(objects, id)))
  }

  /** Frames and claims belong together. */
  ghost predicate JobsOk(q: Queue.Machine, frames: map<WorkerId, Frame>) {
    && frames.Keys == q.claims.Keys
    && (forall w :: w in frames ==>
          var op := frames[w].job.op;
          op == q.claims[w] && op in q.db.ops
          && q.db.ops[op].deployment == frames[w].job.id && q.db.ops[op].kind == frames[w].job.kind)
  }

  ghost predicate FramesOk(a: World) {
    forall w :: w in a.frames ==> FrameOk(a.frames[w], ViewOf(a, a.frames[w].job.id))
  }

  ghost predicate Sound(a: World) {
    && Queue.Exclusive(a.q)
    && a.q.clients == map[]
    && Submission.TokensFit(a.q.db)
    && JobsOk(a.q, a.frames)
    && RowsOk(a.q.db, a.objects)
    && OwnersOk(a.q.db, a.objects, a.found)
    && FramesOk(a)
  }

  /** A worker's operation is the one that owns its deployment. */
  lemma FrameOwns(a: World, w: WorkerId)
    requires Sound(a) && w in a.frames
    ensures var job := a.frames[w].job;
      && job.id in a.q.db.active && a.q.db.active[job.id] == job.op && job.id in a.q.db.rows
      && OwnerOf(a.q.db, job.id) == Some(job.kind)
      && (forall v :: v in a.frames && v != w ==> a.frames[v].job.id != job.id)
  {
  }

  function FoundBy(a: World, op: OpId): Option<Spec> {
    if op in a.found then a.found[op] else None
  }

  lemma FrameIsLocal(a: World, w: WorkerId)
    requires Sound(a) && w in a.frames
    ensures var f := a.frames[w]; LocalOk(f, ViewOf(a, f.job.id), FoundBy(a, f.job.op))
  {
    FrameOwns(a, w);
  }

  /** Another deployment's step changes nothing a frame relies on. */
  lemma FrameStable(f: Frame, v: View, c: Cluster)
    requires FrameOk(f, v) && SameFor(v.c, c, f.job.id)
    ensures FrameOk(f, View(v.row, v.x, c))
  {
    var n := f.d.request.database;
    var u := f.d.request.username;
    assert OwnsDatabase(v.c, f.job.id, n) <==> OwnsDatabase(c, f.job.id, n);
    assert OwnsRole(v.c, f.job.id, u) <==> OwnsRole(c, f.job.id, u);
    assert OwnsDatabase(v.c, f.job.id, n) ==> v.c.databases[n] == c.databases[n];
  }

  lemma AdvanceKeeps(f: Frame, v: View, e: Oracle, found: Option<Spec>, g: Frame, w: View)
    requires LocalOk(f, v, found) && Config(g, w) == Advance(f, v, e) && (f.job.kind != Create ==> found == None)
    ensures StepOk(f, v, found, g, w) && FrameOk(g, w)
  {
    match f.pc
    case Provisioning(pc) => ProvisionKeeps(f, v, pc, e, found, g, w);
    case Stopping(pc) => StopKeeps(f, v, pc, e, g, w);
    case Starts(pc) => StartKeeps(f, v, pc, e, g, w);
    case Upgrading(pc) => UpgradeKeeps(f, v, pc, e, g, w);
    case Removing(pc) => RemoveKeeps(f, v, pc, e, g, w);
    case Resetting => ResetKeeps(f, v, e, g, w);
    case Returned(_) =>
  }

  // ---- Work ----

  function FoundFor(a: World, w: WorkerId): Option<Spec>
    requires w in a.frames
  {
    if a.frames[w].job.kind == Create then FoundBy(a, a.frames[w].job.op) else None
  }

  /** A worker's step writes its own deployment's row and objects, the cluster, and its own frame. */
  ghost predicate WorkShape(a: World, w: WorkerId, b: World, c: Config) {
    && w in a.frames && c.v.row.Some?
    && b.q.db.rows == a.q.db.rows[a.frames[w].job.id := c.v.row.value]
    && b.q.db.ops == a.q.db.ops && b.q.db.active == a.q.db.active && b.q.db.tokens == a.q.db.tokens
    && b.q.claims == a.q.claims && b.q.clients == a.q.clients
    && b.objects == a.objects[a.frames[w].job.id := c.v.x]
    && b.cluster == c.v.c
    && b.frames == a.frames[w := c.f]
    && b.found == a.found
  }

  lemma WorkLocal(a: World, w: WorkerId, e: Oracle, c: Config)
    requires Sound(a) && w in a.frames
    requires c == Advance(a.frames[w], ViewOf(a, a.frames[w].job.id), e)
    ensures StepOk(a.frames[w], ViewOf(a, a.frames[w].job.id), FoundFor(a, w), c.f, c.v) && FrameOk(c.f, c.v)
  {
    FrameIsLocal(a, w);
    hide Sound, FrameOk, DeploymentOk, Advance, RowOk;
    var v := ViewOf(a, a.frames[w].job.id);
    AdvanceKeeps(a.frames[w], v, e, FoundFor(a, w), c.f, c.v);
  }

  lemma WorkShapes(a: World, w: WorkerId, e: Oracle, b: World, c: Config)
    requires w in a.frames && b == Step(a, Work(w, e)) && a.frames[w].job.id in a.q.db.rows
    requires c == Advance(a.frames[w], ViewOf(a, a.frames[w].job.id), e) && c.v.row.Some?
    ensures WorkShape(a, w, b, c)
  {
    hide Advance;
    RunOne(a.q, Queue.WriteRow(a.frames[w].job.id, c.v.row.value));
  }

  lemma OtherFrameAfterWork(a: World, w: WorkerId, b: World, c: Config, v: WorkerId)
    requires Sound(a) && WorkShape(a, w, b, c) && v in a.frames && v != w
    requires c.f.job == a.frames[w].job && OthersKept(a.cluster, c.v.c, c.f.job.id)
    ensures FrameOk(b.frames[v], ViewOf(b, b.frames[v].job.id))
  {
    var f, other := a.frames[v], ViewOf(a, a.frames[v].job.id);
    FrameOwns(a, w);
    assert FrameOk(f, other) && b.frames[v] == f;
    assert ViewOf(b, f.job.id) == View(other.row, other.x, c.v.c) && SameFor(other.c, c.v.c, f.job.id);
    hide *;
    FrameStable(f, other, c.v.c);
  }

  lemma WorkKeepsFrames(a: World, w: WorkerId, b: World, c: Config)
    requires Sound(a) && WorkShape(a, w, b, c)
    requires c.f.job == a.frames[w].job && OthersKept(a.cluster, c.v.c, c.f.job.id) && FrameOk(c.f, c.v)
    ensures FramesOk(b)
  {
    assert ViewOf(b, c.f.job.id) == c.v && b.frames == a.frames[w := c.f];
    hide FrameOk, Sound, WorkShape, ViewOf, OthersKept;
    forall v | v in b.frames ensures FrameOk(b.frames[v], ViewOf(b, b.frames[v].job.id)) {
      if v != w {
        OtherFrameAfterWork(a, w, b, c, v);
      }
    }
  }

  lemma SameOperationsExclusive(q: Queue.Machine, r: Queue.Machine)
    requires Queue.Exclusive(q) && r.db.ops == q.db.ops && r.db.active == q.db.active && r.claims == q.claims
    ensures Queue.Exclusive(r)
  {
  }

  lemma SameJobs(q: Queue.Machine, frames: map<WorkerId, Frame>, r: Queue.Machine, w: WorkerId, g: Frame)
    requires JobsOk(q, frames) && w in frames && g.job == frames[w].job
    requires r.db.ops == q.db.ops && r.claims == q.claims
    ensures JobsOk(r, frames[w := g])
  {
  }

  lemma SameTokens(db: Db, db': Db, id: Id, row: Row)
    requires Submission.TokensFit(db) && db'.tokens == db.tokens && db'.rows == db.rows[id := row]
    ensures Submission.TokensFit(db')
  {
  }

  lemma WorkKeepsJobs(a: World, w: WorkerId, b: World, c: Config)
    requires Sound(a) && WorkShape(a, w, b, c) && c.f.job == a.frames[w].job
    ensures Queue.Exclusive(b.q) && Submission.TokensFit(b.q.db) && JobsOk(b.q, b.frames)
  {
    hide Queue.Exclusive, JobsOk, RowsOk, OwnersOk, FramesOk, Submission.TokensFit;
    SameOperationsExclusive(a.q, b.q);
    SameJobs(a.q, a.frames, b.q, w, c.f);
    SameTokens(a.q.db, b.q.db, a.frames[w].job.id, c.v.row.value);
  }

  lemma OneRowChanged(db: Db, objects: map<Id, Objects>, db': Db, id: Id, row: Row, x: Objects)
    requires RowsOk(db, objects) && db'.ops == db.ops && db'.active == db.active && db'.rows == db.rows[id := row]
    requires RowOk(OwnerOf(db, id), row, x)
    ensures RowsOk(db', objects[id := x])
  {
    hide RowOk;
    forall other | other in db'.rows
      ensures RowOk(OwnerOf(db', other), db'.rows[other], Obj(objects[id := x], other))
    {
      assert OwnerOf(db', other) == OwnerOf(db, other);
    }
  }

  lemma OneOwnerChanged(db: Db, objects: map<Id, Objects>, found: map<OpId, Option<Spec>>, db': Db, id: Id, row: Row, x: Objects)
    requires OwnersOk(db, objects, found)
    requires db'.ops == db.ops && db'.active == db.active && db'.rows == db.rows[id := row] && id in db.active
    requires OwnerOf(db, id) == Some(Create) ==> ContainerOk(found[db.active[id]], row, x)
    ensures OwnersOk(db', objects[id := x], found)
  {
    hide ContainerOk;
    forall other | other in db'.active ensures OwnerOf(db', other) == OwnerOf(db, other) {}
  }

  lemma WorkKeepsRows(a: World, w: WorkerId, b: World, c: Config)
    requires Sound(a) && WorkShape(a, w, b, c)
    requires DeploymentOk(a.frames[w].job.kind, c.v, FoundFor(a, w))
    ensures RowsOk(b.q.db, b.objects) && OwnersOk(b.q.db, b.objects, b.found)
  {
    FrameOwns(a, w);
    var id := a.frames[w].job.id;
    hide RowOk, ContainerOk, Queue.Exclusive, FramesOk, JobsOk, RowsOk, IndexOk;
    OneRowChanged(a.q.db, a.objects, b.q.db, id, c.v.row.value, c.v.x);
    OneOwnerChanged(a.q.db, a.objects, a.found, b.q.db, id, c.v.row.value, c.v.x);
  }

  lemma WorkKeeps(a: World, w: WorkerId, e: Oracle, b: World)
    requires Sound(a) && w in a.frames && b == Step(a, Work(w, e))
    ensures Sound(b)
  {
    var c := Advance(a.frames[w], ViewOf(a, a.frames[w].job.id), e);
    WorkLocal(a, w, e, c);
    FrameOwns(a, w);
    assert c.v.row.Some? && c.f.job == a.frames[w].job;
    WorkShapes(a, w, e, b, c);
    assert b.q.clients == map[];
    hide *;
    WorkKeepsJobs(a, w, b, c);
    WorkKeepsFrames(a, w, b, c);
    WorkKeepsRows(a, w, b, c);
  }

  // ---- Submit ----

  /** Frames other than a create's survive a failed or deleted row being made pending under them. */
  lemma FrameSurvivesRenewal(f: Frame, v: View, row: Row)
    requires f.job.kind != Create && LocalOk(f, v, None)
    requires v.row.value.state == Failed || v.row.value.state == Deleted
    requires row.state == Pending
    ensures FrameOk(f, View(Some(row), v.x.(installed := false), v.c))
  {
  }

  /** The row of the deployment a submission is about. */
  lemma SubmittedRowOk(db: Db, db': Db, call: Queue.Call, x: Objects)
    requires call.id in db.rows ==> RowOk(OwnerOf(db, call.id), db.rows[call.id], x)
    requires Submission.Effect(db, db', call) && Queue.Routable(call) && call.id in db'.rows
    requires call.id in db.active ==> db.active[call.id] in db.ops
    ensures RowOk(OwnerOf(db', call.id), db'.rows[call.id],
                  if RowOf(db', call.id) == RowOf(db, call.id) then x else x.(installed := false))
  {
  }

  lemma SubmitKeepsRows(db: Db, objects: map<Id, Objects>, db': Db, call: Queue.Call, objects': map<Id, Objects>)
    requires RowsOk(db, objects) && IndexOk(db) && Submission.Effect(db, db', call) && Queue.Routable(call)
    requires objects' == if RowOf(db', call.id) == RowOf(db, call.id) then objects
                         else objects[call.id := Obj(objects, call.id).(installed := false)]
    ensures RowsOk(db', objects')
  {
    hide RowOk;
    forall id | id in db'.rows ensures RowOk(OwnerOf(db', id), db'.rows[id], Obj(objects', id)) {
      if id == call.id {
        hide Submission.Effect;
        SubmittedRowOk(db, db', call, Obj(objects, id));
      } else {
        assert OwnerOf(db', id) == OwnerOf(db, id) && db'.rows[id] == db.rows[id];
      }
    }
  }

  /** `Submitted` on the one map it changes beside the objects. */
  function FoundAfter(db: Db, db': Db, id: Id, x: Objects, found: map<OpId, Option<Spec>>): map<OpId, Option<Spec>> {
    if id in db'.active && id !in db.active then found[db'.active[id] := FoundSpec(x)] else found
  }

  lemma SubmittedOwner(db: Db, db': Db, call: Queue.Call, x: Objects, found: map<OpId, Option<Spec>>, y: Objects)
    requires IndexOk(db) && Submission.Effect(db, db', call) && call.id in db'.active
    requires y == if RowOf(db', call.id) == RowOf(db, call.id) then x else x.(installed := false)
    requires call.id in db.active ==> call.id in db.rows
    requires call.id in db.active && OwnerOf(db, call.id) == Some(Create) ==>
      db.active[call.id] in found && ContainerOk(found[db.active[call.id]], db.rows[call.id], x)
      && db.rows[call.id].state != Failed && db.rows[call.id].state != Deleted
    ensures var found' := FoundAfter(db, db', call.id, x, found);
      && call.id in db'.rows
      && (OwnerOf(db', call.id) == Some(Create) ==>
            db'.active[call.id] in found' && ContainerOk(found'[db'.active[call.id]], db'.rows[call.id], y))
  {
  }

  lemma OtherOwner(db: Db, db': Db, call: Queue.Call, x: Objects, found: map<OpId, Option<Spec>>, id: Id)
    requires IndexOk(db) && Submission.Effect(db, db', call) && id != call.id
    ensures id in db'.active <==> id in db.active
    ensures id in db.active ==>
      && db'.active[id] == db.active[id] && OwnerOf(db', id) == OwnerOf(db, id)
      && (var found' := FoundAfter(db, db', call.id, x, found); var op := db.active[id];
          (op in found ==> op in found' && found'[op] == found[op]))
    ensures (id in db'.rows <==> id in db.rows) && (id in db.rows ==> db'.rows[id] == db.rows[id])
  {
  }

  lemma OwnerAt(db: Db, objects: map<Id, Objects>, found: map<OpId, Option<Spec>>, id: Id)
    requires RowsOk(db, objects) && OwnersOk(db, objects, found)
    ensures id in db.active ==> id in db.rows
    ensures id in db.active && OwnerOf(db, id) == Some(Create) ==>
      db.active[id] in found && ContainerOk(found[db.active[id]], db.rows[id], Obj(objects, id))
      && db.rows[id].state != Failed && db.rows[id].state != Deleted
  {
    hide ContainerOk;
    assert id in db.active ==> id in db.rows && RowOk(OwnerOf(db, id), db.rows[id], Obj(objects, id));
  }

  lemma SubmitKeepsOwners(db: Db, objects: map<Id, Objects>, found: map<OpId, Option<Spec>>, db': Db, call: Queue.Call, objects': map<Id, Objects>)
    requires RowsOk(db, objects) && OwnersOk(db, objects, found) && IndexOk(db) && Submission.Effect(db, db', call)
    requires objects' == if RowOf(db', call.id) == RowOf(db, call.id) then objects
                         else objects[call.id := Obj(objects, call.id).(installed := false)]
    ensures OwnersOk(db', objects', FoundAfter(db, db', call.id, Obj(objects, call.id), found))
  {
    var found' := FoundAfter(db, db', call.id, Obj(objects, call.id), found);
    forall id | id in db'.active
      ensures id in db'.rows
      ensures OwnerOf(db', id) == Some(Create) ==>
        db'.active[id] in found' && ContainerOk(found'[db'.active[id]], db'.rows[id], Obj(objects', id))
    {
      if id == call.id {
        hide Submission.Effect, IndexOk, ContainerOk, RowOk;
        OwnerAt(db, objects, found, id);
        SubmittedOwner(db, db', call, Obj(objects, id), found, Obj(objects', id));
      } else {
        hide Submission.Effect, IndexOk, ContainerOk, RowOk;
        OtherOwner(db, db', call, Obj(objects, call.id), found, id);
      }
    }
  }

  lemma ViewAfterSubmit(a: World, q: Queue.Machine, call: Queue.Call, id: Id)
    requires Submission.Effect(a.q.db, q.db, call)
    ensures var b := Submitted(a, q, call.id);
      if id == call.id && RowOf(q.db, id) != RowOf(a.q.db, id) then
        && RowOf(q.db, id).Some? && RowOf(q.db, id).value.state == Pending
        && (id in a.q.db.rows ==> a.q.db.rows[id].state == Failed || a.q.db.rows[id].state == Deleted)
        && ViewOf(b, id) == View(RowOf(q.db, id), ViewOf(a, id).x.(installed := false), a.cluster)
      else ViewOf(b, id) == ViewOf(a, id)
  {
  }

  lemma SubmitKeepsFrames(a: World, q: Queue.Machine, call: Queue.Call)
    requires Sound(a) && Submission.Effect(a.q.db, q.db, call) && Queue.Routable(call)
    ensures FramesOk(Submitted(a, q, call.id))
  {
    var b := Submitted(a, q, call.id);
    assert b.frames == a.frames;
    forall v | v in b.frames ensures FrameOk(b.frames[v], ViewOf(b, b.frames[v].job.id)) {
      FrameAfterSubmit(a, q, call, v);
    }
  }

  lemma FrameAfterSubmit(a: World, q: Queue.Machine, call: Queue.Call, v: WorkerId)
    requires Sound(a) && Submission.Effect(a.q.db, q.db, call) && v in a.frames
    ensures FrameOk(a.frames[v], ViewOf(Submitted(a, q, call.id), a.frames[v].job.id))
  {
    hide *;
    var f, id := a.frames[v], a.frames[v].job.id;
    var view := ViewOf(a, id);
    FrameOwns(a, v);
    FrameIsLocal(a, v);
    ViewAfterSubmit(a, q, call, id);
    FrameView(a, id);
    if id == call.id && RowOf(q.db, id) != RowOf(a.q.db, id) {
      LocalWithoutFound(f, view, FoundBy(a, f.job.op));
      FrameSurvivesRenewal(f, view, RowOf(q.db, id).value);
    } else {
      LocalGives(f, view, FoundBy(a, f.job.op));
    }
  }

  lemma FrameView(a: World, id: Id)
    requires id in a.q.db.rows
    ensures ViewOf(a, id).row == Some(a.q.db.rows[id]) && ViewOf(a, id).c == a.cluster
  {
  }

  lemma LocalGives(f: Frame, v: View, found: Option<Spec>)
    requires LocalOk(f, v, found)
    ensures FrameOk(f, v)
  {
  }

  lemma LocalWithoutFound(f: Frame, v: View, found: Option<Spec>)
    requires LocalOk(f, v, found) && v.row.Some? && (v.row.value.state == Failed || v.row.value.state == Deleted)
    ensures LocalOk(f, v, None) && f.job.kind != Create
  {
  }

  lemma SubmitKeeps(a: World, call: Queue.Call, draws: seq<Queue.Draw>, b: World)
    requires Sound(a) && b == Step(a, Event.Submit(call, draws))
    ensures Sound(b)
  {
    var q := Queue.Run(a.q, Calls(a, Event.Submit(call, draws)));
    Submission.SubmitEffect(a.q, call, draws, q);
    Queue.RunKeepsExclusive(a.q, Calls(a, Event.Submit(call, draws)));
    if Queue.Routable(call) {
      SubmitKeepsRows(a.q.db, a.objects, q.db, call, b.objects);
      SubmitKeepsOwners(a.q.db, a.objects, a.found, q.db, call, b.objects);
      assert b.found == FoundAfter(a.q.db, q.db, call.id, Obj(a.objects, call.id), a.found);
      SubmitKeepsFrames(a, q, call);
      assert JobsOk(q, a.frames);
    }
  }

  // ---- Claim, abandon, crash ----

  /** Nothing but statuses, claims and frames has changed. */
  ghost predicate SameWorld(a: World, b: World) {
    && b.q.db.rows == a.q.db.rows && b.q.db.tokens == a.q.db.tokens && b.q.db.active == a.q.db.active
    && b.objects == a.objects && b.cluster == a.cluster && b.found == a.found && b.q.clients == map[]
    && b.q.db.ops.Keys == a.q.db.ops.Keys
    && (forall o :: o in a.q.db.ops ==>
          b.q.db.ops[o].kind == a.q.db.ops[o].kind && b.q.db.ops[o].deployment == a.q.db.ops[o].deployment)
  }

  lemma SameWorldKeeps(a: World, b: World)
    requires Sound(a) && SameWorld(a, b)
    ensures RowsOk(b.q.db, b.objects) && OwnersOk(b.q.db, b.objects, b.found) && Submission.TokensFit(b.q.db)
    ensures forall id :: ViewOf(b, id) == ViewOf(a, id)
  {
    hide RowOk, ContainerOk, Queue.Exclusive, FramesOk, JobsOk;
    assert forall id :: OwnerOf(b.q.db, id) == OwnerOf(a.q.db, id);
    assert forall id :: ViewOf(b, id) == ViewOf(a, id);
  }

  /** Frames that were there, or that have just been entered. */
  lemma FramesStay(a: World, b: World)
    requires FramesOk(a) && forall id :: ViewOf(b, id) == ViewOf(a, id)
    requires forall v :: v in b.frames ==>
      (v in a.frames && b.frames[v] == a.frames[v]) || FrameOk(b.frames[v], ViewOf(b, b.frames[v].job.id))
    ensures FramesOk(b)
  {
    hide FrameOk;
  }

  lemma EntryOk(f: Frame, v: View, op: OpId, o: Operation)
    requires f == NewFrame(op, o) && v.row.Some?
    ensures FrameOk(f, v)
  {
  }

  lemma ClaimKeepsJobs(a: World, w: WorkerId, op: OpId, b: World)
    requires JobsOk(a.q, a.frames) && w !in a.q.claims && op in a.q.db.ops
    requires b.q == a.q.(db := MarkRunning(a.q.db, op), claims := a.q.claims[w := op])
    requires b.frames == a.frames[w := NewFrame(op, a.q.db.ops[op])]
    ensures JobsOk(b.q, b.frames)
  {
  }

  lemma ClaimShape(a: World, w: WorkerId, op: OpId, b: World)
    requires b == Step(a, Event.Claim(w, op)) && w !in a.q.claims && Claimable(a.q.db, op) && a.q.clients == map[]
    ensures SameWorld(a, b) && b.frames == a.frames[w := NewFrame(op, a.q.db.ops[op])]
    ensures b.q == Queue.Claimed(a.q, w, op)
  {
    assert op in a.q.db.ops;
    RunOne(a.q, Queue.Claim(w, op));
  }

  lemma ClaimKeeps(a: World, w: WorkerId, op: OpId, b: World)
    requires Sound(a) && b == Step(a, Event.Claim(w, op))
    ensures Sound(b)
  {
    if w !in a.q.claims && Claimable(a.q.db, op) {
      ClaimShape(a, w, op, b);
      Queue.ClaimKeepsExclusive(a.q, w, op);
      var f, id := NewFrame(op, a.q.db.ops[op]), a.q.db.ops[op].deployment;
      assert id in a.q.db.rows;
      ClaimKeepsJobs(a, w, op, b);
      SameWorldKeeps(a, b);
      EntryOk(f, ViewOf(b, id), op, a.q.db.ops[op]);
      assert b.frames[w] == f && f.job.id == id;
      hide *;
      FramesStay(a, b);
    }
  }

  lemma AbandonShape(a: World, w: WorkerId, b: World)
    requires b == Step(a, Event.Abandon(w)) && a.q.clients == map[]
    ensures SameWorld(a, b) && b.frames == a.frames - {w}
    ensures b.q.db == a.q.db && b.q.claims == a.q.claims - {w}
  {
    RunOne(a.q, Queue.Abandon(w));
  }

  lemma FewerClaims(q: Queue.Machine, frames: map<WorkerId, Frame>, r: Queue.Machine, w: WorkerId)
    requires Queue.Exclusive(q) && JobsOk(q, frames) && r.db == q.db && r.claims == q.claims - {w}
    ensures Queue.Exclusive(r) && JobsOk(r, frames - {w})
  {
  }

  lemma AbandonKeeps(a: World, w: WorkerId, b: World)
    requires Sound(a) && b == Step(a, Event.Abandon(w))
    ensures Sound(b)
  {
    AbandonShape(a, w, b);
    assert b.q.clients == map[];
    hide *;
    FewerClaims(a.q, a.frames, b.q, w);
    SameWorldKeeps(a, b);
    FramesStay(a, b);
  }

  lemma CrashShape(a: World, b: World)
    requires b == Step(a, Crash) && a.q.clients == map[]
    ensures SameWorld(a, b) && b.frames == map[] && b.q == Queue.Step(a.q, Queue.Reboot) && b.q.claims == map[]
  {
    RunOne(a.q, Queue.Reboot);
  }

  lemma CrashKeeps(a: World, b: World)
    requires Sound(a) && b == Step(a, Crash)
    ensures Sound(b)
  {
    assert Queue.Exclusive(a.q) && a.q.clients == map[];
    CrashShape(a, b);
    hide *;
    Queue.StepKeepsExclusive(a.q, Queue.Reboot);
    SameWorldKeeps(a, b);
    NoFramesLeft(b);
  }

  lemma NoFramesLeft(b: World)
    requires Queue.Exclusive(b.q) && b.frames == map[] && b.q.claims == map[] && b.q.clients == map[]
    requires RowsOk(b.q.db, b.objects) && OwnersOk(b.q.db, b.objects, b.found) && Submission.TokensFit(b.q.db)
    ensures Sound(b)
  {
    hide Queue.Exclusive, RowsOk, OwnersOk, Submission.TokensFit;
  }

  // ---- Finish ----

  /** A procedure that returned nil, or rolled back, has left its deployment in a state no operation owns. */
  lemma SettledRow(f: Frame, v: View, found: Option<Spec>)
    requires LocalOk(f, v, found) && (f.pc == Returned(Nil) || f.pc == Returned(RolledBack))
    ensures RowOk(None, v.row.value, v.x)
  {
  }

  lemma FailedRowOk(owner: Option<Kind>, row: Row, x: Objects, text: string)
    requires RowOk(owner, row, x)
    ensures RowOk(None, FailedRow(row, text), x)
    ensures FailedRow(row, text).state == Failed || FailedRow(row, text).state == Deleted
    ensures AlongEdge(Some(row), Some(FailedRow(row, text)))
  {
  }

  /** What closing operation `op` of deployment `id` does to the tables. */
  ghost predicate ClosedDb(db: Db, id: Id, db': Db) {
    && IndexOk(db')
    && db'.active == db.active - {id}
    && db'.ops.Keys == db.ops.Keys
    && (forall o :: o in db.ops ==>
          && db'.ops[o].kind == db.ops[o].kind && db'.ops[o].deployment == db.ops[o].deployment
          && (db.ops[o].deployment != id ==> db'.ops[o].status == db.ops[o].status))
    && (forall i :: i != id ==> RowOf(db', i) == RowOf(db, i))
    && (id in db'.rows ==> id in db.rows)
    && (forall k :: k in db'.tokens ==> k in db.tokens && (k.id == id && id in db.rows ==> id in db'.rows))
  }

  lemma CloseShape(db: Db, op: OpId, ok: bool, db': Db)
    requires IndexOk(db) && op in db.ops && IsActive(db.ops[op].status) && db' == Queue.Close(db, op, ok)
    ensures ClosedDb(db, db.ops[op].deployment, db')
    ensures db'.rows == db.rows - (if ok && db.ops[op].kind == DeletePurge then {db.ops[op].deployment} else {})
  {
    Queue.CloseEffect(db, op, ok);
    hide Queue.Close, IndexOk;
  }

  /** A finished worker: its deployment has lost its owner, and its row is settled or gone. */
  ghost predicate FinishShape(a: World, w: WorkerId, b: World) {
    && w in a.frames
    && ClosedDb(a.q.db, a.frames[w].job.id, b.q.db)
    && (a.frames[w].job.id in b.q.db.rows ==>
          RowOk(None, b.q.db.rows[a.frames[w].job.id], Obj(a.objects, a.frames[w].job.id)))
    && b.q.claims == a.q.claims - {w} && b.q.clients == map[]
    && b.frames == a.frames - {w}
    && b.objects == a.objects && b.cluster == a.cluster && b.found == a.found
  }

  lemma FinishOneShape(a: World, w: WorkerId, text: string, b: World)
    requires w in a.frames && w in a.q.claims && b == Step(a, Event.Finish(w, text)) && a.q.clients == map[]
    requires a.frames[w].pc == Returned(Nil) || a.frames[w].pc == Returned(RolledBack)
    ensures b.q.db == Queue.Close(a.q.db, a.q.claims[w], a.frames[w].pc == Returned(Nil))
    ensures b.q.claims == a.q.claims - {w} && b.q.clients == map[] && b.frames == a.frames - {w}
    ensures b.objects == a.objects && b.cluster == a.cluster && b.found == a.found
  {
    hide Queue.Close;
    RunOne(a.q, Queue.Finish(w, a.frames[w].pc.result == Nil));
  }

  lemma FinishErrShape(a: World, w: WorkerId, text: string, b: World)
    requires w in a.frames && w in a.q.claims && b == Step(a, Event.Finish(w, text)) && a.q.clients == map[]
    requires a.frames[w].pc == Returned(Err) && a.frames[w].job.id in a.q.db.rows
    ensures b.q.db == SaveRow(Queue.Close(a.q.db, a.q.claims[w], false), a.frames[w].job.id,
                              FailedRow(a.q.db.rows[a.frames[w].job.id], text)).0
    ensures b.q.claims == a.q.claims - {w} && b.q.clients == map[] && b.frames == a.frames - {w}
    ensures b.objects == a.objects && b.cluster == a.cluster && b.found == a.found
  {
    hide Queue.Close, SaveRow, FailedRow;
    RunTwo(a.q, Queue.Finish(w, false), Queue.WriteRow(a.frames[w].job.id, FailedRow(a.q.db.rows[a.frames[w].job.id], text)));
  }

  lemma SaveAfterClose(db: Db, id: Id, db': Db, row: Row)
    requires ClosedDb(db, id, db') && id in db.rows && id in db'.rows
    ensures ClosedDb(db, id, SaveRow(db', id, row).0)
  {
  }

  lemma FinishErrShapes(a: World, w: WorkerId, text: string, b: World)
    requires Sound(a) && w in a.frames && a.frames[w].pc == Returned(Err) && b == Step(a, Event.Finish(w, text))
    ensures FinishShape(a, w, b)
    ensures b.q.db.rows == a.q.db.rows[a.frames[w].job.id := FailedRow(a.q.db.rows[a.frames[w].job.id], text)]
  {
    FrameOwns(a, w);
    FrameIsLocal(a, w);
    var f, id := a.frames[w], a.frames[w].job.id;
    var row, db := FailedRow(a.q.db.rows[id], text), Queue.Close(a.q.db, f.job.op, false);
    assert ViewOf(a, id).row == Some(a.q.db.rows[id]) && ViewOf(a, id).x == Obj(a.objects, id);
    FailedRowOk(Some(f.job.kind), a.q.db.rows[id], Obj(a.objects, id), text);
    hide LocalOk, FrameOk, RowOk, Queue.Close, FailedRow, RowsOk, OwnersOk, FramesOk;
    CloseShape(a.q.db, f.job.op, false, db);
    FinishErrShape(a, w, text, b);
    hide Step, ClosedDb, Queue.Exclusive, JobsOk;
    SaveAfterClose(a.q.db, id, db, row);
  }

  lemma SettledShapes(a: World, w: WorkerId, text: string, b: World)
    requires Sound(a) && w in a.frames && b == Step(a, Event.Finish(w, text))
    requires a.frames[w].pc == Returned(Nil) || a.frames[w].pc == Returned(RolledBack)
    ensures FinishShape(a, w, b)
  {
    var f, ok := a.frames[w], a.frames[w].pc == Returned(Nil);
    hide *;
    FrameOwns(a, w);
    FrameIsLocal(a, w);
    var v, db := ViewOf(a, f.job.id), Queue.Close(a.q.db, f.job.op, ok);
    ClaimHolds(a, w);
    RunningIsActive();
    FrameView(a, f.job.id);
    SettledRow(f, v, FoundBy(a, f.job.op));
    CloseShape(a.q.db, f.job.op, ok, db);
    FinishOneShape(a, w, text, b);
    SettledFinish(a, w, b, v, if ok && f.job.kind == DeletePurge then {f.job.id} else {});
  }

  /** The facts about a worker's claim that closing relies on. */
  lemma ClaimHolds(a: World, w: WorkerId)
    requires Sound(a) && w in a.frames
    ensures var job := a.frames[w].job;
      && IndexOk(a.q.db) && a.q.clients == map[] && w in a.q.claims && a.q.claims[w] == job.op
      && job.op in a.q.db.ops && a.q.db.ops[job.op].status == Running
      && a.q.db.ops[job.op].deployment == job.id && a.q.db.ops[job.op].kind == job.kind && job.id in a.q.db.rows
  {
    FrameOwns(a, w);
    hide RowsOk, FramesOk;
  }

  lemma RunningIsActive()
    ensures IsActive(Running)
  {
  }

  lemma SettledFinish(a: World, w: WorkerId, b: World, v: View, gone: set<Id>)
    requires w in a.frames && a.frames[w].job.id in a.q.db.rows && v == ViewOf(a, a.frames[w].job.id)
    requires v.row.Some? && RowOk(None, v.row.value, v.x)
    requires ClosedDb(a.q.db, a.frames[w].job.id, b.q.db)
    requires b.q.db.rows == a.q.db.rows - gone
    requires b.q.claims == a.q.claims - {w} && b.q.clients == map[] && b.frames == a.frames - {w}
    requires b.objects == a.objects && b.cluster == a.cluster && b.found == a.found
    ensures FinishShape(a, w, b)
  {
    hide RowOk, ClosedDb;
  }

  lemma FinishShapes(a: World, w: WorkerId, text: string, b: World)
    requires Sound(a) && w in a.frames && a.frames[w].pc.Returned? && b == Step(a, Event.Finish(w, text))
    ensures FinishShape(a, w, b)
  {
    hide *;
    var r := a.frames[w].pc.result;
    assert a.frames[w].pc == Returned(r);
    if r == Err {
      FinishErrShapes(a, w, text, b);
    } else {
      assert r == Nil || r == RolledBack;
      SettledShapes(a, w, text, b);
    }
  }

  lemma ClosedKeepsRows(db: Db, objects: map<Id, Objects>, found: map<OpId, Option<Spec>>, id: Id, db': Db)
    requires RowsOk(db, objects) && OwnersOk(db, objects, found) && ClosedDb(db, id, db') && IndexOk(db)
    requires id in db'.rows ==> RowOk(None, db'.rows[id], Obj(objects, id))
    ensures RowsOk(db', objects) && OwnersOk(db', objects, found)
  {
    hide RowOk, ContainerOk;
    forall i | i != id ensures OwnerOf(db', i) == OwnerOf(db, i) {}
    forall i | i in db'.rows ensures RowOk(OwnerOf(db', i), db'.rows[i], Obj(objects, i)) {
      if i != id {
        assert RowOf(db', i) == RowOf(db, i);
      }
    }
    forall i | i in db'.active ensures i in db'.rows && db'.rows[i] == db.rows[i] && i in db.rows {
      assert i != id && RowOf(db', i) == RowOf(db, i);
    }
  }

  lemma ClosedKeepsTokens(db: Db, id: Id, db': Db)
    requires Submission.TokensFit(db) && ClosedDb(db, id, db')
    ensures Submission.TokensFit(db')
  {
    forall k | k in db'.tokens ensures k.id in db'.rows {
      assert k in db.tokens && k.id in db.rows;
      if k.id != id {
        assert RowOf(db', k.id) == RowOf(db, k.id);
      }
    }
  }

  /** Claims of other workers are of other deployments, so closing one leaves them running. */
  lemma ClosedKeepsClaims(q: Queue.Machine, w: WorkerId, r: Queue.Machine)
    requires Queue.Exclusive(q) && w in q.claims && r.claims == q.claims - {w}
    requires ClosedDb(q.db, q.db.ops[q.claims[w]].deployment, r.db)
    ensures Queue.Exclusive(r)
  {
    forall v | v in r.claims ensures r.claims[v] in r.db.ops && r.db.ops[r.claims[v]].status == Running {
      assert q.claims[v] != q.claims[w];
      assert q.db.ops[q.claims[v]].deployment != q.db.ops[q.claims[w]].deployment;
    }
  }

  lemma ClosedKeepsJobs(q: Queue.Machine, frames: map<WorkerId, Frame>, w: WorkerId, r: Queue.Machine, id: Id)
    requires JobsOk(q, frames) && r.claims == q.claims - {w} && ClosedDb(q.db, id, r.db)
    ensures JobsOk(r, frames - {w})
  {
    hide IndexOk;
  }

  lemma OtherFrameAfterFinish(a: World, w: WorkerId, b: World, v: WorkerId)
    requires Sound(a) && FinishShape(a, w, b) && v in a.frames && v != w
    ensures FrameOk(a.frames[v], ViewOf(b, a.frames[v].job.id))
  {
    FrameOwns(a, w);
    var id := a.frames[v].job.id;
    assert FrameOk(a.frames[v], ViewOf(a, id));
    hide FrameOk, RowOk, Queue.Exclusive, RowsOk, OwnersOk, JobsOk, FramesOk;
    assert RowOf(b.q.db, id) == RowOf(a.q.db, id);
    assert ViewOf(b, id) == ViewOf(a, id);
  }

  lemma ClosedKeepsFrames(a: World, w: WorkerId, b: World)
    requires Sound(a) && FinishShape(a, w, b)
    ensures FramesOk(b)
  {
    assert b.frames == a.frames - {w};
    hide FrameOk, Sound, FinishShape, ViewOf;
    forall v | v in b.frames ensures FrameOk(b.frames[v], ViewOf(b, b.frames[v].job.id)) {
      OtherFrameAfterFinish(a, w, b, v);
    }
  }

  lemma FinishKeeps(a: World, w: WorkerId, text: string, b: World)
    requires Sound(a) && b == Step(a, Event.Finish(w, text))
    ensures Sound(b)
  {
    if w in a.frames && a.frames[w].pc.Returned? {
      FinishShapes(a, w, text, b);
      ClosedKeepsFrames(a, w, b);
      var id := a.frames[w].job.id;
      assert a.q.db.ops[a.q.claims[w]].deployment == id && b.q.clients == map[] && b.frames == a.frames - {w};
      hide Step, FrameOk, RowOk, ClosedDb, RowsOk, OwnersOk, JobsOk, FramesOk, IndexOk;
      ClosedKeepsClaims(a.q, w, b.q);
      ClosedKeepsJobs(a.q, a.frames, w, b.q, id);
      ClosedKeepsRows(a.q.db, a.objects, a.found, id, b.q.db);
      ClosedKeepsTokens(a.q.db, id, b.q.db);
    }
  }

  // ---- Every run ----

  lemma StepKeeps(a: World, e: Event, b: World)
    requires Sound(a) && b == Step(a, e)
    ensures Sound(b)
  {
    match e
    case Submit(call, draws) => SubmitKeeps(a, call, draws, b);
    case Claim(w, op) => ClaimKeeps(a, w, op, b);
    case Work(w, o) =>
      if w in a.frames {
        WorkKeeps(a, w, o, b);
      }
    case Finish(w, text) => FinishKeeps(a, w, text, b);
    case Abandon(w) => AbandonKeeps(a, w, b);
    case Crash => CrashKeeps(a, b);
  }

  lemma {:induction false} RunKeeps(objects: map<Id, Objects>, cluster: Cluster, events: seq<Event>)
    ensures Sound(Run(Begin(objects, cluster), events))
  {
    if events != [] {
      var before := Run(Begin(objects, cluster), events[..|events| - 1]);
      RunKeeps(objects, cluster, events[..|events| - 1]);
      StepKeeps(before, events[|events| - 1], Step(before, events[|events| - 1]));
    }
  }

  lemma ReachableIsSound(a: World)
    requires Reachable(a)
    ensures Sound(a)
  {
    var objects, cluster, events :| a == Run(Begin(objects, cluster), events);
    RunKeeps(objects, cluster, events);
  }
}

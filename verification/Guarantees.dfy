/** What the agent guarantees over every run: any API calls, any number of workers, any failures of outside
    calls, and crashes between any two steps. */
module Guarantees {
  import opened Common
  import opened Lifecycle
  import opened Store
  import opened Host
  import opened Programs
  import opened Invariant
  import opened Preservation
  import opened Agent
  import opened Soundness
  import PurgeTokens
  import Queue
  import Submission

  // ---- Ownership of transient states ----

  lemma RowFits(a: World, id: Id)
    requires Reachable(a) && id in a.q.db.rows
    ensures RowOk(OwnerOf(a.q.db, id), a.q.db.rows[id], Obj(a.objects, id)) && IndexOk(a.q.db)
  {
    ReachableIsSound(a);
    hide RowOk;
  }

  /** A deployment in a transient state has exactly one queued or running operation, of the kind that owns the
      state. */
  lemma TransientStatesAreOwned(a: World, id: Id)
    requires Reachable(a) && id in a.q.db.rows && Transient(a.q.db.rows[id].state)
    ensures var db := a.q.db;
      exists op ::
        && op in db.ops && IsActive(db.ops[op].status) && db.ops[op].deployment == id
        && Owned(db.rows[id].state, Some(db.ops[op].kind))
        && (forall p :: p in db.ops && IsActive(db.ops[p].status) && db.ops[p].deployment == id ==> p == op)
  {
    RowFits(a, id);
    hide Reachable;
    var op := a.q.db.active[id];
    assert op in a.q.db.ops && a.q.db.ops[op].deployment == id;
  }

  /** A deployment that is being checked, in use, stopped or updating keeps no bootstrap secret, because its
      install command has succeeded since its last accepted create. */
  lemma InstalledBeforeUsable(a: World, id: Id)
    requires Reachable(a) && id in a.q.db.rows && Usable(a.q.db.rows[id].state)
    ensures a.q.db.rows[id].bootstrap.None? && Obj(a.objects, id).installed
  {
    RowFits(a, id);
    hide Reachable;
  }

  // ---- Stored states move along the table ----

  lemma SubmitMovesAlongEdges(a: World, call: Queue.Call, draws: seq<Queue.Draw>, b: World, id: Id)
    requires Sound(a) && b == Step(a, Event.Submit(call, draws))
    ensures AlongEdge(RowOf(a.q.db, id), RowOf(b.q.db, id))
  {
    hide RowsOk, OwnersOk, FramesOk, JobsOk, Queue.Exclusive;
    Submission.SubmitEffect(a.q, call, draws, b.q);
  }

  lemma WorkMovesAlongEdges(a: World, w: WorkerId, o: Oracle, b: World, id: Id)
    requires Sound(a) && w in a.frames && b == Step(a, Work(w, o))
    ensures AlongEdge(RowOf(a.q.db, id), RowOf(b.q.db, id))
  {
    hide *;
    var f, v := a.frames[w], ViewOf(a, a.frames[w].job.id);
    var c := Advance(f, v, o);
    FrameOwns(a, w);
    WorkLocal(a, w, o, c);
    FrameView(a, f.job.id);
    StepMoves(f, v, FoundFor(a, w), c);
    WorkShapes(a, w, o, b, c);
    ShapeRows(a, w, b, c);
    OneRowAlongEdge(a.q.db, b.q.db, f.job.id, c.v.row.value, id);
  }

  lemma StepMoves(f: Frame, v: View, found: Option<Spec>, c: Config)
    requires StepOk(f, v, found, c.f, c.v) && v.row.Some?
    ensures c.v.row.Some? && AlongEdge(Some(v.row.value), Some(c.v.row.value))
  {
  }

  lemma ShapeRows(a: World, w: WorkerId, b: World, c: Config)
    requires WorkShape(a, w, b, c)
    ensures w in a.frames && c.v.row.Some? && b.q.db.rows == a.q.db.rows[a.frames[w].job.id := c.v.row.value]
  {
  }

  lemma OneRowAlongEdge(db: Db, db': Db, id: Id, row: Row, i: Id)
    requires id in db.rows && db'.rows == db.rows[id := row] && AlongEdge(Some(db.rows[id]), Some(row))
    ensures AlongEdge(RowOf(db, i), RowOf(db', i))
  {
  }

  lemma RowsOnlyVanish(db: Db, db': Db, gone: set<Id>, i: Id)
    requires db'.rows == db.rows - gone && i in db'.rows
    ensures AlongEdge(RowOf(db, i), RowOf(db', i))
  {
  }

  lemma ErrMovesAlongEdges(a: World, w: WorkerId, text: string, b: World, id: Id)
    requires Sound(a) && w in a.frames && a.frames[w].pc == Returned(Err) && b == Step(a, Event.Finish(w, text))
    ensures AlongEdge(RowOf(a.q.db, id), RowOf(b.q.db, id))
  {
    var own := a.frames[w].job.id;
    FrameOwns(a, w);
    FinishErrShapes(a, w, text, b);
    var row := FailedRow(a.q.db.rows[own], text);
    assert AlongEdge(Some(a.q.db.rows[own]), Some(row));
    hide *;
    OneRowAlongEdge(a.q.db, b.q.db, own, row, id);
  }

  lemma SettledMovesAlongEdges(a: World, w: WorkerId, text: string, b: World, id: Id)
    requires Sound(a) && w in a.frames && b == Step(a, Event.Finish(w, text)) && id in b.q.db.rows
    requires a.frames[w].pc == Returned(Nil) || a.frames[w].pc == Returned(RolledBack)
    ensures AlongEdge(RowOf(a.q.db, id), RowOf(b.q.db, id))
  {
    var f, ok := a.frames[w], a.frames[w].pc == Returned(Nil);
    FrameOwns(a, w);
    assert a.q.clients == map[] && w in a.q.claims && a.q.claims[w] == f.job.op;
    assert IndexOk(a.q.db) && f.job.op in a.q.db.ops && IsActive(a.q.db.ops[f.job.op].status);
    hide *;
    FinishOneShape(a, w, text, b);
    CloseShape(a.q.db, f.job.op, ok, b.q.db);
    RowsOnlyVanish(a.q.db, b.q.db, if ok && a.q.db.ops[f.job.op].kind == DeletePurge then {a.q.db.ops[f.job.op].deployment} else {}, id);
  }

  lemma StepMovesAlongEdges(a: World, e: Event, b: World, id: Id)
    requires Sound(a) && b == Step(a, e) && id in b.q.db.rows
    ensures AlongEdge(RowOf(a.q.db, id), RowOf(b.q.db, id))
  {
    hide Sound;
    match e
    case Submit(call, draws) => SubmitMovesAlongEdges(a, call, draws, b, id);
    case Work(w, o) =>
      if w in a.frames {
        WorkMovesAlongEdges(a, w, o, b, id);
      }
    case Finish(w, text) =>
      if w in a.frames && a.frames[w].pc.Returned? {
        if a.frames[w].pc == Returned(Err) {
          ErrMovesAlongEdges(a, w, text, b, id);
        } else {
          SettledMovesAlongEdges(a, w, text, b, id);
        }
      }
    case Claim(w, op) => RunOne(a.q, Queue.Claim(w, op));
    case Abandon(w) => RunOne(a.q, Queue.Abandon(w));
    case Crash => RunOne(a.q, Queue.Reboot);
  }

  /** Every step of every run moves the stored state of every surviving deployment along an edge of the
      transition table or not at all, although procedures write whole rows from memory. */
  lemma StatesMoveAlongEdges(a: World, e: Event, id: Id)
    requires Reachable(a) && id in Step(a, e).q.db.rows
    ensures AlongEdge(RowOf(a.q.db, id), RowOf(Step(a, e).q.db, id))
  {
    ReachableIsSound(a);
    hide Sound, Reachable;
    StepMovesAlongEdges(a, e, Step(a, e), id);
  }

  // ---- No lost updates ----

  predicate Remembering(pc: Pc) {
    || (pc.Provisioning? && !pc.provision.Load?)
    || (pc.Upgrading? && !pc.upgrade.LoadUpgrade? && !pc.upgrade.Prune?)
  }

  lemma MemoryIsRow(f: Frame, v: View, found: Option<Spec>)
    requires LocalOk(f, v, found) && Remembering(f.pc)
    ensures v.row == Some(f.d)
  {
  }

  /** While a create or an upgrade runs, past its first read and until it returns, its in-memory row is the
      stored row. */
  lemma MemoryMatchesStore(a: World, w: WorkerId)
    requires Reachable(a) && w in a.frames && Remembering(a.frames[w].pc)
    ensures RowOf(a.q.db, a.frames[w].job.id) == Some(a.frames[w].d)
  {
    ReachableIsSound(a);
    FrameIsLocal(a, w);
    var f, v := a.frames[w], ViewOf(a, a.frames[w].job.id);
    assert v.row == RowOf(a.q.db, f.job.id);
    hide *;
    MemoryIsRow(f, v, FoundBy(a, f.job.op));
  }

  /** Which column a whole-row write may change. */
  predicate OneColumn(f: Frame, before: Row, after: Row) {
    && (f.pc == Provisioning(ForgetBootstrap) ==> after == before || after == before.(bootstrap := None))
    && (f.pc == Upgrading(SaveNewImage) ==>
          after == before || (f.job.payload.UpgradeTo? && after == WithImage(before, f.job.payload.image)))
    && (f.pc == Upgrading(SaveOldImage) ==> after == WithImage(before, f.u.oldImage))
  }

  lemma SaveIsOneColumn(f: Frame, v: View, found: Option<Spec>, o: Oracle, c: Config)
    requires LocalOk(f, v, found) && c == Advance(f, v, o) && c.v.row.Some?
    ensures v.row.Some? && OneColumn(f, v.row.value, c.v.row.value)
  {
    assert v.row.Some?;
    if f.pc == Provisioning(ForgetBootstrap) || f.pc == Upgrading(SaveNewImage) || f.pc == Upgrading(SaveOldImage) {
      MemoryIsRow(f, v, found);
      hide LocalOk;
    }
  }

  /** So a whole-row write changes exactly the column it is for: the bootstrap secret, or the image. */
  lemma SavesChangeOneColumn(a: World, w: WorkerId, o: Oracle)
    requires Reachable(a) && w in a.frames
    ensures var id, db, db' := a.frames[w].job.id, a.q.db, Step(a, Work(w, o)).q.db;
      id in db.rows && id in db'.rows && OneColumn(a.frames[w], db.rows[id], db'.rows[id])
  {
    ReachableIsSound(a);
    FrameOwns(a, w);
    var f, v := a.frames[w], ViewOf(a, a.frames[w].job.id);
    var c := Advance(f, v, o);
    WorkLocal(a, w, o, c);
    FrameIsLocal(a, w);
    assert c.v.row.Some? && v.row == Some(a.q.db.rows[f.job.id]);
    hide Reachable, Sound, OneColumn, Advance, LocalOk, FrameOk, StepOk, Step;
    SaveIsOneColumn(f, v, FoundBy(a, f.job.op), o, c);
    WorkShapes(a, w, o, Step(a, Work(w, o)), c);
  }
}

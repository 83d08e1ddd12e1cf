/** What is left when a worker closes its operation. */
module Outcomes {
  import opened Common
  import opened Lifecycle
  import opened Store
  import opened Host
  import opened Programs
  import opened Invariant
  import opened Preservation
  import opened Agent
  import opened Soundness
  import opened Progress
  import opened Convergence
  import Queue
  import Submission

  /** Closing with a nil return: the operation succeeds, and a purge's row and tokens go with it. */
  ghost predicate Succeeds(db: Db, op: OpId, db': Db) {
    && op in db.ops && op in db'.ops && db.ops[op].status == Running && db'.ops[op].status == Succeeded
    && (forall o :: o in db.ops && o != op ==> o in db'.ops && db'.ops[o].status == db.ops[o].status)
    && var id, purge := db.ops[op].deployment, db.ops[op].kind == DeletePurge;
       && db'.rows == db.rows - (if purge then {id} else {})
       && (forall k :: k in db'.tokens <==> k in db.tokens && !(purge && k.id == id))
  }

  /** Closing with an error: the operation fails, and the row becomes `row`. */
  ghost predicate Fails(db: Db, op: OpId, row: Row, db': Db) {
    && op in db.ops && op in db'.ops && db.ops[op].status == Running && db'.ops[op].status == Failure
    && (forall o :: o in db.ops && o != op ==> o in db'.ops && db'.ops[o].status == db.ops[o].status)
    && db.ops[op].deployment in db.rows
    && db'.rows == db.rows[db.ops[op].deployment := row]
    && db'.tokens.Keys == db.tokens.Keys
  }

  lemma CloseSucceeds(db: Db, op: OpId, db': Db)
    requires IndexOk(db) && op in db.ops && db.ops[op].status == Running && db' == Queue.Close(db, op, true)
    ensures Succeeds(db, op, db')
  {
    Queue.CloseEffect(db, op, true);
    hide Queue.Close, IndexOk;
  }

  lemma CloseFails(db: Db, op: OpId, row: Row, db': Db)
    requires IndexOk(db) && op in db.ops && db.ops[op].status == Running && db.ops[op].deployment in db.rows
    requires db' == SaveRow(Queue.Close(db, op, false), db.ops[op].deployment, row).0
    ensures Fails(db, op, row, db')
  {
    Queue.CloseEffect(db, op, false);
    hide Queue.Close, IndexOk;
  }

  lemma RolledBackFails(db: Db, op: OpId, db': Db)
    requires IndexOk(db) && op in db.ops && db.ops[op].status == Running && db.ops[op].deployment in db.rows
    requires db' == Queue.Close(db, op, false)
    ensures Fails(db, op, db.rows[db.ops[op].deployment], db')
  {
    Queue.CloseEffect(db, op, false);
    hide Queue.Close, IndexOk;
  }

  /** A worker that returned nil closes its operation as succeeded; one that returned an error fails it and its
      deployment, wherever the table has that edge; one that rolled back fails the operation alone. */
  lemma FinishEffect(a: World, w: WorkerId, text: string, b: World)
    requires Sound(a) && w in a.frames && a.frames[w].pc.Returned? && b == Step(a, Event.Finish(w, text))
    ensures var job, r := a.frames[w].job, a.frames[w].pc.result;
      && job.id in a.q.db.rows
      && (r == Nil ==> Succeeds(a.q.db, job.op, b.q.db))
      && (r == RolledBack ==> Fails(a.q.db, job.op, a.q.db.rows[job.id], b.q.db))
      && (r == Err ==> Fails(a.q.db, job.op, FailedRow(a.q.db.rows[job.id], text), b.q.db))
    ensures w !in b.frames && b.objects == a.objects && b.cluster == a.cluster
  {
    hide *;
    var job, r := a.frames[w].job, a.frames[w].pc.result;
    assert a.frames[w].pc == Returned(r);
    ClaimHolds(a, w);
    if r == Err {
      FinishErrShape(a, w, text, b);
      CloseFails(a.q.db, job.op, FailedRow(a.q.db.rows[job.id], text), b.q.db);
    } else {
      assert r == Nil || r == RolledBack;
      FinishOneShape(a, w, text, b);
      if r == Nil {
        CloseSucceeds(a.q.db, job.op, b.q.db);
      } else {
        RolledBackFails(a.q.db, job.op, b.q.db);
      }
    }
  }

  /** An error leaves the deployment failed, with the error in its row and nothing else of the row changed, except one
      that was already deleted or failed. */
  lemma ErrorEndsFailed(a: World, w: WorkerId, text: string)
    requires Reachable(a) && w in a.frames && a.frames[w].pc == Returned(Err)
    ensures var job, db, db' := a.frames[w].job, a.q.db, Step(a, Event.Finish(w, text)).q.db;
      && job.op in db'.ops && db'.ops[job.op].status == Failure
      && job.id in db.rows && job.id in db'.rows
      && db'.rows[job.id].state == (if db.rows[job.id].state == Deleted then Deleted else Failed)
      && db'.rows[job.id] ==
           if db.rows[job.id].state == Deleted || db.rows[job.id].state == Failed then db.rows[job.id]
           else db.rows[job.id].(state := Failed, failedStep := text)
  {
    hide *;
    var b := Step(a, Event.Finish(w, text));
    var job := a.frames[w].job;
    ReachableIsSound(a);
    ClaimHolds(a, w);
    FinishEffect(a, w, text, b);
    FailsWith(a.q.db, job.op, FailedRow(a.q.db.rows[job.id], text), b.q.db);
    FrameIsLocal(a, w);
    ViewIs(a, job.id);
    AnyRowFails(a.frames[w], ViewOf(a, job.id), FoundBy(a, job.op), text);
    FailedRowIs(a.q.db.rows[job.id], text);
  }

  lemma FailedRowIs(row: Row, text: string)
    ensures FailedRow(row, text) ==
      if row.state == Deleted || row.state == Failed then row else row.(state := Failed, failedStep := text)
  {
    EdgesByTarget(row.state);
  }

  lemma FailsWith(db: Db, op: OpId, row: Row, db': Db)
    requires Fails(db, op, row, db')
    ensures op in db.ops && op in db'.ops && db'.ops[op].status == Failure
    ensures db.ops[op].deployment in db'.rows && db'.rows[db.ops[op].deployment] == row
  {
  }

  lemma AnyRowFails(f: Frame, v: View, found: Option<Spec>, text: string)
    requires LocalOk(f, v, found)
    ensures v.row.Some?
    ensures FailedRow(v.row.value, text).state == (if v.row.value.state == Deleted then Deleted else Failed)
  {
  }

  /** A procedure that finds its deployment in a state it does not accept returns an error whatever happens, so
      that merely asking fails the deployment: a start of an active one, an upgrade to the image it runs, or the
      rerun of a start or upgrade that a crash interrupted while checking or updating. */
  lemma RejectionEndsFailed(a: World, w: WorkerId, o: Oracle, text: string)
    requires Reachable(a) && w in a.frames
    requires var job := a.frames[w].job;
      job.id in a.q.db.rows && !Accepts(a.frames[w].pc, job, a.q.db.rows[job.id])
    ensures var job, db, b := a.frames[w].job, a.q.db, Step(a, Work(w, o));
      && w in b.frames && b.frames[w].pc == Returned(Err)
      && var db' := Step(b, Event.Finish(w, text)).q.db;
         && job.op in db'.ops && db'.ops[job.op].status == Failure
         && job.id in db.rows && job.id in db'.rows
         && db'.rows[job.id].state == (if db.rows[job.id].state == Deleted then Deleted else Failed)
  {
    hide *;
    var f, v, b := a.frames[w], ViewOf(a, a.frames[w].job.id), Step(a, Work(w, o));
    ReachableIsSound(a);
    ReachableOn(a, Work(w, o));
    ViewIs(a, f.job.id);
    var c := Advance(f, v, o);
    Rejected(f, v, o, c);
    WorkShapes(a, w, o, b, c);
    ShapeIs(a, w, b, c);
    ErrorEndsFailed(b, w, text);
  }

  lemma Rejected(f: Frame, v: View, o: Oracle, c: Config)
    requires v.row.Some? && !Accepts(f.pc, f.job, v.row.value) && c == Advance(f, v, o)
    ensures c.f.pc == Returned(Err) && c.f.job == f.job && c.v.row == v.row
  {
  }

  lemma ShapeIs(a: World, w: WorkerId, b: World, c: Config)
    requires WorkShape(a, w, b, c)
    ensures w in a.frames && w in b.frames && b.frames[w] == c.f && c.v.row.Some?
    ensures a.frames[w].job.id in b.q.db.rows && b.q.db.rows[a.frames[w].job.id] == c.v.row.value
  {
  }

  lemma ReachableOn(a: World, e: Event)
    requires Reachable(a)
    ensures Reachable(Step(a, e))
  {
    var objects, cluster, events :| a == Run(Begin(objects, cluster), events);
    hide Step;
    var longer := events + [e];
    assert longer[..|longer| - 1] == events && longer[|longer| - 1] == e;
    assert Run(Begin(objects, cluster), longer) == Step(a, e);
  }

  lemma {:induction false} RunReaches(a: World, events: seq<Event>)
    requires Reachable(a)
    ensures Reachable(Run(a, events))
  {
    hide Reachable, Step;
    if events != [] {
      RunReaches(a, events[..|events| - 1]);
      ReachableOn(Run(a, events[..|events| - 1]), events[|events| - 1]);
    }
  }

  // ---- A purge is final at once ----

  /** Operations keep their statuses, or become queued or running; rows stay. */
  ghost predicate NothingCloses(db: Db, db': Db) {
    && (forall o :: o in db.ops && IsActive(db.ops[o].status) ==> o in db'.ops && IsActive(db'.ops[o].status))
    && db.rows.Keys <= db'.rows.Keys
  }

  lemma SubmitClosesNothing(a: World, call: Queue.Call, draws: seq<Queue.Draw>, b: World)
    requires Sound(a) && b == Step(a, Event.Submit(call, draws))
    ensures NothingCloses(a.q.db, b.q.db)
  {
    assert Submission.TokensFit(a.q.db) && a.q.clients == map[];
    SubmitShape(a, call, draws, b);
    hide Sound, Step;
  }

  lemma WorkClosesNothing(a: World, w: WorkerId, o: Oracle, b: World)
    requires Sound(a) && b == Step(a, Work(w, o))
    ensures NothingCloses(a.q.db, b.q.db)
  {
    if w in a.frames {
      hide *;
      var v := ViewOf(a, a.frames[w].job.id);
      var c := Advance(a.frames[w], v, o);
      FrameOwns(a, w);
      WorkLocal(a, w, o, c);
      StepKeepsJob(a.frames[w], v, FoundFor(a, w), c);
      WorkShapes(a, w, o, b, c);
      ShapeClosesNothing(a, w, b, c);
    }
  }

  lemma ShapeClosesNothing(a: World, w: WorkerId, b: World, c: Config)
    requires WorkShape(a, w, b, c)
    ensures NothingCloses(a.q.db, b.q.db)
  {
  }

  lemma QueueClosesNothing(a: World, e: Event, b: World)
    requires Sound(a) && b == Step(a, e) && (e.Claim? || e.Abandon? || e.Crash?)
    ensures NothingCloses(a.q.db, b.q.db)
  {
    hide Sound;
    match e
    case Claim(w, op) => RunOne(a.q, Queue.Claim(w, op));
    case Abandon(w) => RunOne(a.q, Queue.Abandon(w));
    case Crash => RunOne(a.q, Queue.Reboot);
  }

  lemma OnlyFinishCloses(a: World, e: Event, b: World)
    requires Sound(a) && b == Step(a, e) && (e.Finish? ==> e.w !in a.frames || !a.frames[e.w].pc.Returned?)
    ensures NothingCloses(a.q.db, b.q.db)
  {
    assert e.Finish? ==> b == a;
    hide *;
    match e
    case Submit(call, draws) => SubmitClosesNothing(a, call, draws, b);
    case Work(w, o) => WorkClosesNothing(a, w, o, b);
    case Finish(_, _) => SameClosesNothing(a.q.db);
    case _ => QueueClosesNothing(a, e, b);
  }

  lemma SameClosesNothing(db: Db)
    ensures NothingCloses(db, db)
  {
  }

  /** The purge operation `op` of deployment `id` succeeds in this step. */
  predicate PurgeSucceeds(db: Db, db': Db, op: OpId, id: Id) {
    && op in db.ops && db.ops[op].kind == DeletePurge && db.ops[op].deployment == id && IsActive(db.ops[op].status)
    && op in db'.ops && db'.ops[op].status == Succeeded
  }

  lemma ReturnedPurge(f: Frame, v: View, found: Option<Spec>)
    requires LocalOk(f, v, found) && f.job.kind == DeletePurge && f.pc == Returned(Nil)
    ensures Removed(v.x, v.c, f.job.id, f.d.request, true)
  {
  }

  lemma PurgeClosing(db: Db, op: OpId, db': Db, id: Id)
    requires Succeeds(db, op, db') && id in db.rows
    ensures id !in db'.rows <==> PurgeSucceeds(db, db', op, id)
    ensures forall o :: PurgeSucceeds(db, db', o, id) ==> o == op
    ensures db.ops[op].kind == DeletePurge && db.ops[op].deployment == id ==> forall k :: k in db'.tokens ==> k.id != id
  {
  }

  lemma PurgeFailing(db: Db, op: OpId, row: Row, db': Db, id: Id)
    requires Fails(db, op, row, db') && id in db.rows
    ensures id in db'.rows && forall o :: !PurgeSucceeds(db, db', o, id)
  {
  }

  lemma PurgeNeither(db: Db, db': Db, id: Id)
    requires NothingCloses(db, db') && id in db.rows
    ensures id in db'.rows && forall o :: !PurgeSucceeds(db, db', o, id)
  {
  }

  /** In every run a deployment's row disappears in exactly the steps in which a purge of it becomes succeeded;
      its tokens disappear with it, and by then its container, networks, database, role, panel directory and
      backups are gone. */
  lemma PurgeIsAtomic(a: World, e: Event, id: Id)
    requires Reachable(a) && id in a.q.db.rows
    ensures var b := Step(a, e);
      && (id !in b.q.db.rows <==> exists op :: PurgeSucceeds(a.q.db, b.q.db, op, id))
      && (id !in b.q.db.rows ==>
            && e.Finish? && e.w in a.frames && a.frames[e.w].job.id == id
            && a.frames[e.w].job.kind == DeletePurge && a.frames[e.w].pc == Returned(Nil)
            && Removed(Obj(b.objects, id), b.cluster, id, a.frames[e.w].d.request, true)
            && forall k :: k in b.q.db.tokens ==> k.id != id)
  {
    hide *;
    var b := Step(a, e);
    ReachableIsSound(a);
    if e.Finish? && e.w in a.frames && a.frames[e.w].pc.Returned? {
      FinishedPurge(a, e, b, id);
    } else {
      OnlyFinishCloses(a, e, b);
      PurgeNeither(a.q.db, b.q.db, id);
    }
  }

  lemma FinishedPurge(a: World, e: Event, b: World, id: Id)
    requires Sound(a) && id in a.q.db.rows && b == Step(a, e)
    requires e.Finish? && e.w in a.frames && a.frames[e.w].pc.Returned?
    ensures id !in b.q.db.rows <==> exists op :: PurgeSucceeds(a.q.db, b.q.db, op, id)
    ensures id !in b.q.db.rows ==>
      && a.frames[e.w].job.id == id && a.frames[e.w].job.kind == DeletePurge && a.frames[e.w].pc == Returned(Nil)
      && Removed(Obj(b.objects, id), b.cluster, id, a.frames[e.w].d.request, true)
      && forall k :: k in b.q.db.tokens ==> k.id != id
  {
    hide *;
    var job, r := a.frames[e.w].job, a.frames[e.w].pc.result;
    assert a.frames[e.w].pc == Returned(r) && e == Event.Finish(e.w, e.text);
    ClaimHolds(a, e.w);
    FinishEffect(a, e.w, e.text, b);
    if r == Nil {
      PurgeClosing(a.q.db, job.op, b.q.db, id);
      if id !in b.q.db.rows {
        assert PurgeSucceeds(a.q.db, b.q.db, job.op, id);
        PurgeIsOf(a.q.db, b.q.db, job.op, id);
        FrameIsLocal(a, e.w);
        ViewIs(a, id);
        ReturnedPurge(a.frames[e.w], ViewOf(a, id), FoundBy(a, job.op));
        SameObjects(a, b, id);
      }
    } else if r == Err {
      PurgeFailing(a.q.db, job.op, FailedRow(a.q.db.rows[job.id], e.text), b.q.db, id);
    } else {
      PurgeFailing(a.q.db, job.op, a.q.db.rows[job.id], b.q.db, id);
    }
  }

  lemma PurgeIsOf(db: Db, db': Db, op: OpId, id: Id)
    requires PurgeSucceeds(db, db', op, id)
    ensures op in db.ops && db.ops[op].kind == DeletePurge && db.ops[op].deployment == id
  {
  }

  lemma SameObjects(a: World, b: World, id: Id)
    requires b.objects == a.objects
    ensures Obj(b.objects, id) == Obj(a.objects, id)
  {
  }
}

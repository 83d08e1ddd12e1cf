/** A run in which a purge leaves a database behind: a create fails once its database is made, a second create under
    another name fails likewise, and the purge drops only the database the row names. */
module Leftovers {
  import opened Common
  import opened Lifecycle
  import opened Store
  import opened Host
  import opened Programs
  import opened Invariant
  import opened Agent
  import opened Soundness
  import opened Convergence
  import opened Outcomes
  import opened Runs
  import Queue

  const BAD := Oracle(Fail, map[], None)

  const FIRST := Request("image", "a", "ua", "")
  const SECOND := Request("image", "b", "ub", "")

  /** The cluster with the request's role and database made. */
  function Made(c: Cluster, q: Request): Cluster {
    Cluster(c.databases[q.database := Database(q.username, Some(ID), map[])], c.roles[q.username := Some(ID)])
  }

  /** The row while its database is made, and once that attempt has failed. */
  function Creating(row: Row): Row {
    row.(state := CreatingDatabase)
  }

  function Broken(row: Row): Row {
    row.(state := Failed)
  }

  function At(n: nat, pc: Pc, d: Row): Frame {
    Frame(Job(n, ID, Create, NoPayload), pc, d, NoLocals)
  }

  lemma FirstReads(n: nat, v: View, row: Row)
    requires v.row == Some(row) && row.secret.Some?
    ensures Advance(Entered(n, Create, NoPayload), v, GOOD) == Config(At(n, Provisioning(ToCreatingDatabase), row), v)
  {
  }

  lemma ThenMoves(n: nat, v: View, row: Row)
    requires v.row == Some(row) && row.state == Pending && row.failedStep == ""
    ensures Advance(At(n, Provisioning(ToCreatingDatabase), row), v, GOOD) ==
      Config(At(n, Provisioning(MakeDatabase), Creating(row)), v.(row := Some(Creating(row))))
  {
  }

  lemma ThenMakes(n: nat, v: View, d: Row)
    requires d.request.database !in v.c.databases && !RoleRefused(v.c, ID, d.request.username)
    ensures Advance(At(n, Provisioning(MakeDatabase), d), v, GOOD) ==
      Config(At(n, Provisioning(ToPullingImage), d), v.(c := Made(v.c, d.request)))
  {
  }

  lemma ThenFails(n: nat, v: View, d: Row)
    requires v.row == Some(d) && d.state == CreatingDatabase
    ensures Advance(At(n, Provisioning(ToPullingImage), d), v, BAD) == Config(At(n, Returned(Err), d), v)
  {
  }

  lemma FailsAs(row: Row)
    requires row.failedStep == ""
    ensures FailedRow(Creating(row), "") == Broken(row)
  {
  }

  /** A create that is claimed and makes its database. */
  lemma MakesDatabase(a: World, n: nat, v: View, row: Row) returns (b: World)
    requires Waits(a, n, Create, NoPayload, v) && v.row == Some(row)
    requires row.state == Pending && row.secret.Some? && row.failedStep == ""
    requires row.request.database !in v.c.databases && !RoleRefused(v.c, ID, row.request.username)
    ensures Works(b, n, At(n, Provisioning(ToPullingImage), Creating(row)), View(Some(Creating(row)), v.x, Made(v.c, row.request)))
    ensures b.q.db.tokens == a.q.db.tokens
  {
    var v1 := v.(row := Some(Creating(row)));
    var v2 := v1.(c := Made(v.c, row.request));
    assert Creating(row).request == row.request && Creating(row).state == CreatingDatabase;
    hide *;
    b := Claims(a, n, Create, NoPayload, v);
    FirstReads(n, v, row);
    b := OneStep(b, n, Entered(n, Create, NoPayload), v, GOOD, Config(At(n, Provisioning(ToCreatingDatabase), row), v));
    ThenMoves(n, v, row);
    b := OneStep(b, n, At(n, Provisioning(ToCreatingDatabase), row), v, GOOD, Config(At(n, Provisioning(MakeDatabase), Creating(row)), v1));
    ThenMakes(n, v1, Creating(row));
    b := OneStep(b, n, At(n, Provisioning(MakeDatabase), Creating(row)), v1, GOOD, Config(At(n, Provisioning(ToPullingImage), Creating(row)), v2));
  }

  /** It fails at the next call. */
  lemma Attempt(a: World, n: nat, v: View, row: Row) returns (b: World)
    requires Waits(a, n, Create, NoPayload, v) && v.row == Some(row)
    requires row.state == Pending && row.secret.Some? && row.failedStep == ""
    requires row.request.database !in v.c.databases && !RoleRefused(v.c, ID, row.request.username)
    ensures Idle(b, n + 1, View(Some(Broken(row)), v.x, Made(v.c, row.request))) && b.q.db.tokens == a.q.db.tokens
  {
    var d, w := Creating(row), View(Some(Creating(row)), v.x, Made(v.c, row.request));
    assert d.state == CreatingDatabase;
    hide *;
    b := MakesDatabase(a, n, v, row);
    ThenFails(n, w, d);
    b := OneStep(b, n, At(n, Provisioning(ToPullingImage), d), w, BAD, Config(At(n, Returned(Err), d), w));
    AtReturned(n, d);
    b := EndsFailed(b, n, At(n, Returned(Err), d), w);
    FailsAs(row);
  }

  lemma AtReturned(n: nat, d: Row)
    ensures At(n, Returned(Err), d).pc == Returned(Err)
  {
  }

  // ---- The run ----

  function Row1(): Row {
    Queue.NewRow(CallOf(0, FIRST))
  }

  function Row2(): Row {
    Queue.RenewedRow(Broken(Row1()), CallOf(1, SECOND))
  }

  function Both(): Cluster {
    Made(Made(EMPTY_CLUSTER, FIRST), SECOND)
  }

  lemma RowsAre()
    ensures
      && Row1().request == FIRST && Row1().state == Pending && Row1().secret.Some? && Row1().failedStep == ""
      && Broken(Row1()).state == Failed
      && Row2().request == SECOND && Row2().state == Pending && Row2().secret.Some? && Row2().failedStep == ""
      && FIRST.database !in EMPTY_CLUSTER.databases && !RoleRefused(EMPTY_CLUSTER, ID, FIRST.username)
      && SECOND.database !in One().databases && !RoleRefused(One(), ID, SECOND.username)
      && Both() == Made(One(), SECOND) && Row1() == Queue.NewRow(CallOf(0, FIRST))
      && Row2() == Queue.RenewedRow(Broken(Row1()), CallOf(1, SECOND)) && One() == Made(EMPTY_CLUSTER, FIRST)
      && NoObjects.(installed := false) == NoObjects
  {
    assert "a"[0] != "b"[0] && "ua"[1] != "ub"[1];
  }

  function One(): Cluster {
    Made(EMPTY_CLUSTER, FIRST)
  }

  lemma Asked() returns (a: World)
    ensures Waits(a, 0, Create, NoPayload, View(Some(Row1()), NoObjects, EMPTY_CLUSTER)) && a.q.db.tokens == map[]
  {
    RowsAre();
    hide *;
    a := Beginning();
    a := AsksFresh(a, 0, View(None, NoObjects, EMPTY_CLUSTER), FIRST);
  }

  lemma FirstAttempt() returns (a: World)
    ensures Idle(a, 1, View(Some(Broken(Row1())), NoObjects, One())) && a.q.db.tokens == map[]
  {
    RowsAre();
    hide *;
    a := Asked();
    a := Attempt(a, 0, View(Some(Row1()), NoObjects, EMPTY_CLUSTER), Row1());
  }

  /** The first create has made its database. */
  lemma Reaches() returns (a: World)
    ensures Works(a, 0, At(0, Provisioning(ToPullingImage), Creating(Row1())), View(Some(Creating(Row1())), NoObjects, One()))
  {
    RowsAre();
    hide *;
    a := Asked();
    a := MakesDatabase(a, 0, View(Some(Row1()), NoObjects, EMPTY_CLUSTER), Row1());
  }

  lemma TwoAttempts() returns (a: World)
    ensures Idle(a, 2, View(Some(Broken(Row2())), NoObjects, Both())) && a.q.db.tokens == map[]
  {
    RowsAre();
    hide *;
    a := FirstAttempt();
    a := AsksAgain(a, 1, View(Some(Broken(Row1())), NoObjects, One()), SECOND);
    a := Attempt(a, 1, View(Some(Row2()), NoObjects, One()), Row2());
  }

  function AtRemoval(n: nat, d: Row): Frame {
    Frame(Job(n, ID, DeletePurge, NoPayload), Removing(ToDeleting), d, NoLocals)
  }

  lemma RemovalReads(n: nat, v: View, row: Row)
    requires v.row == Some(row) && row.state == Failed
    ensures Advance(Entered(n, DeletePurge, NoPayload), v, GOOD) == Config(AtRemoval(n, row), v)
  {
  }

  lemma BothOwned()
    ensures OwnsDatabase(Both(), ID, "a") && OwnsDatabase(Both(), ID, "b") && OwnsRole(Both(), ID, "ua") && OwnsRole(Both(), ID, "ub")
  {
    RowsAre();
  }

  /** The worker of a purge that works from the second request has its run to the end before it. */
  ghost predicate AboutToPurge(a: World) {
    && Reachable(a) && WORKER in a.frames && a.frames[WORKER].job.kind == DeletePurge && a.frames[WORKER].job.id == ID
    && a.frames[WORKER].pc.Removing? && WorksFrom(a.frames[WORKER], RowOf(a.q.db, ID), SECOND)
    && Unopposed(a.frames[WORKER], ViewOf(a, ID), SECOND) && a.cluster == Both()
  }

  lemma RemovalUnopposed(n: nat, d: Row, v: View)
    requires v == View(Some(d), NoObjects, Both())
    ensures Unopposed(AtRemoval(n, d), v, SECOND)
  {
    BothOwned();
    RowsAre();
    assert !Encumbered(Both(), "b", "ub");
    hide Both, Encumbered;
  }

  lemma IsAboutTo(a: World, n: nat, d: Row)
    requires Works(a, n, AtRemoval(n, d), View(Some(d), NoObjects, Both())) && d.request == SECOND
    ensures AboutToPurge(a)
  {
    RemovalUnopposed(n, d, ViewOf(a, ID));
    assert AtRemoval(n, d).job == Job(n, ID, DeletePurge, NoPayload) && AtRemoval(n, d).pc == Removing(ToDeleting);
    assert WorksFrom(AtRemoval(n, d), Some(d), SECOND);
    hide Reachable, Both, Unopposed, AtRemoval, Underway, WorksFrom;
    assert RowOf(a.q.db, ID) == Some(d);
  }

  lemma PurgeStarts() returns (a: World)
    ensures AboutToPurge(a)
  {
    RowsAre();
    var row := Broken(Row2());
    assert row.request == SECOND && row.state == Failed;
    hide *;
    a := TwoAttempts();
    var v := View(Some(row), NoObjects, Both());
    a := AsksToken(a, 2, v);
    a := AsksPurge(a, 3, v);
    a := Claims(a, 3, DeletePurge, NoPayload, v);
    RemovalReads(3, v, row);
    a := OneStep(a, 3, Entered(3, DeletePurge, NoPayload), v, GOOD, Config(AtRemoval(3, row), v));
    IsAboutTo(a, 3, row);
  }

  /** The worker's closing of its operation is the success of a purge, after which a database and a role are still
      marked for the purged deployment. */
  ghost predicate Orphaned(a: World, op: OpId) {
    var b := Step(a, Event.Finish(WORKER, ""));
    && Reachable(a) && PurgeSucceeds(a.q.db, b.q.db, op, ID) && ID !in b.q.db.rows
    && OwnsDatabase(b.cluster, ID, "a") && OwnsRole(b.cluster, ID, "ua")
  }

  /** There is a run in which a purge of a deployment succeeds and a database and a role of it remain. */
  lemma OrphanedDatabase()
    ensures exists a: World, op: OpId :: Orphaned(a, op)
  {
    var a := PurgeStarts();
    var b := Run(a, Working(WORKER, 9));
    PurgeEnds(a, b);
    assert Orphaned(b, b.frames[WORKER].job.op);
  }

  lemma OthersRemain(c: Cluster, d: Cluster)
    requires c == Both() && SameBeside(c, d, ID, "b", "ub")
    ensures OwnsDatabase(d, ID, "a") && OwnsRole(d, ID, "ua")
  {
    BothOwned();
    RowsAre();
    hide Both, OwnsDatabase, OwnsRole;
    assert "a"[0] != "b"[0] && "ua"[1] != "ub"[1];
  }

  lemma PurgeEnds(a: World, b: World)
    requires AboutToPurge(a) && b == Run(a, Working(WORKER, 9))
    ensures WORKER in b.frames && Orphaned(b, b.frames[WORKER].job.op)
  {
    assert SECOND.database == "b" && SECOND.username == "ub";
    assert Reachable(a) && WORKER in a.frames && IsDelete(a.frames[WORKER].job.kind) && a.frames[WORKER].pc.Removing?;
    assert AboutToPurge(a);
    hide Reachable, WorksFrom, Unopposed, Working, Run, Step, Removed, SameBeside, PurgeSucceeds, Both, OwnsDatabase, OwnsRole;
    DeleteCompletes(a, WORKER, ID, SECOND);
    OthersRemain(a.cluster, b.cluster);
    RunReaches(a, Working(WORKER, 9));
    ReachableIsSound(b);
    hide Sound;
    ClaimHolds(b, WORKER);
    var job, c := b.frames[WORKER].job, Step(b, Event.Finish(WORKER, ""));
    FinishEffect(b, WORKER, "", c);
    Ended(b.q.db, job.op, c.q.db);
  }

  lemma Ended(db: Db, op: OpId, db': Db)
    requires Succeeds(db, op, db') && db.ops[op].kind == DeletePurge && db.ops[op].deployment == ID
    ensures PurgeSucceeds(db, db', op, ID) && ID !in db'.rows
  {
  }
}

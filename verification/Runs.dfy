/** Runs of the agent told step by step, with one deployment and one worker: what each event does to what is known so
    far. The modules Leftovers and Strays put them together. */
module Runs {
  import opened Common
  import opened Lifecycle
  import opened Store
  import opened Host
  import opened Programs
  import opened Agent
  import opened Soundness
  import opened Convergence
  import Invariant
  import Outcomes
  import Progress
  import PurgeTokens
  import Queue
  import Service
  import Submission

  const ID: Id := 0
  const WORKER: WorkerId := 0
  const EMPTY_CLUSTER := Cluster(map[], map[])

  /** The n-th API call of a run uses the n-th idempotency key and operation number. */
  function KeyOf(n: nat): string {
    seq(n, _ => 'k')
  }

  function Drawn(n: nat): Queue.Draw {
    Queue.Draw(n, "0", "1", "token")
  }

  const TOKEN := TokenKey(ID, Sha256("token"))

  /** No operation is active, and the n-th call is next. */
  predicate Settled(db: Db, n: nat) {
    && db.active == map[]
    && (forall o | o in db.ops :: o < n && !IsActive(db.ops[o].status))
    && (forall k | k in db.keys :: |k| < n)
  }

  /** The n-th call has queued the only active operation. */
  predicate Underway(db: Db, n: nat, kind: Kind, payload: Payload, s: Status) {
    && db.active == map[ID := n]
    && n in db.ops && db.ops[n].deployment == ID && db.ops[n].kind == kind && db.ops[n].payload == payload && db.ops[n].status == s
    && (forall o | o in db.ops && o != n :: o < n && !IsActive(db.ops[o].status))
    && (forall k | k in db.keys :: |k| <= n)
  }

  ghost predicate Idle(a: World, n: nat, v: View) {
    Reachable(a) && ViewOf(a, ID) == v && a.frames == map[] && Settled(a.q.db, n)
  }

  ghost predicate Waits(a: World, n: nat, kind: Kind, payload: Payload, v: View) {
    Reachable(a) && ViewOf(a, ID) == v && a.frames == map[] && Underway(a.q.db, n, kind, payload, Queued)
  }

  /** The worker is at frame `f` of that operation. */
  ghost predicate Works(a: World, n: nat, f: Frame, v: View) {
    && Reachable(a) && ViewOf(a, ID) == v && a.frames == map[WORKER := f]
    && f.job.op == n && f.job.id == ID && Underway(a.q.db, n, f.job.kind, f.job.payload, Running)
  }

  lemma Beginning() returns (a: World)
    ensures Idle(a, 0, View(None, NoObjects, EMPTY_CLUSTER)) && a.q.db.rows == map[] && a.q.db.tokens == map[]
  {
    a := Begin(map[], EMPTY_CLUSTER);
    assert Run(a, []) == a;
    assert Reachable(a);
  }

  // ---- API calls ----

  function CallOf(n: nat, q: Request): Queue.Call {
    Queue.CreateCall(ID, KeyOf(n), Sha256(""), q, "", 1, true, "secret", "bootstrap")
  }

  function UpgradeCall(n: nat, image: string): Queue.Call {
    Queue.ActionCall(ID, KeyOf(n), Sha256(""), Upgrade, UpgradeTo(image))
  }

  function IssueCall(n: nat): Queue.Call {
    Queue.TokenCall(ID, KeyOf(n), Sha256(""))
  }

  function PurgeCall(n: nat): Queue.Call {
    Queue.PurgeCall(ID, KeyOf(n), Sha256(""), "token")
  }

  /** The tables after the operation has been inserted and its response stored. */
  function Inserted(db: Db, call: Queue.Call, n: nat): Db {
    db.(
      ops := db.ops[n := Queue.NewOperation(call, "0")],
      active := db.active[call.id := n],
      keys := db.keys[call.key := Remembered(call.hash, Accepted(n, call.id, Queue.Aliases(call)))])
  }

  /** From the insertion of the operation to the answer. */
  lemma InsertionEnds(db: Db, call: Queue.Call, n: nat, serial: Option<nat>, serials: map<TokenKey, nat>, k: nat)
    requires call.key !in db.keys && call.id !in db.active && n !in db.ops
    ensures Service.ServedTimes(db, call, Queue.Insert(serial), Drawn(n), serials, k + 2).0 == Inserted(db, call, n)
  {
    hide Service.ServedTimes;
    var response := Accepted(n, call.id, Queue.Aliases(call));
    var db1 := Store.InsertOperation(db, n, Queue.NewOperation(call, "0")).0;
    var db2 := Store.PutKey(db1, call.key, Remembered(call.hash, response)).0;
    Service.Turn(db, call, Queue.Insert(serial), Drawn(n), serials, k + 1, db1, Queue.Remember(response));
    Service.Turn(db1, call, Queue.Remember(response), Drawn(n), serials, k, db2, Queue.Answered(Queue.Fresh(response)));
    Service.Over(db2, call, Queue.Fresh(response), Drawn(n), serials, k);
  }

  lemma FreshOutcome(db: Db, call: Queue.Call, n: nat, serials: map<TokenKey, nat>)
    requires Settled(db, n) && call.CreateCall? && call == CallOf(n, call.request) && ID !in db.rows && CountRows(db) == 0
    ensures Service.Outcome(db, call, Drawn(n), serials).0 == Inserted(db.(rows := db.rows[ID := Queue.NewRow(call)]), call, n)
  {
    hide Service.ServedTimes, CountRows;
    assert |call.key| == n;
    var db1 := db.(rows := db.rows[ID := Queue.NewRow(call)]);
    Service.Turn(db, call, Queue.LookUp, Drawn(n), serials, 5, db, Queue.Inspect);
    Service.Turn(db, call, Queue.Inspect, Drawn(n), serials, 4, db, Queue.Count);
    Service.Turn(db, call, Queue.Count, Drawn(n), serials, 3, db, Queue.AddRow);
    Service.Turn(db, call, Queue.AddRow, Drawn(n), serials, 2, db1, Queue.Insert(None));
    InsertionEnds(db1, call, n, None, serials, 0);
  }

  lemma RenewedOutcome(db: Db, call: Queue.Call, n: nat, serials: map<TokenKey, nat>)
    requires Settled(db, n) && call.CreateCall? && call == CallOf(n, call.request) && ID in db.rows && db.rows[ID].state == Failed
    ensures Service.Outcome(db, call, Drawn(n), serials).0 ==
      Inserted(db.(rows := db.rows[ID := Queue.RenewedRow(db.rows[ID], call)]), call, n)
  {
    hide Service.ServedTimes;
    assert |call.key| == n;
    var prior := db.rows[ID];
    var db1 := db.(rows := db.rows[ID := Queue.RenewedRow(prior, call)]);
    Service.Turn(db, call, Queue.LookUp, Drawn(n), serials, 5, db, Queue.Inspect);
    Service.Turn(db, call, Queue.Inspect, Drawn(n), serials, 4, db, Queue.RenewRow(prior));
    Service.Turn(db, call, Queue.RenewRow(prior), Drawn(n), serials, 3, db1, Queue.Insert(None));
    InsertionEnds(db1, call, n, None, serials, 1);
  }

  lemma ActionOutcome(db: Db, call: Queue.Call, n: nat, serials: map<TokenKey, nat>)
    requires Settled(db, n) && call.ActionCall? && call.id == ID && call.key == KeyOf(n) && ID in db.rows
    ensures Service.Outcome(db, call, Drawn(n), serials).0 == Inserted(db, call, n)
  {
    hide Service.ServedTimes;
    assert |call.key| == n;
    Service.Turn(db, call, Queue.LookUp, Drawn(n), serials, 5, db, Queue.Inspect);
    Service.Turn(db, call, Queue.Inspect, Drawn(n), serials, 4, db, Queue.Insert(None));
    InsertionEnds(db, call, n, None, serials, 2);
  }

  /** The tables after a token has been issued. */
  function TokenAdded(db: Db, call: Queue.Call): Db {
    db.(
      tokens := db.tokens[TOKEN := Token("1", false)],
      keys := db.keys[call.key := Remembered(call.hash, TokenIssued("token", "1"))])
  }

  lemma IssueOutcome(db: Db, call: Queue.Call, n: nat, serials: map<TokenKey, nat>)
    requires Settled(db, n) && call == IssueCall(n) && ID in db.rows && TOKEN !in db.tokens
    ensures Service.Outcome(db, call, Drawn(n), serials).0 == TokenAdded(db, call)
  {
    hide Service.ServedTimes;
    assert |call.key| == n;
    var response := TokenIssued("token", "1");
    var db1 := db.(tokens := db.tokens[TOKEN := Token("1", false)]);
    Service.Turn(db, call, Queue.LookUp, Drawn(n), serials, 5, db, Queue.Inspect);
    Service.Turn(db, call, Queue.Inspect, Drawn(n), serials, 4, db, Queue.Issue);
    Service.Turn(db, call, Queue.Issue, Drawn(n), serials, 3, db1, Queue.Remember(response));
    Service.Turn(db1, call, Queue.Remember(response), Drawn(n), serials, 2, TokenAdded(db, call), Queue.Answered(Queue.Fresh(response)));
    Service.Over(TokenAdded(db, call), call, Queue.Fresh(response), Drawn(n), serials, 2);
  }

  lemma PurgeOutcome(db: Db, call: Queue.Call, n: nat, serials: map<TokenKey, nat>)
    requires Settled(db, n) && call == PurgeCall(n) && TOKEN in db.tokens && db.tokens[TOKEN] == Token("1", false) && TOKEN in serials
    ensures Service.Outcome(db, call, Drawn(n), serials).0 ==
      Inserted(db.(tokens := db.tokens[TOKEN := Token("1", true)]), call, n)
  {
    hide Service.ServedTimes;
    assert |call.key| == n && LexLess("0", "1");
    var db1 := db.(tokens := db.tokens[TOKEN := Token("1", true)]);
    Service.Turn(db, call, Queue.LookUp, Drawn(n), serials, 5, db, Queue.Spend);
    Service.Turn(db, call, Queue.Spend, Drawn(n), serials, 4, db1, Queue.Insert(Some(serials[TOKEN])));
    InsertionEnds(db1, call, n, Some(serials[TOKEN]), serials, 2);
  }

  /** What a submission with this outcome does to the world. */
  lemma Submits(a: World, n: nat, v: View, call: Queue.Call, db: Db)
    requires Idle(a, n, v) && Queue.Routable(call) && call.id == ID
    requires Service.Outcome(a.q.db, call, Drawn(n), a.q.serials).0 == db
    ensures var b, row := Step(a, Event.Submit(call, Service.Same(Drawn(n), 6))), RowOf(db, ID);
      && Reachable(b) && b.frames == map[] && b.q.db == db
      && ViewOf(b, ID) == View(row, if row == v.row then v.x else v.x.(installed := false), v.c)
  {
    ReachableIsSound(a);
    assert a.q.clients == map[];
    hide Service.Outcome, Reachable, Sound, Queue.Run, Calls, Submission.Effect;
    Outcomes.ReachableOn(a, Event.Submit(call, Service.Same(Drawn(n), 6)));
    Service.MethodsAreSubmissions(a, call, Drawn(n));
  }

  lemma Queues(a: World, n: nat, v: View, call: Queue.Call, db: Db, payload: Payload)
    requires Idle(a, n, v) && Queue.Routable(call) && call.id == ID && call.key == KeyOf(n) && Settled(db, n)
    requires payload == if call.ActionCall? then call.payload else NoPayload
    requires Service.Outcome(a.q.db, call, Drawn(n), a.q.serials).0 == Inserted(db, call, n)
    ensures var b, row := Step(a, Event.Submit(call, Service.Same(Drawn(n), 6))), RowOf(db, ID);
      Waits(b, n, Queue.KindOf(call), payload, View(row, if row == v.row then v.x else v.x.(installed := false), v.c))
  {
    hide *;
    InsertedIs(db, call, n, payload);
    Submits(a, n, v, call, Inserted(db, call, n));
    WaitsIs(Step(a, Event.Submit(call, Service.Same(Drawn(n), 6))), n, Queue.KindOf(call), payload);
  }

  lemma InsertedIs(db: Db, call: Queue.Call, n: nat, payload: Payload)
    requires Settled(db, n) && call.id == ID && call.key == KeyOf(n) && payload == if call.ActionCall? then call.payload else NoPayload
    ensures Underway(Inserted(db, call, n), n, Queue.KindOf(call), payload, Queued)
    ensures RowOf(Inserted(db, call, n), ID) == RowOf(db, ID)
  {
    assert |call.key| == n;
  }

  lemma WaitsIs(a: World, n: nat, kind: Kind, payload: Payload)
    requires Reachable(a) && a.frames == map[] && Underway(a.q.db, n, kind, payload, Queued)
    ensures Waits(a, n, kind, payload, ViewOf(a, ID))
  {
  }

  lemma AsksFresh(a: World, n: nat, v: View, q: Request) returns (b: World)
    requires Idle(a, n, v) && a.q.db.rows == map[]
    ensures Waits(b, n, Create, NoPayload, View(Some(Queue.NewRow(CallOf(n, q))), v.x.(installed := false), v.c))
    ensures b.q.db.tokens == a.q.db.tokens
  {
    var call := CallOf(n, q);
    var db := a.q.db.(rows := a.q.db.rows[ID := Queue.NewRow(call)]);
    assert Settled(db, n) && v.row == None && RowOf(db, ID) == Some(Queue.NewRow(call));
    assert |a.q.db.rows| == 0;
    CountsAtMostAll(a.q.db);
    FreshOutcome(a.q.db, call, n, a.q.serials);
    Queues(a, n, v, call, db, NoPayload);
    b := Step(a, Event.Submit(call, Service.Same(Drawn(n), 6)));
    Submits(a, n, v, call, Inserted(db, call, n));
  }

  lemma AsksAgain(a: World, n: nat, v: View, q: Request) returns (b: World)
    requires Idle(a, n, v) && v.row.Some? && v.row.value.state == Failed
    ensures Waits(b, n, Create, NoPayload,
                  View(Some(Queue.RenewedRow(v.row.value, CallOf(n, q))), v.x.(installed := false), v.c))
    ensures b.q.db.tokens == a.q.db.tokens
  {
    var call := CallOf(n, q);
    assert ID in a.q.db.rows && a.q.db.rows[ID] == v.row.value;
    var db := a.q.db.(rows := a.q.db.rows[ID := Queue.RenewedRow(v.row.value, call)]);
    assert Settled(db, n) && RowOf(db, ID) == Some(Queue.RenewedRow(v.row.value, call)) && RowOf(db, ID) != v.row;
    RenewedOutcome(a.q.db, call, n, a.q.serials);
    Queues(a, n, v, call, db, NoPayload);
    b := Step(a, Event.Submit(call, Service.Same(Drawn(n), 6)));
    Submits(a, n, v, call, Inserted(db, call, n));
  }

  lemma AsksUpgrade(a: World, n: nat, v: View, image: string) returns (b: World)
    requires Idle(a, n, v) && v.row.Some?
    ensures Waits(b, n, Upgrade, UpgradeTo(image), v)
  {
    var call := UpgradeCall(n, image);
    ActionOutcome(a.q.db, call, n, a.q.serials);
    Queues(a, n, v, call, a.q.db, UpgradeTo(image));
    b := Step(a, Event.Submit(call, Service.Same(Drawn(n), 6)));
    assert RowOf(a.q.db, ID) == v.row;
  }

  lemma AsksToken(a: World, n: nat, v: View) returns (b: World)
    requires Idle(a, n, v) && v.row.Some? && a.q.db.tokens == map[]
    ensures Idle(b, n + 1, v) && b.q.db.tokens == map[TOKEN := Token("1", false)]
  {
    var call := IssueCall(n);
    assert |call.key| == n;
    IssueOutcome(a.q.db, call, n, a.q.serials);
    var db := TokenAdded(a.q.db, call);
    Submits(a, n, v, call, db);
    assert Settled(db, n + 1) && RowOf(db, ID) == v.row;
    b := Step(a, Event.Submit(call, Service.Same(Drawn(n), 6)));
  }

  /** Every issued token has its entry in the history. */
  lemma TokensHaveSerials(a: World)
    requires Reachable(a)
    ensures forall k :: k in a.q.db.tokens ==> k in a.q.serials
  {
    var objects, cluster, events :| a == Run(Begin(objects, cluster), events);
    AgentRefinesQueue(objects, cluster, events);
    hide PurgeTokens.Sound;
    PurgeTokens.RunKeepsTokens(AllCalls(Begin(objects, cluster), events));
  }

  lemma AsksPurge(a: World, n: nat, v: View) returns (b: World)
    requires Idle(a, n, v) && a.q.db.tokens == map[TOKEN := Token("1", false)]
    ensures Waits(b, n, DeletePurge, NoPayload, v)
  {
    var call := PurgeCall(n);
    TokensHaveSerials(a);
    PurgeOutcome(a.q.db, call, n, a.q.serials);
    var db := a.q.db.(tokens := a.q.db.tokens[TOKEN := Token("1", true)]);
    assert Settled(db, n) && RowOf(db, ID) == v.row;
    Queues(a, n, v, call, db, NoPayload);
    b := Step(a, Event.Submit(call, Service.Same(Drawn(n), 6)));
  }

  // ---- Workers ----

  lemma TakenUp(db: Db, n: nat, kind: Kind, payload: Payload)
    requires Underway(db, n, kind, payload, Queued)
    ensures Claimable(db, n) && Underway(MarkRunning(db, n), n, kind, payload, Running) && NewFrame(n, db.ops[n]) == Entered(n, kind, payload)
    ensures MarkRunning(db, n).rows == db.rows && MarkRunning(db, n).tokens == db.tokens
  {
    LexLessIrreflexive(db.ops[n].createdAt);
  }

  function Entered(n: nat, kind: Kind, payload: Payload): Frame {
    Frame(Job(n, ID, kind, payload), Entry(kind), BlankRow, NoLocals)
  }

  lemma Claims(a: World, n: nat, kind: Kind, payload: Payload, v: View) returns (b: World)
    requires Waits(a, n, kind, payload, v)
    ensures Works(b, n, Entered(n, kind, payload), v) && b.q.db.tokens == a.q.db.tokens
  {
    hide *;
    b := Step(a, Event.Claim(WORKER, n));
    WaitsTells(a, n, kind, payload, v);
    TakenUp(a.q.db, n, kind, payload);
    ClaimEffect(a, n, b);
    Outcomes.ReachableOn(a, Event.Claim(WORKER, n));
    EnteredIs(n, kind, payload);
    IsWorking(b, n, Entered(n, kind, payload));
    SameView(a, b);
  }

  lemma WaitsTells(a: World, n: nat, kind: Kind, payload: Payload, v: View)
    requires Waits(a, n, kind, payload, v)
    ensures Reachable(a) && a.frames == map[] && a.q.claims == map[] && Underway(a.q.db, n, kind, payload, Queued) && ViewOf(a, ID) == v
  {
    ReachableIsSound(a);
    hide Reachable, Queue.Exclusive, RowsOk, OwnersOk, FramesOk, Underway;
  }

  lemma ClaimEffect(a: World, n: nat, b: World)
    requires b == Step(a, Event.Claim(WORKER, n)) && WORKER !in a.q.claims && Claimable(a.q.db, n) && a.frames == map[]
    ensures n in a.q.db.ops && b.q.db == MarkRunning(a.q.db, n) && b.frames == map[WORKER := NewFrame(n, a.q.db.ops[n])]
    ensures b.objects == a.objects && b.cluster == a.cluster
  {
    RunOne(a.q, Queue.Claim(WORKER, n));
  }

  lemma IsWorking(b: World, n: nat, f: Frame)
    requires Reachable(b) && b.frames == map[WORKER := f] && f.job.op == n && f.job.id == ID
    requires Underway(b.q.db, n, f.job.kind, f.job.payload, Running)
    ensures Works(b, n, f, ViewOf(b, ID))
  {
  }

  lemma SameView(a: World, b: World)
    requires b.objects == a.objects && b.cluster == a.cluster && b.q.db.rows == a.q.db.rows
    ensures ViewOf(b, ID) == ViewOf(a, ID)
  {
  }

  lemma EnteredIs(n: nat, kind: Kind, payload: Payload)
    ensures Entered(n, kind, payload).job == Job(n, ID, kind, payload)
  {
  }

  lemma OneStep(a: World, n: nat, f: Frame, v: View, o: Oracle, c: Config) returns (b: World)
    requires Works(a, n, f, v) && c == Advance(f, v, o)
    ensures b == Step(a, Work(WORKER, o)) && Works(b, n, c.f, c.v) && c.f.job == f.job && c.v.row.Some?
    ensures b.q.db.tokens == a.q.db.tokens
    ensures f.job.kind == Create ==> c.v.x.backups == v.x.backups
  {
    b := Step(a, Work(WORKER, o));
    ReachableIsSound(a);
    assert WORKER in a.frames && a.frames[WORKER] == f && ViewOf(a, f.job.id) == v;
    assert Reachable(a) && Underway(a.q.db, n, f.job.kind, f.job.payload, Running) && f.job.id == ID && f.job.op == n;
    assert a.frames == map[WORKER := f];
    hide *;
    FrameOwns(a, WORKER);
    FrameIsLocal(a, WORKER);
    CreateSpares(f, v, FoundBy(a, f.job.op), o, c);
    WorkLocal(a, WORKER, o, c);
    Progress.StepKeepsJob(f, v, FoundFor(a, WORKER), c);
    WorkShapes(a, WORKER, o, b, c);
    Outcomes.ReachableOn(a, Work(WORKER, o));
    ShapeView(a, WORKER, b, c);
    WorkStays(a, n, f, b, c, o);
  }

  /** A create does not touch the backups. */
  lemma CreateSpares(f: Frame, v: View, found: Option<Spec>, o: Oracle, c: Config)
    requires Invariant.LocalOk(f, v, found) && c == Advance(f, v, o)
    ensures f.job.kind == Create ==> c.v.x.backups == v.x.backups
  {
    if f.job.kind == Create {
      assert f.pc.Provisioning? || f.pc.Returned?;
      hide Invariant.LocalOk, EnsureDatabase, Rewrite, EnsureDirectory, Programs.Transition;
      match f.pc
      case Provisioning(pc) =>
      case Returned(_) =>
    }
  }

  lemma ShapeView(a: World, w: WorkerId, b: World, c: Config)
    requires WorkShape(a, w, b, c)
    ensures w in a.frames && ViewOf(b, a.frames[w].job.id) == c.v
  {
  }

  lemma WorkStays(a: World, n: nat, f: Frame, b: World, c: Config, o: Oracle)
    requires a.frames == map[WORKER := f] && f.job.id == ID && f.job.op == n && c.f.job == f.job
    requires Underway(a.q.db, n, f.job.kind, f.job.payload, Running)
    requires WorkShape(a, WORKER, b, c) && b == Step(a, Work(WORKER, o)) && c == Advance(f, ViewOf(a, ID), o)
    requires Reachable(b) && ViewOf(b, ID) == c.v
    ensures Works(b, n, c.f, c.v) && b.q.db.tokens == a.q.db.tokens
  {
    hide *;
    WriteEffect(a, f, b, c, o);
    RowWritten(a.q.db, n, f.job.kind, f.job.payload, b.q.db);
    IsWorking(b, n, c.f);
  }

  lemma WriteEffect(a: World, f: Frame, b: World, c: Config, o: Oracle)
    requires a.frames == map[WORKER := f] && f.job.id == ID && b == Step(a, Work(WORKER, o)) && c == Advance(f, ViewOf(a, ID), o)
    requires WorkShape(a, WORKER, b, c)
    ensures b.q.db == a.q.db.(rows := b.q.db.rows) && b.frames == map[WORKER := c.f]
  {
    hide Advance;
    RunOne(a.q, Queue.WriteRow(ID, c.v.row.value));
  }

  lemma RowWritten(db: Db, n: nat, kind: Kind, payload: Payload, db': Db)
    requires Underway(db, n, kind, payload, Running) && db' == db.(rows := db'.rows)
    ensures Underway(db', n, kind, payload, Running) && db'.tokens == db.tokens
  {
  }

  /** Any number of successful steps. */
  lemma {:induction false} ManySteps(a: World, n: nat, f: Frame, v: View, k: nat) returns (c: Config)
    requires Works(a, n, f, v)
    ensures Works(Run(a, Working(WORKER, k)), n, c.f, c.v) && c.f.job == f.job
    ensures k > 0 ==> c.v.row.Some?
    ensures f.job.kind == Create ==> c.v.x.backups == v.x.backups
  {
    hide *;
    WorkingIs(a, WORKER, k);
    if k == 0 {
      c := Config(f, v);
    } else {
      var d := ManySteps(a, n, f, v, k - 1);
      c := Advance(d.f, d.v, GOOD);
      var _ := OneStep(Run(a, Working(WORKER, k - 1)), n, d.f, d.v, GOOD, c);
    }
  }

  lemma WorkerClaims(a: World, n: nat, f: Frame, v: View)
    requires Works(a, n, f, v)
    ensures a.q.claims == map[WORKER := n] && a.q.clients == map[] && WORKER in a.frames
  {
    hide *;
    WorksTells(a, n, f, v);
    WorksView(a, n, f, v);
    ReachableIsSound(a);
    ClaimHolds(a, WORKER);
    SoundTells(a);
    OneClaim(a, f);
  }

  lemma OneClaim(a: World, f: Frame)
    requires a.frames == map[WORKER := f] && a.frames.Keys == a.q.claims.Keys && WORKER in a.q.claims && a.q.claims[WORKER] == f.job.op
    ensures a.q.claims == map[WORKER := f.job.op]
  {
    assert a.q.claims.Keys == {WORKER};
  }

  lemma ClosingSettles(db: Db, n: nat, kind: Kind, payload: Payload, ok: bool, db': Db)
    requires Underway(db, n, kind, payload, Running) && (ok ==> kind != DeletePurge) && db' == Queue.Close(db, n, ok)
    ensures Settled(db', n + 1) && db'.rows == db.rows && db'.tokens == db.tokens
  {
  }

  lemma IdleIs(a: World, n: nat, b: World, row: Option<Row>)
    requires Reachable(b) && b.frames == map[] && Settled(b.q.db, n) && b.objects == a.objects && b.cluster == a.cluster
    requires RowOf(b.q.db, ID) == row
    ensures Idle(b, n, View(row, ViewOf(a, ID).x, ViewOf(a, ID).c))
  {
    hide Reachable, Settled;
  }

  lemma WorksTells(a: World, n: nat, f: Frame, v: View)
    requires Works(a, n, f, v)
    ensures Reachable(a) && a.frames == map[WORKER := f] && WORKER in a.frames && a.frames[WORKER] == f && a.frames - {WORKER} == map[]
    ensures Underway(a.q.db, n, f.job.kind, f.job.payload, Running) && f.job.id == ID
    ensures RowOf(a.q.db, ID) == v.row && View(v.row, ViewOf(a, ID).x, ViewOf(a, ID).c) == v
    ensures v.row.Some? ==> ID in a.q.db.rows && a.q.db.rows[ID] == v.row.value
  {
    hide Reachable, Underway;
  }

  lemma EndsWell(a: World, n: nat, f: Frame, v: View) returns (b: World)
    requires Works(a, n, f, v) && f.pc == Returned(Nil) && f.job.kind != DeletePurge
    ensures Idle(b, n + 1, v)
  {
    hide *;
    b := Step(a, Event.Finish(WORKER, ""));
    WorksTells(a, n, f, v);
    WorkerClaims(a, n, f, v);
    FinishOneShape(a, WORKER, "", b);
    ClosingSettles(a.q.db, n, f.job.kind, f.job.payload, true, b.q.db);
    Outcomes.ReachableOn(a, Event.Finish(WORKER, ""));
    SameRow(a.q.db, b.q.db);
    IdleIs(a, n + 1, b, v.row);
  }

  lemma SameRow(db: Db, db': Db)
    requires db'.rows == db.rows
    ensures RowOf(db', ID) == RowOf(db, ID)
  {
  }

  lemma SavedSettles(db: Db, n: nat, row: Row, db': Db)
    requires Settled(db, n) && ID in db.rows && db' == SaveRow(db, ID, row).0
    ensures Settled(db', n) && RowOf(db', ID) == Some(row) && db'.tokens == db.tokens
  {
  }

  lemma EndsFailed(a: World, n: nat, f: Frame, v: View) returns (b: World)
    requires Works(a, n, f, v) && f.pc == Returned(Err) && v.row.Some?
    ensures Idle(b, n + 1, View(Some(FailedRow(v.row.value, "")), v.x, v.c)) && b.q.db.tokens == a.q.db.tokens
  {
    hide *;
    b := Step(a, Event.Finish(WORKER, ""));
    WorksTells(a, n, f, v);
    WorkerClaims(a, n, f, v);
    FinishErrShape(a, WORKER, "", b);
    var db, row := Queue.Close(a.q.db, n, false), FailedRow(v.row.value, "");
    ClosingSettles(a.q.db, n, f.job.kind, f.job.payload, false, db);
    SavedSettles(db, n + 1, row, b.q.db);
    Outcomes.ReachableOn(a, Event.Finish(WORKER, ""));
    IdleIs(a, n + 1, b, Some(row));
  }

  lemma RequeuedWaits(db: Db, n: nat, kind: Kind, payload: Payload)
    requires Underway(db, n, kind, payload, Running)
    ensures Underway(Requeue(db), n, kind, payload, Queued) && Requeue(db).rows == db.rows
  {
  }

  lemma Crashes(a: World, n: nat, f: Frame, v: View) returns (b: World)
    requires Works(a, n, f, v)
    ensures Waits(b, n, f.job.kind, f.job.payload, v)
  {
    hide *;
    b := Step(a, Crash);
    WorksTells(a, n, f, v);
    CrashEffect(a, b);
    RequeuedWaits(a.q.db, n, f.job.kind, f.job.payload);
    Outcomes.ReachableOn(a, Crash);
    WaitsIs(b, n, f.job.kind, f.job.payload);
    SameView(a, b);
    WorksView(a, n, f, v);
  }

  lemma CrashEffect(a: World, b: World)
    requires b == Step(a, Crash)
    ensures b.q.db == Requeue(a.q.db) && b.frames == map[] && b.objects == a.objects && b.cluster == a.cluster
  {
    RunOne(a.q, Queue.Reboot);
  }

  lemma WorksView(a: World, n: nat, f: Frame, v: View)
    requires Works(a, n, f, v)
    ensures ViewOf(a, ID) == v && f.job.op == n && f.job.id == ID
  {
  }
}

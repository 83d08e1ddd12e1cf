/** Runs at the granularity of database calls that show what two promises rest on. One operation a key needs calls that
    do not overlap: two calls under one key, both past the look-up before either has stored its response, each make an
    operation. And an owner for every transient state needs the two writes that close a failed operation to be one. */
module Overlaps {
  import opened Common
  import opened Lifecycle
  import opened Store
  import opened Queue
  import Agent
  import Idempotency

  const ID: Id := 0
  const CALL := CreateCall(ID, "key", Sha256("key"), Request("", "", "", ""), "", 1, true, "", "")

  function Drawn(op: OpId): Draw {
    Draw(op, "", "", "")
  }

  /** The two calls are at these program points, and these are the tables, claims and origins. */
  ghost predicate Stage(events: seq<Event>, db: Db, claims: map<WorkerId, OpId>, first: ClientPc, second: ClientPc, origin: map<OpId, string>) {
    var q := Run(Init, events);
    && q.db == db && q.claims == claims && q.origin == origin
    && q.clients == map[0 := Client(CALL, first), 1 := Client(CALL, second)]
  }

  lemma RunMore(events: seq<Event>, e: Event)
    ensures Run(Init, events + [e]) == Step(Run(Init, events), e)
  {
    hide Step;
    assert (events + [e])[..|events + [e]| - 1] == events;
  }

  /** One of the two is served; only the insertion of an operation leaves an origin. */
  lemma Turn(events: seq<Event>, db: Db, claims: map<WorkerId, OpId>, first: ClientPc, second: ClientPc, origin: map<OpId, string>,
             c: ClientId, draw: Draw, db': Db, next: ClientPc)
    requires Stage(events, db, claims, first, second, origin) && c < 2
    requires var pc := if c == 0 then first else second;
      !pc.Spend? && !pc.Issue? && Perform(db, CALL, pc, draw, Run(Init, events).serials) == (db', next)
    ensures Stage(events + [Serve(c, draw)], db', claims, if c == 0 then next else first, if c == 0 then second else next,
                  if (if c == 0 then first else second).Insert? && next.Remember? then origin[draw.op := "key"] else origin)
  {
    hide Perform, Run, ServeClient;
    RunMore(events, Serve(c, draw));
    var q := Run(Init, events);
    var r := ServeClient(q, c, draw);
    assert q.clients[c] == Client(CALL, if c == 0 then first else second) && CALL.key == "key";
    Idempotency.ServeOrigin(q, c, draw, r);
    Idempotency.ServeKeepsOthers(q, c, draw);
    ServeFrame(q, c, draw);
    assert r.clients[c] == Client(CALL, next);
  }

  lemma Idle(events: seq<Event>, db: Db, claims: map<WorkerId, OpId>, first: ClientPc, second: ClientPc, origin: map<OpId, string>,
             e: Event, db': Db, claims': map<WorkerId, OpId>)
    requires Stage(events, db, claims, first, second, origin) && (e.Claim? || e.Finish? || e.WriteRow?)
    requires Step(Run(Init, events), e).db == db' && Step(Run(Init, events), e).claims == claims'
    ensures Stage(events + [e], db', claims', first, second, origin)
  {
    hide Run;
    RunMore(events, e);
  }

  const PENDING := NewRow(CALL)
  const FAILED := PENDING.(state := Failed)
  const OPERATION := NewOperation(CALL, "")
  const RESPONSE := Accepted(1, ID, "")

  const FAILURE := OPERATION.(status := Failure)

  function Tables(row: Row, ops: map<OpId, Operation>, active: map<Id, OpId>): Db {
    Db(map[ID := row], ops, active, map[], map[])
  }

  const ADDED := Tables(PENDING, map[], map[])
  const QUEUED := Tables(PENDING, map[1 := OPERATION], map[ID := 1])
  const RUNNING := Tables(PENDING, map[1 := OPERATION.(status := Running)], map[ID := 1])
  const CLOSED := Tables(PENDING, map[1 := FAILURE], map[])
  const SPOILT := Tables(FAILED, map[1 := FAILURE], map[])
  const TWICE := Tables(PENDING, map[1 := FAILURE, 2 := OPERATION], map[ID := 2])

  /** Both have looked up the key in vain; the first has queued its operation but not stored its response. */
  lemma FirstQueues() returns (events: seq<Event>)
    ensures Stage(events, QUEUED, map[], Remember(RESPONSE), Inspect, map[1 := "key"])
  {
    events := [Arrive(0, CALL), Arrive(1, CALL)];
    Agent.RunTwo(Init, events[0], events[1]);
    assert Stage(events, EmptyDb, map[], LookUp, LookUp, map[]);
    hide Stage, Run;
    Turn(events, EmptyDb, map[], LookUp, LookUp, map[], 1, Drawn(0), EmptyDb, Inspect);
    events := events + [Serve(1, Drawn(0))];
    Turn(events, EmptyDb, map[], LookUp, Inspect, map[], 0, Drawn(0), EmptyDb, Inspect);
    events := events + [Serve(0, Drawn(0))];
    Turn(events, EmptyDb, map[], Inspect, Inspect, map[], 0, Drawn(0), EmptyDb, Count);
    events := events + [Serve(0, Drawn(0))];
    Turn(events, EmptyDb, map[], Count, Inspect, map[], 0, Drawn(0), EmptyDb, AddRow);
    events := events + [Serve(0, Drawn(0))];
    Turn(events, EmptyDb, map[], AddRow, Inspect, map[], 0, Drawn(0), ADDED, Insert(None));
    events := events + [Serve(0, Drawn(0))];
    Turn(events, ADDED, map[], Insert(None), Inspect, map[], 0, Drawn(1), QUEUED, Remember(RESPONSE));
    events := events + [Serve(0, Drawn(1))];
  }

  /** A worker takes the operation, fails it and its deployment. */
  lemma FirstFails(before: seq<Event>) returns (events: seq<Event>)
    requires Stage(before, QUEUED, map[], Remember(RESPONSE), Inspect, map[1 := "key"])
    ensures Stage(events, SPOILT, map[], Remember(RESPONSE), Inspect, map[1 := "key"])
  {
    LexLessIrreflexive("");
    assert Claimable(QUEUED, 1) && MarkRunning(QUEUED, 1) == RUNNING;
    Idle(before, QUEUED, map[], Remember(RESPONSE), Inspect, map[1 := "key"], Claim(0, 1), RUNNING, map[0 := 1]);
    events := before + [Claim(0, 1)];
    assert Queue.Close(RUNNING, 1, false) == CLOSED;
    Idle(events, RUNNING, map[0 := 1], Remember(RESPONSE), Inspect, map[1 := "key"], Finish(0, false), CLOSED, map[]);
    events := events + [Finish(0, false)];
    Idle(events, CLOSED, map[], Remember(RESPONSE), Inspect, map[1 := "key"], WriteRow(ID, FAILED), SPOILT, map[]);
    events := events + [WriteRow(ID, FAILED)];
  }

  /** The second then renews the deployment and queues an operation of its own. */
  lemma SecondQueues(before: seq<Event>) returns (events: seq<Event>)
    requires Stage(before, SPOILT, map[], Remember(RESPONSE), Inspect, map[1 := "key"])
    ensures Stage(events, TWICE, map[], Remember(RESPONSE), Remember(Accepted(2, ID, "")), map[1 := "key", 2 := "key"])
  {
    hide Stage, Run;
    var renewed := Tables(PENDING, map[1 := FAILURE], map[]);
    assert RenewedRow(FAILED, CALL) == PENDING && SPOILT.rows[ID := PENDING] == renewed.rows;
    Turn(before, SPOILT, map[], Remember(RESPONSE), Inspect, map[1 := "key"], 1, Drawn(0), SPOILT, RenewRow(FAILED));
    events := before + [Serve(1, Drawn(0))];
    Turn(events, SPOILT, map[], Remember(RESPONSE), RenewRow(FAILED), map[1 := "key"], 1, Drawn(0), renewed, Insert(None));
    events := events + [Serve(1, Drawn(0))];
    Turn(events, renewed, map[], Remember(RESPONSE), Insert(None), map[1 := "key"], 1, Drawn(2), TWICE, Remember(Accepted(2, ID, "")));
    events := events + [Serve(1, Drawn(2))];
  }

  ghost predicate SharedKey(q: Machine) {
    exists o, p :: o in q.origin && p in q.origin && o != p && o in q.db.ops && p in q.db.ops && q.origin[o] == q.origin[p]
  }

  /** There is a run in which overlapping calls under one key make two operations. */
  lemma OverlappingCallsShareAKey()
    ensures exists events :: SharedKey(Run(Init, events))
  {
    var events := FirstQueues();
    events := FirstFails(events);
    events := SecondQueues(events);
    var q := Run(Init, events);
    assert q.origin == map[1 := "key", 2 := "key"] && q.db.ops.Keys == {1, 2};
    hide Run, Stage;
    assert 1 in q.origin && 2 in q.origin && SharedKey(q);
  }

  // ---- A crash between the two closing writes ----

  const STARTED := PENDING.(state := CreatingDatabase)
  const ABANDONED := Tables(STARTED, map[1 := FAILURE], map[])

  /** The worker has moved the deployment on and failed its operation, and has not yet failed the deployment. */
  lemma HalfClosed(before: seq<Event>) returns (events: seq<Event>)
    requires Stage(before, QUEUED, map[], Remember(RESPONSE), Inspect, map[1 := "key"])
    ensures Stage(events, ABANDONED, map[], Remember(RESPONSE), Inspect, map[1 := "key"])
  {
    LexLessIrreflexive("");
    assert Claimable(QUEUED, 1) && MarkRunning(QUEUED, 1) == RUNNING;
    Idle(before, QUEUED, map[], Remember(RESPONSE), Inspect, map[1 := "key"], Claim(0, 1), RUNNING, map[0 := 1]);
    events := before + [Claim(0, 1)];
    var moved := Tables(STARTED, map[1 := OPERATION.(status := Running)], map[ID := 1]);
    Idle(events, RUNNING, map[0 := 1], Remember(RESPONSE), Inspect, map[1 := "key"], WriteRow(ID, STARTED), moved, map[0 := 1]);
    events := events + [WriteRow(ID, STARTED)];
    assert Queue.Close(moved, 1, false) == ABANDONED;
    Idle(events, moved, map[0 := 1], Remember(RESPONSE), Inspect, map[1 := "key"], Finish(0, false), ABANDONED, map[]);
    events := events + [Finish(0, false)];
  }

  /** A deployment is on the creation path, and no queued or running operation is there to move it on. */
  predicate Orphan(q: Machine, id: Id) {
    id in q.db.rows && q.db.rows[id].state == CreatingDatabase && id !in q.db.active
  }

  /** There is a run, with a crash between the two writes that close a failed operation, after which a deployment keeps
      a transient state without an owner. */
  lemma CrashWhileClosingOrphans()
    ensures exists events :: Orphan(Run(Init, events), ID)
  {
    var events := FirstQueues();
    events := HalfClosed(events);
    RunMore(events, Reboot);
    assert Run(Init, events).db == ABANDONED;
    hide Run, Stage;
    assert Orphan(Run(Init, events + [Reboot]), ID);
  }
}
